/**
 The encoded neutral image and the text key that says what it was encoded for.
 The image of the black and grey kinds depends on the parameters alone.
 */
module NeutralCache {
  import opened Wrappers
  import opened AnnexB
  import opened AccessUnit

  /** The parameters of an encoding, sizes even. */
  datatype Params = Params(codec: Codec, w: nat, h: nat, profile: string, level: string)

  function Digit(d: nat): char
    requires d < 10
  {
    ['0', '1', '2', '3', '4', '5', '6', '7', '8', '9'][d]
  }

  function Decimal(n: nat): string {
    if n < 10 then [Digit(n)] else Decimal(n / 10) + [Digit(n % 10)]
  }

  function CodecName(c: Codec): string {
    if c.H264? then "h264" else "h265"
  }

  /** The x264 profile name of a profile_idc, if it has one. */
  function H264Profile(idc: nat): string {
    if idc == 66 then "baseline"
    else if idc == 77 || idc == 88 then "main"
    else if idc == 100 || idc == 110 || idc == 122 || idc == 244 then "high"
    else ""
  }

  /** 31 is "3.1". */
  function H264Level(idc: nat): string {
    if idc < 10 then "" else Decimal(idc / 10) + "." + Decimal(idc % 10)
  }

  function Key(kind: string, p: Params): string {
    kind + ("|" + (CodecName(p.codec) + ("|" + (Decimal(p.w) + ("x" + (Decimal(p.h) + ("|" + (p.profile + ("|" + p.level)))))))))
  }

  predicate Without(c: char, s: string) {
    forall i :: 0 <= i < |s| ==> s[i] != c
  }

  predicate PlainNames(p: Params) {
    Without('|', p.profile) && Without('|', p.level)
  }

  // ---------------------------------------------------------------------
  // The key tells the parameters apart
  // ---------------------------------------------------------------------

  /** Cutting at the first separator is unambiguous. */
  lemma CutAtSeparator(c: char, a: string, x: string, b: string, y: string)
    requires Without(c, a) && Without(c, b) && a + ([c] + x) == b + ([c] + y)
    ensures a == b && x == y
  {
    var s := a + ([c] + x);
    assert s[|a|] == c && s[|b|] == c;
    assert forall i :: 0 <= i < |a| ==> s[i] == a[i];
    assert forall i :: 0 <= i < |b| ==> s[i] == b[i];
    assert a == s[..|a|] == b;
    assert x == s[|a| + 1..] == y;
  }

  lemma {:induction false} DecimalDigits(n: nat)
    ensures Decimal(n) != [] && Without('|', Decimal(n)) && Without('x', Decimal(n)) && Without('.', Decimal(n))
    ensures n > 0 ==> Decimal(n)[0] != '0'
  {
    if n >= 10 {
      DecimalDigits(n / 10);
    }
  }

  lemma LastDigit(m: nat)
    ensures Decimal(m) != [] && Decimal(m)[|Decimal(m)| - 1] == Digit(m % 10)
    ensures Decimal(m)[..|Decimal(m)| - 1] == if m < 10 then [] else Decimal(m / 10)
  {
  }

  lemma DigitInjective(d: nat, e: nat)
    requires d < 10 && e < 10 && Digit(d) == Digit(e)
    ensures d == e
  {
  }

  lemma {:induction false} DecimalInjective(m: nat, n: nat)
    requires Decimal(m) == Decimal(n)
    ensures m == n
  {
    LastDigit(m);
    LastDigit(n);
    DigitInjective(m % 10, n % 10);
    DecimalDigits(m / 10);
    DecimalDigits(n / 10);
    if m >= 10 && n >= 10 {
      DecimalInjective(m / 10, n / 10);
    }
  }

  /** For a fixed kind two keys are equal only for equal parameters. */
  lemma KeyInjective(kind: string, p: Params, q: Params)
    requires PlainNames(p) && PlainNames(q) && Key(kind, p) == Key(kind, q)
    ensures p == q
  {
    var tailP := "|" + (CodecName(p.codec) + ("|" + (Decimal(p.w) + ("x" + (Decimal(p.h) + ("|" + (p.profile + ("|" + p.level))))))));
    var tailQ := "|" + (CodecName(q.codec) + ("|" + (Decimal(q.w) + ("x" + (Decimal(q.h) + ("|" + (q.profile + ("|" + q.level))))))));
    assert tailP == Key(kind, p)[|kind|..] && tailQ == Key(kind, q)[|kind|..];
    SameTails(p, q);
  }

  lemma SameTails(p: Params, q: Params)
    requires PlainNames(p) && PlainNames(q)
    requires "|" + (CodecName(p.codec) + ("|" + (Decimal(p.w) + ("x" + (Decimal(p.h) + ("|" + (p.profile + ("|" + p.level))))))))
          == "|" + (CodecName(q.codec) + ("|" + (Decimal(q.w) + ("x" + (Decimal(q.h) + ("|" + (q.profile + ("|" + q.level))))))))
    ensures p == q
  {
    var codecP := CodecName(p.codec) + ("|" + (Decimal(p.w) + ("x" + (Decimal(p.h) + ("|" + (p.profile + ("|" + p.level)))))));
    var codecQ := CodecName(q.codec) + ("|" + (Decimal(q.w) + ("x" + (Decimal(q.h) + ("|" + (q.profile + ("|" + q.level)))))));
    CutAtSeparator('|', "", codecP, "", codecQ);
    var sizeP := Decimal(p.w) + ("x" + (Decimal(p.h) + ("|" + (p.profile + ("|" + p.level)))));
    var sizeQ := Decimal(q.w) + ("x" + (Decimal(q.h) + ("|" + (q.profile + ("|" + q.level)))));
    CutAtSeparator('|', CodecName(p.codec), sizeP, CodecName(q.codec), sizeQ);
    SameSizes(p, q);
  }

  lemma SameSizes(p: Params, q: Params)
    requires PlainNames(p) && PlainNames(q) && CodecName(p.codec) == CodecName(q.codec)
    requires Decimal(p.w) + ("x" + (Decimal(p.h) + ("|" + (p.profile + ("|" + p.level)))))
          == Decimal(q.w) + ("x" + (Decimal(q.h) + ("|" + (q.profile + ("|" + q.level)))))
    ensures p == q
  {
    DecimalDigits(p.w);
    DecimalDigits(q.w);
    DecimalDigits(p.h);
    DecimalDigits(q.h);
    CutAtSeparator('x', Decimal(p.w), Decimal(p.h) + ("|" + (p.profile + ("|" + p.level))),
                   Decimal(q.w), Decimal(q.h) + ("|" + (q.profile + ("|" + q.level))));
    CutAtSeparator('|', Decimal(p.h), p.profile + ("|" + p.level), Decimal(q.h), q.profile + ("|" + q.level));
    CutAtSeparator('|', p.profile, p.level, q.profile, q.level);
    DecimalInjective(p.w, q.w);
    DecimalInjective(p.h, q.h);
    assert CodecName(p.codec)[3] == CodecName(q.codec)[3];
  }

  lemma CameraNamesArePlain(profileIdc: nat, levelIdc: nat)
    ensures Without('|', H264Profile(profileIdc)) && Without('|', H264Level(levelIdc))
  {
    DecimalDigits(levelIdc / 10);
    DecimalDigits(levelIdc % 10);
  }

  // ---------------------------------------------------------------------
  // The cache
  // ---------------------------------------------------------------------

  /** What the handler knows of the picture: its size, codec, and the profile and level of the camera's SPS. */
  datatype Picture = Picture(codec: Codec, w: nat, h: nat, profileIdc: Option<nat>, levelIdc: Option<nat>)

  function RoundUpEven(n: nat): nat {
    if n % 2 != 0 then n + 1 else n
  }

  function Wanted(p: Picture): Params {
    var h264 := p.codec.H264?;
    Params(p.codec, RoundUpEven(p.w), RoundUpEven(p.h),
           if h264 && p.profileIdc.Some? then H264Profile(p.profileIdc.value) else "",
           if h264 && p.levelIdc.Some? then H264Level(p.levelIdc.value) else "")
  }

  /** The profiles that have a name, and which. */
  lemma ProfileNames(idc: nat)
    ensures H264Profile(idc) == "baseline" <==> idc == 66
    ensures H264Profile(idc) == "main" <==> idc in {77, 88}
    ensures H264Profile(idc) == "high" <==> idc in {100, 110, 122, 244}
    ensures H264Profile(idc) == "" <==> idc !in {66, 77, 88, 100, 110, 122, 244}
  {
  }

  predicate Fits(size: nat, picture: nat) {
    size % 2 == 0 && picture <= size <= picture + 1
  }

  /** The encoded size is even, at least the picture's and at most one larger, in each dimension; an H.265 frame has no H.264 profile or level. */
  lemma WantedFits(p: Picture)
    ensures var w := Wanted(p);
      && w.codec == p.codec && Fits(w.w, p.w) && Fits(w.h, p.h)
      && (p.codec.H265? || p.profileIdc.None? ==> w.profile == "")
      && (p.codec.H265? || p.levelIdc.None? ==> w.level == "")
      && (p.codec.H264? && p.levelIdc.Some? && p.levelIdc.value >= 10 ==>
            w.level == Decimal(p.levelIdc.value / 10) + "." + Decimal(p.levelIdc.value % 10))
  {
  }

  lemma WantedIsPlain(p: Picture)
    ensures PlainNames(Wanted(p))
  {
    CameraNamesArePlain(p.profileIdc.GetOr(0), p.levelIdc.GetOr(0));
  }

  /** `encode` is the encoder for this kind; `made` is what the cached frame was encoded for. */
  class Cache {
    const kind: string
    const encode: Params -> AU
    var key: string
    var au: AU
    ghost var made: Params

    ghost predicate Valid()
      reads this
    {
      au != [] ==> PlainNames(made) && key == Key(kind, made) && au == encode(made)
    }

    constructor (kind: string, encode: Params -> AU)
      ensures Valid() && this.kind == kind && this.encode == encode && au == []
    {
      this.kind, this.encode, key, au := kind, encode, "", [];
      made := Params(H264, 0, 0, "", "");
    }

    /**
     Returns the frame for the current picture, encoding it when needed; `works`
     says whether the encoder would succeed now. A success is exactly what a
     fresh encode would give; a failure needs a failing encoder and changes nothing.
     */
    method EnsureNeutral(p: Picture, works: bool) returns (r: Option<AU>)
      requires Valid()
      modifies this
      ensures Valid()
      ensures r.Some? ==> r.value == encode(Wanted(p)) && r.value != [] && au == r.value && made == Wanted(p)
      ensures r.None? <==> (!works || encode(Wanted(p)) == []) && !(old(au) != [] && old(made) == Wanted(p))
      ensures r.None? ==> au == old(au) && key == old(key) && made == old(made)
    {
      var wanted := Wanted(p);
      var newKey := Key(kind, wanted);
      WantedIsPlain(p);
      if key == newKey && |au| > 0 {
        KeyInjective(kind, made, wanted);
        return Some(au);
      }
      if !works {
        return None;
      }
      var encoded := encode(wanted);
      if |encoded| == 0 {
        return None;
      }
      key, au, made := newKey, encoded, wanted;
      return Some(encoded);
    }
  }
}
