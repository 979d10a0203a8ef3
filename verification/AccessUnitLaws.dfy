/**
 Laws of access-unit rewriting, on single units and over whole camera sessions.
 */
module AccessUnitLaws {
  import opened Wrappers
  import opened AnnexB
  import opened AccessUnit

  /** Each set that is present is a nonempty unit of its own kind. */
  predicate WellTyped(c: Codec, s: Sets) {
    forall r: Role :: s.Get(r).Some? && !(c.H264? && r.Vps?) ==> IsSet(c, r, s.Get(r).value)
  }

  /** The sets that matter to the codec: H.264 has no VPS. */
  function Relevant(c: Codec, s: Sets): Sets {
    if c.H264? then s.(vps := None) else s
  }

  // ---------------------------------------------------------------------
  // Selections
  // ---------------------------------------------------------------------

  lemma {:induction false} SelectPasses(t: Test, au: AU, k: nat)
    requires k <= |au|
    ensures forall i :: 0 <= i < |Select(t, au, k)| ==> Passes(t, Select(t, au, k)[i]) && Select(t, au, k)[i] in au[..k]
  {
    if k > 0 {
      SelectPasses(t, au, k - 1);
      assert au[..k] == au[..k - 1] + [au[k - 1]];
    }
  }

  lemma {:induction false} SelectKeeps(t: Test, au: AU, k: nat, i: nat)
    requires i < k <= |au| && Passes(t, au[i])
    ensures au[i] in Select(t, au, k)
  {
    if i < k - 1 {
      SelectKeeps(t, au, k - 1, i);
    }
  }

  lemma {:induction false} SelectOfPrefix(t: Test, a: AU, b: AU, k: nat)
    requires k <= |a| && k <= |b| && a[..k] == b[..k]
    ensures Select(t, a, k) == Select(t, b, k)
  {
    if k > 0 {
      assert a[k - 1] == a[..k][k - 1] == b[..k][k - 1] == b[k - 1];
      assert a[..k - 1] == a[..k][..k - 1] == b[..k][..k - 1] == b[..k - 1];
      SelectOfPrefix(t, a, b, k - 1);
    }
  }

  lemma {:induction false} SelectConcat(t: Test, a: AU, b: AU, k: nat)
    requires k <= |b|
    ensures Select(t, a + b, |a| + k) == Select(t, a, |a|) + Select(t, b, k)
  {
    if k == 0 {
      assert (a + b)[..|a|] == a[..|a|];
      SelectOfPrefix(t, a + b, a, |a|);
      assert Select(t, a, |a|) + [] == Select(t, a, |a|);
    } else {
      SelectConcat(t, a, b, k - 1);
      assert (a + b)[|a| + k - 1] == b[k - 1];
      var x := if Passes(t, b[k - 1]) then [b[k - 1]] else [];
      assert Select(t, a, |a|) + (Select(t, b, k - 1) + x) == (Select(t, a, |a|) + Select(t, b, k - 1)) + x;
    }
  }

  lemma {:induction false} SelectAll(t: Test, au: AU, k: nat)
    requires k <= |au| && forall i :: 0 <= i < k ==> Passes(t, au[i])
    ensures Select(t, au, k) == au[..k]
  {
    if k > 0 {
      SelectAll(t, au, k - 1);
    }
  }

  lemma {:induction false} SelectNone(t: Test, au: AU, k: nat)
    requires k <= |au|
    ensures Select(t, au, k) == [] <==> forall i :: 0 <= i < k ==> !Passes(t, au[i])
  {
    if k > 0 {
      SelectNone(t, au, k - 1);
    }
  }

  /** Selecting twice is selecting once. */
  lemma SelectTwice(t: Test, au: AU)
    ensures var s := Select(t, au, |au|); Select(t, s, |s|) == s
  {
    var s := Select(t, au, |au|);
    SelectPasses(t, au, |au|);
    SelectAll(t, s, |s|);
    assert s[..|s|] == s;
  }

  /** The types by the header byte as a whole: the low five bits, or the six bits above the last one. */
  lemma HeaderBytes(n: Nalu)
    ensures IsKeySlice(H264, n) <==> |n| >= 1 && n[0] % 32 == 5
    ensures IsSlice(H264, n) <==> |n| >= 1 && n[0] % 32 in {1, 5}
    ensures IsSet(H264, Sps, n) <==> |n| >= 1 && n[0] % 32 == 7
    ensures IsSet(H264, Pps, n) <==> |n| >= 1 && n[0] % 32 == 8
    ensures !IsSet(H264, Vps, n)
    ensures IsKeySlice(H265, n) <==> |n| >= 2 && 32 <= n[0] % 128 < 44
    ensures IsSlice(H265, n) <==> |n| >= 2 && n[0] % 128 < 64
    ensures IsSet(H265, Vps, n) <==> |n| >= 2 && n[0] % 128 in {64, 65}
    ensures IsSet(H265, Sps, n) <==> |n| >= 2 && n[0] % 128 in {66, 67}
    ensures IsSet(H265, Pps, n) <==> |n| >= 2 && n[0] % 128 in {68, 69}
  {
    if |n| > 0 {
      assert n[0] / 2 % 64 == n[0] % 128 / 2;
    }
  }

  /** The types a filter keeps. */
  predicate WhitelistedKind(c: Codec, n: Nalu) {
    match c
    case H264 => |n| >= 1 && (n[0] % 32 == 1 || 5 <= n[0] % 32 <= 8)
    case H265 => |n| >= 2 && (n[0] / 2 % 64 <= 34 || 39 <= n[0] / 2 % 64 <= 40)
  }

  predicate Partitioned(au: AU) {
    exists i :: 0 <= i < |au| && |au[i]| >= 1 && 2 <= au[i][0] % 32 <= 4
  }

  lemma SelectMembers(t: Test, au: AU, n: Nalu)
    ensures n in Select(t, au, |au|) <==> n in au && Passes(t, n)
  {
    SelectPasses(t, au, |au|);
    assert au[..|au|] == au;
    if n in au && Passes(t, n) {
      var i :| 0 <= i < |au| && au[i] == n;
      SelectKeeps(t, au, |au|, i);
    }
  }

  /** A filter keeps exactly the whitelisted units, and none of an H.264 unit with a data partition. */
  lemma WhatIsKept(c: Codec, au: AU, n: Nalu)
    ensures n in Filtered(c, au) <==> n in au && WhitelistedKind(c, n) && !(c.H264? && Partitioned(au))
    ensures c.H264? && Filtered(c, au) != [] ==> !Partitioned(au)
  {
    SelectMembers(Whitelisted(c), au, n);
    assert HasPartition(au) <==> Partitioned(au);
  }

  /** The picture units are all the well-sized ones that are no parameter set, by their header. */
  lemma WhatIsAPicture(c: Codec, au: AU, n: Nalu)
    ensures n in Select(NotParam(c), au, |au|) <==>
      n in au && match c
                 case H264 => |n| >= 1 && n[0] % 32 != 7 && n[0] % 32 != 8
                 case H265 => |n| >= 2 && !(64 <= n[0] % 128 < 70)
  {
    SelectMembers(NotParam(c), au, n);
    HeaderBytes(n);
  }

  /** What is found is the last set of its role: it is one, and none comes after it. */
  lemma {:induction false} LastSetIsLast(c: Codec, r: Role, au: AU, k: nat)
    requires k <= |au|
    ensures match LastSet(c, r, au, k)
      case None => forall i :: 0 <= i < k ==> !IsSet(c, r, au[i])
      case Some(n) => exists i :: 0 <= i < k && au[i] == n && IsSet(c, r, n) && forall j :: i < j < k ==> !IsSet(c, r, au[j])
  {
    if k > 0 {
      LastSetIsLast(c, r, au, k - 1);
    }
  }

  // ---------------------------------------------------------------------
  // Injection
  // ---------------------------------------------------------------------

  function Pictures(c: Codec, au: AU): AU {
    Select(NotParam(c), au, |au|)
  }

  lemma KeySliceIsPicture(c: Codec, n: Nalu)
    requires IsKeySlice(c, n)
    ensures Passes(NotParam(c), n) && IsSlice(c, n) && Passes(Whitelisted(c), n)
  {
  }

  /** Injection never changes whether the unit is a keyframe. */
  lemma EnsuredKeepsKey(c: Codec, au: AU, s: Sets)
    ensures HasKey(c, Ensured(c, au, s)) == HasKey(c, au)
  {
    if Complete(c, s) && HasKey(c, au) {
      var i :| 0 <= i < |au| && IsKeySlice(c, au[i]);
      KeySliceIsPicture(c, au[i]);
      SelectKeeps(NotParam(c), au, |au|, i);
      var r := Ensured(c, au, s);
      assert au[i] in r;
    }
  }

  /** What stands in the place of parameter sets passes for a picture unit when its type is wrong. */
  lemma PicturesOfEnsured(c: Codec, au: AU, s: Sets)
    requires Complete(c, s) && HasKey(c, au)
    ensures Pictures(c, Ensured(c, au, s)) == Pictures(c, Heads(c, s)) + Pictures(c, au)
  {
    var rest := Pictures(c, au);
    SelectConcat(NotParam(c), Heads(c, s), rest, |rest|);
    SelectTwice(NotParam(c), au);
  }

  /** No set is taken for a picture unit: none is of another type (or, in H.265, shorter than a header and so not copied). */
  predicate SetsKeepApart(c: Codec, au: AU, s: Sets) {
    Complete(c, s) && HasKey(c, au) ==>
      forall i :: 0 <= i < |Heads(c, s)| ==> !Passes(NotParam(c), Heads(c, s)[i])
  }

  lemma PrefixMakesLonger(h: AU, x: AU, p: AU)
    ensures h + (x + p) == h + p <==> x == []
    ensures x + p == p <==> x == []
  {
    if x == [] {
      assert x + p == p;
    } else {
      assert |x + p| > |p| && |h + (x + p)| > |h + p|;
    }
  }

  /** Injecting twice equals injecting once exactly when the sets themselves are not taken for pictures. */
  lemma EnsuredIdempotent(c: Codec, au: AU, s: Sets)
    ensures Ensured(c, Ensured(c, au, s), s) == Ensured(c, au, s) <==> SetsKeepApart(c, au, s)
  {
    if Complete(c, s) && HasKey(c, au) {
      var h := Heads(c, s);
      EnsuredKeepsKey(c, au, s);
      PicturesOfEnsured(c, au, s);
      SelectNone(NotParam(c), h, |h|);
      PrefixMakesLonger(h, Pictures(c, h), Pictures(c, au));
    }
  }

  /** The ordered picture units are untouched under exactly the same condition. */
  lemma EnsuredKeepsPictures(c: Codec, au: AU, s: Sets)
    ensures Pictures(c, Ensured(c, au, s)) == Pictures(c, au) <==> SetsKeepApart(c, au, s)
  {
    if Complete(c, s) && HasKey(c, au) {
      var h := Heads(c, s);
      PicturesOfEnsured(c, au, s);
      SelectNone(NotParam(c), h, |h|);
      PrefixMakesLonger([], Pictures(c, h), Pictures(c, au));
    }
  }

  lemma HeadsAreSets(c: Codec, s: Sets)
    requires Complete(c, s) && WellTyped(c, s)
    ensures forall i :: 0 <= i < |Heads(c, s)| ==> IsParam(c, Heads(c, s)[i])
    ensures SetsOf(c, Heads(c, s)) == Relevant(c, s)
  {
    var h := Heads(c, s);
    assert s.Get(Sps).Some? && s.Get(Pps).Some? && (c.H265? ==> s.Get(Vps).Some?);
    if c.H264? {
      assert LastSet(c, Sps, h, 2) == LastSet(c, Sps, h, 1) == Some(h[0]);
      assert LastSet(c, Vps, h, 2) == LastSet(c, Vps, h, 1) == LastSet(c, Vps, h, 0);
    } else {
      assert LastSet(c, Sps, h, 3) == LastSet(c, Sps, h, 2) == Some(h[1]);
      assert LastSet(c, Vps, h, 3) == LastSet(c, Vps, h, 2) == LastSet(c, Vps, h, 1) == Some(h[0]);
    }
  }

  /** Sets of the right types meet the condition. */
  lemma TypedSetsKeepApart(c: Codec, au: AU, s: Sets)
    requires WellTyped(c, s)
    ensures SetsKeepApart(c, au, s)
  {
    if Complete(c, s) {
      HeadsAreSets(c, s);
    }
  }

  lemma {:induction false} LastSetConcat(c: Codec, r: Role, a: AU, b: AU, k: nat)
    requires k <= |b|
    ensures LastSet(c, r, a + b, |a| + k) == OrElse(LastSet(c, r, b, k), LastSet(c, r, a, |a|))
  {
    if k == 0 {
      LastSetOfPrefix(c, r, a + b, a, |a|);
    } else {
      LastSetConcat(c, r, a, b, k - 1);
      assert (a + b)[|a| + k - 1] == b[k - 1];
    }
  }

  lemma {:induction false} LastSetOfPrefix(c: Codec, r: Role, a: AU, b: AU, k: nat)
    requires k <= |a| && k <= |b| && forall i :: 0 <= i < k ==> a[i] == b[i]
    ensures LastSet(c, r, a, k) == LastSet(c, r, b, k)
  {
    if k > 0 {
      LastSetOfPrefix(c, r, a, b, k - 1);
    }
  }

  lemma {:induction false} NoSetAmong(c: Codec, r: Role, au: AU, k: nat)
    requires k <= |au| && forall i :: 0 <= i < k ==> !IsParam(c, au[i])
    ensures LastSet(c, r, au, k) == None
  {
    if k > 0 {
      NoSetAmong(c, r, au, k - 1);
    }
  }

  lemma SetsOfConcat(c: Codec, a: AU, b: AU)
    ensures SetsOf(c, a + b) == Tracked(c, SetsOf(c, a), b)
  {
    LastSetConcat(c, Vps, a, b, |b|);
    LastSetConcat(c, Sps, a, b, |b|);
    LastSetConcat(c, Pps, a, b, |b|);
  }

  /** On a keyframe: exactly one of each set, first, and reading the sets back gives the injected ones. */
  lemma EnsuredCarriesSets(c: Codec, au: AU, s: Sets)
    requires Complete(c, s) && WellTyped(c, s) && HasKey(c, au)
    ensures var r := Ensured(c, au, s);
      && Heads(c, s) <= r
      && (forall i :: 0 <= i < |r| ==> (IsParam(c, r[i]) <==> i < |Heads(c, s)|))
      && SetsOf(c, r) == Relevant(c, s)
  {
    var h, p := Heads(c, s), Pictures(c, au);
    HeadsAreSets(c, s);
    SelectPasses(NotParam(c), au, |au|);
    SetsOfConcat(c, h, p);
    NoSetAmong(c, Vps, p, |p|);
    NoSetAmong(c, Sps, p, |p|);
    NoSetAmong(c, Pps, p, |p|);
  }

  // ---------------------------------------------------------------------
  // Whole sessions
  // ---------------------------------------------------------------------

  /** A decoded access unit and whether a keyframe was awaited when it arrived. */
  datatype Arrival = Arrival(au: AU, needKey: bool)

  function After(c: Codec, s: Relay, xs: seq<Arrival>, k: nat): Relay
    requires k <= |xs|
  {
    if k == 0 then s else AfterFrame(c, After(c, s, xs, k - 1), xs[k - 1].au, xs[k - 1].needKey)
  }

  function Emitted(c: Codec, s: Relay, xs: seq<Arrival>, k: nat): Option<AU>
    requires k < |xs|
  {
    OutFrame(c, After(c, s, xs, k), xs[k].au, xs[k].needKey)
  }

  /** The units of the frames forwarded so far, before injection, in order. */
  function Forwarded(c: Codec, s: Relay, xs: seq<Arrival>, k: nat): AU
    requires k <= |xs|
  {
    if k == 0 then []
    else Forwarded(c, s, xs, k - 1)
         + Admitted(c, After(c, s, xs, k - 1), xs[k - 1].au, xs[k - 1].needKey).GetOr([])
  }

  lemma TrackedTwice(c: Codec, s: Sets, a: AU, b: AU)
    ensures Tracked(c, Tracked(c, s, a), b) == Tracked(c, s, a + b)
  {
    SetsOfConcat(c, a, b);
  }

  /** At any point of a session the tracked sets are the last ones forwarded, or else the announced ones. */
  lemma {:induction false} SetsAreLastForwarded(c: Codec, s: Relay, xs: seq<Arrival>, k: nat)
    requires k <= |xs|
    ensures After(c, s, xs, k).sets == Tracked(c, s.sets, Forwarded(c, s, xs, k))
  {
    if k > 0 {
      SetsAreLastForwarded(c, s, xs, k - 1);
      var f := Admitted(c, After(c, s, xs, k - 1), xs[k - 1].au, xs[k - 1].needKey).GetOr([]);
      TrackedTwice(c, s.sets, Forwarded(c, s, xs, k - 1), f);
    }
  }

  lemma {:induction false} LastSetIsSet(c: Codec, r: Role, au: AU, k: nat)
    requires k <= |au|
    ensures LastSet(c, r, au, k).Some? ==> IsSet(c, r, LastSet(c, r, au, k).value) && LastSet(c, r, au, k).value in au
  {
    if k > 0 {
      LastSetIsSet(c, r, au, k - 1);
    }
  }

  lemma TrackedStaysTyped(c: Codec, s: Sets, au: AU)
    requires WellTyped(c, s)
    ensures WellTyped(c, Tracked(c, s, au))
  {
    forall r: Role
      ensures Tracked(c, s, au).Get(r) == OrElse(LastSet(c, r, au, |au|), s.Get(r))
      ensures LastSet(c, r, au, |au|).Some? ==> IsSet(c, r, LastSet(c, r, au, |au|).value)
    {
      LastSetIsSet(c, r, au, |au|);
    }
  }

  /**
   Every keyframe a session emits once both (or all three) sets are known opens
   with the sets last forwarded, its own included, or else the announced ones.
   */
  lemma EmittedSets(c: Codec, s: Relay, xs: seq<Arrival>, k: nat)
    requires k < |xs| && WellTyped(c, s.sets)
    requires Emitted(c, s, xs, k).Some? && HasKey(c, Emitted(c, s, xs, k).value)
    requires Complete(c, After(c, s, xs, k + 1).sets)
    ensures SetsOf(c, Emitted(c, s, xs, k).value)
         == Relevant(c, Tracked(c, s.sets, Forwarded(c, s, xs, k + 1)))
  {
    SetsAreLastForwarded(c, s, xs, k + 1);
    TrackedStaysTyped(c, s.sets, Forwarded(c, s, xs, k + 1));
    OutFrameSets(c, After(c, s, xs, k), xs[k]);
  }

  lemma OutFrameSets(c: Codec, s: Relay, x: Arrival)
    requires var out, after := OutFrame(c, s, x.au, x.needKey), AfterFrame(c, s, x.au, x.needKey);
      out.Some? && HasKey(c, out.value) && Complete(c, after.sets) && WellTyped(c, after.sets)
    ensures SetsOf(c, OutFrame(c, s, x.au, x.needKey).value) == Relevant(c, AfterFrame(c, s, x.au, x.needKey).sets)
  {
    var f, sets := Admitted(c, s, x.au, x.needKey).value, AfterFrame(c, s, x.au, x.needKey).sets;
    EnsuredKeepsKey(c, f, sets);
    EnsuredCarriesSets(c, f, sets);
  }

  /** A decoded unit is forwarded exactly when a slice is left of it, and a key slice where a keyframe is awaited. */
  lemma WhenAFrameIsEmitted(c: Codec, s: Relay, au: AU, needKey: bool)
    ensures var f := Filtered(c, au);
      OutFrame(c, s, au, needKey).Some? <==>
        && (exists i :: 0 <= i < |f| && IsSlice(c, f[i]))
        && ((s.seenKey && !needKey) || exists i :: 0 <= i < |f| && IsKeySlice(c, f[i]))
  {
  }

  /** No frame without a picture is emitted. */
  lemma EmittedHasPicture(c: Codec, s: Relay, au: AU, needKey: bool)
    requires OutFrame(c, s, au, needKey).Some?
    ensures HasSlice(c, OutFrame(c, s, au, needKey).value)
  {
    var f, sets := Filtered(c, au), AfterFrame(c, s, au, needKey).sets;
    if Complete(c, sets) && HasKey(c, f) {
      var i :| 0 <= i < |f| && IsKeySlice(c, f[i]);
      KeySliceIsPicture(c, f[i]);
      SelectMembers(NotParam(c), f, f[i]);
      assert f[i] in Ensured(c, f, sets);
    }
  }

  /** A session's first frame is a keyframe, and so is every frame emitted while one was awaited. */
  lemma {:induction false} FirstFrameIsKey(c: Codec, announced: Sets, xs: seq<Arrival>, k: nat)
    requires k < |xs| && Emitted(c, Relay(false, announced), xs, k).Some?
    requires xs[k].needKey || forall j :: 0 <= j < k ==> Emitted(c, Relay(false, announced), xs, j).None?
    ensures HasKey(c, Emitted(c, Relay(false, announced), xs, k).value)
  {
    var s := Relay(false, announced);
    if !xs[k].needKey {
      NothingSeen(c, announced, xs, k);
    }
    EnsuredKeepsKey(c, Admitted(c, After(c, s, xs, k), xs[k].au, xs[k].needKey).value, After(c, s, xs, k + 1).sets);
  }

  lemma {:induction false} NothingSeen(c: Codec, announced: Sets, xs: seq<Arrival>, k: nat)
    requires k <= |xs| && forall j :: 0 <= j < k ==> Emitted(c, Relay(false, announced), xs, j).None?
    ensures !After(c, Relay(false, announced), xs, k).seenKey
  {
    if k > 0 {
      NothingSeen(c, announced, xs, k - 1);
      assert Emitted(c, Relay(false, announced), xs, k - 1).None?;
    }
  }
}
