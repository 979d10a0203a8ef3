/**
 The configuration: overrides resolved against defaults, validation of settings
 and output paths, and the handlers built from what was accepted.
 */
module Config {
  import opened Wrappers
  import Pacing

  /** The settings a camera may override; durations in nanoseconds. */
  datatype Settings = Settings(
    battery: bool,
    retry: int,
    timeout: int,
    dial: int,
    stall: int,
    fps: int,
    mode: string,
    hold: int,
    neutral: string,
    codec: string,
    transport: string,
    audio: string)

  datatype Camera = Camera(
    source: string,
    sourceLow: string,
    width: Option<int>,
    height: Option<int>,
    widthLow: Option<int>,
    heightLow: Option<int>,
    battery: Option<bool>,
    retry: Option<int>,
    timeout: Option<int>,
    dial: Option<int>,
    stall: Option<int>,
    fps: Option<int>,
    mode: Option<string>,
    hold: Option<int>,
    neutral: Option<string>,
    codec: Option<string>,
    codecLow: Option<string>,
    transport: Option<string>,
    audio: Option<string>)

  datatype Resolved = Resolved(source: string, sourceLow: string, width: int, height: int, low: bool, settings: Settings)

  datatype Document = Document(defaults: Settings, cameras: map<string, Camera>)

  // ---------------------------------------------------------------------
  // Overrides
  // ---------------------------------------------------------------------

  /** Every setting is the camera's own where it has one, and the default otherwise. */
  function Resolve(c: Camera, d: Settings): Resolved {
    Resolved(c.source, c.sourceLow, c.width.GetOr(0), c.height.GetOr(0), false,
             Settings(c.battery.GetOr(d.battery), c.retry.GetOr(d.retry), c.timeout.GetOr(d.timeout),
                      c.dial.GetOr(d.dial), c.stall.GetOr(d.stall), c.fps.GetOr(d.fps), c.mode.GetOr(d.mode),
                      c.hold.GetOr(d.hold), c.neutral.GetOr(d.neutral), c.codec.GetOr(d.codec),
                      c.transport.GetOr(d.transport), c.audio.GetOr(d.audio)))
  }

  const NO_OVERRIDES := Camera("", "", None, None, None, None, None, None, None, None, None, None, None, None, None, None, None, None, None)

  /** A camera without overrides has the defaults. */
  lemma NoOverridesGiveDefaults(source: string, sourceLow: string, d: Settings)
    ensures var r := Resolve(NO_OVERRIDES.(source := source, sourceLow := sourceLow), d);
      r.settings == d && r.source == source && r.sourceLow == sourceLow && r.width == 0 && r.height == 0 && !r.low
  {
  }

  /** Each override of a duration or a number sets its own field and no other, whatever the other overrides. */
  lemma NumbersOverrideAlone(c: Camera, d: Settings, x: int)
    ensures Resolve(c.(retry := Some(x)), d).settings == Resolve(c, d).settings.(retry := x)
    ensures Resolve(c.(timeout := Some(x)), d).settings == Resolve(c, d).settings.(timeout := x)
    ensures Resolve(c.(dial := Some(x)), d).settings == Resolve(c, d).settings.(dial := x)
    ensures Resolve(c.(stall := Some(x)), d).settings == Resolve(c, d).settings.(stall := x)
    ensures Resolve(c.(fps := Some(x)), d).settings == Resolve(c, d).settings.(fps := x)
    ensures Resolve(c.(hold := Some(x)), d).settings == Resolve(c, d).settings.(hold := x)
    ensures Resolve(c.(width := Some(x)), d) == Resolve(c, d).(width := x)
    ensures Resolve(c.(height := Some(x)), d) == Resolve(c, d).(height := x)
  {
  }

  lemma NamesOverrideAlone(c: Camera, d: Settings, x: string, b: bool)
    ensures Resolve(c.(mode := Some(x)), d).settings == Resolve(c, d).settings.(mode := x)
    ensures Resolve(c.(neutral := Some(x)), d).settings == Resolve(c, d).settings.(neutral := x)
    ensures Resolve(c.(codec := Some(x)), d).settings == Resolve(c, d).settings.(codec := x)
    ensures Resolve(c.(transport := Some(x)), d).settings == Resolve(c, d).settings.(transport := x)
    ensures Resolve(c.(audio := Some(x)), d).settings == Resolve(c, d).settings.(audio := x)
    ensures Resolve(c.(battery := Some(b)), d).settings == Resolve(c, d).settings.(battery := b)
  {
  }

  method Override<T>(own: Option<T>, default: T) returns (v: T)
    ensures v == own.GetOr(default)
  {
    v := default;
    if own.Some? {
      v := own.value;
    }
  }

  method Effective(c: Camera, d: Settings) returns (r: Resolved)
    ensures r == Resolve(c, d)
  {
    var width := Override(c.width, 0);
    var height := Override(c.height, 0);
    var battery := Override(c.battery, d.battery);
    var retry := Override(c.retry, d.retry);
    var timeout := Override(c.timeout, d.timeout);
    var dial := Override(c.dial, d.dial);
    var stall := Override(c.stall, d.stall);
    var fps := Override(c.fps, d.fps);
    var mode := Override(c.mode, d.mode);
    var hold := Override(c.hold, d.hold);
    var neutral := Override(c.neutral, d.neutral);
    var codec := Override(c.codec, d.codec);
    var transport := Override(c.transport, d.transport);
    var audio := Override(c.audio, d.audio);
    r := Resolved(c.source, c.sourceLow, width, height, false,
                  Settings(battery, retry, timeout, dial, stall, fps, mode, hold, neutral, codec, transport, audio));
  }

  // ---------------------------------------------------------------------
  // Ranges
  // ---------------------------------------------------------------------

  datatype Field = Mode | CodecName | Transport | Audio | Rate | Retry | Timeout | Stall | Dial | Hold | NeutralKind

  predicate CodecOk(codec: string) {
    codec in ["auto", "h264", "h265"]
  }

  predicate ModeOk(mode: string) {
    mode in ["offline", "last_frame", "none", "neutral"]
  }

  predicate TransportOk(transport: string) {
    transport in ["tcp", "udp", "auto"]
  }

  predicate AudioOk(audio: string) {
    audio in ["auto", "none"]
  }

  predicate NeutralOk(kind: string) {
    kind in ["offline", "black", "grey"] || (|kind| > 5 && kind[..5] == "file:")
  }

  predicate FieldOk(s: Settings, f: Field) {
    match f
    case Mode => ModeOk(s.mode)
    case CodecName => CodecOk(s.codec)
    case Transport => TransportOk(s.transport)
    case Audio => AudioOk(s.audio)
    case Rate => 1 <= s.fps <= 60
    case Retry => s.retry > 0
    case Timeout => s.timeout > 0
    case Stall => s.stall > 0
    case Dial => s.dial >= 0
    case Hold => s.hold >= 0
    case NeutralKind => NeutralOk(s.neutral)
  }

  ghost predicate SettingsOk(s: Settings) {
    forall f :: FieldOk(s, f)
  }

  /** Exactly what is accepted. */
  lemma WhatIsAccepted(s: Settings)
    ensures SettingsOk(s) <==>
      && (s.mode == "offline" || s.mode == "last_frame" || s.mode == "none" || s.mode == "neutral")
      && (s.codec == "auto" || s.codec == "h264" || s.codec == "h265")
      && (s.transport == "tcp" || s.transport == "udp" || s.transport == "auto")
      && (s.audio == "auto" || s.audio == "none")
      && 1 <= s.fps <= 60 && s.retry > 0 && s.timeout > 0 && s.stall > 0 && s.dial >= 0 && s.hold >= 0
      && (s.neutral == "offline" || s.neutral == "black" || s.neutral == "grey" || ("file:" <= s.neutral && s.neutral != "file:"))
  {
    assert "file:" <= s.neutral && s.neutral != "file:" <==> |s.neutral| > 5 && s.neutral[..5] == "file:";
    AcceptedFields(s);
  }

  lemma AcceptedFields(s: Settings)
    ensures SettingsOk(s) <==>
      && FieldOk(s, Mode) && FieldOk(s, CodecName) && FieldOk(s, Transport) && FieldOk(s, Audio) && FieldOk(s, Rate)
      && FieldOk(s, Retry) && FieldOk(s, Timeout) && FieldOk(s, Stall) && FieldOk(s, Dial) && FieldOk(s, Hold)
      && FieldOk(s, NeutralKind)
  {
  }

  /** The order in which the fields are looked at. */
  function Rank(f: Field): nat {
    match f
    case Mode => 0
    case CodecName => 1
    case Transport => 2
    case Audio => 3
    case Rate => 4
    case Retry => 5
    case Timeout => 6
    case Stall => 7
    case Dial => 8
    case Hold => 9
    case NeutralKind => 10
  }

  /** A complaint names the first field that is out of range. */
  method ValidateResolved(s: Settings) returns (err: Option<Field>)
    ensures err.None? ==> SettingsOk(s)
    ensures err.Some? ==> !FieldOk(s, err.value) && forall f :: Rank(f) < Rank(err.value) ==> FieldOk(s, f)
  {
    if !ModeOk(s.mode) { return Some(Mode); }
    if !CodecOk(s.codec) { return Some(CodecName); }
    if !TransportOk(s.transport) { return Some(Transport); }
    if !AudioOk(s.audio) { return Some(Audio); }
    if s.fps < 1 || s.fps > 60 { return Some(Rate); }
    if s.retry <= 0 { return Some(Retry); }
    if s.timeout <= 0 { return Some(Timeout); }
    if s.stall <= 0 { return Some(Stall); }
    if s.dial < 0 { return Some(Dial); }
    if s.hold < 0 { return Some(Hold); }
    if !NeutralOk(s.neutral) { return Some(NeutralKind); }
    return None;
  }

  // ---------------------------------------------------------------------
  // Output paths
  // ---------------------------------------------------------------------

  predicate Alphanumeric(c: char) {
    'A' <= c <= 'Z' || 'a' <= c <= 'z' || '0' <= c <= '9'
  }

  predicate NameOk(name: string) {
    name != [] && Alphanumeric(name[0])
    && forall i :: 0 <= i < |name| ==> Alphanumeric(name[i]) || name[i] == '_' || name[i] == '-'
  }

  /** A name is safe in a path, a log line and a file name: no separator, dot, colon, quote, space or control character, and no leading dash. */
  lemma NamesAreSafe(name: string)
    requires NameOk(name)
    ensures |name| > 0 && name[0] != '-' && name[0] != '_'
    ensures forall i :: 0 <= i < |name| ==> name[i] !in {'/', '\\', '.', ':', '?', '#', '"', '\'', '%'} && ' ' < name[i] <= 'z'
    ensures NameOk("low_" + name)
  {
  }

  /** A stream that wants an output path: a camera, or the low stream of one. */
  datatype Claim = Claim(name: string, low: bool)

  function PathOf(c: Claim): string {
    if c.low then "low_" + c.name else c.name
  }

  ghost predicate Claims(cfg: Document, c: Claim) {
    c.name in cfg.cameras && (c.low ==> cfg.cameras[c.name].sourceLow != "")
  }

  /** No two streams want the same path. */
  ghost predicate PathsDistinct(cfg: Document) {
    forall c, d :: Claims(cfg, c) && Claims(cfg, d) && PathOf(c) == PathOf(d) ==> c == d
  }

  ghost predicate CameraOk(cfg: Document, name: string)
    requires name in cfg.cameras
  {
    var cam := cfg.cameras[name];
    NameOk(name) && cam.source != "" && SettingsOk(Resolve(cam, cfg.defaults).settings)
    && (cam.codecLow.Some? ==> CodecOk(cam.codecLow.value))
  }

  ghost predicate Acceptable(cfg: Document) {
    |cfg.cameras| > 0 && SettingsOk(cfg.defaults)
    && (forall name :: name in cfg.cameras ==> CameraOk(cfg, name))
    && PathsDistinct(cfg)
  }

  /** Each camera once, in some order. */
  ghost predicate IsOrder(cfg: Document, order: seq<string>) {
    (forall i, j :: 0 <= i < j < |order| ==> order[i] != order[j])
    && (forall name :: name in order <==> name in cfg.cameras)
  }

  datatype Error =
    | NoCameras
    | BadDefaults(field: Field)
    | BadName(name: string)
    | NoSource(name: string)
    | Duplicate(first: Claim, second: Claim)
    | BadSettings(name: string, field: Field)
    | BadCodecLow(name: string)

  /** What an error says is so. */
  ghost predicate Truthful(cfg: Document, e: Error) {
    match e
    case NoCameras => cfg.cameras == map[]
    case BadDefaults(f) => !FieldOk(cfg.defaults, f)
    case BadName(n) => n in cfg.cameras && !NameOk(n)
    case NoSource(n) => n in cfg.cameras && cfg.cameras[n].source == ""
    case Duplicate(c, d) => Claims(cfg, c) && Claims(cfg, d) && c != d && PathOf(c) == PathOf(d)
    case BadSettings(n, f) => n in cfg.cameras && !FieldOk(Resolve(cfg.cameras[n], cfg.defaults).settings, f)
    case BadCodecLow(n) => n in cfg.cameras && cfg.cameras[n].codecLow.Some? && !CodecOk(cfg.cameras[n].codecLow.value)
  }

  lemma TruthfulErrorRejects(cfg: Document, e: Error)
    requires Truthful(cfg, e)
    ensures !Acceptable(cfg)
  {
    if e.BadName? || e.NoSource? || e.BadSettings? || e.BadCodecLow? {
      assert !CameraOk(cfg, e.name);
    }
  }

  /** The paths claimed so far: those of `seen`, each with its one owner. */
  ghost predicate Held(cfg: Document, seen: set<Claim>, paths: map<string, Claim>) {
    (forall c :: c in seen ==> Claims(cfg, c) && PathOf(c) in paths && paths[PathOf(c)] == c)
    && (forall p :: p in paths ==> paths[p] in seen && PathOf(paths[p]) == p)
  }

  lemma HoldOne(cfg: Document, seen: set<Claim>, paths: map<string, Claim>, c: Claim)
    requires Held(cfg, seen, paths) && Claims(cfg, c)
    ensures PathOf(c) !in paths ==> Held(cfg, seen + {c}, paths[PathOf(c) := c])
  {
  }

  ghost predicate Checked(cfg: Document, order: seq<string>, n: nat, seen: set<Claim>)
    requires n <= |order| && IsOrder(cfg, order)
  {
    (forall i :: 0 <= i < n ==> order[i] in cfg.cameras && CameraOk(cfg, order[i]))
    && (forall c :: c in seen ==> c.name in order[..n])
    && (forall c :: Claims(cfg, c) && c.name in order[..n] ==> c in seen)
  }

  lemma CheckedNext(cfg: Document, order: seq<string>, n: nat, seen: set<Claim>, more: set<Claim>)
    requires IsOrder(cfg, order) && n < |order| && Checked(cfg, order, n, seen)
    requires order[n] in cfg.cameras && CameraOk(cfg, order[n])
    requires forall c :: c in more <==> Claims(cfg, c) && c.name == order[n]
    ensures Checked(cfg, order, n + 1, seen + more)
  {
    assert order[..n + 1] == order[..n] + [order[n]];
  }

  lemma AllChecked(cfg: Document, order: seq<string>, seen: set<Claim>, paths: map<string, Claim>)
    requires IsOrder(cfg, order) && Checked(cfg, order, |order|, seen) && Held(cfg, seen, paths)
    ensures PathsDistinct(cfg) && forall name :: name in cfg.cameras ==> CameraOk(cfg, name)
  {
    assert order[..|order|] == order;
    forall name | name in cfg.cameras
      ensures CameraOk(cfg, name)
    {
      assert name in order;
    }
  }

  /** Accepts exactly the acceptable documents, whatever the order, and rejects with a true reason. */
  method Validate(cfg: Document, order: seq<string>) returns (err: Option<Error>)
    requires IsOrder(cfg, order)
    ensures err.None? <==> Acceptable(cfg)
    ensures err.Some? ==> Truthful(cfg, err.value)
  {
    err := Check(cfg, order);
    if err.Some? {
      TruthfulErrorRejects(cfg, err.value);
    }
  }

  method Check(cfg: Document, order: seq<string>) returns (err: Option<Error>)
    requires IsOrder(cfg, order)
    ensures err.None? ==> Acceptable(cfg)
    ensures err.Some? ==> Truthful(cfg, err.value)
  {
    if |cfg.cameras| == 0 {
      return Some(NoCameras);
    }
    var bad := ValidateResolved(cfg.defaults);
    if bad.Some? {
      return Some(BadDefaults(bad.value));
    }
    var paths: map<string, Claim> := map[];
    ghost var seen: set<Claim> := {};
    for i := 0 to |order|
      invariant Held(cfg, seen, paths) && Checked(cfg, order, i, seen)
    {
      var name := order[i];
      assert name in order;
      ghost var more;
      err, paths, more := CheckCamera(cfg, name, paths, seen);
      if err.Some? {
        return err;
      }
      CheckedNext(cfg, order, i, seen, more);
      seen := seen + more;
    }
    AllChecked(cfg, order, seen, paths);
    return None;
  }

  method CheckCamera(cfg: Document, name: string, held: map<string, Claim>, ghost seen: set<Claim>)
    returns (err: Option<Error>, paths: map<string, Claim>, ghost more: set<Claim>)
    requires name in cfg.cameras && Held(cfg, seen, held) && forall c :: c in seen ==> c.name != name
    ensures err.None? ==> CameraOk(cfg, name) && Held(cfg, seen + more, paths)
    ensures err.None? ==> forall c :: c in more <==> Claims(cfg, c) && c.name == name
    ensures err.Some? ==> Truthful(cfg, err.value)
  {
    var cam := cfg.cameras[name];
    paths, more := held, {};
    if !NameOk(name) {
      return Some(BadName(name)), paths, more;
    }
    if cam.source == "" {
      return Some(NoSource(name)), paths, more;
    }
    err, paths := TakePath(cfg, Claim(name, false), paths, seen);
    if err.Some? {
      return;
    }
    more := {Claim(name, false)};
    if cam.sourceLow != "" {
      err, paths := TakePath(cfg, Claim(name, true), paths, seen + more);
      if err.Some? {
        return;
      }
      assert seen + more + {Claim(name, true)} == seen + (more + {Claim(name, true)});
      more := more + {Claim(name, true)};
    }
    var r := Effective(cam, cfg.defaults);
    var bad := ValidateResolved(r.settings);
    if bad.Some? {
      return Some(BadSettings(name, bad.value)), paths, more;
    }
    if cam.codecLow.Some? && !CodecOk(cam.codecLow.value) {
      return Some(BadCodecLow(name)), paths, more;
    }
    return None, paths, more;
  }

  method TakePath(cfg: Document, c: Claim, held: map<string, Claim>, ghost seen: set<Claim>)
    returns (err: Option<Error>, paths: map<string, Claim>)
    requires Claims(cfg, c) && c !in seen && Held(cfg, seen, held)
    ensures err.None? ==> Held(cfg, seen + {c}, paths)
    ensures err.Some? ==> Truthful(cfg, err.value)
  {
    if PathOf(c) in held {
      return Some(Duplicate(held[PathOf(c)], c)), held;
    }
    HoldOne(cfg, seen, held, c);
    return None, held[PathOf(c) := c];
  }

  /** The one way two paths can be equal: a camera named after another's low stream. */
  ghost predicate NamedLikeALowStream(cfg: Document, name: string) {
    name in cfg.cameras && cfg.cameras[name].sourceLow != "" && "low_" + name in cfg.cameras
  }

  lemma PathsCollide(cfg: Document)
    ensures PathsDistinct(cfg) <==> forall name :: !NamedLikeALowStream(cfg, name)
  {
    forall name | NamedLikeALowStream(cfg, name)
      ensures !PathsDistinct(cfg)
    {
      var c, d := Claim(name, true), Claim("low_" + name, false);
      assert Claims(cfg, c) && Claims(cfg, d) && PathOf(c) == PathOf(d) && c != d;
    }
    forall c, d | Claims(cfg, c) && Claims(cfg, d) && PathOf(c) == PathOf(d) && c != d
      ensures NamedLikeALowStream(cfg, if c.low then c.name else d.name)
    {
      SamePathDifferentKind(c, d);
    }
  }

  lemma SamePathDifferentKind(c: Claim, d: Claim)
    requires PathOf(c) == PathOf(d) && c != d
    ensures c.low != d.low
  {
    assert c.low ==> c.name == PathOf(c)[4..];
    assert d.low ==> d.name == PathOf(d)[4..];
  }

  // ---------------------------------------------------------------------
  // The handlers
  // ---------------------------------------------------------------------

  /** Division as the host does it: toward zero. */
  function Quotient(a: int, b: int): int
    requires b > 0
  {
    if a >= 0 then a / b else -(-a / b)
  }

  /** The even number next to n on the side of zero. */
  function ToEven(n: int): int {
    if n % 2 == 0 then n else if n > 0 then n - 1 else n + 1
  }

  function LowSize(c: Camera): (int, int) {
    var w, h := c.width.GetOr(0), c.height.GetOr(0);
    var lowW := c.widthLow.GetOr(640);
    (lowW, if c.heightLow.Some? then c.heightLow.value
           else if w > 0 && h > 0 then ToEven(Quotient(lowW * h, w))
           else 480)
  }

  /** The configuration of the stream that makes a claim. */
  function StreamConfig(cfg: Document, c: Claim): Resolved
    requires c.name in cfg.cameras
  {
    var cam := cfg.cameras[c.name];
    var main := Resolve(cam, cfg.defaults);
    if !c.low then main
    else main.(source := cam.sourceLow, low := true, width := LowSize(cam).0, height := LowSize(cam).1,
               settings := main.settings.(codec := cam.codecLow.GetOr(main.settings.codec)))
  }

  /** A low stream is its camera's with the low source and size, and with its own codec where it has one. */
  lemma LowStreamDiffersInThese(cfg: Document, name: string)
    requires name in cfg.cameras
    ensures var main, low, cam := StreamConfig(cfg, Claim(name, false)), StreamConfig(cfg, Claim(name, true)), cfg.cameras[name];
      && !main.low && low.low && main.source == cam.source && low.source == cam.sourceLow
      && (cam.codecLow.None? ==> low.settings == main.settings)
      && (cam.codecLow.Some? ==> low.settings.codec == cam.codecLow.value
                                 && low.settings.(codec := main.settings.codec) == main.settings)
      && low.width == cam.widthLow.GetOr(640)
      && (cam.heightLow.Some? ==> low.height == cam.heightLow.value)
      && (cam.heightLow.None? && main.width > 0 && main.height > 0 ==> KeepsShape(main.width, main.height, low.width, low.height))
  {
    var main, low := StreamConfig(cfg, Claim(name, false)), StreamConfig(cfg, Claim(name, true));
    if main.width > 0 && main.height > 0 {
      ScaledKeepsShape(main.width, main.height, low.width);
    }
  }

  /** The map after the first k cameras of an order: later claims to a path replace earlier ones. */
  function Built(cfg: Document, order: seq<string>, k: nat): (m: map<string, Resolved>)
    requires k <= |order| && forall i :: 0 <= i < |order| ==> order[i] in cfg.cameras
  {
    if k == 0 then map[] else WithCamera(cfg, Built(cfg, order, k - 1), order[k - 1])
  }

  /** One camera's handlers, the low one last. */
  function WithCamera(cfg: Document, m: map<string, Resolved>, name: string): map<string, Resolved>
    requires name in cfg.cameras
  {
    var m1 := m[name := StreamConfig(cfg, Claim(name, false))];
    if cfg.cameras[name].sourceLow == "" then m1 else m1["low_" + name := StreamConfig(cfg, Claim(name, true))]
  }

  lemma OrdersName(cfg: Document, order: seq<string>)
    requires IsOrder(cfg, order)
    ensures forall i :: 0 <= i < |order| ==> order[i] in cfg.cameras
  {
    forall i | 0 <= i < |order|
      ensures order[i] in cfg.cameras
    {
      assert order[i] in order;
    }
  }

  /** h is the even height that keeps the main picture's shape at width w, rounded toward zero. */
  predicate KeepsShape(mainW: int, mainH: int, w: int, h: int) {
    && h % 2 == 0
    && if w >= 0 then h >= 0 && h * mainW <= w * mainH < (h + 2) * mainW
       else h <= 0 && (h - 2) * mainW < w * mainH <= h * mainW
  }

  lemma ScaleUp(x: int, y: int, c: int)
    requires x <= y && c > 0
    ensures x * c <= y * c
  {
  }

  lemma ScaleNegated(x: int, c: int)
    ensures -x * c == -(x * c)
  {
  }

  lemma ScaleNext(x: int, c: int)
    ensures (x + 1) * c == x * c + c && (x - 1) * c == x * c - c
  {
  }

  lemma DivisionBounds(a: int, b: int)
    requires b > 0 && a >= 0
    ensures a / b >= 0 && a / b * b <= a < a / b * b + b
  {
  }

  lemma NegatedBounds(a: int, b: int, q: int)
    requires q * b <= a < q * b + b
    ensures (-q - 1) * b < -a <= -q * b
  {
    ScaleNegated(q, b);
    ScaleNext(-q, b);
  }

  lemma QuotientBounds(a: int, b: int)
    requires b > 0
    ensures var q := Quotient(a, b);
      if a >= 0 then q >= 0 && q * b <= a < (q + 1) * b else q <= 0 && (q - 1) * b < a <= q * b
  {
    if a >= 0 {
      DivisionBounds(a, b);
      ScaleNext(a / b, b);
    } else {
      DivisionBounds(-a, b);
      NegatedBounds(-a, b, -a / b);
    }
  }

  lemma ProductSign(x: int, y: int)
    requires y > 0
    ensures x * y >= 0 <==> x >= 0
  {
  }

  lemma ScaledKeepsShape(mainW: int, mainH: int, w: int)
    requires mainW > 0 && mainH > 0
    ensures KeepsShape(mainW, mainH, w, ToEven(Quotient(w * mainH, mainW)))
  {
    ProductSign(w, mainH);
    EvenKeepsShape(w * mainH, mainW);
  }

  lemma EvenKeepsShape(a: int, b: int)
    requires b > 0
    ensures var h := ToEven(Quotient(a, b));
      h % 2 == 0 && if a >= 0 then h >= 0 && h * b <= a < (h + 2) * b else h <= 0 && (h - 2) * b < a <= h * b
  {
    var q := Quotient(a, b);
    var h := ToEven(q);
    QuotientBounds(a, b);
    if a >= 0 {
      ScaleUp(h, q, b);
      ScaleUp(q + 1, h + 2, b);
    } else {
      ScaleUp(q, h, b);
      ScaleUp(h - 2, q - 1, b);
    }
  }

  lemma NotLower(mainW: int, mainH: int, w: int, h1: int, h2: int)
    requires mainW > 0 && KeepsShape(mainW, mainH, w, h1) && KeepsShape(mainW, mainH, w, h2)
    ensures h1 >= h2
  {
    if h1 + 2 <= h2 {
      ScaleUp(h1 + 2, h2, mainW);
      ScaleUp(h1, h2 - 2, mainW);
    }
  }

  /** There is only one such height. */
  lemma ShapeIsUnique(mainW: int, mainH: int, w: int, h1: int, h2: int)
    requires mainW > 0 && KeepsShape(mainW, mainH, w, h1) && KeepsShape(mainW, mainH, w, h2)
    ensures h1 == h2
  {
    NotLower(mainW, mainH, w, h1, h2);
    NotLower(mainW, mainH, w, h2, h1);
  }

  /** An explicit height wins; otherwise the shape of the main picture is kept, if it is known. */
  method LowDimensions(mainW: int, mainH: int, wLow: Option<int>, hLow: Option<int>) returns (w: int, h: int)
    ensures w == wLow.GetOr(640)
    ensures hLow.Some? ==> h == hLow.value
    ensures hLow.None? && mainW > 0 && mainH > 0 ==> KeepsShape(mainW, mainH, w, h)
    ensures hLow.None? && !(mainW > 0 && mainH > 0) ==> h == 480
  {
    w, h := 640, 480;
    if mainW > 0 && mainH > 0 {
      ScaledKeepsShape(mainW, mainH, 640);
      h := ToEven(Quotient(640 * mainH, mainW));
    }
    if wLow.Some? {
      w := wLow.value;
      if hLow.None? && mainW > 0 && mainH > 0 {
        ScaledKeepsShape(mainW, mainH, w);
        h := ToEven(Quotient(w * mainH, mainW));
      }
    }
    if hLow.Some? {
      h := hLow.value;
    }
  }

  method LowConfig(cam: Camera, resolved: Resolved) returns (low: Resolved)
    ensures low.source == resolved.sourceLow && low.sourceLow == resolved.sourceLow && low.low
    ensures low.settings == resolved.settings.(codec := cam.codecLow.GetOr(resolved.settings.codec))
    ensures resolved.width == cam.width.GetOr(0) && resolved.height == cam.height.GetOr(0) ==> (low.width, low.height) == LowSize(cam)
  {
    low := resolved.(source := resolved.sourceLow, low := true);
    if cam.codecLow.Some? {
      low := low.(settings := low.settings.(codec := cam.codecLow.value));
    }
    var w, h := LowDimensions(resolved.width, resolved.height, cam.widthLow, cam.heightLow);
    if cam.heightLow.None? && resolved.width > 0 && resolved.height > 0 {
      ScaledKeepsShape(resolved.width, resolved.height, w);
      ShapeIsUnique(resolved.width, resolved.height, w, h, ToEven(Quotient(w * resolved.height, resolved.width)));
    }
    low := low.(width := w, height := h);
  }

  method AddCamera(cfg: Document, name: string, before: map<string, Resolved>) returns (m: map<string, Resolved>)
    requires name in cfg.cameras
    ensures m == WithCamera(cfg, before, name)
  {
    var cam := cfg.cameras[name];
    var resolved := Effective(cam, cfg.defaults);
    m := before[name := resolved];
    if resolved.sourceLow != "" {
      var low := LowConfig(cam, resolved);
      assert low == StreamConfig(cfg, Claim(name, true));
      m := m["low_" + name := low];
    }
  }

  /** Builds the handlers in the order the cameras happen to come. */
  method NewManager(cfg: Document, order: seq<string>) returns (handlers: Option<map<string, Resolved>>)
    requires IsOrder(cfg, order)
    ensures forall i :: 0 <= i < |order| ==> order[i] in cfg.cameras
    ensures handlers == if cfg.cameras == map[] then None else Some(Built(cfg, order, |order|))
  {
    OrdersName(cfg, order);
    var m: map<string, Resolved> := map[];
    for i := 0 to |order|
      invariant m == Built(cfg, order, i)
    {
      m := AddCamera(cfg, order[i], m);
    }
    HandlersExist(cfg, order);
    return if |m| == 0 then None else Some(m);
  }

  lemma HandlersExist(cfg: Document, order: seq<string>)
    requires IsOrder(cfg, order) && forall i :: 0 <= i < |order| ==> order[i] in cfg.cameras
    ensures Built(cfg, order, |order|) == map[] <==> cfg.cameras == map[]
  {
    if order == [] {
      assert forall name :: name in cfg.cameras ==> name in order;
    } else {
      assert order[|order| - 1] in Built(cfg, order, |order|);
    }
  }

  /** With distinct paths, the claim and the path determine each other, so replacement never happens. */
  lemma {:induction false} BuiltSoFar(cfg: Document, order: seq<string>, k: nat, c: Claim)
    requires k <= |order| && PathsDistinct(cfg) && forall i :: 0 <= i < |order| ==> order[i] in cfg.cameras
    requires Claims(cfg, c) && c.name in order[..k]
    ensures PathOf(c) in Built(cfg, order, k) && Built(cfg, order, k)[PathOf(c)] == StreamConfig(cfg, c)
  {
    assert order[..k] == order[..k - 1] + [order[k - 1]];
    if c.name != order[k - 1] {
      BuiltSoFar(cfg, order, k - 1, c);
    }
    BuiltStep(cfg, order, k, c);
  }

  lemma {:induction false} BuiltPaths(cfg: Document, order: seq<string>, k: nat, p: string) returns (c: Claim)
    requires k <= |order| && forall i :: 0 <= i < |order| ==> order[i] in cfg.cameras
    requires p in Built(cfg, order, k)
    ensures Claims(cfg, c) && PathOf(c) == p && Built(cfg, order, k)[p] == StreamConfig(cfg, c)
  {
    var name := order[k - 1];
    if cfg.cameras[name].sourceLow != "" && p == "low_" + name {
      c := Claim(name, true);
    } else if p == name {
      c := Claim(name, false);
    } else {
      c := BuiltPaths(cfg, order, k - 1, p);
    }
  }

  lemma BuiltStep(cfg: Document, order: seq<string>, k: nat, c: Claim)
    requires 0 < k <= |order| && PathsDistinct(cfg) && forall i :: 0 <= i < |order| ==> order[i] in cfg.cameras
    requires Claims(cfg, c)
    requires c.name == order[k - 1] || (PathOf(c) in Built(cfg, order, k - 1) && Built(cfg, order, k - 1)[PathOf(c)] == StreamConfig(cfg, c))
    ensures PathOf(c) in Built(cfg, order, k) && Built(cfg, order, k)[PathOf(c)] == StreamConfig(cfg, c)
  {
    var main, low := Claim(order[k - 1], false), Claim(order[k - 1], true);
    assert Claims(cfg, main) && PathOf(main) == main.name;
    assert PathOf(low) == "low_" + low.name;
    assert Claims(cfg, low) <==> cfg.cameras[low.name].sourceLow != "";
    assert PathOf(c) == PathOf(main) ==> c == main;
    assert Claims(cfg, low) && PathOf(c) == PathOf(low) ==> c == low;
  }

  /** One handler for each claimed path and no other; whatever is at a path is the configuration of its owner. */
  lemma OneHandlerPerPath(cfg: Document, order: seq<string>)
    requires PathsDistinct(cfg) && IsOrder(cfg, order)
    ensures forall i :: 0 <= i < |order| ==> order[i] in cfg.cameras
    ensures forall c :: Claims(cfg, c) ==>
      PathOf(c) in Built(cfg, order, |order|) && Built(cfg, order, |order|)[PathOf(c)] == StreamConfig(cfg, c)
    ensures forall p :: p in Built(cfg, order, |order|) ==> exists c :: Claims(cfg, c) && PathOf(c) == p
  {
    OrdersName(cfg, order);
    assert order[..|order|] == order;
    forall c | Claims(cfg, c)
      ensures PathOf(c) in Built(cfg, order, |order|) && Built(cfg, order, |order|)[PathOf(c)] == StreamConfig(cfg, c)
    {
      BuiltSoFar(cfg, order, |order|, c);
    }
    forall p | p in Built(cfg, order, |order|)
      ensures exists c :: Claims(cfg, c) && PathOf(c) == p
    {
      var c := BuiltPaths(cfg, order, |order|, p);
    }
  }

  lemma SameAt(cfg: Document, o1: seq<string>, o2: seq<string>, p: string)
    requires PathsDistinct(cfg) && IsOrder(cfg, o1) && IsOrder(cfg, o2)
    requires forall i :: 0 <= i < |o1| ==> o1[i] in cfg.cameras
    requires forall i :: 0 <= i < |o2| ==> o2[i] in cfg.cameras
    requires p in Built(cfg, o1, |o1|)
    ensures p in Built(cfg, o2, |o2|) && Built(cfg, o1, |o1|)[p] == Built(cfg, o2, |o2|)[p]
  {
    var c := BuiltPaths(cfg, o1, |o1|, p);
    assert o2[..|o2|] == o2;
    BuiltSoFar(cfg, o2, |o2|, c);
  }

  /** The handlers do not depend on the order of the cameras. */
  lemma SameHandlers(cfg: Document, o1: seq<string>, o2: seq<string>)
    requires PathsDistinct(cfg) && IsOrder(cfg, o1) && IsOrder(cfg, o2)
    ensures SameBuild(cfg, o1, o2)
  {
    OrdersName(cfg, o1);
    OrdersName(cfg, o2);
    var m1, m2 := Built(cfg, o1, |o1|), Built(cfg, o2, |o2|);
    forall p | p in m1
      ensures p in m2 && m1[p] == m2[p]
    {
      SameAt(cfg, o1, o2, p);
    }
    forall p | p in m2
      ensures p in m1
    {
      SameAt(cfg, o2, o1, p);
    }
    assert m1.Keys == m2.Keys;
  }

  ghost predicate OrderDoesNotMatter(cfg: Document) {
    forall o1, o2 :: IsOrder(cfg, o1) && IsOrder(cfg, o2) ==> SameBuild(cfg, o1, o2)
  }

  ghost predicate SameBuild(cfg: Document, o1: seq<string>, o2: seq<string>)
    requires IsOrder(cfg, o1) && IsOrder(cfg, o2)
  {
    OrdersName(cfg, o1);
    OrdersName(cfg, o2);
    Built(cfg, o1, |o1|) == Built(cfg, o2, |o2|)
  }

  /** A set of names can be put in some order. */
  lemma {:induction false} SomeOrder(names: set<string>) returns (o: seq<string>)
    ensures forall i, j :: 0 <= i < j < |o| ==> o[i] != o[j]
    ensures forall n :: n in o <==> n in names
  {
    if names == {} {
      o := [];
    } else {
      var n :| n in names;
      var rest := SomeOrder(names - {n});
      o := [n] + rest;
    }
  }

  predicate AgreeAt(m: map<string, Resolved>, n: map<string, Resolved>, p: string) {
    (p in m <==> p in n) && (p in m ==> m[p] == n[p])
  }

  lemma OneCamera(cfg: Document, order: seq<string>, k: nat, p: string)
    requires 0 < k <= |order| && forall i :: 0 <= i < |order| ==> order[i] in cfg.cameras
    requires order[k - 1] != p && "low_" + order[k - 1] != p
    ensures AgreeAt(Built(cfg, order, k), Built(cfg, order, k - 1), p)
  {
  }

  /** Cameras that make no claim to a path leave it alone. */
  lemma {:induction false} Untouched(cfg: Document, order: seq<string>, k: nat, j: nat, p: string)
    requires j <= k <= |order| && forall i :: 0 <= i < |order| ==> order[i] in cfg.cameras
    requires forall i :: j <= i < k ==> order[i] != p && "low_" + order[i] != p
    ensures AgreeAt(Built(cfg, order, k), Built(cfg, order, j), p)
  {
    if j < k {
      Untouched(cfg, order, k - 1, j, p);
      OneCamera(cfg, order, k, p);
    }
  }

  lemma LastWriter(cfg: Document, order: seq<string>, k: nat, c: Claim)
    requires 0 < k <= |order| && forall i :: 0 <= i < |order| ==> order[i] in cfg.cameras
    requires Claims(cfg, c) && order[k - 1] == c.name
    ensures PathOf(c) in Built(cfg, order, k) && Built(cfg, order, k)[PathOf(c)] == StreamConfig(cfg, c)
  {
    LowIsLonger(c.name);
  }

  /** Two cameras first, then the others: the second decides what is at the path both want. */
  lemma SecondDecides(cfg: Document, order: seq<string>, c: Claim)
    requires IsOrder(cfg, order) && |order| >= 2
    requires Claims(cfg, c) && order[1] == c.name
    requires forall i :: 2 <= i < |order| ==> order[i] != PathOf(c) && "low_" + order[i] != PathOf(c)
    ensures forall i :: 0 <= i < |order| ==> order[i] in cfg.cameras
    ensures PathOf(c) in Built(cfg, order, |order|) && Built(cfg, order, |order|)[PathOf(c)] == StreamConfig(cfg, c)
  {
    OrdersName(cfg, order);
    LastWriter(cfg, order, 2, c);
    Untouched(cfg, order, |order|, 2, PathOf(c));
  }

  lemma LowIsLonger(n: string)
    ensures "low_" + n != n
  {
    assert |"low_" + n| == |n| + 4;
  }

  /** The order of the cameras never matters exactly when no camera is named after another's low stream. */
  lemma OrderMatters(cfg: Document)
    ensures OrderDoesNotMatter(cfg) <==> forall name :: !NamedLikeALowStream(cfg, name)
  {
    PathsCollide(cfg);
    if PathsDistinct(cfg) {
      forall o1, o2 | IsOrder(cfg, o1) && IsOrder(cfg, o2)
        ensures SameBuild(cfg, o1, o2)
      {
        SameHandlers(cfg, o1, o2);
      }
    }
    forall name | NamedLikeALowStream(cfg, name)
      ensures !OrderDoesNotMatter(cfg)
    {
      var o1, o2 := TwoOrdersDiffer(cfg, name);
    }
  }

  lemma TwoOrdersDiffer(cfg: Document, name: string) returns (o1: seq<string>, o2: seq<string>)
    requires NamedLikeALowStream(cfg, name)
    ensures IsOrder(cfg, o1) && IsOrder(cfg, o2) && !SameBuild(cfg, o1, o2)
  {
    var p := "low_" + name;
    var low, main := Claim(name, true), Claim(p, false);
    LowIsLonger(name);
    o1, o2 := PairFirst(cfg, name, p);
    SecondDecides(cfg, o1, main);
    SecondDecides(cfg, o2, low);
    assert StreamConfig(cfg, low).low && !StreamConfig(cfg, main).low;
  }

  /** A colliding pair in either order, and then everyone else. */
  lemma PairFirst(cfg: Document, a: string, b: string) returns (o1: seq<string>, o2: seq<string>)
    requires a in cfg.cameras && b in cfg.cameras && a != b && b == "low_" + a
    ensures IsOrder(cfg, o1) && IsOrder(cfg, o2)
    ensures |o1| >= 2 && |o2| == |o1| && o1[1] == b && o2[1] == a
    ensures forall i :: 2 <= i < |o1| ==> o1[i] == o2[i] != b && "low_" + o1[i] != b
  {
    var rest := SomeOrder(cfg.cameras.Keys - {a, b});
    o1, o2 := [a, b] + rest, [b, a] + rest;
    PairOrder(cfg, a, b, rest);
    PairOrder(cfg, b, a, rest);
    forall i | 2 <= i < |o1|
      ensures o1[i] == o2[i] != b && "low_" + o1[i] != b
    {
      assert o1[i] == rest[i - 2] && rest[i - 2] in rest;
      LowInjective(o1[i], a);
    }
  }

  lemma LowInjective(m: string, n: string)
    ensures "low_" + m == "low_" + n ==> m == n
  {
    assert ("low_" + m)[4..] == m && ("low_" + n)[4..] == n;
  }

  lemma PairOrder(cfg: Document, a: string, b: string, rest: seq<string>)
    requires a != b && a in cfg.cameras && b in cfg.cameras
    requires forall i, j :: 0 <= i < j < |rest| ==> rest[i] != rest[j]
    requires forall n :: n in rest <==> n in cfg.cameras.Keys - {a, b}
    ensures IsOrder(cfg, [a, b] + rest)
  {
    var o := [a, b] + rest;
    assert forall i :: 0 <= i < |rest| ==> rest[i] in rest;
    assert o[0] == a && o[1] == b && forall i :: 2 <= i < |o| ==> o[i] == rest[i - 2];
    forall n
      ensures n in o <==> n in cfg.cameras
    {
      assert n in o <==> n == a || n == b || n in rest;
    }
  }

  // ---------------------------------------------------------------------
  // What acceptance gives
  // ---------------------------------------------------------------------

  /** Every stream of an accepted document, low ones included, has a source and settings in range. */
  lemma StreamsAreValid(cfg: Document, c: Claim)
    requires Acceptable(cfg) && Claims(cfg, c)
    ensures SettingsOk(StreamConfig(cfg, c).settings) && StreamConfig(cfg, c).source != "" && NameOk(PathOf(c))
  {
    assert CameraOk(cfg, c.name);
    var main := Resolve(cfg.cameras[c.name], cfg.defaults).settings;
    var s := StreamConfig(cfg, c).settings;
    forall f
      ensures FieldOk(s, f)
    {
      assert FieldOk(main, f);
    }
  }

  /** Every handler of an accepted document is valid, in whatever order it was built, and so is its fallback rate. */
  lemma HandlersAreValid(cfg: Document, order: seq<string>, p: string, frameBytes: nat)
    requires Acceptable(cfg) && IsOrder(cfg, order)
    requires (forall i :: 0 <= i < |order| ==> order[i] in cfg.cameras) && p in Built(cfg, order, |order|)
    ensures var r := Built(cfg, order, |order|)[p];
      SettingsOk(r.settings) && r.source != ""
      && Pacing.RateOk(Pacing.CapFallbackFPS(Pacing.FloorFPS(r.settings.fps), frameBytes))
  {
    var c := BuiltPaths(cfg, order, |order|, p);
    StreamsAreValid(cfg, c);
    var s := StreamConfig(cfg, c).settings;
    assert FieldOk(s, Rate);
    Pacing.CappedRate(s.fps, frameBytes);
  }
}
