/**
 Access units on their way from the camera to the output: filtering, the
 keyframe gate, tracking of parameter sets, and their injection before
 keyframes. `& 0x1F` and `>> 1 & 0x3F` on a header byte are written `% 32` and
 `/ 2 % 64`; a nil slice is None.
 */
module AccessUnit {
  import opened Wrappers
  import opened AnnexB

  datatype Codec = H264 | H265
  type AU = seq<Nalu>

  datatype Role = Vps | Sps | Pps

  /** Parameter sets; H.264 has no VPS. */
  datatype Sets = Sets(vps: Option<Nalu>, sps: Option<Nalu>, pps: Option<Nalu>) {
    function Get(r: Role): Option<Nalu> {
      match r
      case Vps => vps
      case Sps => sps
      case Pps => pps
    }
  }

  const NO_SETS := Sets(None, None, None)

  /** The unit is long enough for its header to be read. */
  predicate Sized(c: Codec, n: Nalu) {
    |n| >= if c.H264? then 1 else 2
  }

  function Kind(c: Codec, n: Nalu): nat
    requires Sized(c, n)
  {
    if c.H264? then n[0] % 32 else n[0] / 2 % 64
  }

  /** IDR (H.264) or IRAP (H.265) slice. */
  predicate IsKeySlice(c: Codec, n: Nalu) {
    Sized(c, n) && if c.H264? then Kind(c, n) == 5 else 16 <= Kind(c, n) <= 21
  }

  predicate IsSlice(c: Codec, n: Nalu) {
    Sized(c, n) && if c.H264? then Kind(c, n) == 1 || Kind(c, n) == 5 else Kind(c, n) <= 31
  }

  function RoleKind(c: Codec, r: Role): nat {
    match r
    case Vps => 32
    case Sps => if c.H264? then 7 else 33
    case Pps => if c.H264? then 8 else 34
  }

  predicate IsSet(c: Codec, r: Role, n: Nalu) {
    Sized(c, n) && Kind(c, n) == RoleKind(c, r) && !(c.H264? && r.Vps?)
  }

  predicate IsParam(c: Codec, n: Nalu) {
    IsSet(c, Vps, n) || IsSet(c, Sps, n) || IsSet(c, Pps, n)
  }

  predicate HasKey(c: Codec, au: AU) {
    exists i :: 0 <= i < |au| && IsKeySlice(c, au[i])
  }

  predicate HasSlice(c: Codec, au: AU) {
    exists i :: 0 <= i < |au| && IsSlice(c, au[i])
  }

  predicate HasPartition(au: AU) {
    exists i :: 0 <= i < |au| && Sized(H264, au[i]) && 2 <= Kind(H264, au[i]) <= 4
  }

  // ---------------------------------------------------------------------
  // Selections
  // ---------------------------------------------------------------------

  datatype Test = Whitelisted(c: Codec) | NotParam(c: Codec)

  predicate Passes(t: Test, n: Nalu) {
    Sized(t.c, n) &&
    match t
    case Whitelisted(c) =>
      if c.H264? then Kind(c, n) in {1, 5, 6, 7, 8} else Kind(c, n) <= 34 || Kind(c, n) in {39, 40}
    case NotParam(c) => !IsParam(c, n)
  }

  /** The units among the first k that pass, in order. */
  function Select(t: Test, au: AU, k: nat): AU
    requires k <= |au|
  {
    if k == 0 then [] else Select(t, au, k - 1) + (if Passes(t, au[k - 1]) then [au[k - 1]] else [])
  }

  function Filtered(c: Codec, au: AU): AU {
    if c.H264? && HasPartition(au) then [] else Select(Whitelisted(c), au, |au|)
  }

  /** The last unit among the first k that is a parameter set of role r. */
  function LastSet(c: Codec, r: Role, au: AU, k: nat): Option<Nalu>
    requires k <= |au|
  {
    if k == 0 then None
    else if IsSet(c, r, au[k - 1]) then Some(au[k - 1])
    else LastSet(c, r, au, k - 1)
  }

  function SetsOf(c: Codec, au: AU): Sets {
    Sets(LastSet(c, Vps, au, |au|), LastSet(c, Sps, au, |au|), LastSet(c, Pps, au, |au|))
  }

  function OrElse(a: Option<Nalu>, b: Option<Nalu>): Option<Nalu> {
    if a.Some? then a else b
  }

  /** The latest sets once au has gone by. */
  function Tracked(c: Codec, s: Sets, au: AU): Sets {
    var o := SetsOf(c, au);
    Sets(OrElse(o.vps, s.vps), OrElse(o.sps, s.sps), OrElse(o.pps, s.pps))
  }

  predicate Complete(c: Codec, s: Sets) {
    s.sps.Some? && s.pps.Some? && (c.H265? ==> s.vps.Some?)
  }

  function Heads(c: Codec, s: Sets): AU
    requires Complete(c, s)
  {
    if c.H264? then [s.sps.value, s.pps.value] else [s.vps.value, s.sps.value, s.pps.value]
  }

  /** A keyframe made self-contained; anything else as it is. */
  function Ensured(c: Codec, au: AU, s: Sets): AU {
    if Complete(c, s) && HasKey(c, au) then Heads(c, s) + Select(NotParam(c), au, |au|) else au
  }

  // ---------------------------------------------------------------------
  // The handler's loops
  // ---------------------------------------------------------------------

  method FilterH264NALUs(au: AU) returns (filtered: AU)
    ensures filtered == Filtered(H264, au)
  {
    filtered := [];
    for i := 0 to |au|
      invariant filtered == Select(Whitelisted(H264), au, i)
      invariant forall j :: 0 <= j < i ==> !(Sized(H264, au[j]) && 2 <= Kind(H264, au[j]) <= 4)
    {
      var nalu := au[i];
      if |nalu| == 0 {
        continue;
      }
      var nt := nalu[0] % 32;
      if 2 <= nt <= 4 {
        return [];
      }
      if nt in {1, 5, 6, 7, 8} {
        filtered := filtered + [nalu];
      }
    }
  }

  method FilterH265NALUs(au: AU) returns (filtered: AU)
    ensures filtered == Filtered(H265, au)
  {
    filtered := [];
    for i := 0 to |au|
      invariant filtered == Select(Whitelisted(H265), au, i)
    {
      var nalu := au[i];
      if |nalu| < 2 {
        continue;
      }
      var nt := nalu[0] / 2 % 64;
      if nt <= 31 || nt == 32 || nt == 33 || nt == 34 || nt == 39 || nt == 40 {
        filtered := filtered + [nalu];
      }
    }
  }

  method HasVCL(c: Codec, au: AU) returns (found: bool)
    ensures found == HasSlice(c, au)
  {
    for i := 0 to |au|
      invariant forall j :: 0 <= j < i ==> !IsSlice(c, au[j])
    {
      if IsSlice(c, au[i]) {
        return true;
      }
    }
    return false;
  }

  method IsKeyframeAU(au: AU, c: Codec) returns (found: bool)
    ensures found == HasKey(c, au)
  {
    for i := 0 to |au|
      invariant forall j :: 0 <= j < i ==> !IsKeySlice(c, au[j])
    {
      if IsKeySlice(c, au[i]) {
        return true;
      }
    }
    return false;
  }

  method ParamSets(au: AU, c: Codec) returns (s: Sets)
    ensures s == SetsOf(c, au)
  {
    s := TrackSets(c, NO_SETS, au);
  }

  /** The in-band sets of au replace the ones tracked so far. */
  method TrackSets(c: Codec, before: Sets, au: AU) returns (s: Sets)
    ensures s == Tracked(c, before, au)
  {
    s := before;
    for i := 0 to |au|
      invariant s.vps == OrElse(LastSet(c, Vps, au, i), before.vps)
      invariant s.sps == OrElse(LastSet(c, Sps, au, i), before.sps)
      invariant s.pps == OrElse(LastSet(c, Pps, au, i), before.pps)
    {
      var nalu := au[i];
      if !Sized(c, nalu) {
        continue;
      }
      var nt := Kind(c, nalu);
      if c.H265? && nt == 32 {
        s := s.(vps := Some(nalu));
      } else if nt == RoleKind(c, Sps) {
        s := s.(sps := Some(nalu));
      } else if nt == RoleKind(c, Pps) {
        s := s.(pps := Some(nalu));
      }
    }
  }

  method EnsureSPSPPS(au: AU, sps: Option<Nalu>, pps: Option<Nalu>) returns (result: AU)
    ensures result == Ensured(H264, au, Sets(None, sps, pps))
  {
    if sps.None? || pps.None? {
      return au;
    }
    var hasIDR := IsKeyframeAU(au, H264);
    if !hasIDR {
      return au;
    }
    result := [sps.value, pps.value];
    for i := 0 to |au|
      invariant result == [sps.value, pps.value] + Select(NotParam(H264), au, i)
    {
      var nalu := au[i];
      if |nalu| == 0 {
        continue;
      }
      var nt := nalu[0] % 32;
      if nt == 7 || nt == 8 {
        continue;
      }
      result := result + [nalu];
    }
  }

  method EnsureVPSSPSPPS(au: AU, vps: Option<Nalu>, sps: Option<Nalu>, pps: Option<Nalu>) returns (result: AU)
    ensures result == Ensured(H265, au, Sets(vps, sps, pps))
  {
    if vps.None? || sps.None? || pps.None? {
      return au;
    }
    var hasIRAP := IsKeyframeAU(au, H265);
    if !hasIRAP {
      return au;
    }
    result := [vps.value, sps.value, pps.value];
    for i := 0 to |au|
      invariant result == [vps.value, sps.value, pps.value] + Select(NotParam(H265), au, i)
    {
      var nalu := au[i];
      if |nalu| < 2 {
        continue;
      }
      var nt := nalu[0] / 2 % 64;
      if nt == 32 || nt == 33 || nt == 34 {
        continue;
      }
      result := result + [nalu];
    }
  }

  // ---------------------------------------------------------------------
  // The camera callback
  // ---------------------------------------------------------------------

  /** What one camera session remembers between packets. */
  datatype Relay = Relay(seenKey: bool, sets: Sets)

  /** The frame the callback works on, unless it is skipped: no picture, or no keyframe where one is awaited. */
  function Admitted(c: Codec, s: Relay, au: AU, needKey: bool): Option<AU> {
    var f := Filtered(c, au);
    if f == [] || !HasSlice(c, f) || ((!s.seenKey || needKey) && !HasKey(c, f)) then None else Some(f)
  }

  function AfterFrame(c: Codec, s: Relay, au: AU, needKey: bool): Relay {
    var f := Admitted(c, s, au, needKey);
    if f.None? then s else Relay(true, Tracked(c, s.sets, f.value))
  }

  function OutFrame(c: Codec, s: Relay, au: AU, needKey: bool): Option<AU> {
    var f := Admitted(c, s, au, needKey);
    if f.None? then None else Some(Ensured(c, f.value, AfterFrame(c, s, au, needKey).sets))
  }

  /** The variables captured by the RTP callback of one camera session. */
  class CameraRelay {
    const codec: Codec
    var seenKey: bool
    var cam: Sets

    constructor (codec: Codec, announced: Sets)
      ensures this.codec == codec && !seenKey && cam == announced
    {
      this.codec, seenKey, cam := codec, false, announced;
    }

    /** One decoded access unit: what is forwarded, and whether the camera takes over with it. */
    method OnVideoAU(decoded: AU, needKey: bool) returns (out: Option<AU>, takesOver: bool)
      modifies this
      ensures Relay(seenKey, cam) == AfterFrame(codec, old(Relay(seenKey, cam)), decoded, needKey)
      ensures out == OutFrame(codec, old(Relay(seenKey, cam)), decoded, needKey)
      ensures takesOver <==> out.Some? && (!old(seenKey) || needKey)
    {
      out, takesOver := None, false;
      var au;
      if codec.H264? {
        au := FilterH264NALUs(decoded);
      } else {
        au := FilterH265NALUs(decoded);
      }
      if |au| == 0 {
        return;
      }
      var picture := HasVCL(codec, au);
      if !picture {
        return;
      }
      if !seenKey || needKey {
        var key := IsKeyframeAU(au, codec);
        if !key {
          return;
        }
        takesOver := true;
        seenKey := true;
      }
      cam := TrackSets(codec, cam, au);
      if codec.H264? {
        au := EnsureSPSPPS(au, cam.sps, cam.pps);
      } else {
        au := EnsureVPSSPSPPS(au, cam.vps, cam.sps, cam.pps);
      }
      out := Some(au);
    }
  }
}
