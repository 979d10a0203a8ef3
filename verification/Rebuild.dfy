/**
 Which DESCRIBE answers make the proxy rebuild its output stream, and what it
 advertises afterwards.
 */
module Rebuild {
  import opened Wrappers
  import opened AnnexB
  import opened AccessUnit
  import opened AccessUnitLaws

  /** What a camera announces; any set may be missing. */
  datatype Announcement = Announcement(codec: Codec, sets: Sets)

  /** What FFmpeg's encoder gives for the placeholder, if anything. */
  datatype Encoded = NoFrame | Encoded(sets: Sets)

  /** Codec and sets of the handler (`own`), and those of the live description (`sdp`). */
  datatype State = State(codec: Codec, own: Sets, sdpCodec: Codec, sdp: Sets)

  /** Go's bytes.Equal: a missing set equals an empty one. */
  predicate SameBytes(a: Option<Nalu>, b: Option<Nalu>) {
    a.GetOr([]) == b.GetOr([])
  }

  predicate SameSets(c: Codec, a: Sets, b: Sets) {
    SameBytes(a.sps, b.sps) && SameBytes(a.pps, b.pps) && (c.H265? ==> SameBytes(a.vps, b.vps))
  }

  predicate NothingKnown(c: Codec, s: Sets) {
    s.sps.None? && s.pps.None? && (c.H265? ==> s.vps.None?)
  }

  /** The announcement contradicts what is advertised. */
  predicate Differs(s: State, a: Announcement) {
    Complete(a.codec, a.sets) && !NothingKnown(a.codec, s.own) && !SameSets(a.codec, s.own, a.sets)
  }

  predicate NeedsRebuild(s: State, a: Announcement) {
    a.codec != s.codec || Differs(s, a)
  }

  /** The placeholder's sets fill in what the camera did not give. */
  function PreEncoded(c: Codec, own: Sets, e: Encoded): Sets {
    if e.NoFrame? then own
    else if c.H265? then Sets(OrElse(own.vps, e.sets.vps), OrElse(own.sps, e.sets.sps), OrElse(own.pps, e.sets.pps))
    else if own.sps.None? && e.sets.sps.Some? && e.sets.pps.Some? then own.(sps := e.sets.sps, pps := e.sets.pps)
    else own
  }

  function Adopt(c: Codec, own: Sets, announced: Sets): Sets {
    if c.H265? then announced else own.(sps := announced.sps, pps := announced.pps)
  }

  function AfterRebuild(s: State, a: Announcement, e: Encoded): State {
    var own := if Complete(a.codec, a.sets) then Adopt(a.codec, s.own, a.sets) else PreEncoded(a.codec, s.own, e);
    State(a.codec, own, a.codec, own)
  }

  /** The announcement's sets are copied as a whole once its first one is there. */
  predicate Leads(a: Announcement) {
    if a.codec.H265? then a.sets.vps.Some? else a.sets.sps.Some?
  }

  function AfterSession(s: State, a: Announcement, e: Encoded): State {
    var s1 := if NeedsRebuild(s, a) then AfterRebuild(s, a, e) else s;
    if !Leads(a) then s1.(codec := a.codec)
    else
      State(a.codec, Adopt(a.codec, s1.own, a.sets), s1.sdpCodec,
            if s1.sdpCodec == a.codec then Adopt(a.codec, s1.sdp, a.sets) else s1.sdp)
  }

  /** What a forwarded H.264 frame does to the description, and to nothing else. */
  function Captured(s: State, au: AU): State {
    var pair := SetsOf(H264, au);
    if s.sdpCodec.H264? && Complete(H264, pair) then s.(sdp := s.sdp.(sps := pair.sps, pps := pair.pps)) else s
  }

  /** The handler's view of its advertised parameters. `rebuilds` counts the times consumers are cut off. */
  class Advertiser {
    var codec: Codec
    var own: Sets
    var sdpCodec: Codec
    var sdp: Sets
    ghost var rebuilds: nat

    ghost function View(): State
      reads this
    {
      State(codec, own, sdpCodec, sdp)
    }

    constructor (codec: Codec, own: Sets)
      ensures View() == State(codec, own, codec, own) && rebuilds == 0
    {
      this.codec, this.own, sdpCodec, sdp, rebuilds := codec, own, codec, own, 0;
    }

    method CameraParamsDiffer(a: Announcement) returns (differ: bool)
      ensures differ == Differs(View(), a)
    {
      if a.codec.H265? {
        if a.sets.vps.None? || a.sets.sps.None? || a.sets.pps.None? {
          return false;
        }
        if own.vps.None? && own.sps.None? && own.pps.None? {
          return false;
        }
        return own.vps.GetOr([]) != a.sets.vps.value || own.sps.GetOr([]) != a.sets.sps.value
            || own.pps.GetOr([]) != a.sets.pps.value;
      }
      if a.sets.sps.None? || a.sets.pps.None? {
        return false;
      }
      if own.sps.None? && own.pps.None? {
        return false;
      }
      return own.sps.GetOr([]) != a.sets.sps.value || own.pps.GetOr([]) != a.sets.pps.value;
    }

    method PreEncodeFallback(e: Encoded)
      modifies this`own
      ensures own == PreEncoded(codec, old(own), e)
    {
      if e.NoFrame? {
        return;
      }
      if codec.H265? {
        if own.vps.None? {
          own := own.(vps := e.sets.vps);
        }
        if own.sps.None? {
          own := own.(sps := e.sets.sps);
        }
        if own.pps.None? {
          own := own.(pps := e.sets.pps);
        }
      } else if own.sps.None? && e.sets.sps.Some? && e.sets.pps.Some? {
        own := own.(sps := e.sets.sps, pps := e.sets.pps);
      }
    }

    method RebuildForCodec(a: Announcement, e: Encoded)
      modifies this
      ensures View() == AfterRebuild(old(View()), a, e) && rebuilds == old(rebuilds) + 1
    {
      codec := a.codec;
      var cameraParamsSet := false;
      if a.codec.H265? {
        if a.sets.vps.Some? && a.sets.sps.Some? && a.sets.pps.Some? {
          own := a.sets;
          cameraParamsSet := true;
        }
      } else if a.sets.sps.Some? && a.sets.pps.Some? {
        own := own.(sps := a.sets.sps, pps := a.sets.pps);
        cameraParamsSet := true;
      }
      if !cameraParamsSet {
        PreEncodeFallback(e);
      }
      sdpCodec, sdp := codec, own;
      rebuilds := rebuilds + 1;
    }

    /** In-band sets of an H.264 frame go to the live description, both or neither. */
    method CaptureKeyframeH264(au: AU)
      modifies this`sdp
      ensures View() == Captured(old(View()), au)
    {
      var sps: Option<Nalu>, pps: Option<Nalu> := None, None;
      for i := 0 to |au|
        invariant sps == LastSet(H264, Sps, au, i) && pps == LastSet(H264, Pps, au, i)
        invariant sps.Some? ==> sps.value != []
        invariant pps.Some? ==> pps.value != []
      {
        var nalu := au[i];
        if |nalu| == 0 {
          continue;
        }
        if nalu[0] % 32 == 7 {
          sps := Some(nalu);
        } else if nalu[0] % 32 == 8 {
          pps := Some(nalu);
        }
      }
      if sps.Some? && pps.Some? && sdpCodec.H264? {
        if sdp.sps.GetOr([]) != sps.value || sdp.pps.GetOr([]) != pps.value {
          sdp := sdp.(sps := sps, pps := pps);
        }
      }
    }

    /** One DESCRIBE answer of the camera. */
    method OnDescribe(a: Announcement, e: Encoded)
      modifies this
      ensures View() == AfterSession(old(View()), a, e)
      ensures rebuilds == old(rebuilds) + if NeedsRebuild(old(View()), a) then 1 else 0
    {
      var differ := CameraParamsDiffer(a);
      if a.codec != codec || differ {
        RebuildForCodec(a, e);
      }
      codec := a.codec;
      if a.codec.H264? {
        if a.sets.sps.Some? {
          if sdpCodec.H264? {
            sdp := sdp.(sps := a.sets.sps, pps := a.sets.pps);
          }
          own := own.(sps := a.sets.sps, pps := a.sets.pps);
        }
      } else if a.sets.vps.Some? {
        if sdpCodec.H265? {
          sdp := a.sets;
        }
        own := a.sets;
      }
    }
  }

  // ---------------------------------------------------------------------
  // Convergence
  // ---------------------------------------------------------------------

  /** Two announcements no camera or consumer can tell apart. */
  predicate SameAnnouncement(a: Announcement, b: Announcement) {
    && a.codec == b.codec && a.sets.sps == b.sets.sps && a.sets.pps == b.sets.pps
    && (a.codec.H265? ==> a.sets.vps == b.sets.vps)
  }

  /** Whatever a session announces, partly or fully, announcing it again needs no rebuild. */
  lemma SettledAfterSession(s: State, a: Announcement, e: Encoded, b: Announcement)
    requires SameAnnouncement(a, b)
    ensures !NeedsRebuild(AfterSession(s, a, e), b)
  {
  }

  /**
   What a DESCRIBE leaves with the handler: the announced sets as a whole, missing
   ones included, once the first one is there; otherwise, without a rebuild, what
   it had, and with one what the placeholder adds to that.
   */
  lemma WhatADescribeLeaves(s: State, a: Announcement, e: Encoded)
    ensures var t := AfterSession(s, a, e);
      && t.codec == a.codec
      && (a.codec.H264? && a.sets.sps.Some? ==> t.own.sps == a.sets.sps && t.own.pps == a.sets.pps && t.own.vps == s.own.vps)
      && (a.codec.H265? && a.sets.vps.Some? ==> t.own == a.sets)
      && ((if a.codec.H264? then a.sets.sps.None? else a.sets.vps.None?) ==>
            if a.codec == s.codec then t.own == s.own && t.sdp == s.sdp
            else t.own == t.sdp == PreEncoded(a.codec, s.own, e))
  {
  }

  /** Held bytes; a missing set has none. */
  function Bytes(o: Option<Nalu>): seq<byte> {
    match o
    case None => []
    case Some(n) => n
  }

  /**
   While the codec stays, consumers are cut off exactly by an announcement that
   is complete, when the handler holds some set of the codec, and an announced
   set has other bytes than the held one.
   */
  lemma WhenConsumersAreCutOff(s: State, a: Announcement)
    requires a.codec == s.codec
    ensures NeedsRebuild(s, a) <==>
      match a.codec
      case H264 =>
        && a.sets.sps.Some? && a.sets.pps.Some?
        && (s.own.sps.Some? || s.own.pps.Some?)
        && (Bytes(a.sets.sps) != Bytes(s.own.sps) || Bytes(a.sets.pps) != Bytes(s.own.pps))
      case H265 =>
        && a.sets.vps.Some? && a.sets.sps.Some? && a.sets.pps.Some?
        && (s.own.vps.Some? || s.own.sps.Some? || s.own.pps.Some?)
        && (Bytes(a.sets.vps) != Bytes(s.own.vps) || Bytes(a.sets.sps) != Bytes(s.own.sps)
            || Bytes(a.sets.pps) != Bytes(s.own.pps))
  {
  }

  /** From nothing known, the first session never rebuilds while the codec stays, whatever it announces. */
  lemma FirstSessionNeverRebuilds(s: State, vs: seq<Visit>)
    requires vs != [] && vs[0].a.codec == s.codec
    requires s.own.sps.None? && s.own.pps.None? && (s.codec.H265? ==> s.own.vps.None?)
    ensures !RebuildsAt(s, vs, 0) && Rebuilds(s, vs, 1) == 0
  {
    WhenConsumersAreCutOff(s, vs[0].a);
    assert Rebuilds(s, vs, 1) == Rebuilds(s, vs, 0) + if RebuildsAt(s, vs, 0) then 1 else 0;
  }

  /** A warm start whose sets are the camera's never rebuilds. */
  lemma WarmStart(s: State, a: Announcement)
    requires s.codec == a.codec && SameSets(a.codec, s.own, a.sets)
    ensures !NeedsRebuild(s, a)
  {
  }

  /** One session: the DESCRIBE answer, then the frames forwarded. */
  datatype Visit = Visit(a: Announcement, e: Encoded, frames: seq<AU>)

  /** After j frames of a session of codec c; H.265 frames leave the description alone. */
  function AfterFrames(s: State, c: Codec, frames: seq<AU>, j: nat): State
    requires j <= |frames|
  {
    if j == 0 || c.H265? then s else Captured(AfterFrames(s, c, frames, j - 1), frames[j - 1])
  }

  function During(s: State, v: Visit, j: nat): State
    requires j <= |v.frames|
  {
    AfterFrames(AfterSession(s, v.a, v.e), v.a.codec, v.frames, j)
  }

  function After(s: State, vs: seq<Visit>, k: nat): State
    requires k <= |vs|
  {
    if k == 0 then s else During(After(s, vs, k - 1), vs[k - 1], |vs[k - 1].frames|)
  }

  /** Frames leave what rebuilds depend on alone. */
  lemma {:induction false} FramesKeepOwn(s: State, c: Codec, frames: seq<AU>, j: nat)
    requires j <= |frames|
    ensures var t := AfterFrames(s, c, frames, j);
      t.codec == s.codec && t.own == s.own && t.sdpCodec == s.sdpCodec
  {
    if j > 0 {
      FramesKeepOwn(s, c, frames, j - 1);
    }
  }

  predicate RebuildsAt(s: State, vs: seq<Visit>, k: nat)
    requires k < |vs|
  {
    NeedsRebuild(After(s, vs, k), vs[k].a)
  }

  function Rebuilds(s: State, vs: seq<Visit>, k: nat): nat
    requires k <= |vs|
  {
    if k == 0 then 0 else Rebuilds(s, vs, k - 1) + if RebuildsAt(s, vs, k - 1) then 1 else 0
  }

  /** How often the announcement changes from one session to the next among the first k. */
  function Changes(vs: seq<Visit>, k: nat): nat
    requires k <= |vs|
  {
    if k <= 1 then 0
    else Changes(vs, k - 1) + if SameAnnouncement(vs[k - 2].a, vs[k - 1].a) then 0 else 1
  }

  /** Only the first session, or one whose announcement changed, rebuilds. */
  lemma RebuildMeansChange(s: State, vs: seq<Visit>, k: nat)
    requires 0 < k < |vs| && RebuildsAt(s, vs, k)
    ensures !SameAnnouncement(vs[k - 1].a, vs[k].a)
  {
    if SameAnnouncement(vs[k - 1].a, vs[k].a) {
      var v := vs[k - 1];
      SettledAfterSession(After(s, vs, k - 1), v.a, v.e, vs[k].a);
      FramesKeepOwn(AfterSession(After(s, vs, k - 1), v.a, v.e), v.a.codec, v.frames, |v.frames|);
    }
  }

  /** Rebuilds number at most one more than the changes, and none more after a warm start. */
  lemma {:induction false} RebuildsAreBounded(s: State, vs: seq<Visit>, k: nat)
    requires k <= |vs|
    ensures Rebuilds(s, vs, k) <= 1 + Changes(vs, k)
    ensures k > 0 && !RebuildsAt(s, vs, 0) ==> Rebuilds(s, vs, k) <= Changes(vs, k)
  {
    if k > 0 {
      RebuildsAreBounded(s, vs, k - 1);
      if k > 1 && RebuildsAt(s, vs, k - 1) {
        RebuildMeansChange(s, vs, k - 1);
      }
    }
  }

  // ---------------------------------------------------------------------
  // What consumers are told
  // ---------------------------------------------------------------------

  /** The live description says what the handler holds. */
  predicate InStep(s: State) {
    s.sdpCodec == s.codec && s.sdp.sps == s.own.sps && s.sdp.pps == s.own.pps
    && (s.codec.H265? ==> s.sdp.vps == s.own.vps)
  }

  /** The announcement settles what is advertised, by a rebuild or by being copied. */
  predicate Settles(s: State, a: Announcement) {
    NeedsRebuild(s, a) || Leads(a)
  }

  /** The last complete pair of in-band sets among the first j frames of an H.264 session. */
  function LastPair(c: Codec, frames: seq<AU>, j: nat): Option<Sets>
    requires j <= |frames|
  {
    if j == 0 || c.H265? then None
    else if Complete(H264, SetsOf(H264, frames[j - 1])) then Some(SetsOf(H264, frames[j - 1]))
    else LastPair(c, frames, j - 1)
  }

  /** The last in-band pair that nothing has settled since, after j frames of session k. */
  function Unsettled(s: State, vs: seq<Visit>, k: nat, j: nat): Option<Sets>
    requires k < |vs| && j <= |vs[k].frames|
    decreases k
  {
    var pair := LastPair(vs[k].a.codec, vs[k].frames, j);
    if pair.Some? then pair
    else if Settles(After(s, vs, k), vs[k].a) || k == 0 then None
    else Unsettled(s, vs, k - 1, |vs[k - 1].frames|)
  }

  /** The description carries the pair if there is one, and is in step otherwise. */
  predicate Carries(s: State, pair: Option<Sets>) {
    && s.sdpCodec == s.codec
    && if pair.None? then InStep(s)
       else s.codec.H264? && s.sdp.sps == pair.value.sps && s.sdp.pps == pair.value.pps
  }

  lemma SessionCarries(s: State, a: Announcement, e: Encoded, pair: Option<Sets>)
    requires Carries(s, pair)
    ensures Carries(AfterSession(s, a, e), if Settles(s, a) then None else pair)
    ensures AfterSession(s, a, e).codec == a.codec
  {
  }

  lemma {:induction false} FramesCarry(s: State, c: Codec, frames: seq<AU>, j: nat, pair: Option<Sets>)
    requires j <= |frames| && Carries(s, pair) && s.codec == c
    ensures var last := LastPair(c, frames, j);
      Carries(AfterFrames(s, c, frames, j), if last.Some? then last else pair)
  {
    FramesKeepOwn(s, c, frames, j);
    if j > 0 {
      FramesCarry(s, c, frames, j - 1, pair);
    }
  }

  lemma {:induction false} AlwaysCarries(s: State, vs: seq<Visit>, k: nat, j: nat)
    requires k < |vs| && j <= |vs[k].frames| && InStep(s)
    ensures Carries(During(After(s, vs, k), vs[k], j), Unsettled(s, vs, k, j))
    decreases k
  {
    var before := After(s, vs, k);
    var carried := if k == 0 then None else Unsettled(s, vs, k - 1, |vs[k - 1].frames|);
    if k > 0 {
      AlwaysCarries(s, vs, k - 1, |vs[k - 1].frames|);
    }
    assert Carries(before, carried);
    SessionCarries(before, vs[k].a, vs[k].e, carried);
    FramesCarry(AfterSession(before, vs[k].a, vs[k].e), vs[k].a.codec, vs[k].frames, j,
                if Settles(before, vs[k].a) then None else carried);
  }

  /**
   At any point of any run, the description says what the handler holds exactly
   when no in-band pair is left unsettled, or the last one is the handler's own.
   */
  lemma WhenInStep(s: State, vs: seq<Visit>, k: nat, j: nat)
    requires k < |vs| && j <= |vs[k].frames| && InStep(s)
    ensures var t, pair := During(After(s, vs, k), vs[k], j), Unsettled(s, vs, k, j);
      InStep(t) <==> pair.None? || (pair.value.sps == t.own.sps && pair.value.pps == t.own.pps)
  {
    AlwaysCarries(s, vs, k, j);
  }

  /** One frame: the description stays in step exactly when its pair is the handler's own. */
  lemma WhenAFrameKeepsStep(s: State, au: AU)
    requires InStep(s)
    ensures var pair := SetsOf(H264, au);
      InStep(Captured(s, au))
      <==> (s.codec.H264? && Complete(H264, pair) ==> pair.sps == s.own.sps && pair.pps == s.own.pps)
  {
  }

  /** A camera that announces one pair and sends another ends with a description that is not the handler's. */
  lemma OutOfStep() returns (s: State, v: Visit)
    ensures InStep(s) && v.a.codec.H264? && Complete(v.a.codec, v.a.sets) && |v.frames| == 1
    ensures !NeedsRebuild(s, v.a) && InStep(During(s, v, 0)) && !InStep(During(s, v, 1))
  {
    var announced := Sets(None, Some([7, 1]), Some([8, 1]));
    s := State(H264, announced, H264, announced);
    var frame: AU := [[7, 2], [8, 2], [5]];
    v := Visit(Announcement(H264, announced), NoFrame, [frame]);
    assert LastSet(H264, Sps, frame, 3) == LastSet(H264, Sps, frame, 2) == LastSet(H264, Sps, frame, 1) == Some([7, 2]);
    assert LastSet(H264, Pps, frame, 3) == LastSet(H264, Pps, frame, 2) == Some([8, 2]);
    assert AfterFrames(AfterSession(s, v.a, v.e), H264, v.frames, 1) == Captured(AfterSession(s, v.a, v.e), frame);
  }

  /** After a DESCRIBE that announced all its sets, the description carries exactly those. */
  lemma FullAnnouncementIsAdvertised(s: State, vs: seq<Visit>, k: nat)
    requires k < |vs| && InStep(s) && Complete(vs[k].a.codec, vs[k].a.sets)
    ensures var t := During(After(s, vs, k), vs[k], 0);
      SameAnnouncement(Announcement(t.sdpCodec, t.sdp), vs[k].a)
  {
    if k > 0 {
      AlwaysCarries(s, vs, k - 1, |vs[k - 1].frames|);
    }
  }

  // ---------------------------------------------------------------------
  // Sets of the right codec
  // ---------------------------------------------------------------------

  /** The camera announces, and FFmpeg gives, sets of the codec in question. */
  predicate TypedInput(a: Announcement, e: Encoded) {
    WellTyped(a.codec, a.sets) && (e.Encoded? ==> WellTyped(a.codec, e.sets))
  }

  /** The placeholder's own pair replaces whatever is left. */
  predicate PairReplaced(c: Codec, own: Sets, e: Encoded) {
    c.H264? && own.sps.None? && e.Encoded? && e.sets.sps.Some? && e.sets.pps.Some?
  }

  lemma PreEncodedTyped(c: Codec, own: Sets, e: Encoded)
    requires e.Encoded? ==> WellTyped(c, e.sets)
    ensures WellTyped(c, PreEncoded(c, own, e)) <==> WellTyped(c, own) || PairReplaced(c, own, e)
  {
    var after := PreEncoded(c, own, e);
    if c.H265? {
      assert forall r: Role :: after.Get(r) == if e.NoFrame? then own.Get(r) else OrElse(own.Get(r), e.sets.Get(r));
    } else {
      assert own.Get(Sps) == own.sps && own.Get(Pps) == own.pps && after.Get(Sps) == after.sps && after.Get(Pps) == after.pps;
      assert e.Encoded? ==> e.sets.Get(Sps) == e.sets.sps && e.sets.Get(Pps) == e.sets.pps;
      PairTyped(own);
      PairTyped(after);
    }
  }

  /** For H.264 only the pair matters. */
  lemma PairTyped(s: Sets)
    ensures WellTyped(H264, s) <==>
      (s.sps.Some? ==> IsSet(H264, Sps, s.sps.value)) && (s.pps.Some? ==> IsSet(H264, Pps, s.pps.value))
  {
    assert s.Get(Sps) == s.sps && s.Get(Pps) == s.pps;
  }

  lemma AdoptTyped(c: Codec, own: Sets, announced: Sets)
    requires WellTyped(c, announced)
    ensures WellTyped(c, Adopt(c, own, announced))
  {
    if c.H264? {
      PairTyped(announced);
      PairTyped(Adopt(c, own, announced));
    }
  }

  /**
   The sets advertised after a DESCRIBE are of the advertised codec exactly when
   the announcement leads with its first set, or the codec stays and they were,
   or it changes and what is left of the old sets is of the new codec or replaced.
   */
  lemma WhenSetsAreTyped(s: State, a: Announcement, e: Encoded)
    requires s.sdpCodec == s.codec && TypedInput(a, e)
    ensures var t := AfterSession(s, a, e);
      WellTyped(t.sdpCodec, t.sdp) <==>
        || Leads(a)
        || (if a.codec == s.codec then WellTyped(s.sdpCodec, s.sdp)
            else WellTyped(a.codec, s.own) || PairReplaced(a.codec, s.own, e))
  {
    if Leads(a) {
      LeadingIsTyped(s, a, e);
    } else if NeedsRebuild(s, a) {
      PreEncodedTyped(a.codec, s.own, e);
    }
  }

  lemma LeadingIsTyped(s: State, a: Announcement, e: Encoded)
    requires s.sdpCodec == s.codec && TypedInput(a, e) && Leads(a)
    ensures WellTyped(AfterSession(s, a, e).sdpCodec, AfterSession(s, a, e).sdp)
  {
    var s1 := if NeedsRebuild(s, a) then AfterRebuild(s, a, e) else s;
    AdoptTyped(a.codec, s1.sdp, a.sets);
  }

  /** Frames only bring sets of their codec. */
  lemma CapturedTyped(s: State, au: AU)
    requires WellTyped(s.sdpCodec, s.sdp)
    ensures WellTyped(Captured(s, au).sdpCodec, Captured(s, au).sdp)
  {
    LastSetIsSet(H264, Sps, au, |au|);
    LastSetIsSet(H264, Pps, au, |au|);
    if s.sdpCodec.H264? {
      PairTyped(s.sdp);
      PairTyped(Captured(s, au).sdp);
    }
  }

  lemma {:induction false} FramesTyped(s: State, c: Codec, frames: seq<AU>, j: nat)
    requires j <= |frames| && WellTyped(s.sdpCodec, s.sdp)
    ensures WellTyped(AfterFrames(s, c, frames, j).sdpCodec, AfterFrames(s, c, frames, j).sdp)
  {
    if j > 0 {
      FramesTyped(s, c, frames, j - 1);
      if c.H264? {
        CapturedTyped(AfterFrames(s, c, frames, j - 1), frames[j - 1]);
      }
    }
  }

  /** Every session is typed and announces a new codec with its first set. */
  predicate LeadsWhenChanging(s: State, vs: seq<Visit>, k: nat)
    requires k <= |vs|
  {
    forall m :: 0 <= m < k ==> TypedInput(vs[m].a, vs[m].e) && (vs[m].a.codec != After(s, vs, m).codec ==> Leads(vs[m].a))
  }

  /** Then what is advertised is of its codec throughout. */
  lemma {:induction false} AdvertisedStaysTyped(s: State, vs: seq<Visit>, k: nat)
    requires k <= |vs| && s.sdpCodec == s.codec && WellTyped(s.sdpCodec, s.sdp) && LeadsWhenChanging(s, vs, k)
    ensures var t := After(s, vs, k); t.sdpCodec == t.codec && WellTyped(t.sdpCodec, t.sdp)
  {
    if k > 0 {
      AdvertisedStaysTyped(s, vs, k - 1);
      VisitTyped(After(s, vs, k - 1), vs[k - 1]);
    }
  }

  lemma VisitTyped(s: State, v: Visit)
    requires s.sdpCodec == s.codec && WellTyped(s.sdpCodec, s.sdp)
    requires TypedInput(v.a, v.e) && (v.a.codec != s.codec ==> Leads(v.a))
    ensures var t := During(s, v, |v.frames|); t.sdpCodec == t.codec && WellTyped(t.sdpCodec, t.sdp)
  {
    WhenSetsAreTyped(s, v.a, v.e);
    FramesKeepOwn(AfterSession(s, v.a, v.e), v.a.codec, v.frames, |v.frames|);
    FramesTyped(AfterSession(s, v.a, v.e), v.a.codec, v.frames, |v.frames|);
  }

  /**
   A camera that turns out to be H.265 and announces no sets: the description and
   every keyframe the fallback rewrites carry the new VPS with the old H.264 SPS
   and PPS.
   */
  lemma MixedSets(sps264: Nalu, pps264: Nalu, e: Encoded)
    requires IsSet(H264, Sps, sps264) && IsSet(H264, Pps, pps264) && !IsSet(H265, Sps, sps264)
    requires e.Encoded? && WellTyped(H265, e.sets) && Complete(H265, e.sets)
    ensures var own := Sets(None, Some(sps264), Some(pps264));
      var t := AfterSession(State(H264, own, H264, own), Announcement(H265, NO_SETS), e);
      && t.sdpCodec == H265 && t.sdp == Sets(e.sets.vps, Some(sps264), Some(pps264))
      && !WellTyped(H265, t.sdp)
      && forall au :: HasKey(H265, au) ==>
           [e.sets.vps.value, sps264, pps264] <= Ensured(H265, au, t.own)
  {
    var mixed := Sets(e.sets.vps, Some(sps264), Some(pps264));
    assert mixed.Get(Sps) == Some(sps264);
    assert Complete(H265, mixed) && Heads(H265, mixed) == [e.sets.vps.value, sps264, pps264];
  }

  // ---------------------------------------------------------------------
  // What consumers that stay connected are told
  // ---------------------------------------------------------------------

  /** Without a rebuild a DESCRIBE changes the description exactly when its sets are copied and are others. */
  lemma DescribeChangesSilently(s: State, a: Announcement, e: Encoded)
    requires s.sdpCodec == s.codec && !NeedsRebuild(s, a)
    ensures SameSets(s.codec, AfterSession(s, a, e).sdp, s.sdp) <==> !(Leads(a) && !SameSets(a.codec, a.sets, s.sdp))
  {
  }

  /** From a description in step: only a partial announcement does so, or a complete one when nothing was known. */
  lemma SilentChange(s: State, a: Announcement, e: Encoded)
    requires InStep(s) && !NeedsRebuild(s, a)
    ensures SameSets(s.codec, AfterSession(s, a, e).sdp, s.sdp)
            <==> !(Leads(a) && (!Complete(a.codec, a.sets) || NothingKnown(s.codec, s.own))
                   && !SameSets(a.codec, a.sets, s.sdp))
  {
  }

  /** A frame changes the description exactly when it carries a pair and another one. */
  lemma FrameChangesSilently(s: State, au: AU)
    ensures SameSets(s.sdpCodec, Captured(s, au).sdp, s.sdp)
            <==> !(s.sdpCodec.H264? && Complete(H264, SetsOf(H264, au)) && !SameSets(H264, SetsOf(H264, au), s.sdp))
  {
  }

  /** The session tells consumers nothing but `told`: neither its announcement nor any frame brings other sets. */
  predicate TellsOnly(c: Codec, told: Sets, v: Visit, j: nat)
    requires j <= |v.frames|
  {
    && (Leads(v.a) ==> SameSets(c, v.a.sets, told))
    && forall i :: 0 <= i < j && c.H264? && Complete(H264, SetsOf(H264, v.frames[i])) ==>
         SameSets(c, SetsOf(H264, v.frames[i]), told)
  }

  /** The description equals `told` at the DESCRIBE and after each of the first j frames. */
  predicate SaysOnly(s: State, c: Codec, told: Sets, v: Visit, j: nat)
    requires j <= |v.frames|
  {
    forall i :: 0 <= i <= j ==> SameSets(c, During(s, v, i).sdp, told)
  }

  /** A session without a rebuild: the description never changes exactly when nothing else is announced or sent. */
  lemma {:induction false} WhenConsumersKeepTheirSets(s: State, v: Visit, told: Sets, j: nat)
    requires j <= |v.frames| && s.sdpCodec == s.codec && !NeedsRebuild(s, v.a)
    requires SameSets(s.codec, s.sdp, told)
    ensures SaysOnly(s, s.codec, told, v, j) <==> TellsOnly(s.codec, told, v, j)
  {
    var t := AfterSession(s, v.a, v.e);
    if j == 0 {
      assert During(s, v, 0) == t;
    } else {
      WhenConsumersKeepTheirSets(s, v, told, j - 1);
      FramesKeepOwn(t, v.a.codec, v.frames, j - 1);
      assert During(s, v, j) == if s.codec.H265? then t else Captured(During(s, v, j - 1), v.frames[j - 1]);
      assert s.codec.H265? ==> During(s, v, 0) == t;
    }
  }

  lemma {:induction false} CodecStays(s: State, vs: seq<Visit>, k: nat)
    requires k <= |vs| && s.sdpCodec == s.codec && forall m :: 0 <= m < k ==> !RebuildsAt(s, vs, m)
    ensures After(s, vs, k).codec == After(s, vs, k).sdpCodec == s.codec
  {
    if k > 0 {
      CodecStays(s, vs, k - 1);
      assert !RebuildsAt(s, vs, k - 1);
      var v := vs[k - 1];
      FramesKeepOwn(AfterSession(After(s, vs, k - 1), v.a, v.e), v.a.codec, v.frames, |v.frames|);
    }
  }

  /** At every point of the first k sessions the description equals `told`. */
  predicate AlwaysSays(s: State, vs: seq<Visit>, told: Sets, k: nat)
    requires k <= |vs|
  {
    k == 0 || (AlwaysSays(s, vs, told, k - 1)
               && SaysOnly(After(s, vs, k - 1), s.codec, told, vs[k - 1], |vs[k - 1].frames|))
  }

  /** No announcement and no in-band pair of the first k sessions is other than `told`. */
  predicate AlwaysTells(c: Codec, vs: seq<Visit>, told: Sets, k: nat)
    requires k <= |vs|
  {
    forall m :: 0 <= m < k ==> TellsOnly(c, told, vs[m], |vs[m].frames|)
  }

  lemma ToldSoFar(s: State, vs: seq<Visit>, told: Sets, k: nat)
    requires k <= |vs| && SameSets(s.codec, s.sdp, told) && AlwaysSays(s, vs, told, k)
    ensures SameSets(s.codec, After(s, vs, k).sdp, told)
  {
    if k > 0 {
      var v := vs[k - 1];
      assert SameSets(s.codec, During(After(s, vs, k - 1), v, |v.frames|).sdp, told);
    }
  }

  /**
   Any number of sessions without a rebuild: consumers that stay connected are
   told the same sets throughout exactly when no session announces others or
   sends others in band.
   */
  lemma {:induction false} ConnectedConsumersKeepTheirSets(s: State, vs: seq<Visit>, told: Sets, k: nat)
    requires k <= |vs| && s.sdpCodec == s.codec && SameSets(s.codec, s.sdp, told)
    requires forall m :: 0 <= m < k ==> !RebuildsAt(s, vs, m)
    ensures AlwaysSays(s, vs, told, k) <==> AlwaysTells(s.codec, vs, told, k)
  {
    if k > 0 {
      ConnectedConsumersKeepTheirSets(s, vs, told, k - 1);
      CodecStays(s, vs, k - 1);
      assert !RebuildsAt(s, vs, k - 1);
      if AlwaysSays(s, vs, told, k - 1) {
        ToldSoFar(s, vs, told, k - 1);
        WhenConsumersKeepTheirSets(After(s, vs, k - 1), vs[k - 1], told, |vs[k - 1].frames|);
      }
    }
  }
}
