/**
 Neutral mode, the stall bound and the reported camera state, over every run of the handler.
 */
module HandlerModes {
  import opened Wrappers
  import opened AccessUnit
  import opened Handler
  import opened HandlerLaws

  // ---------------------------------------------------------------------
  // Neutral mode: held keyframes, then the neutral image, never back
  // ---------------------------------------------------------------------

  predicate ByRun(e: Entry, r: nat) {
    e.Deliver? && e.shot.from == FallbackRun(r)
  }

  predicate IsNeutral(e: Entry) {
    e.Deliver? && e.shot.picture.origin.NeutralImage?
  }

  predicate NeutralFirst(t: seq<Entry>, i: nat, j: nat, r: nat) {
    i < j < |t| && ByRun(t[i], r) && ByRun(t[j], r) && IsNeutral(t[i]) ==> IsNeutral(t[j])
  }

  ghost predicate Sticks(t: seq<Entry>) {
    forall i: nat, j: nat, r: nat :: i < j < |t| ==> NeutralFirst(t, i, j, r)
  }

  /** Run r has not shown the neutral image. */
  predicate NotYet(t: seq<Entry>, r: nat) {
    forall i :: 0 <= i < |t| && ByRun(t[i], r) ==> !IsNeutral(t[i])
  }

  ghost predicate Neutrals(s: State) {
    Sticks(s.trace) && (s.fb.Some? && !s.fb.value.serving ==> NotYet(s.trace, s.fb.value.id))
  }

  lemma SticksAppend(t: seq<Entry>, e: Entry)
    requires Sticks(t)
    requires forall r: nat :: ByRun(e, r) && !IsNeutral(e) ==> NotYet(t, r)
    ensures Sticks(t + [e])
  {
    var t' := t + [e];
    forall i: nat, j: nat, r: nat | i < j < |t'|
      ensures NeutralFirst(t', i, j, r)
    {
      assert t'[i] == t[i];
      if j < |t| {
        assert NeutralFirst(t, i, j, r);
      }
    }
  }

  lemma NotYetAppend(t: seq<Entry>, e: Entry, r: nat)
    requires NotYet(t, r) && !(ByRun(e, r) && IsNeutral(e))
    ensures NotYet(t + [e], r)
  {
  }

  lemma StartNeutrals(cfg: Config, s: State)
    requires Neutrals(s) && Shows(cfg, s)
    ensures Neutrals(Started(s))
  {
    SticksAppend(s.trace, Reset);
    if s.fb.None? {
      assert NotYet(s.trace, s.runs);
      NotYetAppend(s.trace, Reset, s.runs);
    }
  }

  lemma VideoNeutrals(s: State, now: int, frame: Frame, sent: bool)
    requires Neutrals(s) && s.session.Some?
    requires IsRelaying(s) ==> s.fb.None?
    ensures Neutrals(OnVideo(s, now, frame, sent))
  {
    var s1 := s.(lastPkt := now, lastVideo := now);
    if frame.Image? {
      var id := s.session.value.id;
      var e := Deliver(Shot(Session(id), Picture(s.codec, frame.key, FromCamera(id)), s.codec));
      SticksAppend(s.trace, e);
      SticksAppend(s.trace, Reset);
      SticksAppend(s.trace + [Reset], e);
    }
  }

  lemma FallbackTickNeutrals(cfg: Config, s: State, now: int, neutralOk: bool, sent: bool)
    requires Neutrals(s) && Shows(cfg, s) && s.fb.Some? && s.fb.value.begun
    ensures Neutrals(OnFallbackTick(cfg, s, now, neutralOk, sent))
  {
    var s', f := OnFallbackTick(cfg, s, now, neutralOk, sent), s.fb.value;
    if sent {
      var e := s'.trace[|s.trace|];
      assert s'.trace == s.trace + [e];
      SticksAppend(s.trace, e);
      if !s'.fb.value.serving {
        NotYetAppend(s.trace, e, f.id);
      }
    }
  }

  lemma EndedNeutrals(cfg: Config, s: State)
    requires Neutrals(s) && Shows(cfg, s)
    ensures Neutrals(Ended(cfg, s))
  {
    StartNeutrals(cfg, s.(session := None, described := false, camera := Sleeping));
  }

  lemma TickNeutrals(cfg: Config, s: State, now: int)
    requires Neutrals(s) && Shows(cfg, s) && s.session.Some?
    ensures Neutrals(OnTick(cfg, s, now))
  {
    var s1 := s.(lastTick := now);
    CarriesShows(cfg, s, s1);
    EndedNeutrals(cfg, s1);
    StartNeutrals(cfg, s1.(needKey := true, camera := Sleeping));
  }

  lemma RebuiltNeutrals(cfg: Config, s: State, codec: Codec, full: bool, encoded: Encoding)
    requires Neutrals(s) && Shows(cfg, s)
    ensures Neutrals(Rebuilt(s, codec, full, encoded))
  {
    var s1 := Stopped(s).(codec := codec, stored := None);
    StartNeutrals(cfg, s1.(pre := Renewed(s1.pre, codec, encoded)));
  }

  lemma StepNeutrals(cfg: Config, s: State, e: Event)
    requires Neutrals(s) && Shows(cfg, s) && Flows(s) && Enabled(s, e)
    ensures Neutrals(Apply(cfg, s, e))
  {
    var s0 := s.(clock := TimeOf(s, e));
    CarriesShows(cfg, s, s0);
    match e
    case Describe(_, _, _, _) => AnnouncedNeutrals(cfg, s, e);
    case HandshakeFails => EndedNeutrals(cfg, s0);
    case Video(now, frame, sent) => VideoNeutrals(s0, now, frame, sent);
    case Tick(now) => TickNeutrals(cfg, s0, now);
    case Closed(_) => EndedNeutrals(cfg, s0);
    case FallbackTick(now, neutralOk, sent) => FallbackTickNeutrals(cfg, s0, now, neutralOk, sent);
    case _ => QuietNeutrals(cfg, s, e);
  }

  lemma AnnouncedNeutrals(cfg: Config, s: State, e: Event)
    requires Neutrals(s) && Shows(cfg, s) && Enabled(s, e) && e.Describe?
    ensures Neutrals(Apply(cfg, s, e))
  {
    RebuiltNeutrals(cfg, s, e.codec, e.full, e.encoded);
  }

  lemma QuietNeutrals(cfg: Config, s: State, e: Event)
    requires Neutrals(s) && Shows(cfg, s) && Enabled(s, e) && (e.Begin? || e.Attempt? || e.Play? || e.Audio?)
    ensures Neutrals(Apply(cfg, s, e))
  {
  }

  lemma {:induction false} RunNeutrals(cfg: Config, s: State, es: seq<Event>)
    requires Neutrals(s) && Shows(cfg, s) && Flows(s) && Valid(cfg, s, es)
    ensures Neutrals(Run(cfg, s, es))
    decreases es
  {
    if es != [] {
      StepNeutrals(cfg, s, es[0]);
      StepShows(cfg, s, es[0]);
      StepFlows(cfg, s, es[0]);
      RunNeutrals(cfg, Apply(cfg, s, es[0]), es[1..]);
    }
  }

  /**
   Every picture a fallback run of a neutral stream shows is a camera keyframe of
   this process or the neutral image, never one restored from disk; and after
   the neutral image the run shows nothing else.
   */
  lemma NeutralStream(cfg: Config, codec: Codec, restored: bool, pre: Placeholder, es: seq<Event>, i: nat, r: nat)
    requires cfg.neutral && Valid(cfg, Initial(cfg, codec, restored, pre), es)
    requires var t := Run(cfg, Initial(cfg, codec, restored, pre), es).trace;
      i < |t| && ByRun(t[i], r)
    ensures var t := Run(cfg, Initial(cfg, codec, restored, pre), es).trace;
      && (IsNeutral(t[i]) || t[i].shot.picture.origin.FromCamera?)
      && forall j :: i < j < |t| && ByRun(t[j], r) && IsNeutral(t[i]) ==> IsNeutral(t[j])
  {
    var s := Initial(cfg, codec, restored, pre);
    InitialShows(cfg, codec, restored, pre);
    RunNeutrals(cfg, s, es);
    RunShows(cfg, s, es);
    var t := Run(cfg, s, es).trace;
    assert ShotOk(cfg, Run(cfg, s, es).runs, Run(cfg, s, es).sessions, t[i].shot);
    forall j | i < j < |t| && ByRun(t[j], r) && IsNeutral(t[i])
      ensures IsNeutral(t[j])
    {
      assert NeutralFirst(t, i, j, r);
    }
  }

  /** A keyframe is held only before the hold ends, or where the neutral image could not be had. */
  lemma HeldOnlyUntilTheHoldEnds(cfg: Config, s: State, now: int, neutralOk: bool)
    requires cfg.neutral && Shows(cfg, s) && Enabled(s, FallbackTick(now, neutralOk, true))
    ensures var s' := Apply(cfg, s, FallbackTick(now, neutralOk, true));
      && |s'.trace| == |s.trace| + 1
      && (!IsNeutral(s'.trace[|s.trace|])
          <==> !s.fb.value.serving && (now < s.fb.value.switchAt || !neutralOk))
  {
  }

  /** Without a keyframe of this process the run serves the neutral image at once, or gives up. */
  lemma NeutralAtOnce(cfg: Config, s: State, now: int, neutralOk: bool, encoded: Encoding, fps: int, rtpOk: bool)
    requires cfg.neutral && Enabled(s, Begin(now, neutralOk, encoded, fps, rtpOk))
    ensures var fb := Apply(cfg, s, Begin(now, neutralOk, encoded, fps, rtpOk)).fb;
      if rtpOk && (neutralOk || (s.stored.Some? && s.live)) then
        fb.Some? && fb.value.begun && (fb.value.serving <==> !(s.stored.Some? && s.live))
      else fb.None?
  {
  }

  // ---------------------------------------------------------------------
  // Stalls
  // ---------------------------------------------------------------------

  const TICK := 500  // the monitor's period in milliseconds

  /** The run finds nothing to serve, or no RTP encoder for it. */
  predicate GivesUp(cfg: Config, s: State, e: Event) {
    e.Begin? && (!e.rtpOk
                 || if cfg.neutral then !(s.stored.Some? && s.live) && !e.neutralOk
                    else s.stored.None? && s.pre.base.None? && !e.encoded.base)
  }

  lemma WhenARunGivesUp(cfg: Config, s: State, e: Event)
    requires Enabled(s, e) && e.Begin?
    ensures Apply(cfg, s, e).fb.None? <==> GivesUp(cfg, s, e)
  {
  }

  /** A run has given up since the last monitor tick or PLAY. */
  function LostAfter(cfg: Config, s: State, es: seq<Event>, lost: bool): bool
    requires Valid(cfg, s, es)
    decreases es
  {
    if es == [] then lost
    else LostAfter(cfg, Apply(cfg, s, es[0]), es[1..], Loses(cfg, s, es[0], lost))
  }

  function Loses(cfg: Config, s: State, e: Event, lost: bool): bool {
    if e.Tick? || e.Play? then false else lost || GivesUp(cfg, s, e)
  }

  /** A fallback run is live after a stall that the last tick saw, exactly when none has given up since. */
  predicate Watched(cfg: Config, s: State, lost: bool) {
    s.session.Some? ==>
      && s.lastTick <= s.clock && s.lastVideo <= s.clock
      && (lost ==> s.fb.None?)
      && (!lost && s.lastTick - s.lastVideo >= cfg.stall ==> s.fb.Some?)
  }

  lemma StepWatched(cfg: Config, s: State, e: Event, lost: bool)
    requires Watched(cfg, s, lost) && Enabled(s, e) && cfg.stall > 0 && cfg.CanFallback()
    ensures Watched(cfg, Apply(cfg, s, e), Loses(cfg, s, e, lost))
  {
    match e
    case Video(now, frame, sent) => VideoWatched(cfg, s.(clock := now), now, frame, sent, lost);
    case Tick(now) => TickWatched(cfg, s.(clock := now), now);
    case Begin(_, _, _, _, _) => BeginWatched(cfg, s, e, lost);
    case Describe(_, _, _, _) => EndedReports(cfg, s, e);
    case HandshakeFails => EndedReports(cfg, s, e);
    case Closed(_) => EndedReports(cfg, s, e);
    case _ => QuietWatched(cfg, s, e, lost);
  }

  lemma VideoWatched(cfg: Config, s: State, now: int, frame: Frame, sent: bool, lost: bool)
    requires s.session.Some? && s.clock == now && s.lastTick <= now && cfg.stall > 0 && (lost ==> s.fb.None?)
    ensures Watched(cfg, OnVideo(s, now, frame, sent), lost)
  {
  }

  lemma TickWatched(cfg: Config, s: State, now: int)
    requires s.session.Some? && s.clock == now && s.lastVideo <= now && cfg.CanFallback()
    ensures Watched(cfg, OnTick(cfg, s, now), false)
  {
  }

  lemma BeginWatched(cfg: Config, s: State, e: Event, lost: bool)
    requires Watched(cfg, s, lost) && Enabled(s, e) && e.Begin?
    ensures Watched(cfg, Apply(cfg, s, e), lost || GivesUp(cfg, s, e))
  {
    WhenARunGivesUp(cfg, s, e);
  }

  lemma QuietWatched(cfg: Config, s: State, e: Event, lost: bool)
    requires Watched(cfg, s, lost) && Enabled(s, e) && cfg.stall > 0
    requires e.Attempt? || e.Play? || e.Audio? || e.FallbackTick?
    ensures Watched(cfg, Apply(cfg, s, e), if e.Play? then false else lost)
  {
  }

  lemma {:induction false} RunWatched(cfg: Config, s: State, es: seq<Event>, lost: bool)
    requires Watched(cfg, s, lost) && Valid(cfg, s, es) && cfg.stall > 0 && cfg.CanFallback()
    ensures Watched(cfg, Run(cfg, s, es), LostAfter(cfg, s, es, lost))
    decreases es
  {
    if es != [] {
      StepWatched(cfg, s, es[0], lost);
      RunWatched(cfg, Apply(cfg, s, es[0]), es[1..], Loses(cfg, s, es[0], lost));
    }
  }

  /**
   Once no video packet has come for the stall timeout and one tick: the session
   is over, or a fallback run is live unless one has given up since the last
   tick, whatever happened before.
   */
  lemma StallBound(cfg: Config, codec: Codec, restored: bool, pre: Placeholder, es: seq<Event>, t: int)
    requires cfg.CanFallback() && cfg.stall > 0
    requires Valid(cfg, Initial(cfg, codec, restored, pre), es)
    requires var s := Run(cfg, Initial(cfg, codec, restored, pre), es);
      s.session.Some? ==> t - s.lastTick <= TICK && t - s.lastVideo >= cfg.stall + TICK
    ensures var s := Run(cfg, Initial(cfg, codec, restored, pre), es);
      s.session.None? || (s.fb.Some? <==> !LostAfter(cfg, Initial(cfg, codec, restored, pre), es, false))
  {
    RunWatched(cfg, Initial(cfg, codec, restored, pre), es, false);
  }

  /** At the last tick, a packet of any kind had come within the timeout. */
  predicate Alive(cfg: Config, s: State) {
    s.session.Some? ==>
      s.lastTick <= s.clock && s.lastPkt <= s.clock && s.lastTick - s.lastPkt < cfg.timeout
  }

  lemma StepAlive(cfg: Config, s: State, e: Event)
    requires Alive(cfg, s) && Enabled(s, e) && cfg.timeout > 0
    ensures Alive(cfg, Apply(cfg, s, e))
  {
    match e
    case Video(now, frame, sent) => VideoAlive(cfg, s.(clock := now), now, frame, sent);
    case Tick(now) => TickAlive(cfg, s.(clock := now), now);
    case _ =>
  }

  lemma VideoAlive(cfg: Config, s: State, now: int, frame: Frame, sent: bool)
    requires s.session.Some? && s.clock == now && s.lastTick <= now && cfg.timeout > 0
    ensures Alive(cfg, OnVideo(s, now, frame, sent))
  {
  }

  lemma TickAlive(cfg: Config, s: State, now: int)
    requires s.session.Some? && s.clock == now && s.lastPkt <= now
    ensures Alive(cfg, OnTick(cfg, s, now))
  {
  }

  lemma {:induction false} RunAlive(cfg: Config, s: State, es: seq<Event>)
    requires Alive(cfg, s) && Valid(cfg, s, es) && cfg.timeout > 0
    ensures Alive(cfg, Run(cfg, s, es))
    decreases es
  {
    if es != [] {
      StepAlive(cfg, s, es[0]);
      RunAlive(cfg, Apply(cfg, s, es[0]), es[1..]);
    }
  }

  /** A session without any packet for the timeout and one tick is over, in every mode. */
  lemma TimeoutBound(cfg: Config, codec: Codec, restored: bool, pre: Placeholder, es: seq<Event>, t: int)
    requires cfg.timeout > 0 && Valid(cfg, Initial(cfg, codec, restored, pre), es)
    requires var s := Run(cfg, Initial(cfg, codec, restored, pre), es);
      t - s.lastTick <= TICK && t - s.lastPkt >= cfg.timeout + TICK
    ensures Run(cfg, Initial(cfg, codec, restored, pre), es).session.None?
  {
    RunAlive(cfg, Initial(cfg, codec, restored, pre), es);
  }

  // ---------------------------------------------------------------------
  // No dead gap
  // ---------------------------------------------------------------------

  /** A fallback run is live, or camera frames are forwarded as they come. */
  predicate Covered(s: State) {
    s.fb.Some? || IsRelaying(s)
  }

  /** A rebuild on the camera's own parameter sets: no generated frame would fit them. */
  predicate CutsOff(s: State, e: Event) {
    e.Describe? && (e.codec != s.codec || e.differ) && e.full
  }

  /** Where the fallback is allowed, exactly two events leave the stream without a source. */
  lemma WhenTheSourceIsLost(cfg: Config, s: State, e: Event)
    requires cfg.CanFallback() && Flows(s) && Covered(s) && Enabled(s, e)
    ensures Covered(Apply(cfg, s, e)) <==> !CutsOff(s, e) && !GivesUp(cfg, s, e)
  {
    match e
    case Video(now, frame, sent) => VideoCovers(s.(clock := now), now, frame, sent);
    case Tick(now) => TickCovers(cfg, s.(clock := now), now);
    case _ =>
  }

  /** Each way does happen: a rebuild for the other codec, no RTP encoder, no neutral image, and no frame at all. */
  lemma TheSourceCanBeLost(cfg: Config, codec: Codec)
    requires cfg.CanFallback()
    ensures var s := Initial(cfg, codec, false, NO_PLACEHOLDER);
      && Covered(s)
      && (var e := Describe(if codec.H264? then H265 else H264, false, true, Encoding(false, false));
          Enabled(s, e) && CutsOff(s, e) && !Covered(Apply(cfg, s, e)))
      && (var e := Begin(0, true, Encoding(true, true), 2, false);
          Enabled(s, e) && GivesUp(cfg, s, e) && !Covered(Apply(cfg, s, e)))
      && (var e := Begin(0, !cfg.neutral, Encoding(cfg.neutral, false), 2, true);
          Enabled(s, e) && GivesUp(cfg, s, e) && !Covered(Apply(cfg, s, e)))
  {
  }

  lemma VideoCovers(s: State, now: int, frame: Frame, sent: bool)
    requires s.session.Some? && Covered(s)
    ensures Covered(OnVideo(s, now, frame, sent))
  {
  }

  lemma TickCovers(cfg: Config, s: State, now: int)
    requires s.session.Some? && Covered(s) && cfg.CanFallback()
    ensures Covered(OnTick(cfg, s, now))
  {
  }

  /** No event of the run is one of the two. */
  predicate Uncut(cfg: Config, s: State, es: seq<Event>)
    requires Valid(cfg, s, es)
    decreases es
  {
    es != [] ==>
      !CutsOff(s, es[0]) && !GivesUp(cfg, s, es[0]) && Uncut(cfg, Apply(cfg, s, es[0]), es[1..])
  }

  /** There is a source at the start of the events and after each. */
  predicate AlwaysCovered(cfg: Config, s: State, es: seq<Event>)
    requires Valid(cfg, s, es)
    decreases es
  {
    Covered(s) && (es != [] ==> AlwaysCovered(cfg, Apply(cfg, s, es[0]), es[1..]))
  }

  lemma {:induction false} RunCovered(cfg: Config, s: State, es: seq<Event>)
    requires cfg.CanFallback() && Flows(s) && Covered(s) && Valid(cfg, s, es)
    ensures AlwaysCovered(cfg, s, es) <==> Uncut(cfg, s, es)
    decreases es
  {
    if es != [] {
      WhenTheSourceIsLost(cfg, s, es[0]);
      StepFlows(cfg, s, es[0]);
      if Covered(Apply(cfg, s, es[0])) {
        RunCovered(cfg, Apply(cfg, s, es[0]), es[1..]);
      }
    }
  }

  /** From the first moment on and throughout, consumers have a source exactly in the runs without the two events. */
  lemma NoDeadGap(cfg: Config, codec: Codec, restored: bool, pre: Placeholder, es: seq<Event>)
    requires cfg.CanFallback() && Valid(cfg, Initial(cfg, codec, restored, pre), es)
    ensures AlwaysCovered(cfg, Initial(cfg, codec, restored, pre), es) <==> Uncut(cfg, Initial(cfg, codec, restored, pre), es)
  {
    RunCovered(cfg, Initial(cfg, codec, restored, pre), es);
  }

  /** A lost source comes back at the end of the handshake or session, with a keyframe, at a stall, or at a rebuild that generates its own frame. */
  lemma WhenTheSourceComesBack(cfg: Config, s: State, e: Event)
    requires cfg.CanFallback() && !Covered(s) && Enabled(s, e)
    ensures Covered(Apply(cfg, s, e)) <==>
      || e.HandshakeFails? || e.Closed?
      || (e.Video? && e.frame == Image(true))
      || (e.Tick? && (e.now - s.lastPkt >= cfg.timeout || e.now - s.lastVideo >= cfg.stall))
      || (e.Describe? && e.codec != s.codec && !e.full)
  {
    match e
    case Video(now, frame, sent) => VideoRecovers(s.(clock := now), now, frame, sent);
    case Tick(now) => TickRecovers(cfg, s.(clock := now), now);
    case _ =>
  }

  lemma VideoRecovers(s: State, now: int, frame: Frame, sent: bool)
    requires s.session.Some? && !Covered(s)
    ensures Covered(OnVideo(s, now, frame, sent)) <==> frame == Image(true)
  {
  }

  lemma TickRecovers(cfg: Config, s: State, now: int)
    requires s.session.Some? && !Covered(s) && cfg.CanFallback()
    ensures Covered(OnTick(cfg, s, now)) <==> now - s.lastPkt >= cfg.timeout || now - s.lastVideo >= cfg.stall
  {
  }

  /** While the session lasts, only a keyframe replaces a live fallback that does not give up. */
  lemma OnlyAKeyframeReplaces(cfg: Config, s: State, e: Event)
    requires Flows(s) && Enabled(s, e) && s.session.Some? && s.fb.Some?
    requires var s' := Apply(cfg, s, e);
      s'.session.Some? && (s'.fb.None? || s'.fb.value.id != s.fb.value.id)
    ensures (e.Video? && e.frame == Image(true) && !IsRelaying(s)) || GivesUp(cfg, s, e)
  {
  }

  // ---------------------------------------------------------------------
  // The reported camera state
  // ---------------------------------------------------------------------

  predicate Reports(s: State) {
    s.session.Some? && s.session.value.seenKey ==> (s.camera.Online? <==> !s.needKey)
  }

  lemma StepReports(cfg: Config, s: State, e: Event)
    requires Reports(s) && Enabled(s, e)
    ensures Reports(Apply(cfg, s, e))
  {
    match e
    case Video(now, frame, sent) => VideoReports(s.(clock := now), now, frame, sent);
    case Tick(now) => TickReports(cfg, s.(clock := now), now);
    case FallbackTick(now, neutralOk, sent) => FallbackReports(cfg, s.(clock := now), now, neutralOk, sent);
    case Closed(_) => EndedReports(cfg, s, e);
    case HandshakeFails => EndedReports(cfg, s, e);
    case Describe(_, _, _, _) => EndedReports(cfg, s, e);
    case _ => QuietReports(cfg, s, e);
  }

  lemma EndedReports(cfg: Config, s: State, e: Event)
    requires Enabled(s, e) && (e.Closed? || e.HandshakeFails? || e.Describe?)
    ensures Apply(cfg, s, e).session.None?
  {
  }

  lemma QuietReports(cfg: Config, s: State, e: Event)
    requires Reports(s) && Enabled(s, e) && (e.Begin? || e.Attempt? || e.Play? || e.Audio?)
    ensures Reports(Apply(cfg, s, e))
  {
  }

  lemma VideoReports(s: State, now: int, frame: Frame, sent: bool)
    requires Reports(s) && s.session.Some?
    ensures Reports(OnVideo(s, now, frame, sent))
  {
  }

  lemma TickReports(cfg: Config, s: State, now: int)
    requires Reports(s) && s.session.Some?
    ensures Reports(OnTick(cfg, s, now))
  {
  }

  lemma FallbackReports(cfg: Config, s: State, now: int, neutralOk: bool, sent: bool)
    requires Reports(s) && s.fb.Some?
    ensures Reports(OnFallbackTick(cfg, s, now, neutralOk, sent))
  {
  }

  lemma {:induction false} RunReports(cfg: Config, s: State, es: seq<Event>)
    requires Reports(s) && Valid(cfg, s, es)
    ensures Reports(Run(cfg, s, es))
    decreases es
  {
    if es != [] {
      StepReports(cfg, s, es[0]);
      RunReports(cfg, Apply(cfg, s, es[0]), es[1..]);
    }
  }

  /** After a session's first keyframe: the next frame is forwarded exactly when the camera is reported online or the frame is a keyframe. */
  lemma OnlineMeansForwarded(cfg: Config, codec: Codec, restored: bool, pre: Placeholder, es: seq<Event>, now: int, key: bool)
    requires Valid(cfg, Initial(cfg, codec, restored, pre), es)
    requires var s := Run(cfg, Initial(cfg, codec, restored, pre), es);
      Enabled(s, Video(now, Image(key), true)) && s.session.value.seenKey
    ensures var s := Run(cfg, Initial(cfg, codec, restored, pre), es);
      var t' := Apply(cfg, s, Video(now, Image(key), true)).trace;
      (|t'| > |s.trace| && ByCamera(t'[|t'| - 1], s.session.value.id)) <==> (s.camera.Online? || key)
  {
    RunReports(cfg, Initial(cfg, codec, restored, pre), es);
  }

  predicate ByCamera(e: Entry, id: nat) {
    e.Deliver? && e.shot.from == Session(id)
  }

  predicate SameOrigin(ps: Pictures) {
    forall i :: 0 <= i < |ps| ==> ps[i].origin == ps[0].origin
  }

  /** What the status reports: a run that encodes its frame on the fly is reported as replaying the last keyframe. */
  predicate KindTells(cfg: Config, s: State) {
    && (s.kind.Nothing? <==> s.fb.None?)
    && (s.fb.Some? ==>
          && (s.kind.Neutral? <==> s.fb.value.begun && (s.fb.value.serving || s.fb.value.pictures[0].origin.PreEncoded?))
          && SameOrigin(s.fb.value.pictures))
  }

  lemma StartKindTells(cfg: Config, s: State)
    requires KindTells(cfg, s)
    ensures KindTells(cfg, Started(s))
  {
  }

  lemma BeginKindTells(cfg: Config, s: State, now: int, neutralOk: bool, encoded: Encoding, fps: int, rtpOk: bool)
    requires KindTells(cfg, s) && StoredOk(s) && s.fb.Some? && !s.fb.value.begun
    ensures KindTells(cfg, OnBegin(cfg, s, now, neutralOk, encoded, fps, rtpOk))
  {
  }

  lemma VideoKindTells(cfg: Config, s: State, now: int, frame: Frame, sent: bool)
    requires KindTells(cfg, s) && s.session.Some?
    ensures KindTells(cfg, OnVideo(s, now, frame, sent))
  {
  }

  lemma EndedKindTells(cfg: Config, s: State)
    requires KindTells(cfg, s)
    ensures KindTells(cfg, Ended(cfg, s))
  {
    StartKindTells(cfg, s.(session := None, described := false, camera := Sleeping));
  }

  lemma TickKindTells(cfg: Config, s: State, now: int)
    requires KindTells(cfg, s) && s.session.Some?
    ensures KindTells(cfg, OnTick(cfg, s, now))
  {
    EndedKindTells(cfg, s.(lastTick := now));
    StartKindTells(cfg, s.(lastTick := now, needKey := true, camera := Sleeping));
  }

  lemma RebuiltKindTells(cfg: Config, s: State, codec: Codec, full: bool, encoded: Encoding)
    requires KindTells(cfg, s)
    ensures KindTells(cfg, Rebuilt(s, codec, full, encoded))
  {
    var s1 := Stopped(s).(codec := codec, stored := None);
    StartKindTells(cfg, s1.(pre := Renewed(s1.pre, codec, encoded)));
  }

  lemma FallbackTickKindTells(cfg: Config, s: State, now: int, neutralOk: bool, sent: bool)
    requires KindTells(cfg, s) && s.fb.Some? && s.fb.value.begun
    ensures KindTells(cfg, OnFallbackTick(cfg, s, now, neutralOk, sent))
  {
  }

  lemma StepKindTells(cfg: Config, s: State, e: Event)
    requires KindTells(cfg, s) && StoredOk(s) && Enabled(s, e)
    ensures KindTells(cfg, Apply(cfg, s, e))
  {
    var s0 := s.(clock := TimeOf(s, e));
    assert KindTells(cfg, s0) && StoredOk(s0);
    match e
    case Begin(now, neutralOk, encoded, fps, rtpOk) => BeginKindTells(cfg, s0, now, neutralOk, encoded, fps, rtpOk);
    case Video(now, frame, sent) => VideoKindTells(cfg, s0, now, frame, sent);
    case Tick(now) => TickKindTells(cfg, s0, now);
    case Describe(_, _, _, _) => AnnouncedKindTells(cfg, s, e);
    case HandshakeFails => EndedKindTells(cfg, s0);
    case Closed(_) => EndedKindTells(cfg, s0);
    case FallbackTick(now, neutralOk, sent) => FallbackTickKindTells(cfg, s0, now, neutralOk, sent);
    case _ => QuietKindTells(cfg, s, e);
  }

  lemma AnnouncedKindTells(cfg: Config, s: State, e: Event)
    requires KindTells(cfg, s) && Enabled(s, e) && e.Describe?
    ensures KindTells(cfg, Apply(cfg, s, e))
  {
    RebuiltKindTells(cfg, s, e.codec, e.full, e.encoded);
  }

  lemma QuietKindTells(cfg: Config, s: State, e: Event)
    requires KindTells(cfg, s) && Enabled(s, e) && (e.Attempt? || e.Play? || e.Audio?)
    ensures KindTells(cfg, Apply(cfg, s, e))
  {
  }

  lemma {:induction false} ReportedKind(cfg: Config, s: State, es: seq<Event>)
    requires KindTells(cfg, s) && Shows(cfg, s) && Valid(cfg, s, es)
    ensures KindTells(cfg, Run(cfg, s, es))
    decreases es
  {
    if es != [] {
      StepKindTells(cfg, s, es[0]);
      StepShows(cfg, s, es[0]);
      ReportedKind(cfg, Apply(cfg, s, es[0]), es[1..]);
    }
  }

  /** In every run the reported kind tells what is shown, and a frame encoded on the fly is the exception: it is reported as a last keyframe. */
  lemma ReportedKindTells(cfg: Config, codec: Codec, restored: bool, pre: Placeholder, es: seq<Event>)
    requires Valid(cfg, Initial(cfg, codec, restored, pre), es)
    ensures var s := Run(cfg, Initial(cfg, codec, restored, pre), es);
      && (s.kind.Nothing? <==> s.fb.None?)
      && (s.fb.Some? && s.fb.value.begun ==>
            (s.kind.Neutral? <==> s.fb.value.serving || s.fb.value.Current().origin.PreEncoded?))
      && (s.fb.Some? && s.fb.value.begun && s.fb.value.Current().origin.OnTheFly? && !s.fb.value.serving ==> s.kind.LastKeyframe?)
  {
    InitialShows(cfg, codec, restored, pre);
    ReportedKind(cfg, Initial(cfg, codec, restored, pre), es);
  }

  /** That exception does happen, on the first run of a stream without any frame of its own. */
  lemma OnTheFlyIsReportedAsKeyframe(cfg: Config, codec: Codec)
    requires cfg.CanFallback() && !cfg.neutral
    ensures var s, e := Initial(cfg, codec, false, NO_PLACEHOLDER), Begin(0, false, Encoding(true, true), 2, true);
      && Valid(cfg, s, [e])
      && Run(cfg, s, [e]).kind.LastKeyframe?
      && Run(cfg, s, [e]).fb.Some? && Run(cfg, s, [e]).fb.value.Current().origin.OnTheFly?
  {
    var s, e := Initial(cfg, codec, false, NO_PLACEHOLDER), Begin(0, false, Encoding(true, true), 2, true);
    var s' := Apply(cfg, s, e);
    assert [e][1..] == [] && Valid(cfg, s', []) && Run(cfg, s', []) == s';
  }
}
