/**
 What the handler's fields stand for, told by the events alone: its timers, its
 stored keyframe, the hold of a neutral stream and the state it reports. And
 what a monitor tick does, to sessions that are well and to those that are not.
 */
module HandlerRecords {
  import opened Wrappers
  import opened AccessUnit
  import opened Handler
  import opened HandlerLaws
  import opened HandlerModes

  // ---------------------------------------------------------------------
  // Timers
  // ---------------------------------------------------------------------

  /** When the last video packet, the last packet of any kind and the last tick came; PLAY counts for each. */
  datatype Times = Times(video: int, packet: int, tick: int)

  function TimesAfter(e: Event, w: Times): Times {
    match e
    case Play(now) => Times(now, now, now)
    case Video(now, _, _) => w.(video := now, packet := now)
    case Audio(now) => w.(packet := now)
    case Tick(now) => w.(tick := now)
    case _ => w
  }

  function TimesOf(es: seq<Event>, w: Times): Times
    decreases es
  {
    if es == [] then w else TimesOf(es[1..], TimesAfter(es[0], w))
  }

  predicate Timed(s: State, w: Times) {
    s.session.Some? ==> s.lastVideo == w.video && s.lastPkt == w.packet && s.lastTick == w.tick
  }

  lemma VideoTimed(s: State, now: int, frame: Frame, sent: bool, w: Times)
    requires s.session.Some? && Timed(s, w)
    ensures Timed(OnVideo(s, now, frame, sent), w.(video := now, packet := now))
  {
  }

  lemma StepTimed(cfg: Config, s: State, e: Event, w: Times)
    requires Timed(s, w) && Enabled(s, e)
    ensures Timed(Apply(cfg, s, e), TimesAfter(e, w))
  {
    match e
    case Video(now, frame, sent) => VideoTimed(s.(clock := now), now, frame, sent, w);
    case Describe(_, _, _, _) => EndedReports(cfg, s, e);
    case HandshakeFails => EndedReports(cfg, s, e);
    case Closed(_) => EndedReports(cfg, s, e);
    case Tick(now) => TickTimed(cfg, s.(clock := now), now, w);
    case _ => QuietTimed(cfg, s, e, w);
  }

  lemma TickTimed(cfg: Config, s: State, now: int, w: Times)
    requires s.session.Some? && Timed(s, w)
    ensures Timed(OnTick(cfg, s, now), w.(tick := now))
  {
  }

  lemma QuietTimed(cfg: Config, s: State, e: Event, w: Times)
    requires Timed(s, w) && Enabled(s, e) && (e.Attempt? || e.Play? || e.Audio? || e.Begin? || e.FallbackTick?)
    ensures Timed(Apply(cfg, s, e), TimesAfter(e, w))
  {
  }

  lemma {:induction false} RunTimed(cfg: Config, s: State, es: seq<Event>, w: Times)
    requires Timed(s, w) && Valid(cfg, s, es)
    ensures Timed(Run(cfg, s, es), TimesOf(es, w))
    decreases es
  {
    if es != [] {
      StepTimed(cfg, s, es[0], w);
      RunTimed(cfg, Apply(cfg, s, es[0]), es[1..], TimesAfter(es[0], w));
    }
  }

  const NEVER := Times(0, 0, 0)

  /** In every run the timers of a session are the times of its last packets and ticks. */
  lemma TimersTell(cfg: Config, codec: Codec, restored: bool, pre: Placeholder, es: seq<Event>)
    requires Valid(cfg, Initial(cfg, codec, restored, pre), es)
    ensures Timed(Run(cfg, Initial(cfg, codec, restored, pre), es), TimesOf(es, NEVER))
  {
    RunTimed(cfg, Initial(cfg, codec, restored, pre), es, NEVER);
  }

  /** The two bounds, told by the events: a session without packets is over, and one without video is in fallback unless a run gave up since the last tick. */
  lemma SilenceIsNoticed(cfg: Config, codec: Codec, restored: bool, pre: Placeholder, es: seq<Event>, t: int)
    requires cfg.timeout > 0 && cfg.stall > 0 && Valid(cfg, Initial(cfg, codec, restored, pre), es)
    requires t - TimesOf(es, NEVER).tick <= TICK
    ensures var s, w := Run(cfg, Initial(cfg, codec, restored, pre), es), TimesOf(es, NEVER);
      && (t - w.packet >= cfg.timeout + TICK ==> s.session.None?)
      && (cfg.CanFallback() && t - w.video >= cfg.stall + TICK ==>
            s.session.None? || (s.fb.Some? <==> !LostAfter(cfg, Initial(cfg, codec, restored, pre), es, false)))
  {
    TimersTell(cfg, codec, restored, pre, es);
    RunAlive(cfg, Initial(cfg, codec, restored, pre), es);
    if cfg.CanFallback() {
      RunWatched(cfg, Initial(cfg, codec, restored, pre), es, false);
    }
  }

  // ---------------------------------------------------------------------
  // Monitor ticks
  // ---------------------------------------------------------------------

  /** A tick ends the session exactly at the timeout, starts the fallback exactly at a stall without one, and otherwise changes nothing but the clock. */
  lemma WhatATickDoes(cfg: Config, s: State, now: int)
    requires Enabled(s, Tick(now))
    ensures var t := Apply(cfg, s, Tick(now));
      && (t.session.None? <==> now - s.lastPkt >= cfg.timeout)
      && (t.session.Some? ==>
            if cfg.CanFallback() && s.fb.None? && now - s.lastVideo >= cfg.stall then
              && t.fb.Some? && !t.fb.value.begun && t.needKey && t.camera == Sleeping
              && t.trace == s.trace + [Reset] && t.session == s.session && t.stored == s.stored
            else t == s.(clock := now, lastTick := now))
  {
  }

  /** Video never pauses for the stall timeout or the packet timeout, as the ticks see it; `last` is when it last came. */
  predicate Lively(cfg: Config, es: seq<Event>, last: int)
    decreases es
  {
    es != [] ==>
      match es[0]
      case Video(now, _, _) => Lively(cfg, es[1..], now)
      case Audio(_) => Lively(cfg, es[1..], last)
      case Tick(now) => now - last < cfg.stall && now - last < cfg.timeout && Lively(cfg, es[1..], last)
      case _ => false
  }

  /** The deliveries of a session that forwards every picture. */
  function Relayed(codec: Codec, id: nat, es: seq<Event>): seq<Entry>
    decreases es
  {
    if es == [] then []
    else if es[0].Video? && es[0].frame.Image? && es[0].sent then
      [Deliver(Shot(Session(id), Picture(codec, es[0].frame.key, FromCamera(id)), codec))] + Relayed(codec, id, es[1..])
    else Relayed(codec, id, es[1..])
  }

  lemma RelayedVideo(s: State, now: int, frame: Frame, sent: bool)
    requires IsRelaying(s)
    ensures var t, id := OnVideo(s, now, frame, sent), s.session.value.id;
      && IsRelaying(t) && t.fb == s.fb && t.codec == s.codec && t.session == s.session
      && t.lastVideo == now && t.lastPkt == now && t.clock == s.clock
      && t.trace == s.trace + (if frame.Image? && sent then
                                 [Deliver(Shot(Session(id), Picture(s.codec, frame.key, FromCamera(id)), s.codec))] else [])
  {
    assert s.trace + [] == s.trace;
  }

  /** A relaying session whose video never pauses is left alone: every picture is forwarded and nothing is reset. */
  lemma {:induction false} LivelySessionIsLeftAlone(cfg: Config, s: State, es: seq<Event>, last: int)
    requires IsRelaying(s) && s.fb.None? && Valid(cfg, s, es)
    requires s.lastVideo == last <= s.lastPkt <= s.clock && Lively(cfg, es, last)
    ensures var t := Run(cfg, s, es);
      IsRelaying(t) && t.fb.None? && t.trace == s.trace + Relayed(s.codec, s.session.value.id, es)
    decreases es
  {
    if es == [] {
      assert s.trace + [] == s.trace;
    } else {
      var e, t, id := es[0], Apply(cfg, s, es[0]), s.session.value.id;
      LivelyStep(cfg, s, e, last);
      LivelySessionIsLeftAlone(cfg, t, es[1..], if e.Video? then e.now else last);
      assert Relayed(s.codec, id, es) == RelayedNow(s, e) + Relayed(s.codec, id, es[1..]);
      assert s.trace + (RelayedNow(s, e) + Relayed(s.codec, id, es[1..]))
          == s.trace + RelayedNow(s, e) + Relayed(s.codec, id, es[1..]);
    }
  }

  function RelayedNow(s: State, e: Event): seq<Entry>
    requires s.session.Some?
  {
    var id := s.session.value.id;
    if e.Video? && e.frame.Image? && e.sent then
      [Deliver(Shot(Session(id), Picture(s.codec, e.frame.key, FromCamera(id)), s.codec))]
    else []
  }

  lemma LivelyStep(cfg: Config, s: State, e: Event, last: int)
    requires IsRelaying(s) && s.fb.None? && Enabled(s, e) && s.lastVideo == last <= s.lastPkt <= s.clock
    requires e.Video? || e.Audio? || (e.Tick? && e.now - last < cfg.stall && e.now - last < cfg.timeout)
    ensures var t := Apply(cfg, s, e);
      && IsRelaying(t) && t.fb.None? && t.codec == s.codec && t.session == s.session
      && t.lastVideo == (if e.Video? then e.now else last) <= t.lastPkt <= t.clock
      && t.trace == s.trace + RelayedNow(s, e)
  {
    assert s.trace + [] == s.trace;
    match e
    case Video(now, frame, sent) => RelayedVideo(s.(clock := now), now, frame, sent);
    case Tick(now) => WhatATickDoes(cfg, s, now);
    case _ =>
  }

  // ---------------------------------------------------------------------
  // The stored keyframe
  // ---------------------------------------------------------------------

  /** What is stored by the events: the last keyframe the camera sent since the last rebuild, and whether it ever sent one. */
  datatype Kept = Kept(stored: Option<Picture>, live: bool)

  function KeptAfter(s: State, e: Event, w: Kept): Kept
    requires Enabled(s, e)
  {
    if IsRebuild(s, e) then w.(stored := None)
    else if e.Video? && e.frame == Image(true) then
      Kept(Some(Picture(s.codec, true, FromCamera(s.session.value.id))), true)
    else w
  }

  function KeptOf(cfg: Config, s: State, es: seq<Event>, w: Kept): Kept
    requires Valid(cfg, s, es)
    decreases es
  {
    if es == [] then w else KeptOf(cfg, Apply(cfg, s, es[0]), es[1..], KeptAfter(s, es[0], w))
  }

  lemma VideoKept(s: State, now: int, frame: Frame, sent: bool)
    requires s.session.Some?
    ensures var t := OnVideo(s, now, frame, sent);
      Kept(t.stored, t.live) == if frame == Image(true) then Kept(Some(Picture(s.codec, true, FromCamera(s.session.value.id))), true)
                                else Kept(s.stored, s.live)
  {
  }

  lemma TickKept(cfg: Config, s: State, now: int)
    requires s.session.Some?
    ensures var t := OnTick(cfg, s, now); t.stored == s.stored && t.live == s.live
  {
  }

  lemma StepKept(cfg: Config, s: State, e: Event)
    requires Enabled(s, e)
    ensures var t := Apply(cfg, s, e); Kept(t.stored, t.live) == KeptAfter(s, e, Kept(s.stored, s.live))
  {
    match e
    case Video(now, frame, sent) => VideoKept(s.(clock := now), now, frame, sent);
    case Tick(now) => TickKept(cfg, s.(clock := now), now);
    case _ =>
  }

  lemma {:induction false} RunKept(cfg: Config, s: State, es: seq<Event>)
    requires Valid(cfg, s, es)
    ensures Kept(Run(cfg, s, es).stored, Run(cfg, s, es).live) == KeptOf(cfg, s, es, Kept(s.stored, s.live))
    decreases es
  {
    if es != [] {
      StepKept(cfg, s, es[0]);
      RunKept(cfg, Apply(cfg, s, es[0]), es[1..]);
    }
  }

  /** In every run the stored frame is the camera's last keyframe since the last rebuild, or else the restored one if there was no rebuild. */
  lemma StoredIsTheLastKeyframe(cfg: Config, codec: Codec, restored: bool, pre: Placeholder, es: seq<Event>)
    requires Valid(cfg, Initial(cfg, codec, restored, pre), es)
    ensures var s0 := Initial(cfg, codec, restored, pre);
      var s := Run(cfg, s0, es);
      Kept(s.stored, s.live) == KeptOf(cfg, s0, es, Kept(if restored then Some(Picture(codec, true, FromDisk)) else None, false))
  {
    RunKept(cfg, Initial(cfg, codec, restored, pre), es);
  }

  // ---------------------------------------------------------------------
  // The hold of a neutral stream
  // ---------------------------------------------------------------------

  /** A run that began with a live keyframe: when, with which, and whether a tick has ended the hold. */
  datatype Hold = Hold(begun: int, picture: Picture, over: bool)

  /** The hold has run out at time t. */
  predicate RunOut(cfg: Config, h: Hold, t: int) {
    t >= h.begun + cfg.hold
  }

  function HoldAfter(cfg: Config, s: State, e: Event, w: Option<Hold>): Option<Hold>
    requires Enabled(s, e)
  {
    if e.Begin? then
      (if cfg.neutral && e.rtpOk && s.stored.Some? && s.live then Some(Hold(e.now, s.stored.value, false)) else None)
    else if w.Some? && e.FallbackTick? && RunOut(cfg, w.value, e.now) && e.neutralOk then Some(w.value.(over := true))
    else w
  }

  /** What a tick of a neutral stream is to show. */
  function HeldPicture(cfg: Config, s: State, e: Event, w: Option<Hold>): Picture
    requires e.FallbackTick?
  {
    if w.Some? && !w.value.over && !(RunOut(cfg, w.value, e.now) && e.neutralOk) then w.value.picture
    else Picture(s.codec, true, NeutralImage)
  }

  function HeldEntry(cfg: Config, s: State, e: Event, w: Option<Hold>): seq<Entry>
    requires e.FallbackTick? && s.fb.Some?
  {
    [Deliver(Shot(FallbackRun(s.fb.value.id), HeldPicture(cfg, s, e, w), s.codec))]
  }

  /** The record is that of the live run. */
  predicate Holding(cfg: Config, s: State, w: Option<Hold>) {
    cfg.neutral && s.fb.Some? && s.fb.value.begun ==>
      var f := s.fb.value;
      && (f.serving <==> w.None? || w.value.over)
      && (w.Some? ==> f.switchAt == w.value.begun + cfg.hold && f.pictures == [w.value.picture])
  }

  /** Every frame sent by a fallback run is the held keyframe or the neutral image, as the record says. */
  predicate HoldsAsTold(cfg: Config, s: State, es: seq<Event>, w: Option<Hold>)
    requires Valid(cfg, s, es)
    decreases es
  {
    es != [] ==>
      var t := Apply(cfg, s, es[0]);
      && (es[0].FallbackTick? && es[0].sent ==> t.trace == s.trace + HeldEntry(cfg, s, es[0], w))
      && HoldsAsTold(cfg, t, es[1..], HoldAfter(cfg, s, es[0], w))
  }

  lemma TickHolds(cfg: Config, s: State, e: Event, w: Option<Hold>)
    requires cfg.neutral && Holding(cfg, s, w) && Enabled(s, e) && e.FallbackTick?
    ensures Holding(cfg, Apply(cfg, s, e), HoldAfter(cfg, s, e, w))
    ensures e.sent ==> Apply(cfg, s, e).trace == s.trace + HeldEntry(cfg, s, e, w)
  {
  }

  lemma BeginHolds(cfg: Config, s: State, e: Event, w: Option<Hold>)
    requires Enabled(s, e) && e.Begin?
    ensures Holding(cfg, Apply(cfg, s, e), HoldAfter(cfg, s, e, w))
  {
  }

  lemma OthersHold(cfg: Config, s: State, e: Event, w: Option<Hold>)
    requires Shows(cfg, s) && Holding(cfg, s, w) && Enabled(s, e) && !e.Begin? && !e.FallbackTick?
    ensures Holding(cfg, Apply(cfg, s, e), w)
  {
    if e.Describe? {
      AnnouncedPosts(cfg, s, e);
    } else if e.HandshakeFails? || e.Closed? || e.Video? || e.Tick? {
      OthersKeep(cfg, s, e);
    }
  }

  lemma {:induction false} RunHolds(cfg: Config, s: State, es: seq<Event>, w: Option<Hold>)
    requires cfg.neutral && Shows(cfg, s) && Holding(cfg, s, w) && Valid(cfg, s, es)
    ensures HoldsAsTold(cfg, s, es, w)
    decreases es
  {
    if es != [] {
      var e := es[0];
      if e.FallbackTick? {
        TickHolds(cfg, s, e, w);
      } else if e.Begin? {
        BeginHolds(cfg, s, e, w);
      } else {
        OthersHold(cfg, s, e, w);
      }
      StepShows(cfg, s, e);
      RunHolds(cfg, Apply(cfg, s, e), es[1..], HoldAfter(cfg, s, e, w));
    }
  }

  /**
   In every run of a neutral stream: a fallback run that began with a live
   keyframe sends that keyframe until a tick at which the configured hold since
   its beginning is over and the neutral image is there, and the neutral image
   from that tick on; any other run sends the neutral image only.
   */
  lemma HeldForTheWholeHold(cfg: Config, codec: Codec, restored: bool, pre: Placeholder, es: seq<Event>)
    requires cfg.neutral && Valid(cfg, Initial(cfg, codec, restored, pre), es)
    ensures HoldsAsTold(cfg, Initial(cfg, codec, restored, pre), es, None)
  {
    InitialShows(cfg, codec, restored, pre);
    RunHolds(cfg, Initial(cfg, codec, restored, pre), es, None);
  }

  // ---------------------------------------------------------------------
  // What is reported
  // ---------------------------------------------------------------------

  /** The state after a failure. */
  function Resting(cfg: Config): CameraState {
    if cfg.battery && !cfg.modeNone then Sleeping else Disconnected
  }

  /** The reported state, and whether the camera has answered DESCRIBE in the current attempt. */
  datatype Report = Report(camera: CameraState, described: bool)

  function ReportAfter(cfg: Config, s: State, e: Event, w: Report): Report
    requires Enabled(s, e)
  {
    match e
    case Attempt => w.(camera := Connecting)
    case Describe(_, _, _, _) => w.(described := true)
    case Play(_) => Report(Online, false)
    case HandshakeFails => Report(Resting(cfg), false)
    case Closed(_) => Report(Resting(cfg), false)
    case Video(_, frame, _) => if frame == Image(true) && !IsRelaying(s) then w.(camera := Online) else w
    case Tick(now) =>
      if now - s.lastPkt >= cfg.timeout then Report(Resting(cfg), false)
      else if cfg.battery && !cfg.modeNone && s.fb.None? && now - s.lastVideo >= cfg.stall then w.(camera := Sleeping)
      else w
    case _ => w
  }

  function ReportOf(cfg: Config, s: State, es: seq<Event>, w: Report): Report
    requires Valid(cfg, s, es)
    decreases es
  {
    if es == [] then w else ReportOf(cfg, Apply(cfg, s, es[0]), es[1..], ReportAfter(cfg, s, es[0], w))
  }

  lemma VideoReported(s: State, now: int, frame: Frame, sent: bool)
    requires s.session.Some?
    ensures var t := OnVideo(s, now, frame, sent);
      t.camera == (if frame == Image(true) && !IsRelaying(s) then Online else s.camera) && t.described == s.described
  {
  }

  lemma TickReported(cfg: Config, s: State, now: int)
    requires s.session.Some?
    ensures Report(OnTick(cfg, s, now).camera, OnTick(cfg, s, now).described)
      == ReportAfter(cfg, s.(clock := now), Tick(now), Report(s.camera, s.described))
  {
  }

  lemma AnnouncedReported(cfg: Config, s: State, e: Event)
    requires Enabled(s, e) && e.Describe?
    ensures Apply(cfg, s, e).camera == s.camera && Apply(cfg, s, e).described
  {
  }

  lemma StepReported(cfg: Config, s: State, e: Event)
    requires Enabled(s, e)
    ensures Report(Apply(cfg, s, e).camera, Apply(cfg, s, e).described) == ReportAfter(cfg, s, e, Report(s.camera, s.described))
  {
    match e
    case Video(now, frame, sent) => VideoReported(s.(clock := now), now, frame, sent);
    case Tick(now) => TickReported(cfg, s.(clock := now), now);
    case Describe(_, _, _, _) => AnnouncedReported(cfg, s, e);
    case _ =>
  }

  lemma {:induction false} RunReported(cfg: Config, s: State, es: seq<Event>)
    requires Valid(cfg, s, es)
    ensures Report(Run(cfg, s, es).camera, Run(cfg, s, es).described)
      == ReportOf(cfg, s, es, Report(s.camera, s.described))
    decreases es
  {
    if es != [] {
      StepReported(cfg, s, es[0]);
      RunReported(cfg, Apply(cfg, s, es[0]), es[1..]);
    }
  }

  /**
   In every run the state is Connecting from an attempt on, Online from PLAY and
   from each take-over on, Sleeping from a stall on, and after each failure
   Sleeping where the fallback is allowed and Disconnected where it is not.
   */
  lemma ReportedState(cfg: Config, codec: Codec, restored: bool, pre: Placeholder, es: seq<Event>)
    requires Valid(cfg, Initial(cfg, codec, restored, pre), es)
    ensures var s0 := Initial(cfg, codec, restored, pre);
      var s := Run(cfg, s0, es);
      Report(s.camera, s.described) == ReportOf(cfg, s0, es, Report(Resting(cfg), false))
  {
    RunReported(cfg, Initial(cfg, codec, restored, pre), es);
  }
}
