/**
 What every run of the handler keeps, for any order of handshakes, frames,
 stalls, disconnections, rebuilds and retries.
 */
module HandlerLaws {
  import opened Wrappers
  import opened AccessUnit
  import opened Handler

  /** Camera frames are forwarded as they come. */
  predicate IsRelaying(s: State) {
    s.session.Some? && s.session.value.seenKey && !s.needKey
  }

  lemma OneStep(cfg: Config, s: State, e: Event, es: seq<Event>)
    requires Enabled(s, e) && Valid(cfg, Apply(cfg, s, e), es)
    ensures Valid(cfg, s, [e] + es) && Run(cfg, s, [e] + es) == Run(cfg, Apply(cfg, s, e), es)
  {
    assert ([e] + es)[1..] == es;
  }

  // ---------------------------------------------------------------------
  // One producer between two resets
  // ---------------------------------------------------------------------

  predicate SameProducer(a: Entry, b: Entry) {
    a.Deliver? && b.Deliver? ==> a.shot.from == b.shot.from
  }

  predicate Segmented(t: seq<Entry>) {
    forall i :: 0 < i < |t| ==> SameProducer(t[i - 1], t[i])
  }

  /** Producer p may deliver next without a reset. */
  predicate OpenTo(t: seq<Entry>, p: Producer) {
    t != [] && t[|t| - 1].Deliver? ==> t[|t| - 1].shot.from == p
  }

  predicate Flows(s: State) {
    && Segmented(s.trace)
    && (IsRelaying(s) ==> s.fb.None? && OpenTo(s.trace, Session(s.session.value.id)))
    && (s.fb.Some? ==> OpenTo(s.trace, FallbackRun(s.fb.value.id)))
  }

  lemma Append(t: seq<Entry>, e: Entry)
    requires Segmented(t) && (e.Deliver? ==> OpenTo(t, e.shot.from))
    ensures Segmented(t + [e]) && (e.Deliver? ==> OpenTo(t + [e], e.shot.from))
    ensures e.Reset? ==> forall p :: OpenTo(t + [e], p)
  {
  }

  lemma StartFlows(s: State)
    requires Flows(s) && !IsRelaying(s)
    ensures Flows(Started(s))
  {
    Append(s.trace, Reset);
  }

  lemma EndedFlows(cfg: Config, s: State)
    requires Flows(s)
    ensures Flows(Ended(cfg, s))
  {
    StartFlows(s.(session := None, described := false, camera := Sleeping));
  }

  lemma ForwardFlows(s: State, key: bool, sent: bool)
    requires Flows(s) && IsRelaying(s)
    ensures Flows(Forward(s, key, sent))
  {
    var id := s.session.value.id;
    Append(s.trace, Deliver(Shot(Session(id), Picture(s.codec, key, FromCamera(id)), s.codec)));
  }

  lemma TakeOverFlows(s: State)
    requires Flows(s) && s.session.Some?
    ensures Flows(TakeOver(s)) && IsRelaying(TakeOver(s))
  {
    Append(s.trace, Reset);
  }

  lemma VideoFlows(s: State, now: int, frame: Frame, sent: bool)
    requires Flows(s) && s.session.Some?
    ensures Flows(OnVideo(s, now, frame, sent))
  {
    var s1 := s.(lastPkt := now, lastVideo := now);
    if frame.Image? {
      if IsRelaying(s) {
        ForwardFlows(s1, frame.key, sent);
      } else if frame.key {
        TakeOverFlows(s1);
        ForwardFlows(TakeOver(s1), frame.key, sent);
      }
    }
  }

  lemma TickFlows(cfg: Config, s: State, now: int)
    requires Flows(s) && s.session.Some?
    ensures Flows(OnTick(cfg, s, now))
  {
    var s1 := s.(lastTick := now);
    EndedFlows(cfg, s1);
    StartFlows(s1.(needKey := true, camera := Sleeping));
  }

  lemma FallbackTickFlows(cfg: Config, s: State, now: int, neutralOk: bool, sent: bool)
    requires Flows(s) && s.fb.Some?
    ensures Flows(OnFallbackTick(cfg, s, now, neutralOk, sent))
  {
    var s' := OnFallbackTick(cfg, s, now, neutralOk, sent);
    if sent {
      Append(s.trace, s'.trace[|s.trace|]);
    }
  }

  lemma DescribeFlows(s: State, codec: Codec, full: bool, encoded: Encoding)
    requires Flows(s) && s.session.None?
    ensures Flows(Rebuilt(s, codec, full, encoded))
  {
    var s1 := Stopped(s).(codec := codec, stored := None);
    StartFlows(s1.(pre := Renewed(s1.pre, codec, encoded)));
  }

  lemma StepFlows(cfg: Config, s: State, e: Event)
    requires Flows(s) && Enabled(s, e)
    ensures Flows(Apply(cfg, s, e))
  {
    var s0 := s.(clock := TimeOf(s, e));
    match e
    case Describe(_, _, _, _) => AnnouncedFlows(cfg, s, e);
    case HandshakeFails => EndedFlows(cfg, s0);
    case Video(now, frame, sent) => VideoFlows(s0, now, frame, sent);
    case Tick(now) => TickFlows(cfg, s0, now);
    case Closed(_) => EndedFlows(cfg, s0);
    case FallbackTick(now, neutralOk, sent) => FallbackTickFlows(cfg, s0, now, neutralOk, sent);
    case _ => QuietFlows(cfg, s, e);
  }

  lemma AnnouncedFlows(cfg: Config, s: State, e: Event)
    requires Flows(s) && Enabled(s, e) && e.Describe?
    ensures Flows(Apply(cfg, s, e))
  {
    DescribeFlows(s, e.codec, e.full, e.encoded);
  }

  lemma QuietFlows(cfg: Config, s: State, e: Event)
    requires Flows(s) && Enabled(s, e) && (e.Begin? || e.Attempt? || e.Play? || e.Audio?)
    ensures Flows(Apply(cfg, s, e))
  {
  }

  lemma {:induction false} RunFlows(cfg: Config, s: State, es: seq<Event>)
    requires Flows(s) && Valid(cfg, s, es)
    ensures Flows(Run(cfg, s, es))
    decreases es
  {
    if es != [] {
      StepFlows(cfg, s, es[0]);
      RunFlows(cfg, Apply(cfg, s, es[0]), es[1..]);
    }
  }

  lemma {:induction false} SegmentHasOneProducer(t: seq<Entry>, i: nat, j: nat)
    requires Segmented(t) && i <= j < |t| && forall k :: i <= k <= j ==> t[k].Deliver?
    ensures t[i].shot.from == t[j].shot.from
    decreases j - i
  {
    if i < j {
      SegmentHasOneProducer(t, i, j - 1);
      assert SameProducer(t[j - 1], t[j]);
    }
  }

  /** In every run, what is delivered between two consecutive timeline resets comes from one camera session or one fallback run. */
  lemma SegmentPurity(cfg: Config, codec: Codec, restored: bool, pre: Placeholder, es: seq<Event>, i: nat, j: nat)
    requires Valid(cfg, Initial(cfg, codec, restored, pre), es)
    requires var t := Run(cfg, Initial(cfg, codec, restored, pre), es).trace;
      i <= j < |t| && forall k :: i <= k <= j ==> t[k].Deliver?
    ensures var t := Run(cfg, Initial(cfg, codec, restored, pre), es).trace;
      t[i].shot.from == t[j].shot.from
  {
    RunFlows(cfg, Initial(cfg, codec, restored, pre), es);
    SegmentHasOneProducer(Run(cfg, Initial(cfg, codec, restored, pre), es).trace, i, j);
  }

  // ---------------------------------------------------------------------
  // Which pictures are shown
  // ---------------------------------------------------------------------

  /** Fallback pictures are keyframes; the codec is the advertised one except for stale pre-encoded frames; a neutral stream never falls back on a restored or generated frame. */
  predicate ShotOk(cfg: Config, runs: nat, sessions: nat, shot: Shot) {
    && (shot.picture.codec == shot.stream || shot.picture.origin.PreEncoded?)
    && match shot.from
       case Session(id) => id < sessions && shot.picture.origin == FromCamera(id)
       case FallbackRun(id) =>
         && id < runs && shot.picture.key
         && (shot.picture.origin.NeutralImage? ==> cfg.neutral)
         && (cfg.neutral ==> shot.picture.origin.NeutralImage? || shot.picture.origin.FromCamera?)
  }

  predicate ShotsOk(cfg: Config, s: State) {
    forall i :: 0 <= i < |s.trace| && s.trace[i].Deliver? ==> ShotOk(cfg, s.runs, s.sessions, s.trace[i].shot)
  }

  /** The stored frame is a keyframe of the current codec, and a live one comes from this process. */
  predicate StoredOk(s: State) {
    s.stored.Some? ==>
      && s.stored.value.key && s.stored.value.codec == s.codec
      && (s.stored.value.origin.FromCamera? || (s.stored.value.origin.FromDisk? && !s.live))
  }

  predicate MayShow(cfg: Config, codec: Codec, serving: bool, p: Picture) {
    && p.key
    && (p.codec == codec || p.origin.PreEncoded?)
    && (p.origin.NeutralImage? ==> serving)
    && (cfg.neutral ==> serving || p.origin.FromCamera?)
  }

  predicate FallbackOk(cfg: Config, s: State) {
    s.fb.Some? ==>
      var f := s.fb.value;
      && f.id < s.runs
      && (f.serving ==> f.begun)
      && (f.begun ==>
            && (f.serving ==> cfg.neutral)
            && forall i :: 0 <= i < |f.pictures| ==> MayShow(cfg, s.codec, f.serving, f.pictures[i]))
  }

  predicate Shows(cfg: Config, s: State) {
    && ShotsOk(cfg, s) && StoredOk(s) && FallbackOk(cfg, s)
    && (s.session.Some? ==> s.session.value.id < s.sessions)
  }

  lemma StartShows(cfg: Config, s: State)
    requires Shows(cfg, s)
    ensures Shows(cfg, Started(s))
  {
    var s' := Started(s);
    forall i | 0 <= i < |s'.trace| && s'.trace[i].Deliver?
      ensures ShotOk(cfg, s'.runs, s'.sessions, s'.trace[i].shot)
    {
      assert s'.trace[i] == s.trace[i];
    }
  }

  lemma SendShows(cfg: Config, s: State, from: Producer, p: Picture, sent: bool)
    requires Shows(cfg, s) && ShotOk(cfg, s.runs, s.sessions, Shot(from, p, s.codec))
    ensures Shows(cfg, Send(s, from, p, sent))
  {
    var s' := Send(s, from, p, sent);
    forall i | 0 <= i < |s'.trace| && s'.trace[i].Deliver?
      ensures ShotOk(cfg, s'.runs, s'.sessions, s'.trace[i].shot)
    {
      assert i < |s.trace| ==> s'.trace[i] == s.trace[i];
    }
  }

  lemma EndedShows(cfg: Config, s: State)
    requires Shows(cfg, s)
    ensures Shows(cfg, Ended(cfg, s))
  {
    StartShows(cfg, s.(session := None, described := false, camera := Sleeping));
  }

  lemma TakeOverShows(cfg: Config, s: State)
    requires Shows(cfg, s) && s.session.Some?
    ensures Shows(cfg, TakeOver(s))
  {
    var s' := TakeOver(s);
    forall i | 0 <= i < |s'.trace| && s'.trace[i].Deliver?
      ensures ShotOk(cfg, s'.runs, s'.sessions, s'.trace[i].shot)
    {
      assert s'.trace[i] == s.trace[i];
    }
  }

  lemma ForwardShows(cfg: Config, s: State, key: bool, sent: bool)
    requires Shows(cfg, s) && s.session.Some?
    ensures Shows(cfg, Forward(s, key, sent))
  {
    var p := Picture(s.codec, key, FromCamera(s.session.value.id));
    var s1 := if key then s.(stored := Some(p), live := true) else s;
    SendShows(cfg, s1, Session(s.session.value.id), p, sent);
  }

  lemma VideoShows(cfg: Config, s: State, now: int, frame: Frame, sent: bool)
    requires Shows(cfg, s) && s.session.Some?
    ensures Shows(cfg, OnVideo(s, now, frame, sent))
  {
    var s1 := s.(lastPkt := now, lastVideo := now);
    if frame.Image? {
      ForwardShows(cfg, s1, frame.key, sent);
      TakeOverShows(cfg, s1);
      ForwardShows(cfg, TakeOver(s1), frame.key, sent);
    }
  }

  lemma TickShows(cfg: Config, s: State, now: int)
    requires Shows(cfg, s) && s.session.Some?
    ensures Shows(cfg, OnTick(cfg, s, now))
  {
    var s1 := s.(lastTick := now);
    EndedShows(cfg, s1);
    StartShows(cfg, s1.(needKey := true, camera := Sleeping));
  }

  lemma DescribeShows(cfg: Config, s: State, codec: Codec, full: bool, encoded: Encoding)
    requires Shows(cfg, s)
    ensures Shows(cfg, Rebuilt(s, codec, full, encoded))
  {
    var s1 := Stopped(s).(codec := codec, stored := None);
    StartShows(cfg, s1.(pre := Renewed(s1.pre, codec, encoded)));
  }

  lemma BeginShows(cfg: Config, s: State, now: int, neutralOk: bool, encoded: Encoding, fps: int, rtpOk: bool)
    requires Shows(cfg, s) && s.fb.Some? && !s.fb.value.begun
    ensures Shows(cfg, OnBegin(cfg, s, now, neutralOk, encoded, fps, rtpOk))
  {
  }

  lemma FallbackTickShows(cfg: Config, s: State, now: int, neutralOk: bool, sent: bool)
    requires Shows(cfg, s) && s.fb.Some? && s.fb.value.begun
    ensures Shows(cfg, OnFallbackTick(cfg, s, now, neutralOk, sent))
  {
    var f := s.fb.value;
    var switched := Switches(cfg, f, now, neutralOk);
    var s1 := s.(fb := Some(AfterTick(f, switched, sent)), kind := if switched then Neutral else s.kind);
    assert MayShow(cfg, s.codec, f.serving, f.Current());
    assert forall i :: 0 <= i < |f.pictures| ==> MayShow(cfg, s.codec, f.serving || switched, f.pictures[i]);
    SendShows(cfg, s1, FallbackRun(f.id), Shown(f, switched, s.codec), sent);
  }

  lemma StepShows(cfg: Config, s: State, e: Event)
    requires Shows(cfg, s) && Enabled(s, e)
    ensures Shows(cfg, Apply(cfg, s, e))
  {
    var s0 := s.(clock := TimeOf(s, e));
    CarriesShows(cfg, s, s0);
    match e
    case Describe(_, _, _, _) => AnnouncedShows(cfg, s, e);
    case HandshakeFails => EndedShows(cfg, s0);
    case Video(now, frame, sent) => VideoShows(cfg, s0, now, frame, sent);
    case Tick(now) => TickShows(cfg, s0, now);
    case Closed(_) => EndedShows(cfg, s0);
    case Begin(now, neutralOk, encoded, fps, rtpOk) => BeginShows(cfg, s0, now, neutralOk, encoded, fps, rtpOk);
    case FallbackTick(now, neutralOk, sent) => FallbackTickShows(cfg, s0, now, neutralOk, sent);
    case _ => QuietShows(cfg, s, e);
  }

  lemma AnnouncedShows(cfg: Config, s: State, e: Event)
    requires Shows(cfg, s) && Enabled(s, e) && e.Describe?
    ensures Shows(cfg, Apply(cfg, s, e))
  {
    DescribeShows(cfg, s, e.codec, e.full, e.encoded);
    if e.codec != s.codec || e.differ {
      var t := Rebuilt(s, e.codec, e.full, e.encoded);
      CarriesShows(cfg, t, Apply(cfg, s, e));
    } else {
      CarriesShows(cfg, s, Apply(cfg, s, e));
    }
  }

  lemma QuietShows(cfg: Config, s: State, e: Event)
    requires Shows(cfg, s) && Enabled(s, e) && (e.Attempt? || e.Play? || e.Audio?)
    ensures Shows(cfg, Apply(cfg, s, e))
  {
    CarriesShows(cfg, s, Apply(cfg, s, e));
  }

  lemma CarriesShows(cfg: Config, s: State, s': State)
    requires Shows(cfg, s) && s'.trace == s.trace && s'.runs == s.runs && s'.sessions >= s.sessions
    requires s'.stored == s.stored && s'.codec == s.codec && s'.live == s.live && s'.fb == s.fb
    requires s'.session.Some? ==> s'.session.value.id < s'.sessions
    ensures Shows(cfg, s')
  {
  }

  lemma {:induction false} RunShows(cfg: Config, s: State, es: seq<Event>)
    requires Shows(cfg, s) && Valid(cfg, s, es)
    ensures Shows(cfg, Run(cfg, s, es))
    decreases es
  {
    if es != [] {
      StepShows(cfg, s, es[0]);
      RunShows(cfg, Apply(cfg, s, es[0]), es[1..]);
    }
  }

  lemma InitialShows(cfg: Config, codec: Codec, restored: bool, pre: Placeholder)
    ensures Shows(cfg, Initial(cfg, codec, restored, pre))
  {
  }

  /** In every run: a stored frame is a keyframe of the current codec, and every picture shown satisfies ShotOk. */
  lemma ShownPictures(cfg: Config, codec: Codec, restored: bool, pre: Placeholder, es: seq<Event>)
    requires Valid(cfg, Initial(cfg, codec, restored, pre), es)
    ensures var s := Run(cfg, Initial(cfg, codec, restored, pre), es);
      && (s.stored.Some? ==> s.stored.value.key && s.stored.value.codec == s.codec)
      && forall i :: 0 <= i < |s.trace| && s.trace[i].Deliver? ==> ShotOk(cfg, s.runs, s.sessions, s.trace[i].shot)
  {
    RunShows(cfg, Initial(cfg, codec, restored, pre), es);
  }

  // ---------------------------------------------------------------------
  // Pictures of another codec
  // ---------------------------------------------------------------------

  /** A picture delivered under another codec than its own. */
  predicate Wrong(e: Entry) {
    e.Deliver? && e.shot.picture.codec != e.shot.stream
  }

  predicate SomeWrong(t: seq<Entry>) {
    exists i :: 0 <= i < |t| && Wrong(t[i])
  }

  lemma WrongAppend(t: seq<Entry>, e: Entry)
    ensures SomeWrong(t + [e]) <==> SomeWrong(t) || Wrong(e)
  {
    var t' := t + [e];
    assert t'[|t|] == e && forall i :: 0 <= i < |t| ==> t'[i] == t[i];
  }

  /** What a run put up as it began: the codecs of its pre-encoded variants, and how many frames it has sent. */
  datatype Placard = Placard(codecs: seq<Codec>, every: Positive, sent: nat)

  /** The run begins outside neutral mode, without a stored keyframe, on a placeholder. */
  predicate StartsOnPlaceholder(cfg: Config, s: State, e: Event) {
    e.Begin? && e.rtpOk && !cfg.neutral && s.stored.None? && s.pre.base.Some?
  }

  function PlaceholderCodecs(p: Placeholder): seq<Codec>
    requires p.base.Some?
  {
    [p.base.value] + (if p.dot.Some? then [p.dot.value] else [])
  }

  predicate HoldsOffCodec(f: Fallback, codec: Codec) {
    exists i :: 0 <= i < |f.pictures| && f.pictures[i].codec != codec
  }

  /** A run takes up a picture of another codec exactly when it starts on a placeholder with such a frame, base or dot. */
  lemma WhenARunIsStale(cfg: Config, s: State, e: Event)
    requires Shows(cfg, s) && Enabled(s, e) && e.Begin?
    ensures var t := Apply(cfg, s, e);
      t.fb.Some? && HoldsOffCodec(t.fb.value, s.codec) <==>
        StartsOnPlaceholder(cfg, s, e)
        && (s.pre.base.value != s.codec || (s.pre.dot.Some? && s.pre.dot.value != s.codec))
  {
    if StartsOnPlaceholder(cfg, s, e) {
      var ps := Apply(cfg, s, e).fb.value.pictures;
      assert ps == Variants(s.pre.base.value, s.pre.dot, PreEncoded);
      assert ps[0].codec == s.pre.base.value;
      assert s.pre.dot.Some? ==> |ps| == 2 && ps[1].codec == s.pre.dot.value;
    }
  }

  function PlacardAfter(cfg: Config, s: State, e: Event, w: Option<Placard>): Option<Placard>
    requires Enabled(s, e)
  {
    if e.Begin? then
      (if StartsOnPlaceholder(cfg, s, e) then Some(Placard(PlaceholderCodecs(s.pre), SwitchEvery(e.fps), 0)) else None)
    else if !SameRun(s, Apply(cfg, s, e)) then None
    else if w.Some? && e.FallbackTick? && e.sent then Some(w.value.(sent := w.value.sent + 1))
    else w
  }

  predicate SameRun(s: State, t: State) {
    s.fb.Some? && t.fb.Some? && s.fb.value.id == t.fb.value.id
  }

  /** The variant whose turn it is was encoded for another codec. */
  predicate OffCodec(w: Option<Placard>, codec: Codec) {
    w.Some? && w.value.codecs != [] && w.value.codecs[Turn(w.value.sent, w.value.every, |w.value.codecs|)] != codec
  }

  /** The placard is that of the live run; without one, the run's pictures are of the stream's codec. */
  predicate Posted(cfg: Config, s: State, w: Option<Placard>) {
    if w.Some? then
      && s.fb.Some? && s.fb.value.begun && !s.fb.value.serving && !cfg.neutral
      && w.value.every == s.fb.value.every && w.value.sent == s.fb.value.shown
      && |w.value.codecs| == |s.fb.value.pictures|
      && forall i :: 0 <= i < |w.value.codecs| ==> w.value.codecs[i] == s.fb.value.pictures[i].codec
    else
      s.fb.Some? && s.fb.value.begun ==>
        forall i :: 0 <= i < |s.fb.value.pictures| ==> s.fb.value.pictures[i].codec == s.codec
  }

  lemma BeginPosts(cfg: Config, s: State, e: Event, w: Option<Placard>)
    requires Shows(cfg, s) && Enabled(s, e) && e.Begin?
    ensures var t := Apply(cfg, s, e);
      t.trace == s.trace && Posted(cfg, t, PlacardAfter(cfg, s, e, w))
  {
  }

  lemma QuietPosts(cfg: Config, s: State, e: Event, w: Option<Placard>)
    requires Posted(cfg, s, w) && Enabled(s, e) && (e.Attempt? || e.Play? || e.Audio?)
    ensures var t := Apply(cfg, s, e);
      t.trace == s.trace && Posted(cfg, t, PlacardAfter(cfg, s, e, w))
  {
  }

  /** The run and the codec stay, or a run that has not begun takes over, or there is none. */
  predicate KeepsPosted(s: State, t: State) {
    (t.fb == s.fb && t.codec == s.codec) || t.fb.None? || (!t.fb.value.begun && !SameRun(s, t))
  }

  lemma EndedPosts(cfg: Config, s: State)
    requires Shows(cfg, s)
    ensures KeepsPosted(s, Ended(cfg, s)) && (SomeWrong(Ended(cfg, s).trace) <==> SomeWrong(s.trace))
  {
    WrongAppend(s.trace, Reset);
  }

  lemma TickPosts(cfg: Config, s: State, now: int)
    requires Shows(cfg, s) && s.session.Some?
    ensures KeepsPosted(s, OnTick(cfg, s, now)) && (SomeWrong(OnTick(cfg, s, now).trace) <==> SomeWrong(s.trace))
  {
    EndedPosts(cfg, s.(lastTick := now));
    WrongAppend(s.trace, Reset);
  }

  lemma VideoPosts(s: State, now: int, frame: Frame, sent: bool)
    requires s.session.Some?
    ensures var t := OnVideo(s, now, frame, sent);
      KeepsPosted(s, t) && (SomeWrong(t.trace) <==> SomeWrong(s.trace))
  {
    if frame.Image? {
      var id := s.session.value.id;
      var e := Deliver(Shot(Session(id), Picture(s.codec, frame.key, FromCamera(id)), s.codec));
      WrongAppend(s.trace, e);
      WrongAppend(s.trace, Reset);
      WrongAppend(s.trace + [Reset], e);
    }
  }

  lemma AnnouncedPosts(cfg: Config, s: State, e: Event)
    requires Shows(cfg, s) && Enabled(s, e) && e.Describe?
    ensures var t := Apply(cfg, s, e);
      KeepsPosted(s, t) && (SomeWrong(t.trace) <==> SomeWrong(s.trace))
  {
    WrongAppend(s.trace, Reset);
  }

  lemma FallbackTickPosts(cfg: Config, s: State, e: Event, w: Option<Placard>)
    requires Shows(cfg, s) && Posted(cfg, s, w) && Enabled(s, e) && e.FallbackTick?
    ensures var t := Apply(cfg, s, e);
      && Posted(cfg, t, PlacardAfter(cfg, s, e, w))
      && (SomeWrong(t.trace) <==> SomeWrong(s.trace) || (e.sent && OffCodec(w, s.codec)))
  {
    var f := s.fb.value;
    var switched := Switches(cfg, f, e.now, e.neutralOk);
    ShownOffCodec(cfg, s, w, switched);
    if e.sent {
      WrongAppend(s.trace, Deliver(Shot(FallbackRun(f.id), Shown(f, switched, s.codec), s.codec)));
    }
  }

  lemma ShownOffCodec(cfg: Config, s: State, w: Option<Placard>, switched: bool)
    requires Posted(cfg, s, w) && s.fb.Some? && s.fb.value.begun && (switched ==> cfg.neutral)
    ensures Shown(s.fb.value, switched, s.codec).codec != s.codec <==> OffCodec(w, s.codec)
  {
  }

  lemma KeptPosts(cfg: Config, s: State, e: Event, w: Option<Placard>)
    requires Posted(cfg, s, w) && Enabled(s, e) && !e.Begin? && !e.FallbackTick? && KeepsPosted(s, Apply(cfg, s, e))
    ensures Posted(cfg, Apply(cfg, s, e), PlacardAfter(cfg, s, e, w))
  {
  }

  lemma OthersKeep(cfg: Config, s: State, e: Event)
    requires Shows(cfg, s) && Enabled(s, e) && (e.HandshakeFails? || e.Closed? || e.Video? || e.Tick?)
    ensures var t := Apply(cfg, s, e);
      KeepsPosted(s, t) && (SomeWrong(t.trace) <==> SomeWrong(s.trace))
  {
    var s0 := s.(clock := TimeOf(s, e));
    CarriesShows(cfg, s, s0);
    match e
    case Video(now, frame, sent) => VideoPosts(s0, now, frame, sent);
    case Tick(now) => TickPosts(cfg, s0, now);
    case _ => EndedPosts(cfg, s0);
  }

  lemma StepPosts(cfg: Config, s: State, e: Event, w: Option<Placard>)
    requires Shows(cfg, s) && Posted(cfg, s, w) && Enabled(s, e)
    ensures var t := Apply(cfg, s, e);
      && Posted(cfg, t, PlacardAfter(cfg, s, e, w))
      && (SomeWrong(t.trace) <==> SomeWrong(s.trace) || (e.FallbackTick? && e.sent && OffCodec(w, s.codec)))
  {
    if e.Begin? {
      BeginPosts(cfg, s, e, w);
    } else if e.FallbackTick? {
      FallbackTickPosts(cfg, s, e, w);
    } else if e.Attempt? || e.Play? || e.Audio? {
      QuietPosts(cfg, s, e, w);
    } else {
      if e.Describe? {
        AnnouncedPosts(cfg, s, e);
      } else {
        OthersKeep(cfg, s, e);
      }
      KeptPosts(cfg, s, e, w);
    }
  }

  /** Some frame is accepted while the variant whose turn it is was encoded for another codec; `w` is the placard of the live run. */
  predicate OffCodecSent(cfg: Config, s: State, es: seq<Event>, w: Option<Placard>)
    requires Valid(cfg, s, es)
    decreases es
  {
    es != [] && ((es[0].FallbackTick? && es[0].sent && OffCodec(w, s.codec))
                 || OffCodecSent(cfg, Apply(cfg, s, es[0]), es[1..], PlacardAfter(cfg, s, es[0], w)))
  }

  lemma {:induction false} RunPosts(cfg: Config, s: State, es: seq<Event>, w: Option<Placard>)
    requires Shows(cfg, s) && Posted(cfg, s, w) && Valid(cfg, s, es)
    ensures SomeWrong(Run(cfg, s, es).trace) <==> SomeWrong(s.trace) || OffCodecSent(cfg, s, es, w)
    decreases es
  {
    if es != [] {
      StepPosts(cfg, s, es[0], w);
      StepShows(cfg, s, es[0]);
      RunPosts(cfg, Apply(cfg, s, es[0]), es[1..], PlacardAfter(cfg, s, es[0], w));
    }
  }

  /**
   In every run: a picture of another codec than the advertised one is delivered
   exactly when a run begins outside neutral mode, without a stored keyframe, on
   a placeholder, and a frame is accepted while the variant whose turn it is was
   encoded for another codec.
   */
  lemma WhenAWrongPictureIsShown(cfg: Config, codec: Codec, restored: bool, pre: Placeholder, es: seq<Event>)
    requires Valid(cfg, Initial(cfg, codec, restored, pre), es)
    ensures SomeWrong(Run(cfg, Initial(cfg, codec, restored, pre), es).trace)
            <==> OffCodecSent(cfg, Initial(cfg, codec, restored, pre), es, None)
  {
    InitialShows(cfg, codec, restored, pre);
    RunPosts(cfg, Initial(cfg, codec, restored, pre), es, None);
  }

  /** Whose turn it is: the base frame's for the first second's worth of frames, then, if there is one, the dotted one's, and so on. */
  lemma WhenTheDotIsShown(p: Placeholder, codec: Codec, fps: int, n: nat)
    requires p.base.Some? && fps >= 1
    ensures var w := Placard(PlaceholderCodecs(p), SwitchEvery(fps), n);
      OffCodec(Some(w), codec) <==>
        if p.dot.Some? && n / fps % 2 == 1 then p.dot.value != codec else p.base.value != codec
    ensures n < fps ==> n / fps % 2 == 0
    ensures n == fps ==> n / fps % 2 == 1
  {
  }

  function OneTick(): Event {
    FallbackTick(0, true, true)
  }

  /** A run whose current picture is of another codec delivers it at its next tick. */
  lemma NextTickIsWrong(cfg: Config, s: State)
    requires s.fb.Some? && s.fb.value.begun && !s.fb.value.serving && !cfg.neutral && s.clock <= 0
    requires s.fb.value.Current().codec != s.codec
    ensures Valid(cfg, s, [OneTick()]) && SomeWrong(Run(cfg, s, [OneTick()]).trace)
  {
    var t := Apply(cfg, s, OneTick());
    WrongAppend(s.trace, t.trace[|s.trace|]);
    assert [OneTick()][1..] == [] && Valid(cfg, t, []) && Run(cfg, t, []) == t;
  }

  /** A rebuild for a camera of `codec`, a failed handshake, and a fallback run that begins and sends. */
  function FailedRebuild(codec: Codec, differ: bool): seq<Event> {
    [Describe(codec, differ, true, Encoding(false, false))] + ([HandshakeFails] + Showing())
  }

  function Showing(): seq<Event> {
    [Begin(0, true, Encoding(true, true), 2, true)] + [OneTick()]
  }

  lemma PreEncodedIsShown(cfg: Config, s: State)
    requires !cfg.neutral && s.fb.Some? && !s.fb.value.begun && s.clock <= 0
    requires s.stored.None? && s.pre.base.Some? && s.pre.base.value != s.codec
    ensures Valid(cfg, s, Showing()) && SomeWrong(Run(cfg, s, Showing()).trace)
  {
    var e := Begin(0, true, Encoding(true, true), 2, true);
    NextTickIsWrong(cfg, Apply(cfg, s, e));
    OneStep(cfg, s, e, [OneTick()]);
  }

  lemma FailedRebuildShows(cfg: Config, s: State, codec: Codec, differ: bool)
    requires cfg.CanFallback() && !cfg.neutral && s.session.None? && s.clock <= 0
    requires s.pre.base.Some? && s.pre.base.value != codec && (s.codec != codec || differ)
    ensures Valid(cfg, s, FailedRebuild(codec, differ))
    ensures SomeWrong(Run(cfg, s, FailedRebuild(codec, differ)).trace)
  {
    var e1, e2 := Describe(codec, differ, true, Encoding(false, false)), HandshakeFails;
    var s1 := Apply(cfg, s, e1);
    var s2 := Apply(cfg, s1, e2);
    PreEncodedIsShown(cfg, s2);
    OneStep(cfg, s1, e2, Showing());
    OneStep(cfg, s, e1, [e2] + Showing());
  }

  /** The H.264 placeholder, base and dot, of a handler created for that codec. */
  const H264_PLACEHOLDER := Placeholder(Some(H264), Some(H264))

  /** The camera turns out to be H.265: the H.264 placeholder is shown on the rebuilt stream. */
  lemma StaleFrameIsShown(cfg: Config) returns (es: seq<Event>)
    requires cfg.CanFallback() && !cfg.neutral
    ensures Valid(cfg, Initial(cfg, H264, false, H264_PLACEHOLDER), es)
    ensures SomeWrong(Run(cfg, Initial(cfg, H264, false, H264_PLACEHOLDER), es).trace)
  {
    es := FailedRebuild(H265, false);
    FailedRebuildShows(cfg, Initial(cfg, H264, false, H264_PLACEHOLDER), H265, false);
  }

  /** After a restart that restored an H.265 keyframe, new parameter sets are enough: the codec never changes. */
  lemma StaleFrameAfterRestart(cfg: Config) returns (es: seq<Event>)
    requires cfg.CanFallback() && !cfg.neutral
    ensures Valid(cfg, Initial(cfg, H265, true, H264_PLACEHOLDER), es)
    ensures SomeWrong(Run(cfg, Initial(cfg, H265, true, H264_PLACEHOLDER), es).trace)
    ensures forall i :: 0 <= i < |es| && es[i].Describe? ==> es[i].codec == H265
  {
    es := FailedRebuild(H265, true);
    FailedRebuildShows(cfg, Initial(cfg, H265, true, H264_PLACEHOLDER), H265, true);
  }

  /** The rebuild encodes a new base frame but no new dot: the H.264 dot left over is shown on the H.265 stream, after two H.265 frames. */
  lemma LeftOverDotIsShown(cfg: Config) returns (es: seq<Event>)
    requires cfg.CanFallback() && !cfg.neutral
    ensures Valid(cfg, Initial(cfg, H264, false, H264_PLACEHOLDER), es)
    ensures SomeWrong(Run(cfg, Initial(cfg, H264, false, H264_PLACEHOLDER), es).trace)
    ensures |es| == 5 && es[0] == Describe(H265, false, false, Encoding(true, false))
  {
    var s := Initial(cfg, H264, false, H264_PLACEHOLDER);
    var e1, e2 := Describe(H265, false, false, Encoding(true, false)), Begin(0, true, Encoding(true, true), 2, true);
    var s1 := Apply(cfg, s, e1);
    var s2 := Apply(cfg, s1, e2);
    var s3 := Apply(cfg, s2, OneTick());
    var s4 := Apply(cfg, s3, OneTick());
    assert s4.fb.value.shown == 2 && s4.fb.value.pictures == [Picture(H265, true, PreEncoded), Picture(H264, true, PreEncoded)];
    NextTickIsWrong(cfg, s4);
    var last := [OneTick()];
    OneStep(cfg, s3, OneTick(), last);
    OneStep(cfg, s2, OneTick(), [OneTick()] + last);
    OneStep(cfg, s1, e2, [OneTick()] + ([OneTick()] + last));
    OneStep(cfg, s, e1, [e2] + ([OneTick()] + ([OneTick()] + last)));
    es := [e1] + ([e2] + ([OneTick()] + ([OneTick()] + last)));
  }

  /** Every frame of the placeholder is of the stream's codec; without a base frame there is none. */
  predicate PreFits(s: State) {
    s.pre.base.Some? ==> s.pre.base.value == s.codec && (s.pre.dot.Some? ==> s.pre.dot.value == s.codec)
  }

  predicate IsRebuild(s: State, e: Event) {
    e.Describe? && (e.codec != s.codec || e.differ)
  }

  /** Frames go stale at rebuilds only: a new base frame does not help the dotted one, and none is made when the camera gave its sets. */
  lemma WhenFramesGoStale(cfg: Config, s: State, e: Event)
    requires Enabled(s, e)
    ensures PreFits(Apply(cfg, s, e)) <==>
      if !IsRebuild(s, e) then PreFits(s)
      else if e.full || !e.encoded.base then PreFits(s.(codec := e.codec))
      else e.encoded.dot || s.pre.dot.None? || s.pre.dot.value == e.codec
  {
    if !e.Describe? {
      OnlyDescribeChangesCodec(cfg, s, e);
    }
  }

  lemma OnlyDescribeChangesCodec(cfg: Config, s: State, e: Event)
    requires Enabled(s, e) && !e.Describe?
    ensures SameStream(s, Apply(cfg, s, e))
  {
    match e
    case Video(now, frame, sent) => VideoKeepsStream(s.(clock := now), now, frame, sent);
    case Tick(now) => TickKeepsStream(cfg, s.(clock := now), now);
    case FallbackTick(now, neutralOk, sent) => FallbackKeepsStream(cfg, s.(clock := now), now, neutralOk, sent);
    case _ =>
  }

  predicate SameStream(s: State, t: State) {
    t.pre == s.pre && t.codec == s.codec
  }

  lemma VideoKeepsStream(s: State, now: int, frame: Frame, sent: bool)
    requires s.session.Some?
    ensures SameStream(s, OnVideo(s, now, frame, sent))
  {
  }

  lemma TickKeepsStream(cfg: Config, s: State, now: int)
    requires s.session.Some?
    ensures SameStream(s, OnTick(cfg, s, now))
  {
  }

  lemma FallbackKeepsStream(cfg: Config, s: State, now: int, neutralOk: bool, sent: bool)
    requires s.fb.Some?
    ensures SameStream(s, OnFallbackTick(cfg, s, now, neutralOk, sent))
  {
  }

  // ---------------------------------------------------------------------
  // Switches land on keyframes
  // ---------------------------------------------------------------------

  predicate LandsAt(t: seq<Entry>, i: nat) {
    i < |t| && t[i].Deliver? && (i == 0 || t[i - 1].Reset?) ==> t[i].shot.picture.key
  }

  /** The first delivery after each reset is a keyframe. */
  predicate Landed(t: seq<Entry>) {
    forall i :: 0 <= i < |t| ==> LandsAt(t, i)
  }

  /** Nothing has been delivered since the last reset. */
  predicate Bare(t: seq<Entry>) {
    t == [] || t[|t| - 1].Reset?
  }

  lemma LandedAppend(t: seq<Entry>, e: Entry)
    ensures Landed(t + [e]) <==> Landed(t) && (e.Deliver? && Bare(t) ==> e.shot.picture.key)
    ensures Bare(t + [e]) <==> e.Reset?
  {
    var t' := t + [e];
    assert forall i :: 0 <= i < |t| ==> t'[i] == t[i];
    assert forall i :: 0 <= i < |t| ==> (LandsAt(t', i) <==> LandsAt(t, i));
    assert LandsAt(t', |t|) <==> (e.Deliver? && Bare(t) ==> e.shot.picture.key);
  }

  /** The camera is relayed and the keyframe it took over with was refused by the RTP encoder. */
  predicate Refused(s: State) {
    IsRelaying(s) && Bare(s.trace)
  }

  /** A delta frame is sent where no keyframe has been. */
  predicate SendsDelta(e: Event) {
    e.Video? && e.frame == Image(false) && e.sent
  }

  function RefusedAfter(cfg: Config, s: State, e: Event, refused: bool): bool
    requires Enabled(s, e)
  {
    if e.Video? && e.frame.Image? && (IsRelaying(s) || e.frame.key) then (refused || !IsRelaying(s)) && !e.sent
    else refused && IsRelaying(Apply(cfg, s, e))
  }

  lemma VideoLands(s: State, now: int, frame: Frame, sent: bool)
    requires s.session.Some?
    ensures var t := OnVideo(s, now, frame, sent);
      && (Landed(t.trace) <==> Landed(s.trace) && !(frame == Image(false) && sent && Refused(s)))
      && (Refused(t) <==> if frame.Image? && (IsRelaying(s) || frame.key) then (Refused(s) || !IsRelaying(s)) && !sent
                          else Refused(s) && IsRelaying(t))
  {
    if frame.Image? {
      var id := s.session.value.id;
      var e := Deliver(Shot(Session(id), Picture(s.codec, frame.key, FromCamera(id)), s.codec));
      LandedAppend(s.trace, e);
      LandedAppend(s.trace, Reset);
      LandedAppend(s.trace + [Reset], e);
    }
  }

  lemma EndedLands(cfg: Config, s: State)
    ensures Landed(Ended(cfg, s).trace) <==> Landed(s.trace)
    ensures !IsRelaying(Ended(cfg, s))
  {
    LandedAppend(s.trace, Reset);
  }

  lemma TickLands(cfg: Config, s: State, now: int)
    requires s.session.Some?
    ensures var t := OnTick(cfg, s, now);
      (Landed(t.trace) <==> Landed(s.trace)) && (Refused(t) <==> Refused(s) && IsRelaying(t))
  {
    EndedLands(cfg, s.(lastTick := now));
    LandedAppend(s.trace, Reset);
  }

  lemma FallbackTickLands(cfg: Config, s: State, now: int, neutralOk: bool, sent: bool)
    requires Shows(cfg, s) && Flows(s) && s.fb.Some? && s.fb.value.begun
    ensures var t := OnFallbackTick(cfg, s, now, neutralOk, sent);
      (Landed(t.trace) <==> Landed(s.trace)) && !IsRelaying(t)
  {
    if sent {
      LandedAppend(s.trace, OnFallbackTick(cfg, s, now, neutralOk, sent).trace[|s.trace|]);
    }
  }

  lemma DescribeLands(cfg: Config, s: State, e: Event)
    requires Enabled(s, e) && e.Describe?
    ensures var t := Apply(cfg, s, e);
      (Landed(t.trace) <==> Landed(s.trace)) && !IsRelaying(t)
  {
    LandedAppend(s.trace, Reset);
  }

  lemma QuietLands(cfg: Config, s: State, e: Event)
    requires Enabled(s, e) && (e.Attempt? || e.Play? || e.Audio? || e.Begin?)
    ensures var t := Apply(cfg, s, e);
      t.trace == s.trace && (Refused(t) <==> Refused(s) && IsRelaying(t))
  {
  }

  lemma StepLands(cfg: Config, s: State, e: Event)
    requires Shows(cfg, s) && Flows(s) && Enabled(s, e)
    ensures var t := Apply(cfg, s, e);
      && (Landed(t.trace) <==> Landed(s.trace) && !(SendsDelta(e) && Refused(s)))
      && (Refused(t) <==> RefusedAfter(cfg, s, e, Refused(s)))
  {
    var s0 := s.(clock := TimeOf(s, e));
    match e
    case Describe(_, _, _, _) => DescribeLands(cfg, s, e);
    case HandshakeFails => EndedLands(cfg, s0);
    case Video(now, frame, sent) => VideoLands(s0, now, frame, sent);
    case Tick(now) => TickLands(cfg, s0, now);
    case Closed(_) => EndedLands(cfg, s0);
    case FallbackTick(now, neutralOk, sent) =>
      CarriesShows(cfg, s, s0);
      FallbackTickLands(cfg, s0, now, neutralOk, sent);
    case _ => QuietLands(cfg, s, e);
  }

  /** A take-over keyframe is refused by the RTP encoder and a delta frame is sent before any keyframe is. */
  predicate DeltaAfterRefusal(cfg: Config, s: State, es: seq<Event>, refused: bool)
    requires Valid(cfg, s, es)
    decreases es
  {
    es != [] && ((SendsDelta(es[0]) && refused)
                 || DeltaAfterRefusal(cfg, Apply(cfg, s, es[0]), es[1..], RefusedAfter(cfg, s, es[0], refused)))
  }

  lemma {:induction false} RunLands(cfg: Config, s: State, es: seq<Event>)
    requires Shows(cfg, s) && Flows(s) && Valid(cfg, s, es)
    ensures Landed(Run(cfg, s, es).trace) <==> Landed(s.trace) && !DeltaAfterRefusal(cfg, s, es, Refused(s))
    decreases es
  {
    if es != [] {
      StepLands(cfg, s, es[0]);
      StepShows(cfg, s, es[0]);
      StepFlows(cfg, s, es[0]);
      RunLands(cfg, Apply(cfg, s, es[0]), es[1..]);
    }
  }

  /** In every run: the first picture after each reset is a keyframe, unless the RTP encoder refuses one and then accepts a delta frame. */
  lemma SwitchesLandOnKeyframes(cfg: Config, codec: Codec, restored: bool, pre: Placeholder, es: seq<Event>)
    requires Valid(cfg, Initial(cfg, codec, restored, pre), es)
    ensures Landed(Run(cfg, Initial(cfg, codec, restored, pre), es).trace)
            <==> !DeltaAfterRefusal(cfg, Initial(cfg, codec, restored, pre), es, false)
  {
    InitialShows(cfg, codec, restored, pre);
    RunLands(cfg, Initial(cfg, codec, restored, pre), es);
  }

  /** In particular when it refuses nothing. */
  lemma {:induction false} NoRefusalNoDelta(cfg: Config, s: State, es: seq<Event>)
    requires Valid(cfg, s, es) && forall i :: 0 <= i < |es| && es[i].Video? ==> es[i].sent
    ensures !DeltaAfterRefusal(cfg, s, es, false)
    decreases es
  {
    if es != [] {
      assert !RefusedAfter(cfg, s, es[0], false);
      NoRefusalNoDelta(cfg, Apply(cfg, s, es[0]), es[1..]);
    }
  }
}
