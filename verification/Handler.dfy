/**
 The life of one stream at event level: handshakes, camera frames, monitor
 ticks, fallback ticks and disconnections, each an atomic event, with the
 trace of what is delivered to consumers. Times are in milliseconds.
 */
module Handler {
  import opened Wrappers
  import opened AccessUnit

  /** `neutral` is the neutral mode of a low stream. */
  datatype Config = Config(battery: bool, modeNone: bool, neutral: bool, timeout: int, stall: int, hold: int) {
    predicate CanFallback() {
      battery && !modeNone
    }
  }

  datatype CameraState = Disconnected | Connecting | Online | Sleeping

  /** Where a picture comes from. */
  datatype Origin = FromCamera(session: nat) | FromDisk | PreEncoded | OnTheFly | NeutralImage

  datatype Picture = Picture(codec: Codec, key: bool, origin: Origin)

  datatype Producer = Session(id: nat) | FallbackRun(id: nat)

  /** One access unit at the output; `stream` is the codec advertised at that moment. */
  datatype Shot = Shot(from: Producer, picture: Picture, stream: Codec)

  datatype Entry = Reset | Deliver(shot: Shot)

  datatype Kind = Nothing | LastKeyframe | Neutral

  /** The codecs the base frame and the dotted variant were encoded for. */
  datatype Placeholder = Placeholder(base: Option<Codec>, dot: Option<Codec>)

  const NO_PLACEHOLDER := Placeholder(None, None)

  /** What FFmpeg gave for the base frame and then for the dotted one, in separate calls. */
  datatype Encoding = Encoding(base: bool, dot: bool)

  type Positive = n: nat | n > 0 witness 1
  type Pictures = ps: seq<Picture> | ps != [] witness [Picture(H264, true, OnTheFly)]

  /** A fallback run; it chooses its pictures when it begins and changes after every `every` frames accepted; `shown` counts these. */
  datatype Fallback = Fallback(id: nat, begun: bool, pictures: Pictures, every: Positive, shown: nat, serving: bool, switchAt: int) {
    function Current(): Picture {
      pictures[Turn(shown, every, |pictures|)]
    }
  }

  /** Which of `count` variants is shown after n accepted frames. */
  function Turn(n: nat, every: Positive, count: nat): (i: nat)
    requires count > 0
    ensures i < count
  {
    n / every % count
  }

  datatype Relaying = Relaying(id: nat, seenKey: bool)

  datatype State = State(
    codec: Codec,
    camera: CameraState,
    stored: Option<Picture>,
    live: bool,
    pre: Placeholder,
    fb: Option<Fallback>,
    runs: nat,
    described: bool,
    session: Option<Relaying>,
    sessions: nat,
    needKey: bool,
    lastPkt: int,
    lastVideo: int,
    lastTick: int,
    clock: int,
    kind: Kind,
    trace: seq<Entry>
  )

  /** A decoded video packet: no usable picture yet, or an admitted frame. */
  datatype Frame = NoPicture | Image(key: bool)

  datatype Event =
    | Attempt
    | Describe(codec: Codec, differ: bool, full: bool, encoded: Encoding)  // differ: complete, and other sets than advertised
    | Play(now: int)
    | HandshakeFails
    | Video(now: int, frame: Frame, sent: bool)                        // sent: the RTP encoder accepted it
    | Audio(now: int)
    | Tick(now: int)
    | Closed(now: int)
    | Begin(now: int, neutralOk: bool, encoded: Encoding, fps: int, rtpOk: bool)
    | FallbackTick(now: int, neutralOk: bool, sent: bool)

  const UNCHOSEN: Pictures := [Picture(H264, true, OnTheFly)]

  // ---------------------------------------------------------------------
  // What each event does
  // ---------------------------------------------------------------------

  function Started(s: State): State {
    if s.fb.Some? then s
    else s.(fb := Some(Fallback(s.runs, false, UNCHOSEN, 1, 0, false, 0)), runs := s.runs + 1,
            kind := LastKeyframe, trace := s.trace + [Reset])
  }

  function Stopped(s: State): State {
    s.(fb := None, kind := Nothing)
  }

  /** The session or the attempt is over, with an error. */
  function Ended(cfg: Config, s: State): State {
    var s1 := s.(session := None, described := false);
    if cfg.CanFallback() then Started(s1.(camera := Sleeping)) else s1.(camera := Disconnected)
  }

  /** A new base frame replaces the old one; the dotted variant stays unless a new one is made too. */
  function Renewed(p: Placeholder, codec: Codec, e: Encoding): Placeholder {
    if !e.base then p else Placeholder(Some(codec), if e.dot then Some(codec) else p.dot)
  }

  function Rebuilt(s: State, codec: Codec, full: bool, encoded: Encoding): State {
    var s1 := Stopped(s).(codec := codec, stored := None);
    if full then s1
    else Started(s1.(pre := Renewed(s1.pre, codec, encoded)))
  }

  function Send(s: State, from: Producer, p: Picture, sent: bool): State {
    if sent then s.(trace := s.trace + [Deliver(Shot(from, p, s.codec))]) else s
  }

  function TakeOver(s: State): State
    requires s.session.Some?
  {
    var s1 := Stopped(s);
    s1.(trace := s1.trace + [Reset], session := Some(s.session.value.(seenKey := true)), needKey := false, camera := Online)
  }

  function Forward(s: State, key: bool, sent: bool): State
    requires s.session.Some?
  {
    var id := s.session.value.id;
    var p := Picture(s.codec, key, FromCamera(id));
    Send(if key then s.(stored := Some(p), live := true) else s, Session(id), p, sent)
  }

  function OnVideo(s: State, now: int, frame: Frame, sent: bool): State
    requires s.session.Some?
  {
    var s1 := s.(lastPkt := now, lastVideo := now);
    match frame
    case NoPicture => s1
    case Image(key) =>
      if s.session.value.seenKey && !s.needKey then Forward(s1, key, sent)
      else if key then Forward(TakeOver(s1), key, sent)
      else s1
  }

  function OnTick(cfg: Config, s: State, now: int): State
    requires s.session.Some?
  {
    var s1 := s.(lastTick := now);
    if now - s.lastPkt >= cfg.timeout then Ended(cfg, s1)
    else if cfg.CanFallback() && s.fb.None? && now - s.lastVideo >= cfg.stall then
      Started(s1.(needKey := true, camera := Sleeping))
    else s1
  }

  function Variants(base: Codec, dot: Option<Codec>, origin: Origin): Pictures {
    [Picture(base, true, origin)] + (if dot.Some? then [Picture(dot.value, true, origin)] else [])
  }

  /** What a run serves, or nothing when it has to give up. */
  function Choice(cfg: Config, s: State, neutralOk: bool, encoded: Encoding): Option<Pictures> {
    if cfg.neutral then
      if s.stored.Some? && s.live then Some([s.stored.value])
      else if neutralOk then Some([Picture(s.codec, true, NeutralImage)])
      else None
    else if s.stored.Some? then Some([s.stored.value])
    else if s.pre.base.Some? then Some(Variants(s.pre.base.value, s.pre.dot, PreEncoded))
    else if encoded.base then Some(Variants(s.codec, if encoded.dot then Some(s.codec) else None, OnTheFly))
    else None
  }

  function SwitchEvery(fps: int): Positive {
    if fps < 1 then 1 else fps
  }

  function OnBegin(cfg: Config, s: State, now: int, neutralOk: bool, encoded: Encoding, fps: int, rtpOk: bool): State
    requires s.fb.Some?
  {
    var p := Choice(cfg, s, neutralOk, encoded);
    var held := s.stored.Some? && (cfg.neutral ==> s.live);
    if p.None? || !rtpOk then Stopped(s)
    else
      s.(fb := Some(Fallback(s.fb.value.id, true, p.value, SwitchEvery(fps), 0, cfg.neutral && !held, now + cfg.hold)),
         kind := if !held && (cfg.neutral || s.pre.base.Some?) then Neutral else s.kind)
  }

  function OnFallbackTick(cfg: Config, s: State, now: int, neutralOk: bool, sent: bool): State
    requires s.fb.Some?
  {
    var f := s.fb.value;
    var switched := Switches(cfg, f, now, neutralOk);
    Send(s.(fb := Some(AfterTick(f, switched, sent)), kind := if switched then Neutral else s.kind),
         FallbackRun(f.id), Shown(f, switched, s.codec), sent)
  }

  /** The hold is over and the neutral image is there. */
  predicate Switches(cfg: Config, f: Fallback, now: int, neutralOk: bool) {
    cfg.neutral && !f.serving && now >= f.switchAt && neutralOk
  }

  function Shown(f: Fallback, switched: bool, codec: Codec): Picture {
    if f.serving || switched then Picture(codec, true, NeutralImage) else f.Current()
  }

  function AfterTick(f: Fallback, switched: bool, sent: bool): Fallback {
    f.(serving := f.serving || switched, shown := if sent then f.shown + 1 else f.shown)
  }

  function Played(s: State, now: int): State {
    s.(session := Some(Relaying(s.sessions, false)), sessions := s.sessions + 1, described := false,
       camera := Online, lastPkt := now, lastVideo := now, lastTick := now)
  }

  function TimeOf(s: State, e: Event): int {
    match e
    case Play(now) => now
    case Video(now, _, _) => now
    case Audio(now) => now
    case Tick(now) => now
    case Closed(now) => now
    case Begin(now, _, _, _, _) => now
    case FallbackTick(now, _, _) => now
    case Attempt => s.clock
    case Describe(_, _, _, _) => s.clock
    case HandshakeFails => s.clock
  }

  predicate Enabled(s: State, e: Event) {
    && TimeOf(s, e) >= s.clock
    && match e
       case Attempt => s.session.None?
       case Describe(_, differ, full, _) => s.session.None? && (differ ==> full)
       case Play(_) => s.session.None? && s.described
       case HandshakeFails => s.session.None?
       case Video(_, _, _) => s.session.Some?
       case Audio(_) => s.session.Some?
       case Tick(_) => s.session.Some?
       case Closed(_) => s.session.Some?
       case Begin(_, _, _, _, _) => s.fb.Some? && !s.fb.value.begun
       case FallbackTick(_, _, _) => s.fb.Some? && s.fb.value.begun
  }

  function Apply(cfg: Config, s: State, e: Event): State
    requires Enabled(s, e)
  {
    var s0 := s.(clock := TimeOf(s, e));
    match e
    case Attempt => s0.(camera := Connecting)
    case Describe(codec, differ, full, encoded) =>
      (if codec != s.codec || differ then Rebuilt(s0, codec, full, encoded) else s0).(described := true)
    case Play(now) => Played(s0, now)
    case HandshakeFails => Ended(cfg, s0)
    case Video(now, frame, sent) => OnVideo(s0, now, frame, sent)
    case Audio(now) => s0.(lastPkt := now)
    case Tick(now) => OnTick(cfg, s0, now)
    case Closed(_) => Ended(cfg, s0)
    case Begin(now, neutralOk, encoded, fps, rtpOk) => OnBegin(cfg, s0, now, neutralOk, encoded, fps, rtpOk)
    case FallbackTick(now, neutralOk, sent) => OnFallbackTick(cfg, s0, now, neutralOk, sent)
  }

  /** The state the loop starts from: maybe a keyframe restored from disk, maybe a placeholder. */
  function Initial(cfg: Config, codec: Codec, restored: bool, pre: Placeholder): State {
    var s := State(codec, Disconnected, if restored then Some(Picture(codec, true, FromDisk)) else None, false, pre,
                   None, 0, false, None, 0, false, 0, 0, 0, 0, Nothing, []);
    if cfg.CanFallback() then Started(s.(camera := Sleeping)) else s
  }

  // ---------------------------------------------------------------------
  // The handler itself
  // ---------------------------------------------------------------------

  /** The handler's fields; the counters, the clock and the trace are for the specification. */
  class StreamHandler {
    const cfg: Config
    var codec: Codec
    var camera: CameraState
    var stored: Option<Picture>
    var live: bool
    var pre: Placeholder
    var fb: Option<Fallback>
    var described: bool
    var session: Option<Relaying>
    var needKey: bool
    var lastPkt: int
    var lastVideo: int
    var lastTick: int
    var kind: Kind
    var runs: nat
    var sessions: nat
    ghost var clock: int
    ghost var trace: seq<Entry>

    ghost function View(): State
      reads this
    {
      State(codec, camera, stored, live, pre, fb, runs, described, session, sessions, needKey,
            lastPkt, lastVideo, lastTick, clock, kind, trace)
    }

    constructor (cfg: Config, codec: Codec, restored: bool, pre: Placeholder)
      ensures this.cfg == cfg && View() == Initial(cfg, codec, restored, pre)
    {
      this.cfg, this.codec, this.pre := cfg, codec, pre;
      camera, live, fb, described, session, needKey := Disconnected, false, None, false, None, false;
      stored := if restored then Some(Picture(codec, true, FromDisk)) else None;
      lastPkt, lastVideo, lastTick, kind, runs, sessions := 0, 0, 0, Nothing, 0, 0;
      clock, trace := 0, [];
      new;
      if cfg.CanFallback() {
        camera := Sleeping;
        StartFallback();
      }
    }

    method StartFallback()
      modifies this
      ensures View() == Started(old(View()))
    {
      if fb.Some? {
        return;
      }
      fb := Some(Fallback(runs, false, UNCHOSEN, 1, 0, false, 0));
      runs := runs + 1;
      kind := LastKeyframe;
      trace := trace + [Reset];
    }

    /** Returns once the run is over. */
    method StopFallback()
      modifies this
      ensures View() == Stopped(old(View()))
    {
      fb := None;
      kind := Nothing;
    }

    /** The connection attempt or the session failed. */
    method EndSession()
      modifies this
      ensures View() == Ended(cfg, old(View()))
    {
      session := None;
      described := false;
      if cfg.CanFallback() {
        camera := Sleeping;
        StartFallback();
      } else {
        camera := Disconnected;
      }
    }

    method RebuildForCodec(newCodec: Codec, full: bool, encoded: Encoding)
      modifies this
      ensures View() == Rebuilt(old(View()), newCodec, full, encoded)
    {
      StopFallback();
      codec := newCodec;
      stored := None;
      if !full {
        if encoded.base {
          pre := pre.(base := Some(newCodec));
          if encoded.dot {
            pre := pre.(dot := Some(newCodec));
          }
        }
        StartFallback();
      }
    }

    method OnAttempt()
      modifies this`camera
      ensures View() == old(View()).(camera := Connecting)
    {
      camera := Connecting;
    }

    /** The camera's answer to DESCRIBE. */
    method OnDescribe(newCodec: Codec, differ: bool, full: bool, encoded: Encoding)
      requires session.None? && (differ ==> full)
      modifies this
      ensures View() == Apply(cfg, old(View()), Describe(newCodec, differ, full, encoded))
    {
      if newCodec != codec || differ {
        RebuildForCodec(newCodec, full, encoded);
      }
      described := true;
    }

    method OnPlay(now: int)
      requires session.None? && now >= clock
      modifies this
      ensures View() == Played(old(View()).(clock := now), now)
    {
      StartTimers(now);
      session, sessions := Some(Relaying(sessions, false)), sessions + 1;
      described, camera := false, Online;
    }

    method StartTimers(now: int)
      modifies this`clock, this`lastPkt, this`lastVideo, this`lastTick
      ensures clock == lastPkt == lastVideo == lastTick == now
    {
      clock := now;
      lastPkt, lastVideo, lastTick := now, now, now;
    }

    method OnAudioPacket(now: int)
      modifies this`clock, this`lastPkt
      ensures View() == old(View()).(clock := now, lastPkt := now)
    {
      clock := now;
      lastPkt := now;
    }

    /** The camera closed the connection. */
    method OnClosed(now: int)
      modifies this
      ensures View() == Ended(cfg, old(View()).(clock := now))
    {
      clock := now;
      EndSession();
    }

    /** A keyframe takes over from whatever was shown. */
    method TakeOverWithCamera()
      requires session.Some?
      modifies this
      ensures View() == TakeOver(old(View()))
    {
      StopFallback();
      trace := trace + [Reset];
      session := Some(Relaying(session.value.id, true));
      needKey := false;
      camera := Online;
    }

    method SendPicture(from: Producer, picture: Picture, sent: bool)
      modifies this`trace
      ensures View() == Send(old(View()), from, picture, sent)
    {
      if sent {
        trace := trace + [Deliver(Shot(from, picture, codec))];
      }
    }

    method ForwardFrame(key: bool, sent: bool)
      requires session.Some?
      modifies this
      ensures View() == Forward(old(View()), key, sent)
    {
      var picture := Picture(codec, key, FromCamera(session.value.id));
      if key {
        stored := Some(picture);
        live := true;
      }
      SendPicture(Session(session.value.id), picture, sent);
    }

    method OnVideoPacket(now: int, frame: Frame, sent: bool)
      requires session.Some? && now >= clock
      modifies this
      ensures View() == OnVideo(old(View()).(clock := now), now, frame, sent)
    {
      clock := now;
      lastPkt := now;
      lastVideo := now;
      if frame.NoPicture? {
        return;
      }
      if !session.value.seenKey || needKey {
        if !frame.key {
          return;
        }
        TakeOverWithCamera();
      }
      ForwardFrame(frame.key, sent);
    }

    method OnMonitorTick(now: int)
      requires session.Some? && now >= clock
      modifies this
      ensures View() == OnTick(cfg, old(View()).(clock := now), now)
    {
      clock := now;
      lastTick := now;
      if now - lastPkt >= cfg.timeout {
        EndSession();
      } else if cfg.CanFallback() && fb.None? {
        if now - lastVideo >= cfg.stall {
          needKey := true;
          camera := Sleeping;
          StartFallback();
        }
      }
    }

    /** What the run is to serve, and whether that is the neutral image already. */
    method ChoosePicture(neutralOk: bool, encoded: Encoding) returns (pictures: Option<Pictures>, serving: bool, newKind: Kind)
      ensures pictures == Choice(cfg, View(), neutralOk, encoded)
      ensures pictures.Some? ==>
                && serving == (cfg.neutral && !(stored.Some? && live))
                && newKind == if serving || (!cfg.neutral && stored.None? && pre.base.Some?) then Neutral else kind
    {
      serving, newKind, pictures := false, kind, None;
      if cfg.neutral {
        if stored.Some? && live {
          pictures := Some([stored.value]);
        } else if neutralOk {
          pictures, serving, newKind := Some([Picture(codec, true, NeutralImage)]), true, Neutral;
        }
      } else if stored.Some? {
        pictures := Some([stored.value]);
      } else if pre.base.Some? {
        var variants := [Picture(pre.base.value, true, PreEncoded)];
        if pre.dot.Some? {
          variants := variants + [Picture(pre.dot.value, true, PreEncoded)];
        } else {
          assert variants == variants + [];
        }
        pictures, newKind := Some(variants), Neutral;
      } else if encoded.base {
        var variants := [Picture(codec, true, OnTheFly)];
        if encoded.dot {
          variants := variants + [Picture(codec, true, OnTheFly)];
        } else {
          assert variants == variants + [];
        }
        pictures := Some(variants);
      }
    }

    /** The start of a fallback run: it picks its pictures or gives up. */
    method BeginFallback(now: int, neutralOk: bool, encoded: Encoding, fps: int, rtpOk: bool)
      requires fb.Some? && now >= clock
      modifies this
      ensures View() == OnBegin(cfg, old(View()).(clock := now), now, neutralOk, encoded, fps, rtpOk)
    {
      clock := now;
      var pictures, serving, newKind := ChoosePicture(neutralOk, encoded);
      if pictures.None? || !rtpOk {
        StopFallback();
        return;
      }
      Settle(pictures.value, if fps < 1 then 1 else fps, serving, now + cfg.hold, newKind);
    }

    /** The run has its pictures. */
    method Settle(pictures: Pictures, every: Positive, serving: bool, switchAt: int, newKind: Kind)
      requires fb.Some?
      modifies this`fb, this`kind
      ensures View() == old(View()).(fb := Some(Fallback(old(fb).value.id, true, pictures, every, 0, serving, switchAt)), kind := newKind)
    {
      Proceed(Fallback(fb.value.id, true, pictures, every, 0, serving, switchAt), newKind);
    }

    /** What this tick shows, and the run after it. */
    method PictureAt(now: int, neutralOk: bool, sent: bool) returns (f: Fallback, picture: Picture, newKind: Kind)
      requires fb.Some?
      ensures var switched := Switches(cfg, fb.value, now, neutralOk);
        && f == AfterTick(fb.value, switched, sent)
        && picture == Shown(fb.value, switched, codec)
        && newKind == if switched then Neutral else kind
    {
      f, newKind := fb.value, kind;
      picture := f.Current();
      if cfg.neutral && !f.serving && now >= f.switchAt && neutralOk {
        f := f.(serving := true);
        newKind := Neutral;
      }
      if f.serving {
        picture := Picture(codec, true, NeutralImage);
      }
      if sent {
        f := f.(shown := f.shown + 1);
      }
    }

    method TickFallback(now: int, neutralOk: bool, sent: bool)
      requires fb.Some? && now >= clock
      modifies this
      ensures View() == OnFallbackTick(cfg, old(View()).(clock := now), now, neutralOk, sent)
    {
      clock := now;
      var id := fb.value.id;
      var f, picture, newKind := PictureAt(now, neutralOk, sent);
      Proceed(f, newKind);
      SendPicture(FallbackRun(id), picture, sent);
    }

    method Proceed(f: Fallback, newKind: Kind)
      modifies this`fb, this`kind
      ensures View() == old(View()).(fb := Some(f), kind := newKind)
    {
      fb, kind := Some(f), newKind;
    }
  }

  /** Whatever happens next, the handler does what `Apply` says. */
  method Dispatch(h: StreamHandler, e: Event)
    requires Enabled(h.View(), e)
    modifies h
    ensures h.View() == Apply(h.cfg, old(h.View()), e)
  {
    match e
    case Attempt => h.OnAttempt();
    case Describe(codec, differ, full, encoded) => h.OnDescribe(codec, differ, full, encoded);
    case Play(now) => h.OnPlay(now);
    case HandshakeFails => h.EndSession();
    case Video(now, frame, sent) => h.OnVideoPacket(now, frame, sent);
    case Audio(now) => h.OnAudioPacket(now);
    case Tick(now) => h.OnMonitorTick(now);
    case Closed(now) => h.OnClosed(now);
    case Begin(now, neutralOk, encoded, fps, rtpOk) => h.BeginFallback(now, neutralOk, encoded, fps, rtpOk);
    case FallbackTick(now, neutralOk, sent) => h.TickFallback(now, neutralOk, sent);
  }

  /** Any run of events leaves the handler in the state the specification runs to. */
  method Live(h: StreamHandler, es: seq<Event>)
    requires Valid(h.cfg, h.View(), es)
    modifies h
    ensures Valid(h.cfg, old(h.View()), es) && h.View() == Run(h.cfg, old(h.View()), es)
  {
    ghost var s := h.View();
    var i := 0;
    while i < |es|
      invariant i <= |es|
      invariant Valid(h.cfg, h.View(), es[i..]) && Run(h.cfg, h.View(), es[i..]) == Run(h.cfg, s, es)
      decreases |es| - i
    {
      assert es[i..][1..] == es[i + 1..] && es[i..][0] == es[i];
      Dispatch(h, es[i]);
      i := i + 1;
    }
  }

  predicate Valid(cfg: Config, s: State, es: seq<Event>)
    decreases es
  {
    es != [] ==> Enabled(s, es[0]) && Valid(cfg, Apply(cfg, s, es[0]), es[1..])
  }

  function Run(cfg: Config, s: State, es: seq<Event>): State
    requires Valid(cfg, s, es)
    decreases es
  {
    if es == [] then s else Run(cfg, Apply(cfg, s, es[0]), es[1..])
  }
}
