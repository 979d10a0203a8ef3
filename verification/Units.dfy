/**
 The access units behind the handler's events: which unit each entry of its
 trace carries, so that "keyframe" means an IDR or IRAP slice in the bytes sent.
 Frames made by the encoder are inputs, keyframes of the codec asked for.
 */
module Units {
  import opened Wrappers
  import opened AnnexB
  import opened AccessUnit
  import opened AccessUnitLaws
  import opened Handler
  import HandlerLaws
  import Persist
  import Rebuild

  // ---------------------------------------------------------------------
  // Camera frames
  // ---------------------------------------------------------------------

  /** What the handler sees of a decoded unit. */
  function FrameOf(c: Codec, au: AU): Frame {
    var f := Filtered(c, au);
    if f == [] || !HasSlice(c, f) then NoPicture else Image(HasKey(c, f))
  }

  /** The entries a camera frame adds: a reset if it takes over, and its shot if it is sent. */
  function CameraEntries(s: State, takesOver: bool, key: bool, sent: bool): seq<Entry>
    requires s.session.Some?
  {
    var id := s.session.value.id;
    (if takesOver then [Reset] else [])
    + (if sent then [Deliver(Shot(Session(id), Picture(s.codec, key, FromCamera(id)), s.codec))] else [])
  }

  /** The relay of a session and the handler agree on whether a keyframe has been seen. */
  predicate InTune(s: State, r: Relay) {
    s.session.Some? ==> s.session.value.seenKey == r.seenKey
  }

  lemma AdmittedIffForwarded(s: State, r: Relay, au: AU)
    requires s.session.Some? && InTune(s, r)
    ensures var f := FrameOf(s.codec, au);
      Admitted(s.codec, r, au, s.needKey).Some? <==> f.Image? && (HandlerLaws.IsRelaying(s) || f.key)
  {
  }

  lemma OutIsKey(c: Codec, r: Relay, au: AU, needKey: bool)
    requires OutFrame(c, r, au, needKey).Some?
    ensures FrameOf(c, au) == Image(HasKey(c, OutFrame(c, r, au, needKey).value))
  {
    EnsuredKeepsKey(c, Admitted(c, r, au, needKey).value, AfterFrame(c, r, au, needKey).sets);
  }

  /** The frame as the handler forwards it, in two steps. */
  lemma ForwardEntries(s: State, now: int, key: bool, sent: bool)
    requires s.session.Some? && (HandlerLaws.IsRelaying(s) || key)
    ensures var t := OnVideo(s, now, Image(key), sent);
      && t.trace == s.trace + CameraEntries(s, !HandlerLaws.IsRelaying(s), key, sent)
      && t.session.Some? && t.session.value.seenKey
      && t.stored == if key then Some(Picture(s.codec, true, FromCamera(s.session.value.id))) else s.stored
  {
    if HandlerLaws.IsRelaying(s) {
      assert [] + CameraEntries(s, false, key, sent) == CameraEntries(s, false, key, sent);
    }
  }

  /**
   The callback and the event agree, for any decoded unit: the relay admits it
   exactly when the event forwards it, takes over exactly when the event does,
   and the unit sent has an IDR or IRAP slice exactly when the shot says so.
   */
  lemma CameraFrameMatches(s: State, r: Relay, au: AU, now: int, sent: bool)
    requires s.session.Some? && InTune(s, r)
    ensures var out, t := OutFrame(s.codec, r, au, s.needKey), OnVideo(s, now, FrameOf(s.codec, au), sent);
      && (out.None? ==> t.trace == s.trace && t.stored == s.stored)
      && (out.Some? ==>
            && t.trace == s.trace + CameraEntries(s, !r.seenKey || s.needKey, HasKey(s.codec, out.value), sent)
            && t.stored == if HasKey(s.codec, out.value) then Some(Picture(s.codec, true, FromCamera(s.session.value.id)))
                           else s.stored)
      && t.session.Some? && InTune(t, AfterFrame(s.codec, r, au, s.needKey))
  {
    AdmittedIffForwarded(s, r, au);
    if OutFrame(s.codec, r, au, s.needKey).Some? {
      OutIsKey(s.codec, r, au, s.needKey);
      ForwardEntries(s, now, FrameOf(s.codec, au).key, sent);
    }
  }

  // ---------------------------------------------------------------------
  // Fallback frames
  // ---------------------------------------------------------------------

  lemma NextTurn(n: nat, every: Positive, count: nat)
    requires count > 0
    ensures if n % every + 1 >= every then
              (n + 1) % every == 0 && Turn(n + 1, every, count) == (Turn(n, every, count) + 1) % count
            else
              (n + 1) % every == n % every + 1 && Turn(n + 1, every, count) == Turn(n, every, count)
  {
    var q, r := n / every, n % every;
    assert n == q * every + r;
    if r + 1 >= every {
      NextMultiple(q, every);
      DivisionIs(n + 1, every, q + 1, 0);
      ModStep(q, count);
    } else {
      assert n + 1 == q * every + (r + 1);
      DivisionIs(n + 1, every, q, r + 1);
    }
  }

  lemma DivisionIs(n: int, d: int, q: int, r: int)
    requires 0 <= r < d && n == q * d + r
    ensures n / d == q && n % d == r
  {
    var k := n / d - q;
    assert k * d == r - n % d;
    assert k >= 1 ==> k * d >= d;
    assert k <= -1 ==> k * d <= -d;
  }

  lemma NextMultiple(a: int, c: int)
    ensures (a + 1) * c == a * c + c
  {
  }

  lemma ModStep(q: nat, c: nat)
    requires c > 0
    ensures (q + 1) % c == (q % c + 1) % c
  {
    var a, r := q / c, q % c;
    if r + 1 < c {
      DivisionIs(q + 1, c, a, r + 1);
      DivisionIs(r + 1, c, 0, r + 1);
    } else {
      NextMultiple(a, c);
      DivisionIs(q + 1, c, a + 1, 0);
      DivisionIs(r + 1, c, 1, 0);
    }
  }

  /** The counters that animate a placeholder. `shown` is the number of frames accepted so far. */
  class Carousel {
    const switchEvery: Positive
    const count: nat
    var variantIdx: nat
    var tickCount: nat
    ghost var shown: nat

    ghost predicate Valid()
      reads this
    {
      && count > 0
      && variantIdx == Turn(shown, switchEvery, count) && tickCount == shown % switchEvery
    }

    constructor (fps: int, count: nat)
      requires count > 0
      ensures Valid() && this.count == count && switchEvery == SwitchEvery(fps) && shown == 0
    {
      switchEvery := if fps < 1 then 1 else fps;
      this.count, variantIdx, tickCount, shown := count, 0, 0, 0;
      new;
      DivisionIs(0, switchEvery, 0, 0);
      DivisionIs(0, count, 0, 0);
    }

    /** A frame has been accepted. */
    method Advance()
      requires Valid()
      modifies this
      ensures Valid() && shown == old(shown) + 1
    {
      NextTurn(shown, switchEvery, count);
      tickCount := tickCount + 1;
      if tickCount >= switchEvery {
        tickCount := 0;
        variantIdx := (variantIdx + 1) % count;
      }
      shown := shown + 1;
    }
  }

  /** What a fallback run shows: its variants, to be rewritten with the advertised sets, or its neutral frame as it is. */
  datatype Show = Show(codec: Codec, variants: seq<AU>, sets: Sets, neutral: AU)

  /** The unit of the next tick. */
  function UnitShown(w: Show, f: Fallback, serving: bool): AU {
    if serving then w.neutral
    else if |w.variants| != |f.pictures| then []
    else Ensured(w.codec, w.variants[Turn(f.shown, f.every, |w.variants|)], w.sets)
  }

  // ---------------------------------------------------------------------
  // The handler with its units
  // ---------------------------------------------------------------------

  /**
   The handler, its units, and what it advertises. `base` and `dot` are the
   placeholder's frames; `announced` are the sets of the last DESCRIBE; out[i] is
   the unit of entry i of the trace, nothing for a reset.
   */
  datatype Pipeline = Pipeline(s: State, adv: Rebuild.State, announced: Sets, relay: Relay,
                               stored: AU, base: AU, dot: AU, show: Show, out: seq<AU>)

  /** What FFmpeg made: two units, empty when it failed, and the sets of the base frame. */
  datatype Frames = Frames(base: AU, dot: AU, sets: Sets) {
    function Made(): Encoding {
      Encoding(base != [], dot != [])
    }

    function BaseSets(): Rebuild.Encoded {
      if base == [] then Rebuild.NoFrame else Rebuild.Encoded(sets)
    }
  }

  /** The handler's events with the units they are about. */
  datatype Input =
    | Decoded(now: int, au: AU, sent: bool)
    | Announce(a: Rebuild.Announcement, frames: Frames)
    | Playing(now: int)
    | Starting(now: int, neutral: AU, frames: Frames, fps: int, rtpOk: bool)
    | Ticking(now: int, neutral: AU, sent: bool)
    | Other(e: Event)

  /** Whether the sets differ and are complete follows from what is advertised. */
  function EventOf(u: Pipeline, i: Input): Event {
    match i
    case Decoded(now, au, sent) => Video(now, FrameOf(u.s.codec, au), sent)
    case Announce(a, frames) => Describe(a.codec, Rebuild.Differs(u.adv, a), Complete(a.codec, a.sets), frames.Made())
    case Playing(now) => Play(now)
    case Starting(now, neutral, frames, fps, rtpOk) => Begin(now, neutral != [], frames.Made(), fps, rtpOk)
    case Ticking(now, neutral, sent) => FallbackTick(now, neutral != [], sent)
    case Other(e) => e
  }

  /** A unit the encoder made for codec c, or nothing. */
  predicate Genuine(c: Codec, unit: AU) {
    unit != [] ==> HasKey(c, unit)
  }

  /** The handler can take the input, and what the encoder made is what it was asked for. */
  predicate Allowed(u: Pipeline, i: Input) {
    && Enabled(u.s, EventOf(u, i))
    && match i
       case Announce(a, frames) => Genuine(a.codec, frames.base) && Genuine(a.codec, frames.dot)
       case Starting(_, neutral, frames, _, _) =>
         Genuine(u.s.codec, frames.base) && Genuine(u.s.codec, frames.dot) && Genuine(u.s.codec, neutral)
       case Ticking(_, neutral, _) => Genuine(u.s.codec, neutral)
       case Other(e) => e.Attempt? || e.HandshakeFails? || e.Audio? || e.Tick? || e.Closed?
       case _ => true
  }

  function Pair(base: AU, dot: AU): seq<AU> {
    [base] + (if dot != [] then [dot] else [])
  }

  /** What the run is to show, in the order of the handler's choices. */
  function VariantUnits(cfg: Config, u: Pipeline, neutral: AU, frames: Frames): seq<AU> {
    if cfg.neutral then (if u.s.stored.Some? && u.s.live then [u.stored] else [neutral])
    else if u.s.stored.Some? then [u.stored]
    else if u.s.pre.base.Some? then Pair(u.base, u.dot)
    else Pair(frames.base, frames.dot)
  }

  function Step(cfg: Config, u: Pipeline, i: Input): Pipeline
    requires Allowed(u, i)
  {
    var t := Apply(cfg, u.s, EventOf(u, i));
    match i
    case Decoded(_, au, sent) => AfterDecoded(u, t, au, sent)
    case Announce(a, frames) => AfterAnnounce(u, t, a, frames)
    case Playing(_) => WithResets(u.(relay := Relay(false, u.announced)), t)
    case Starting(_, neutral, frames, _, _) =>
      WithResets(u.(show := Show(u.s.codec, VariantUnits(cfg, u, neutral, frames), u.adv.own, neutral)), t)
    case Ticking(_, neutral, sent) => AfterTicking(u, t, neutral, sent)
    case Other(_) => WithResets(u, t)
  }

  /** The entries that are new in t are resets. */
  function WithResets(u: Pipeline, t: State): Pipeline {
    u.(s := t, out := if |t.trace| > |u.s.trace| then u.out + [[]] else u.out)
  }

  /** A rebuild without the camera's sets encodes a new base frame and a new dot, each kept as it was when that fails. */
  function AfterAnnounce(u: Pipeline, t: State, a: Rebuild.Announcement, frames: Frames): Pipeline {
    var encodes := Rebuild.NeedsRebuild(u.adv, a) && !Complete(a.codec, a.sets) && frames.base != [];
    WithResets(u.(adv := Rebuild.AfterSession(u.adv, a, frames.BaseSets()),
                  announced := a.sets,
                  base := if encodes then frames.base else u.base,
                  dot := if encodes && frames.dot != [] then frames.dot else u.dot), t)
  }

  function AfterDecoded(u: Pipeline, t: State, au: AU, sent: bool): Pipeline {
    var c, needKey := u.s.codec, u.s.needKey;
    var frame := OutFrame(c, u.relay, au, needKey);
    var u1 := u.(s := t, relay := AfterFrame(c, u.relay, au, needKey));
    if frame.None? then u1
    else
      u1.(adv := if c.H264? then Rebuild.Captured(u.adv, frame.value) else u.adv,
          stored := if HasKey(c, frame.value) then frame.value else u.stored,
          out := u.out + ((if !u.relay.seenKey || needKey then [[]] else []) + (if sent then [frame.value] else [])))
  }

  function AfterTicking(u: Pipeline, t: State, neutral: AU, sent: bool): Pipeline
    requires u.s.fb.Some? && t.fb.Some?
  {
    var switched := t.fb.value.serving && !u.s.fb.value.serving;
    var w := if switched then u.show.(neutral := neutral) else u.show;
    u.(s := t, show := w, out := if sent then u.out + [UnitShown(w, u.s.fb.value, t.fb.value.serving)] else u.out)
  }

  // ---------------------------------------------------------------------
  // Keyframes are keyframes
  // ---------------------------------------------------------------------

  /** A shot of the advertised codec is a keyframe by its flag exactly when its unit has an IDR or IRAP slice. */
  predicate Tells(e: Entry, unit: AU) {
    e.Deliver? && e.shot.picture.codec == e.shot.stream ==> (e.shot.picture.key <==> HasKey(e.shot.stream, unit))
  }

  predicate AllTell(t: seq<Entry>, out: seq<AU>) {
    |out| == |t| && forall i :: 0 <= i < |t| ==> Tells(t[i], out[i])
  }

  predicate StoredTells(u: Pipeline) {
    u.s.stored.Some? ==> HasKey(u.s.stored.value.codec, u.stored)
  }

  predicate UnitTells(c: Option<Codec>, unit: AU) {
    (c.Some? <==> unit != []) && (c.Some? ==> HasKey(c.value, unit))
  }

  predicate PlaceholderTells(u: Pipeline) {
    UnitTells(u.s.pre.base, u.base) && UnitTells(u.s.pre.dot, u.dot)
  }

  /** Unit i is a keyframe of the codec of picture i. */
  predicate VariantsTell(ps: seq<Picture>, units: seq<AU>) {
    |units| == |ps| && forall i :: 0 <= i < |ps| ==> HasKey(ps[i].codec, units[i])
  }

  predicate ShowTells(s: State, w: Show) {
    s.fb.Some? && s.fb.value.begun ==>
      && w.codec == s.codec && VariantsTell(s.fb.value.pictures, w.variants)
      && (s.fb.value.serving ==> HasKey(s.codec, w.neutral))
  }

  predicate Matches(u: Pipeline) {
    && AllTell(u.s.trace, u.out) && InTune(u.s, u.relay) && u.adv.codec == u.s.codec
    && StoredTells(u) && PlaceholderTells(u) && ShowTells(u.s, u.show)
  }

  lemma TellAppend(t: seq<Entry>, out: seq<AU>, more: seq<Entry>, units: seq<AU>)
    requires AllTell(t, out) && AllTell(more, units)
    ensures AllTell(t + more, out + units)
  {
    forall i | 0 <= i < |t + more|
      ensures Tells((t + more)[i], (out + units)[i])
    {
      if i >= |t| {
        assert (t + more)[i] == more[i - |t|] && (out + units)[i] == units[i - |t|];
      }
    }
  }

  lemma ResetTells(t: seq<Entry>, out: seq<AU>)
    requires AllTell(t, out)
    ensures AllTell(t + [Reset], out + [[]])
  {
    TellAppend(t, out, [Reset], [[]]);
  }

  lemma DecodedMatches(cfg: Config, u: Pipeline, i: Input)
    requires Matches(u) && Allowed(u, i) && i.Decoded?
    ensures Matches(Step(cfg, u, i))
  {
    var s := u.s.(clock := i.now);
    CameraFrameMatches(s, u.relay, i.au, i.now, i.sent);
    VideoKeepsRun(s, i.now, FrameOf(s.codec, i.au), i.sent);
    var t := OnVideo(s, i.now, FrameOf(s.codec, i.au), i.sent);
    DecodedEntries(u, t, i.au, i.sent);
    DecodedRest(u, t, i.au, i.sent);
  }

  lemma DecodedRest(u: Pipeline, t: State, au: AU, sent: bool)
    requires Matches(u) && u.s.session.Some? && KeepsRun(u.s, t)
    requires InTune(t, AfterFrame(u.s.codec, u.relay, au, u.s.needKey))
    requires var out := OutFrame(u.s.codec, u.relay, au, u.s.needKey);
      t.stored == if out.Some? && HasKey(u.s.codec, out.value) then Some(Picture(u.s.codec, true, FromCamera(u.s.session.value.id)))
                  else u.s.stored
    ensures var v := AfterDecoded(u, t, au, sent);
      InTune(v.s, v.relay) && v.adv.codec == v.s.codec && StoredTells(v) && PlaceholderTells(v) && ShowTells(v.s, v.show)
  {
  }

  lemma DecodedEntries(u: Pipeline, t: State, au: AU, sent: bool)
    requires AllTell(u.s.trace, u.out) && u.s.session.Some?
    requires var out := OutFrame(u.s.codec, u.relay, au, u.s.needKey);
      t.trace == if out.None? then u.s.trace
                 else u.s.trace + CameraEntries(u.s, !u.relay.seenKey || u.s.needKey, HasKey(u.s.codec, out.value), sent)
    ensures AllTell(t.trace, AfterDecoded(u, t, au, sent).out)
  {
    var out := OutFrame(u.s.codec, u.relay, au, u.s.needKey);
    if out.Some? {
      var takesOver := !u.relay.seenKey || u.s.needKey;
      TellAppend(u.s.trace, u.out, CameraEntries(u.s, takesOver, HasKey(u.s.codec, out.value), sent),
                 (if takesOver then [[]] else []) + (if sent then [out.value] else []));
    }
  }

  /** The run, the placeholder and the codec stay, unless the run is over. */
  predicate KeepsRun(s: State, t: State) {
    t.pre == s.pre && t.codec == s.codec && (t.fb == s.fb || t.fb.None? || !t.fb.value.begun)
  }

  lemma ForwardKeepsRun(s: State, key: bool, sent: bool)
    requires s.session.Some?
    ensures KeepsRun(s, Forward(s, key, sent))
  {
  }

  lemma VideoKeepsRun(s: State, now: int, frame: Frame, sent: bool)
    requires s.session.Some?
    ensures KeepsRun(s, OnVideo(s, now, frame, sent))
  {
    var s1 := s.(lastPkt := now, lastVideo := now);
    if frame.Image? {
      ForwardKeepsRun(s1, frame.key, sent);
      ForwardKeepsRun(TakeOver(s1), frame.key, sent);
    }
  }

  /** At most a reset is added, the stored frame stays, and the session stays or is over. */
  predicate Quiet(s: State, t: State) {
    && (t.trace == s.trace || t.trace == s.trace + [Reset])
    && t.stored == s.stored && KeepsRun(s, t)
    && (t.session.Some? ==> t.session == s.session)
  }

  lemma EndedIsQuiet(cfg: Config, s: State)
    ensures Quiet(s, Ended(cfg, s))
  {
  }

  lemma TickIsQuiet(cfg: Config, s: State, now: int)
    requires s.session.Some?
    ensures Quiet(s, OnTick(cfg, s, now))
  {
    EndedIsQuiet(cfg, s.(lastTick := now));
  }

  lemma OtherIsQuiet(cfg: Config, s: State, e: Event)
    requires Enabled(s, e) && (e.Attempt? || e.HandshakeFails? || e.Audio? || e.Tick? || e.Closed?)
    ensures Quiet(s, Apply(cfg, s, e))
  {
    var s0 := s.(clock := TimeOf(s, e));
    match e
    case HandshakeFails => EndedIsQuiet(cfg, s0);
    case Closed(_) => EndedIsQuiet(cfg, s0);
    case Tick(now) => TickIsQuiet(cfg, s0, now);
    case _ =>
  }

  lemma OtherMatches(cfg: Config, u: Pipeline, i: Input)
    requires Matches(u) && Allowed(u, i) && i.Other?
    ensures Matches(Step(cfg, u, i))
  {
    OtherIsQuiet(cfg, u.s, i.e);
    ResetTells(u.s.trace, u.out);
  }

  lemma RebuiltRun(s: State, codec: Codec, full: bool, encoded: Encoding)
    ensures var t := Rebuilt(s, codec, full, encoded);
      && (t.trace == s.trace || t.trace == s.trace + [Reset])
      && t.stored == None && t.session == s.session && t.codec == codec
      && t.pre == (if full then s.pre else Renewed(s.pre, codec, encoded))
      && (t.fb.None? || !t.fb.value.begun)
  {
  }

  /** The event rebuilds exactly when the announcement calls for it. */
  lemma DecisionsAgree(u: Pipeline, i: Input)
    requires u.adv.codec == u.s.codec && i.Announce?
    ensures HandlerLaws.IsRebuild(u.s, EventOf(u, i)) <==> Rebuild.NeedsRebuild(u.adv, i.a)
    ensures Rebuild.AfterSession(u.adv, i.a, i.frames.BaseSets()).codec == i.a.codec
  {
  }

  lemma AnnounceMatches(cfg: Config, u: Pipeline, i: Input)
    requires Matches(u) && Allowed(u, i) && i.Announce?
    ensures Matches(Step(cfg, u, i))
  {
    DecisionsAgree(u, i);
    if Rebuild.NeedsRebuild(u.adv, i.a) {
      RebuiltRun(u.s, i.a.codec, Complete(i.a.codec, i.a.sets), i.frames.Made());
      ResetTells(u.s.trace, u.out);
    }
  }

  lemma PlayingMatches(cfg: Config, u: Pipeline, i: Input)
    requires Matches(u) && Allowed(u, i) && i.Playing?
    ensures Matches(Step(cfg, u, i))
  {
  }

  lemma PairTells(base: Codec, dot: Option<Codec>, origin: Origin, baseUnit: AU, dotUnit: AU)
    requires HasKey(base, baseUnit) && UnitTells(dot, dotUnit)
    ensures VariantsTell(Variants(base, dot, origin), Pair(baseUnit, dotUnit))
  {
  }

  /** Whatever the run chooses, its units are keyframes of its pictures' codecs. */
  lemma ChoiceIsGenuine(cfg: Config, u: Pipeline, neutral: AU, frames: Frames)
    requires StoredTells(u) && PlaceholderTells(u)
    requires Genuine(u.s.codec, frames.base) && Genuine(u.s.codec, frames.dot) && Genuine(u.s.codec, neutral)
    ensures var p := Choice(cfg, u.s, neutral != [], frames.Made());
      p.Some? ==> VariantsTell(p.value, VariantUnits(cfg, u, neutral, frames))
  {
    if u.s.pre.base.Some? {
      PairTells(u.s.pre.base.value, u.s.pre.dot, PreEncoded, u.base, u.dot);
    }
    if frames.base != [] {
      PairTells(u.s.codec, if frames.dot != [] then Some(u.s.codec) else None, OnTheFly, frames.base, frames.dot);
    }
  }

  lemma StartingShows(cfg: Config, u: Pipeline, i: Input)
    requires Matches(u) && Allowed(u, i) && i.Starting?
    ensures ShowTells(Apply(cfg, u.s, EventOf(u, i)),
                      Show(u.s.codec, VariantUnits(cfg, u, i.neutral, i.frames), u.adv.own, i.neutral))
  {
    ChoiceIsGenuine(cfg, u, i.neutral, i.frames);
  }

  lemma BeginKeepsRest(cfg: Config, s: State, e: Event)
    requires Enabled(s, e) && e.Begin?
    ensures var t := Apply(cfg, s, e);
      t.trace == s.trace && t.stored == s.stored && t.pre == s.pre && t.session == s.session && t.codec == s.codec
  {
  }

  lemma StartingMatches(cfg: Config, u: Pipeline, i: Input)
    requires Matches(u) && Allowed(u, i) && i.Starting?
    ensures Matches(Step(cfg, u, i))
  {
    StartingShows(cfg, u, i);
    BeginKeepsRest(cfg, u.s, EventOf(u, i));
  }

  lemma TickingMatches(cfg: Config, u: Pipeline, i: Input)
    requires HandlerLaws.Shows(cfg, u.s) && Matches(u) && Allowed(u, i) && i.Ticking?
    ensures Matches(Step(cfg, u, i))
  {
    var t, switched := Apply(cfg, u.s, EventOf(u, i)), Switches(cfg, u.s.fb.value, i.now, i.neutral != []);
    TickEntries(cfg, u.s, i.now, i.neutral != [], i.sent);
    TickTells(cfg, u, i, if switched then u.show.(neutral := i.neutral) else u.show, switched);
    TickOut(u, t, i.neutral, i.sent, switched);
    TickRest(u, t, i.neutral, i.sent, switched);
  }

  lemma TickOut(u: Pipeline, t: State, neutral: AU, sent: bool, switched: bool)
    requires AllTell(u.s.trace, u.out) && u.s.fb.Some? && t.fb == Some(AfterTick(u.s.fb.value, switched, sent))
    requires switched ==> !u.s.fb.value.serving
    requires var f := u.s.fb.value;
      var shot := Shot(FallbackRun(f.id), Shown(f, switched, u.s.codec), u.s.codec);
      && t.trace == u.s.trace + (if sent then [Deliver(shot)] else [])
      && Tells(Deliver(shot), UnitShown(if switched then u.show.(neutral := neutral) else u.show, f, f.serving || switched))
    ensures AllTell(t.trace, AfterTicking(u, t, neutral, sent).out)
  {
    var f := u.s.fb.value;
    if sent {
      var w := if switched then u.show.(neutral := neutral) else u.show;
      TellAppend(u.s.trace, u.out, [Deliver(Shot(FallbackRun(f.id), Shown(f, switched, u.s.codec), u.s.codec))],
                 [UnitShown(w, f, f.serving || switched)]);
    }
  }

  lemma TickRest(u: Pipeline, t: State, neutral: AU, sent: bool, switched: bool)
    requires Matches(u) && u.s.fb.Some? && u.s.fb.value.begun && t.fb == Some(AfterTick(u.s.fb.value, switched, sent))
    requires switched ==> !u.s.fb.value.serving && HasKey(u.s.codec, neutral)
    requires t.codec == u.s.codec && t.stored == u.s.stored && t.pre == u.s.pre && t.session == u.s.session
    ensures var v := AfterTicking(u, t, neutral, sent);
      InTune(v.s, v.relay) && v.adv.codec == v.s.codec && StoredTells(v) && PlaceholderTells(v) && ShowTells(v.s, v.show)
  {
  }

  lemma TickEntries(cfg: Config, s: State, now: int, neutralOk: bool, sent: bool)
    requires Enabled(s, FallbackTick(now, neutralOk, sent))
    ensures var t, f := Apply(cfg, s, FallbackTick(now, neutralOk, sent)), s.fb.value;
      var switched := Switches(cfg, f, now, neutralOk);
      && t.trace == s.trace + (if sent then [Deliver(Shot(FallbackRun(f.id), Shown(f, switched, s.codec), s.codec))] else [])
      && t.fb == Some(AfterTick(f, switched, sent))
      && t.codec == s.codec && t.stored == s.stored && t.pre == s.pre && t.session == s.session
  {
  }

  lemma TickTells(cfg: Config, u: Pipeline, i: Input, w: Show, switched: bool)
    requires HandlerLaws.Shows(cfg, u.s) && Matches(u) && Allowed(u, i) && i.Ticking?
    requires switched == Switches(cfg, u.s.fb.value, i.now, i.neutral != [])
    requires w == if switched then u.show.(neutral := i.neutral) else u.show
    ensures var f := u.s.fb.value;
      Tells(Deliver(Shot(FallbackRun(f.id), Shown(f, switched, u.s.codec), u.s.codec)), UnitShown(w, f, f.serving || switched))
  {
    var f := u.s.fb.value;
    assert HandlerLaws.MayShow(cfg, u.s.codec, f.serving, f.Current());
    if f.serving || switched || f.Current().codec == u.s.codec {
      ShownIsKey(u.s.codec, f, w, f.serving || switched);
    }
  }

  lemma ShownIsKey(c: Codec, f: Fallback, w: Show, serving: bool)
    requires w.codec == c && VariantsTell(f.pictures, w.variants)
    requires if serving then HasKey(c, w.neutral) else f.Current().codec == c
    ensures HasKey(c, UnitShown(w, f, serving))
  {
    if !serving {
      EnsuredKeepsKey(c, w.variants[Turn(f.shown, f.every, |w.variants|)], w.sets);
    }
  }

  lemma StepMatches(cfg: Config, u: Pipeline, i: Input)
    requires HandlerLaws.Shows(cfg, u.s) && Matches(u) && Allowed(u, i)
    ensures Matches(Step(cfg, u, i)) && Step(cfg, u, i).s == Apply(cfg, u.s, EventOf(u, i))
  {
    match i
    case Decoded(_, _, _) => DecodedMatches(cfg, u, i);
    case Announce(_, _) => AnnounceMatches(cfg, u, i);
    case Playing(_) => PlayingMatches(cfg, u, i);
    case Starting(_, _, _, _, _) => StartingMatches(cfg, u, i);
    case Ticking(_, _, _) => TickingMatches(cfg, u, i);
    case Other(_) => OtherMatches(cfg, u, i);
  }

  // ---------------------------------------------------------------------
  // Whole runs
  // ---------------------------------------------------------------------

  predicate AllAllowed(cfg: Config, u: Pipeline, ins: seq<Input>)
    decreases ins
  {
    ins != [] ==> Allowed(u, ins[0]) && AllAllowed(cfg, Step(cfg, u, ins[0]), ins[1..])
  }

  function RunUnits(cfg: Config, u: Pipeline, ins: seq<Input>): Pipeline
    requires AllAllowed(cfg, u, ins)
    decreases ins
  {
    if ins == [] then u else RunUnits(cfg, Step(cfg, u, ins[0]), ins[1..])
  }

  function Events(cfg: Config, u: Pipeline, ins: seq<Input>): seq<Event>
    requires AllAllowed(cfg, u, ins)
    decreases ins
  {
    if ins == [] then [] else [EventOf(u, ins[0])] + Events(cfg, Step(cfg, u, ins[0]), ins[1..])
  }

  /** A run with units is a run of the handler. */
  lemma {:induction false} RunMatches(cfg: Config, u: Pipeline, ins: seq<Input>)
    requires HandlerLaws.Shows(cfg, u.s) && Matches(u) && AllAllowed(cfg, u, ins)
    ensures Matches(RunUnits(cfg, u, ins))
    ensures Valid(cfg, u.s, Events(cfg, u, ins)) && RunUnits(cfg, u, ins).s == Run(cfg, u.s, Events(cfg, u, ins))
    decreases ins
  {
    if ins != [] {
      var u', e := Step(cfg, u, ins[0]), EventOf(u, ins[0]);
      StepMatches(cfg, u, ins[0]);
      HandlerLaws.StepShows(cfg, u.s, e);
      RunMatches(cfg, u', ins[1..]);
      HandlerLaws.OneStep(cfg, u.s, e, Events(cfg, u', ins[1..]));
    }
  }

  /** The codec a handler is created with; `wanted` is the configured one. */
  function BootCodec(wanted: Option<Codec>): Codec {
    if wanted == Some(H265) then H265 else H264
  }

  const NOTHING_SHOWN := Show(H264, [], NO_SETS, [])

  /** The placeholder a handler is created with; the dotted variant is made after the base frame only. */
  function BootPlaceholder(wanted: Option<Codec>, frames: Frames): Placeholder {
    Renewed(NO_PLACEHOLDER, BootCodec(wanted), frames.Made())
  }

  /** A handler created with a placeholder (or none) and then given what is on disk. */
  function Boot(cfg: Config, wanted: Option<Codec>, files: map<Codec, seq<byte>>, frames: Frames): Pipeline {
    var r := Persist.Restored(wanted, files);
    var codec := if r.Some? then r.value.codec else BootCodec(wanted);
    var own := if r.Some? then r.value.sets else Rebuild.PreEncoded(codec, NO_SETS, frames.BaseSets());
    var s := Initial(cfg, codec, r.Some?, BootPlaceholder(wanted, frames));
    Pipeline(s, Rebuild.State(codec, own, codec, own), NO_SETS, Relay(false, NO_SETS),
             if r.Some? then r.value.au else [], frames.base, if frames.base != [] then frames.dot else [], NOTHING_SHOWN,
             if s.trace == [] then [] else [[]])
  }

  predicate GenuineFrames(c: Codec, frames: Frames) {
    Genuine(c, frames.base) && Genuine(c, frames.dot)
  }

  /** A restored frame is a keyframe of the codec the handler takes from it. */
  lemma BootMatches(cfg: Config, wanted: Option<Codec>, files: map<Codec, seq<byte>>, frames: Frames)
    requires GenuineFrames(BootCodec(wanted), frames)
    ensures Matches(Boot(cfg, wanted, files, frames)) && HandlerLaws.Shows(cfg, Boot(cfg, wanted, files, frames).s)
  {
    var r := Persist.Restored(wanted, files);
    assert r.Some? ==> HasKey(r.value.codec, r.value.au);
    var s := Boot(cfg, wanted, files, frames).s;
    HandlerLaws.InitialShows(cfg, s.codec, r.Some?, s.pre);
  }

  /**
   From any files on disk, in every run: every delivery of the advertised codec is
   a keyframe by its flag exactly when its unit has an IDR or IRAP slice, and the
   stored frame has one.
   */
  lemma FlagsAreSlices(cfg: Config, wanted: Option<Codec>, files: map<Codec, seq<byte>>, frames: Frames, ins: seq<Input>)
    requires GenuineFrames(BootCodec(wanted), frames)
    requires AllAllowed(cfg, Boot(cfg, wanted, files, frames), ins)
    ensures var u := RunUnits(cfg, Boot(cfg, wanted, files, frames), ins);
      AllTell(u.s.trace, u.out) && (u.s.stored.Some? ==> HasKey(u.s.codec, u.stored))
  {
    var u := Boot(cfg, wanted, files, frames);
    BootMatches(cfg, wanted, files, frames);
    RunMatches(cfg, u, ins);
    HandlerLaws.RunShows(cfg, u.s, Events(cfg, u, ins));
  }

  /**
   So every switch lands on an IDR or IRAP slice: in every run without a delta
   frame after a refused keyframe, the first unit delivered after a reset has
   one, unless it is a placeholder of another codec.
   */
  lemma SwitchesLandOnSlices(cfg: Config, wanted: Option<Codec>, files: map<Codec, seq<byte>>, frames: Frames,
                             ins: seq<Input>, k: nat)
    requires GenuineFrames(BootCodec(wanted), frames)
    requires AllAllowed(cfg, Boot(cfg, wanted, files, frames), ins)
    requires var u := RunUnits(cfg, Boot(cfg, wanted, files, frames), ins);
      k < |u.s.trace| && u.s.trace[k].Deliver? && (k == 0 || u.s.trace[k - 1].Reset?) && !HandlerLaws.Wrong(u.s.trace[k])
    ensures Valid(cfg, Boot(cfg, wanted, files, frames).s, Events(cfg, Boot(cfg, wanted, files, frames), ins))
    ensures var u0 := Boot(cfg, wanted, files, frames);
      var u := RunUnits(cfg, u0, ins);
      !HandlerLaws.DeltaAfterRefusal(cfg, u0.s, Events(cfg, u0, ins), false)
      ==> |u.out| == |u.s.trace| && HasKey(u.s.trace[k].shot.stream, u.out[k])
  {
    var u := Boot(cfg, wanted, files, frames);
    BootMatches(cfg, wanted, files, frames);
    RunMatches(cfg, u, ins);
    HandlerLaws.SwitchesLandOnKeyframes(cfg, u.s.codec, u.s.stored.Some?, u.s.pre, Events(cfg, u, ins));
    var v := RunUnits(cfg, u, ins);
    assert HandlerLaws.Landed(v.s.trace) ==> HandlerLaws.LandsAt(v.s.trace, k);
    assert Tells(v.s.trace[k], v.out[k]);
  }

  /** What a new handler advertises: the restored sets, or else those of its placeholder, if it has one. */
  lemma BootAdvertises(cfg: Config, wanted: Option<Codec>, files: map<Codec, seq<byte>>, frames: Frames)
    ensures var r, adv := Persist.Restored(wanted, files), Boot(cfg, wanted, files, frames).adv;
      && adv.codec == adv.sdpCodec == (if r.Some? then r.value.codec else BootCodec(wanted)) && adv.sdp == adv.own
      && (r.Some? ==> adv.sdp == r.value.sets)
      && (r.None? && frames.base == [] ==> adv.sdp == NO_SETS)
      && (r.None? && frames.base != [] && Complete(adv.codec, frames.sets) ==>
            Relevant(adv.codec, adv.sdp) == Relevant(adv.codec, frames.sets))
  {
  }

  /** A forwarded H.264 keyframe brings the live description in step with the sets it opens with, the last ones sent or announced. */
  lemma KeyframeIsAdvertised(cfg: Config, u: Pipeline, i: Input)
    requires Allowed(u, i) && i.Decoded? && u.s.codec.H264? && u.adv.sdpCodec.H264?
    requires OutFrame(H264, u.relay, i.au, u.s.needKey).Some? && HasKey(H264, OutFrame(H264, u.relay, i.au, u.s.needKey).value)
    requires var sets := AfterFrame(H264, u.relay, i.au, u.s.needKey).sets; Complete(H264, sets) && WellTyped(H264, sets)
    ensures var v, sets := Step(cfg, u, i), AfterFrame(H264, u.relay, i.au, u.s.needKey).sets;
      v.adv.sdp.sps == sets.sps && v.adv.sdp.pps == sets.pps && v.adv.own == u.adv.own
  {
    var f := Admitted(H264, u.relay, i.au, u.s.needKey).value;
    var sets := AfterFrame(H264, u.relay, i.au, u.s.needKey).sets;
    EnsuredKeepsKey(H264, f, sets);
    EnsuredCarriesSets(H264, f, sets);
  }

  /** After a restart, a camera that announces the restored sets keeps the stream as it is: no rebuild, and the restored frame stays. */
  lemma WarmBootKeepsTheStream(cfg: Config, wanted: Option<Codec>, files: map<Codec, seq<byte>>, frames: Frames, i: Input)
    requires i.Announce? && Allowed(Boot(cfg, wanted, files, frames), i)
    requires var r := Persist.Restored(wanted, files);
      r.Some? && i.a.codec == r.value.codec && Rebuild.SameSets(r.value.codec, r.value.sets, i.a.sets)
    ensures var u, v := Boot(cfg, wanted, files, frames), Step(cfg, Boot(cfg, wanted, files, frames), i);
      && !Rebuild.NeedsRebuild(u.adv, i.a)
      && v.s == u.s.(described := true) && v.stored == u.stored && v.out == u.out
      && Rebuild.SameSets(u.s.codec, v.adv.sdp, u.adv.sdp)
  {
    Rebuild.WarmStart(Boot(cfg, wanted, files, frames).adv, i.a);
  }
}
