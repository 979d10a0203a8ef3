/**
 Every unit delivered, explained: by the sets last announced or sent, the
 variants and sets a fallback run began with, and the time it began, all
 recorded from the inputs. What injection does is said in its own terms here.
 */
module Ledger {
  import opened Wrappers
  import opened AnnexB
  import opened AccessUnit
  import opened AccessUnitLaws
  import opened Handler
  import opened Units
  import HandlerLaws
  import Persist

  // ---------------------------------------------------------------------
  // Rewritten units
  // ---------------------------------------------------------------------

  function SetCount(c: Codec): nat {
    if c.H264? then 2 else 3
  }

  /** A keyframe opens with the given sets, VPS, SPS, PPS, and then has the picture units of `before`, in order; anything else is as it was. */
  predicate Rewritten(c: Codec, sets: Sets, before: AU, unit: AU) {
    if sets.sps.Some? && sets.pps.Some? && (c.H265? ==> sets.vps.Some?) && HasKey(c, before) then
      var n := SetCount(c);
      && |unit| >= n
      && (c.H265? ==> unit[0] == sets.vps.value)
      && unit[n - 2] == sets.sps.value && unit[n - 1] == sets.pps.value
      && unit[n..] == AccessUnitLaws.Pictures(c, before)
    else unit == before
  }

  lemma EnsuredIsRewritten(c: Codec, before: AU, sets: Sets)
    ensures Rewritten(c, sets, before, Ensured(c, before, sets))
  {
    if Complete(c, sets) && HasKey(c, before) {
      var unit := Ensured(c, before, sets);
      assert unit[..SetCount(c)] == Heads(c, sets) && unit[SetCount(c)..] == AccessUnitLaws.Pictures(c, before);
    }
  }

  /** What a decoder reads from a rewritten keyframe: exactly one of each set, first, the given ones, and the pictures of before. */
  lemma RewrittenCarries(c: Codec, sets: Sets, before: AU, unit: AU)
    requires Rewritten(c, sets, before, unit) && WellTyped(c, sets) && Complete(c, sets) && HasKey(c, before)
    ensures SetsOf(c, unit) == Relevant(c, sets) && HasKey(c, unit) && AccessUnitLaws.Pictures(c, unit) == AccessUnitLaws.Pictures(c, before)
    ensures forall i :: 0 <= i < |unit| ==> (IsParam(c, unit[i]) <==> i < SetCount(c))
  {
    assert unit == unit[..SetCount(c)] + unit[SetCount(c)..];
    assert unit[..SetCount(c)] == Heads(c, sets);
    assert unit == Ensured(c, before, sets);
    EnsuredCarriesSets(c, before, sets);
    EnsuredKeepsKey(c, before, sets);
    TypedSetsKeepApart(c, before, sets);
    EnsuredKeepsPictures(c, before, sets);
  }

  // ---------------------------------------------------------------------
  // The record
  // ---------------------------------------------------------------------

  /** A fallback run: when it began, its sets and variants, the frames it has sent, and its neutral frame once it serves it. */
  datatype Bill = Bill(begun: int, sets: Sets, variants: seq<AU>, every: int, sent: nat, neutral: Option<AU>)

  /** The sets of the last DESCRIBE, those of the session so far, the camera's last keyframe as sent, and the live run. */
  datatype Record = Record(announced: Sets, sets: Sets, stored: AU, bill: Option<Bill>)

  /** The decoded unit is forwarded. */
  predicate Forwards(s: State, au: AU) {
    && HasSlice(s.codec, Filtered(s.codec, au)) && s.session.Some?
    && ((s.session.value.seenKey && !s.needKey) || HasKey(s.codec, Filtered(s.codec, au)))
  }

  /** The sets of the session once the unit is behind. */
  function SetsAfter(s: State, au: AU, sets: Sets): Sets {
    if Forwards(s, au) then Tracked(s.codec, sets, Filtered(s.codec, au)) else sets
  }

  /** A run of the handler begins with these variants: a keyframe, or the placeholder, or frames made for it. */
  function BillOf(cfg: Config, u: Pipeline, i: Input, stored: AU): Option<Bill>
    requires i.Starting?
  {
    var every := if i.fps < 1 then 1 else i.fps;
    if !i.rtpOk then None
    else if u.s.stored.Some? && (cfg.neutral ==> u.s.live) then Some(Bill(i.now, u.adv.own, [stored], every, 0, None))
    else if cfg.neutral then
      (if i.neutral == [] then None else Some(Bill(i.now, u.adv.own, [i.neutral], every, 0, Some(i.neutral))))
    else if u.s.pre.base.Some? then
      Some(Bill(i.now, u.adv.own, [u.base] + (if u.dot == [] then [] else [u.dot]), every, 0, None))
    else if i.frames.base != [] then
      Some(Bill(i.now, u.adv.own, [i.frames.base] + (if i.frames.dot == [] then [] else [i.frames.dot]), every, 0, None))
    else None
  }

  /** The neutral frame a tick sends, if it sends one: the one served already, or the new one when the hold since the beginning is over. */
  function NeutralAt(cfg: Config, b: Bill, now: int, neutral: AU): Option<AU> {
    if b.neutral.Some? then b.neutral
    else if cfg.neutral && now >= b.begun + cfg.hold && neutral != [] then Some(neutral)
    else None
  }

  function Ticked(cfg: Config, b: Bill, i: Input): Bill
    requires i.Ticking?
  {
    b.(neutral := NeutralAt(cfg, b, i.now, i.neutral), sent := if i.sent then b.sent + 1 else b.sent)
  }

  function RecordAfter(cfg: Config, u: Pipeline, i: Input, r: Record): Record {
    match i
    case Decoded(_, au, _) =>
      var sets := SetsAfter(u.s, au, r.sets);
      var unit := Ensured(u.s.codec, Filtered(u.s.codec, au), sets);
      r.(sets := sets, stored := if Forwards(u.s, au) && HasKey(u.s.codec, unit) then unit else r.stored)
    case Announce(a, _) => r.(announced := a.sets)
    case Playing(_) => r.(sets := r.announced)
    case Starting(_, _, _, _, _) => r.(bill := BillOf(cfg, u, i, r.stored))
    case Ticking(_, _, _) => r.(bill := if r.bill.Some? then Some(Ticked(cfg, r.bill.value, i)) else None)
    case Other(_) => r
  }

  // ---------------------------------------------------------------------
  // Slips: what each entry of the trace is to carry
  // ---------------------------------------------------------------------

  datatype Slip = Blank | Rewrite(c: Codec, sets: Sets, before: AU) | Untouched(unit: AU)

  predicate Honours(slip: Slip, e: Entry, unit: AU) {
    match slip
    case Blank => e.Reset?
    case Rewrite(c, sets, before) => e.Deliver? && e.shot.stream == c && !e.shot.picture.origin.NeutralImage? && Rewritten(c, sets, before, unit)
    case Untouched(frame) => e.Deliver? && e.shot.picture.origin.NeutralImage? && unit == frame
  }

  predicate AllHonoured(slips: seq<Slip>, t: seq<Entry>, out: seq<AU>) {
    |slips| == |t| == |out| && forall i :: 0 <= i < |t| ==> Honours(slips[i], t[i], out[i])
  }

  function TickSlip(cfg: Config, c: Codec, b: Bill, i: Input): Slip
    requires i.Ticking?
  {
    var neutral := NeutralAt(cfg, b, i.now, i.neutral);
    if neutral.Some? then Untouched(neutral.value)
    else if b.every <= 0 || b.variants == [] then Blank
    else Rewrite(c, b.sets, b.variants[b.sent / b.every % |b.variants|])
  }

  /** The slips of a camera frame. */
  function CameraSlips(u: Pipeline, au: AU, sent: bool, sets: Sets): seq<Slip>
    requires u.s.session.Some?
  {
    if !Forwards(u.s, au) then []
    else
      (if !u.s.session.value.seenKey || u.s.needKey then [Blank] else [])
      + (if sent then [Rewrite(u.s.codec, SetsAfter(u.s, au, sets), Filtered(u.s.codec, au))] else [])
  }

  /** The slips of the entries that one input adds; `resets` is whether it adds a reset, for the inputs that only do that. */
  function SlipsOf(cfg: Config, u: Pipeline, i: Input, r: Record, resets: bool): seq<Slip> {
    match i
    case Decoded(_, au, sent) => if u.s.session.None? then [] else CameraSlips(u, au, sent, r.sets)
    case Ticking(_, _, sent) => if sent && r.bill.Some? then [TickSlip(cfg, u.s.codec, r.bill.value, i)] else []
    case _ => if resets then [Blank] else []
  }

  /** All slips of a run. */
  function Slips(cfg: Config, u: Pipeline, ins: seq<Input>, r: Record): seq<Slip>
    requires AllAllowed(cfg, u, ins)
    decreases ins
  {
    if ins == [] then []
    else
      var v := Step(cfg, u, ins[0]);
      SlipsOf(cfg, u, ins[0], r, |v.s.trace| > |u.s.trace|) + Slips(cfg, v, ins[1..], RecordAfter(cfg, u, ins[0], r))
  }

  // ---------------------------------------------------------------------
  // The record agrees with the pipeline
  // ---------------------------------------------------------------------

  predicate BillAgrees(cfg: Config, s: State, w: Show, b: Bill)
    requires s.fb.Some?
  {
    var f := s.fb.value;
    && w.codec == s.codec && w.sets == b.sets && w.variants == b.variants
    && f.every == b.every && f.shown == b.sent && |f.pictures| == |b.variants|
    && (f.serving <==> b.neutral.Some?) && (f.serving ==> w.neutral == b.neutral.value)
    && (cfg.neutral ==> f.switchAt == b.begun + cfg.hold)
    && (!f.serving ==> forall i :: 0 <= i < |f.pictures| ==> !f.pictures[i].origin.NeutralImage?)
  }

  predicate Agrees(cfg: Config, u: Pipeline, r: Record) {
    && r.announced == u.announced && r.stored == u.stored
    && (u.s.session.Some? ==> r.sets == u.relay.sets)
    && (u.s.fb.Some? && u.s.fb.value.begun ==> r.bill.Some? && BillAgrees(cfg, u.s, u.show, r.bill.value))
  }

  lemma ForwardsIsAdmitted(s: State, r: Relay, au: AU)
    requires s.session.Some? && InTune(s, r)
    ensures Forwards(s, au) <==> Admitted(s.codec, r, au, s.needKey).Some?
    ensures Forwards(s, au) ==> Admitted(s.codec, r, au, s.needKey).value == Filtered(s.codec, au)
  {
  }

  lemma HonouredAppend(slips: seq<Slip>, t: seq<Entry>, out: seq<AU>, more: seq<Slip>, entries: seq<Entry>, units: seq<AU>)
    requires AllHonoured(slips, t, out) && AllHonoured(more, entries, units)
    ensures AllHonoured(slips + more, t + entries, out + units)
  {
    forall i | 0 <= i < |t + entries|
      ensures Honours((slips + more)[i], (t + entries)[i], (out + units)[i])
    {
      if i >= |t| {
        assert (slips + more)[i] == more[i - |t|] && (t + entries)[i] == entries[i - |t|] && (out + units)[i] == units[i - |t|];
      }
    }
  }

  /** What one step adds to the trace and to the units. */
  predicate Adds(u: Pipeline, v: Pipeline, slips: seq<Slip>, entries: seq<Entry>, units: seq<AU>) {
    && v.s.trace == u.s.trace + entries && v.out == u.out + units
    && AllHonoured(slips, entries, units)
  }

  ghost predicate Explains(u: Pipeline, v: Pipeline, slips: seq<Slip>) {
    exists entries, units :: Adds(u, v, slips, entries, units)
  }

  lemma DecodedAdds(cfg: Config, u: Pipeline, i: Input, r: Record)
    requires Matches(u) && Agrees(cfg, u, r) && Allowed(u, i) && i.Decoded?
    ensures Explains(u, Step(cfg, u, i), SlipsOf(cfg, u, i, r, false))
  {
    var s := u.s.(clock := i.now);
    CameraFrameMatches(s, u.relay, i.au, i.now, i.sent);
    ForwardsIsAdmitted(u.s, u.relay, i.au);
    DecodedExplains(u, OnVideo(s, i.now, FrameOf(s.codec, i.au), i.sent), i.au, i.sent, SlipsOf(cfg, u, i, r, false), r.sets);
  }

  lemma DecodedExplains(u: Pipeline, t: State, au: AU, sent: bool, slips: seq<Slip>, sets: Sets)
    requires u.s.session.Some? && InTune(u.s, u.relay) && sets == u.relay.sets && slips == CameraSlips(u, au, sent, sets)
    requires Forwards(u.s, au) <==> OutFrame(u.s.codec, u.relay, au, u.s.needKey).Some?
    requires Forwards(u.s, au) ==> Admitted(u.s.codec, u.relay, au, u.s.needKey) == Some(Filtered(u.s.codec, au))
    requires var out := OutFrame(u.s.codec, u.relay, au, u.s.needKey);
      t.trace == if out.None? then u.s.trace
                 else u.s.trace + CameraEntries(u.s, !u.relay.seenKey || u.s.needKey, HasKey(u.s.codec, out.value), sent)
    ensures Explains(u, AfterDecoded(u, t, au, sent), slips)
  {
    var out, v := OutFrame(u.s.codec, u.relay, au, u.s.needKey), AfterDecoded(u, t, au, sent);
    if out.None? {
      assert u.s.trace + [] == u.s.trace && u.out + [] == u.out;
      assert Adds(u, v, slips, [], []);
    } else {
      var takesOver := !u.relay.seenKey || u.s.needKey;
      var f, after := Filtered(u.s.codec, au), SetsAfter(u.s, au, sets);
      EnsuredIsRewritten(u.s.codec, f, after);
      assert out.value == Ensured(u.s.codec, f, after);
      CameraHonoured(u.s, takesOver, HasKey(u.s.codec, out.value), sent, after, f, out.value);
      var units: seq<AU> := (if takesOver then [[]] else []) + (if sent then [out.value] else []);
      assert Adds(u, v, slips, CameraEntries(u.s, takesOver, HasKey(u.s.codec, out.value), sent), units);
    }
  }

  lemma CameraHonoured(s: State, takesOver: bool, key: bool, sent: bool, sets: Sets, before: AU, unit: AU)
    requires s.session.Some? && Rewritten(s.codec, sets, before, unit)
    ensures AllHonoured((if takesOver then [Blank] else []) + (if sent then [Rewrite(s.codec, sets, before)] else []),
                        CameraEntries(s, takesOver, key, sent),
                        (if takesOver then [[]] else []) + (if sent then [unit] else []))
  {
  }

  lemma DecodedAgrees(cfg: Config, u: Pipeline, i: Input, r: Record)
    requires Matches(u) && Agrees(cfg, u, r) && Allowed(u, i) && i.Decoded?
    ensures Agrees(cfg, Step(cfg, u, i), RecordAfter(cfg, u, i, r))
  {
    var s := u.s.(clock := i.now);
    ForwardsIsAdmitted(u.s, u.relay, i.au);
    CameraFrameMatches(s, u.relay, i.au, i.now, i.sent);
    VideoKeepsRun(s, i.now, FrameOf(s.codec, i.au), i.sent);
  }

  lemma TickingAdds(cfg: Config, u: Pipeline, i: Input, r: Record)
    requires HandlerLaws.Shows(cfg, u.s) && Matches(u) && Agrees(cfg, u, r) && Allowed(u, i) && i.Ticking?
    ensures Explains(u, Step(cfg, u, i), SlipsOf(cfg, u, i, r, false))
  {
    var f, v, b := u.s.fb.value, Step(cfg, u, i), r.bill.value;
    var switched := Switches(cfg, f, i.now, i.neutral != []);
    TickEntries(cfg, u.s, i.now, i.neutral != [], i.sent);
    var slips := SlipsOf(cfg, u, i, r, false);
    if i.sent {
      var w := if switched then u.show.(neutral := i.neutral) else u.show;
      var entry := Deliver(Shot(FallbackRun(f.id), Shown(f, switched, u.s.codec), u.s.codec));
      TickHonours(cfg, u, i, r, switched, w);
      assert Adds(u, v, slips, [entry], [UnitShown(w, f, f.serving || switched)]);
    } else {
      assert u.s.trace + [] == u.s.trace && u.out + [] == u.out;
      assert Adds(u, v, slips, [], []);
    }
  }

  lemma TickHonours(cfg: Config, u: Pipeline, i: Input, r: Record, switched: bool, w: Show)
    requires HandlerLaws.Shows(cfg, u.s) && Matches(u) && Agrees(cfg, u, r) && Allowed(u, i) && i.Ticking?
    requires switched == Switches(cfg, u.s.fb.value, i.now, i.neutral != [])
    requires w == if switched then u.show.(neutral := i.neutral) else u.show
    ensures var f := u.s.fb.value;
      Honours(TickSlip(cfg, u.s.codec, r.bill.value, i), Deliver(Shot(FallbackRun(f.id), Shown(f, switched, u.s.codec), u.s.codec)),
              UnitShown(w, f, f.serving || switched))
  {
    var f, b := u.s.fb.value, r.bill.value;
    if !(f.serving || switched) {
      EnsuredIsRewritten(u.s.codec, b.variants[Turn(f.shown, f.every, |b.variants|)], b.sets);
    }
  }

  lemma TickingAgrees(cfg: Config, u: Pipeline, i: Input, r: Record)
    requires HandlerLaws.Shows(cfg, u.s) && Matches(u) && Agrees(cfg, u, r) && Allowed(u, i) && i.Ticking?
    ensures Agrees(cfg, Step(cfg, u, i), RecordAfter(cfg, u, i, r))
  {
    TickEntries(cfg, u.s, i.now, i.neutral != [], i.sent);
  }

  lemma StartingAgrees(cfg: Config, u: Pipeline, i: Input, r: Record)
    requires HandlerLaws.Shows(cfg, u.s) && Matches(u) && Agrees(cfg, u, r) && Allowed(u, i) && i.Starting?
    ensures Agrees(cfg, Step(cfg, u, i), RecordAfter(cfg, u, i, r))
  {
    BeginKeepsRest(cfg, u.s, EventOf(u, i));
    StartingBill(cfg, u, i, r);
  }

  lemma StartingBill(cfg: Config, u: Pipeline, i: Input, r: Record)
    requires HandlerLaws.Shows(cfg, u.s) && Matches(u) && Agrees(cfg, u, r) && Allowed(u, i) && i.Starting?
    ensures var v := Step(cfg, u, i);
      v.s.fb.Some? ==> BillOf(cfg, u, i, r.stored).Some? && BillAgrees(cfg, v.s, v.show, BillOf(cfg, u, i, r.stored).value)
  {
    BillIsChosen(cfg, u, i, r.stored);
    BillShows(cfg, u, i, r.stored);
    NoNeutralAmong(cfg, u, i);
  }

  /** The handler begins exactly when there is a bill, with that many pictures. */
  lemma BillIsChosen(cfg: Config, u: Pipeline, i: Input, stored: AU)
    requires StoredTells(u) && PlaceholderTells(u) && Allowed(u, i) && i.Starting? && stored == u.stored
    ensures var t, b := Apply(cfg, u.s, EventOf(u, i)), BillOf(cfg, u, i, stored);
      && (t.fb.Some? <==> b.Some?)
      && (t.fb.Some? ==>
            var f := t.fb.value;
            && f.every == b.value.every && f.shown == b.value.sent && b.value.sets == u.adv.own
            && (f.serving <==> b.value.neutral.Some?) && (f.serving ==> b.value.neutral == Some(i.neutral))
            && (cfg.neutral ==> f.switchAt == b.value.begun + cfg.hold))
  {
  }

  lemma BillShows(cfg: Config, u: Pipeline, i: Input, stored: AU)
    requires StoredTells(u) && PlaceholderTells(u) && Allowed(u, i) && i.Starting? && stored == u.stored
    ensures var t, b := Apply(cfg, u.s, EventOf(u, i)), BillOf(cfg, u, i, stored);
      t.fb.Some? && b.Some? ==>
        b.value.variants == VariantUnits(cfg, u, i.neutral, i.frames) && |t.fb.value.pictures| == |b.value.variants|
  {
  }

  lemma NoNeutralAmong(cfg: Config, u: Pipeline, i: Input)
    requires HandlerLaws.Shows(cfg, u.s) && Allowed(u, i) && i.Starting?
    ensures var t := Apply(cfg, u.s, EventOf(u, i));
      t.codec == u.s.codec
      && (t.fb.Some? && !t.fb.value.serving ==>
            forall k :: 0 <= k < |t.fb.value.pictures| ==> !t.fb.value.pictures[k].origin.NeutralImage?)
  {
    HandlerLaws.StepShows(cfg, u.s, EventOf(u, i));
    BeginKeepsRest(cfg, u.s, EventOf(u, i));
    var t := Apply(cfg, u.s, EventOf(u, i));
    if t.fb.Some? && !t.fb.value.serving {
      assert forall k :: 0 <= k < |t.fb.value.pictures| ==> HandlerLaws.MayShow(cfg, t.codec, false, t.fb.value.pictures[k]);
    }
  }

  lemma QuietAgrees(cfg: Config, u: Pipeline, i: Input, r: Record)
    requires Agrees(cfg, u, r) && Allowed(u, i) && i.Other?
    ensures Agrees(cfg, Step(cfg, u, i), RecordAfter(cfg, u, i, r))
  {
    OtherIsQuiet(cfg, u.s, i.e);
  }

  lemma PlayingAgrees(cfg: Config, u: Pipeline, i: Input, r: Record)
    requires Agrees(cfg, u, r) && Allowed(u, i) && i.Playing?
    ensures Agrees(cfg, Step(cfg, u, i), RecordAfter(cfg, u, i, r))
  {
  }

  lemma AnnounceAgrees(cfg: Config, u: Pipeline, i: Input, r: Record)
    requires Agrees(cfg, u, r) && Allowed(u, i) && i.Announce?
    ensures Agrees(cfg, Step(cfg, u, i), RecordAfter(cfg, u, i, r))
  {
    if HandlerLaws.IsRebuild(u.s, EventOf(u, i)) {
      RebuiltRun(u.s, i.a.codec, Complete(i.a.codec, i.a.sets), i.frames.Made());
    }
  }

  lemma OthersAdd(cfg: Config, u: Pipeline, i: Input, r: Record)
    requires Matches(u) && Allowed(u, i) && (i.Other? || i.Playing? || i.Announce? || i.Starting?)
    ensures var v := Step(cfg, u, i); Explains(u, v, SlipsOf(cfg, u, i, r, |v.s.trace| > |u.s.trace|))
  {
    var v := Step(cfg, u, i);
    var slips := SlipsOf(cfg, u, i, r, |v.s.trace| > |u.s.trace|);
    OtherTraces(cfg, u, i);
    if |v.s.trace| > |u.s.trace| {
      assert Adds(u, v, slips, [Reset], [[]]);
    } else {
      assert u.s.trace + [] == u.s.trace && u.out + [] == u.out;
      assert Adds(u, v, slips, [], []);
    }
  }

  lemma OtherTraces(cfg: Config, u: Pipeline, i: Input)
    requires Allowed(u, i) && (i.Other? || i.Playing? || i.Announce? || i.Starting?)
    ensures var t := Apply(cfg, u.s, EventOf(u, i)).trace; t == u.s.trace || t == u.s.trace + [Reset]
  {
    if i.Other? {
      OtherIsQuiet(cfg, u.s, i.e);
    } else if i.Announce? {
      RebuiltRun(u.s, i.a.codec, Complete(i.a.codec, i.a.sets), i.frames.Made());
    }
  }

  lemma StepExplained(cfg: Config, u: Pipeline, i: Input, r: Record)
    requires HandlerLaws.Shows(cfg, u.s) && Matches(u) && Agrees(cfg, u, r) && Allowed(u, i)
    ensures Agrees(cfg, Step(cfg, u, i), RecordAfter(cfg, u, i, r))
    ensures var v := Step(cfg, u, i); Explains(u, v, SlipsOf(cfg, u, i, r, |v.s.trace| > |u.s.trace|))
  {
    if i.Decoded? {
      DecodedAgrees(cfg, u, i, r);
      DecodedAdds(cfg, u, i, r);
    } else if i.Ticking? {
      TickingAgrees(cfg, u, i, r);
      TickingAdds(cfg, u, i, r);
    } else {
      OthersAdd(cfg, u, i, r);
      if i.Starting? {
        StartingAgrees(cfg, u, i, r);
      } else {
        match i
        case Announce(_, _) => AnnounceAgrees(cfg, u, i, r);
        case Playing(_) => PlayingAgrees(cfg, u, i, r);
        case _ => QuietAgrees(cfg, u, i, r);
      }
    }
  }

  /** The pipeline keeps its invariants, the record agrees with it, and the slips so far are honoured. */
  predicate Booked(cfg: Config, u: Pipeline, r: Record, so: seq<Slip>) {
    HandlerLaws.Shows(cfg, u.s) && Matches(u) && Agrees(cfg, u, r) && AllHonoured(so, u.s.trace, u.out)
  }

  lemma StepBooked(cfg: Config, u: Pipeline, i: Input, r: Record, so: seq<Slip>)
    requires Booked(cfg, u, r, so) && Allowed(u, i)
    ensures var v := Step(cfg, u, i);
      Booked(cfg, v, RecordAfter(cfg, u, i, r), so + SlipsOf(cfg, u, i, r, |v.s.trace| > |u.s.trace|))
  {
    var v := Step(cfg, u, i);
    StepExplained(cfg, u, i, r);
    StepMatches(cfg, u, i);
    HandlerLaws.StepShows(cfg, u.s, EventOf(u, i));
    NowHonoured(u, v, SlipsOf(cfg, u, i, r, |v.s.trace| > |u.s.trace|), so);
  }

  lemma Regroup(a: seq<Slip>, b: seq<Slip>, c: seq<Slip>)
    ensures a + (b + c) == a + b + c
  {
  }

  lemma {:induction false} RunExplained(cfg: Config, u: Pipeline, ins: seq<Input>, r: Record, so: seq<Slip>)
    requires Booked(cfg, u, r, so) && AllAllowed(cfg, u, ins)
    ensures AllHonoured(so + Slips(cfg, u, ins, r), RunUnits(cfg, u, ins).s.trace, RunUnits(cfg, u, ins).out)
    decreases ins
  {
    if ins == [] {
      assert so + [] == so;
    } else {
      var v, r' := Step(cfg, u, ins[0]), RecordAfter(cfg, u, ins[0], r);
      var now := SlipsOf(cfg, u, ins[0], r, |v.s.trace| > |u.s.trace|);
      StepBooked(cfg, u, ins[0], r, so);
      RunExplained(cfg, v, ins[1..], r', so + now);
      Regroup(so, now, Slips(cfg, v, ins[1..], r'));
    }
  }

  lemma NowHonoured(u: Pipeline, v: Pipeline, now: seq<Slip>, so: seq<Slip>)
    requires Explains(u, v, now) && AllHonoured(so, u.s.trace, u.out)
    ensures AllHonoured(so + now, v.s.trace, v.out)
  {
    var entries, units :| Adds(u, v, now, entries, units);
    HonouredAppend(so, u.s.trace, u.out, now, entries, units);
  }

  /** The record of a handler that has just been created: what is on disk, and no run. */
  function FirstRecord(wanted: Option<Codec>, files: map<Codec, seq<byte>>): Record {
    var r := Persist.Restored(wanted, files);
    Record(NO_SETS, NO_SETS, if r.Some? then r.value.au else [], None)
  }

  function FirstSlips(cfg: Config): seq<Slip> {
    if cfg.CanFallback() then [Blank] else []
  }

  /**
   From any files on disk, in every run, every unit delivered is what its slip
   says. A camera unit is the filtered one, opening, when it is a keyframe, with
   the sets last sent or announced. A fallback unit is the variant whose turn it
   is, opening with the sets the handler held when the run began; or, in neutral
   mode from the end of the hold on, the encoder's frame untouched.
   */
  lemma EveryUnitIsExplained(cfg: Config, wanted: Option<Codec>, files: map<Codec, seq<byte>>, frames: Frames, ins: seq<Input>)
    requires GenuineFrames(BootCodec(wanted), frames) && AllAllowed(cfg, Boot(cfg, wanted, files, frames), ins)
    ensures var u := Boot(cfg, wanted, files, frames);
      var v := RunUnits(cfg, u, ins);
      AllHonoured(FirstSlips(cfg) + Slips(cfg, u, ins, FirstRecord(wanted, files)), v.s.trace, v.out)
  {
    var u := Boot(cfg, wanted, files, frames);
    BootMatches(cfg, wanted, files, frames);
    RunExplained(cfg, u, ins, FirstRecord(wanted, files), FirstSlips(cfg));
  }

  /** So in every run each keyframe delivered by the camera or by a fallback run, from complete sets of its codec, opens with exactly those, one of each, and shows the pictures it is to show. */
  lemma KeyframesOpenWithTheirSets(cfg: Config, wanted: Option<Codec>, files: map<Codec, seq<byte>>, frames: Frames,
                                   ins: seq<Input>, k: nat)
    requires GenuineFrames(BootCodec(wanted), frames) && AllAllowed(cfg, Boot(cfg, wanted, files, frames), ins)
    requires var slips := FirstSlips(cfg) + Slips(cfg, Boot(cfg, wanted, files, frames), ins, FirstRecord(wanted, files));
      k < |slips| && slips[k].Rewrite?
      && WellTyped(slips[k].c, slips[k].sets) && Complete(slips[k].c, slips[k].sets) && HasKey(slips[k].c, slips[k].before)
    ensures var slip := (FirstSlips(cfg) + Slips(cfg, Boot(cfg, wanted, files, frames), ins, FirstRecord(wanted, files)))[k];
      var out := RunUnits(cfg, Boot(cfg, wanted, files, frames), ins).out;
      && k < |out| && SetsOf(slip.c, out[k]) == Relevant(slip.c, slip.sets)
      && (forall i :: 0 <= i < |out[k]| ==> (IsParam(slip.c, out[k][i]) <==> i < SetCount(slip.c)))
      && AccessUnitLaws.Pictures(slip.c, out[k]) == AccessUnitLaws.Pictures(slip.c, slip.before)
  {
    var slips := FirstSlips(cfg) + Slips(cfg, Boot(cfg, wanted, files, frames), ins, FirstRecord(wanted, files));
    var v := RunUnits(cfg, Boot(cfg, wanted, files, frames), ins);
    EveryUnitIsExplained(cfg, wanted, files, frames, ins);
    assert Honours(slips[k], v.s.trace[k], v.out[k]);
    RewrittenCarries(slips[k].c, slips[k].sets, slips[k].before, v.out[k]);
  }
}
