/**
 The RTP output normaliser: one continuous stream out of many sources.

 The proxy keeps 32-bit wrapping timestamps and a 16-bit wrapping sequence
 number (section 5.1 of RFC 3550) and compares timestamps by signed difference
 (section 3.2 of RFC 1982). `Normaliser` is that machine. `Timeline` is the same
 stream on unbounded integers, and the lemmas show that the machine is its
 image modulo 2^32, and what the timeline guarantees to a consumer.
 */
module Rtp {
  import opened Wrappers

  const TWO_16 := 0x1_0000
  const TWO_31 := 0x8000_0000
  const TWO_32 := 0x1_0000_0000

  type u16 = x: int | 0 <= x < TWO_16
  type u32 = x: int | 0 <= x < TWO_32

  /** Go's conversion of an integer to uint32. */
  function Wrap(x: int): u32 {
    x % TWO_32
  }

  /** Go's int32(a - b) on two uint32 values. */
  function SignedDiff(a: u32, b: u32): int {
    var d := Wrap(a - b);
    if d < TWO_31 then d else d - TWO_32
  }

  // The two tracks of a stream: splice gap in clock ticks, SSRC, payload type.
  const VIDEO_GAP: u32 := 3600
  const VIDEO_SSRC: u32 := 0x46414C4C
  const VIDEO_PT := 96
  const AUDIO_GAP: u32 := 160
  const AUDIO_SSRC: u32 := 0x41554449
  const AUDIO_PT := 8

  function Max(a: int, b: int): int {
    if a < b then b else a
  }

  // ---------------------------------------------------------------------
  // The machine
  // ---------------------------------------------------------------------

  /** The normaliser fields of one track. */
  datatype Norm = Norm(seqNo: u16, inited: bool, srcBase: u32, outBase: u32, lastOut: u32)

  /** `bound` says whether the output stream and its description are in place. */
  datatype Event = Reset | Write(ts: u32, bound: bool)

  datatype Header = Header(payloadType: nat, ssrc: u32, seqNo: u16, ts: u32)

  /** The state once the source base is known: a splice when it was not. */
  function Spliced(gap: u32, s: Norm, ts: u32): Norm {
    if s.inited then s
    else s.(inited := true, srcBase := ts, outBase := if s.lastOut == 0 then 0 else Wrap(s.lastOut + gap))
  }

  function OutTs(s: Norm, ts: u32): u32 {
    Wrap(s.outBase + (ts - s.srcBase))
  }

  function Next(gap: u32, s: Norm, e: Event): Norm {
    match e
    case Reset => s.(inited := false)
    case Write(ts, bound) =>
      if !bound then s
      else
        var s1 := Spliced(gap, s, ts);
        var out := OutTs(s1, ts);
        s1.(seqNo := (s.seqNo + 1) % TWO_16,
            lastOut := if SignedDiff(out, s.lastOut) > 0 then out else s.lastOut)
  }

  /** What one event sends: the sequence number and the timestamp of at most one packet. */
  function Sent(gap: u32, s: Norm, e: Event): seq<(u16, u32)> {
    match e
    case Reset => []
    case Write(ts, bound) => if bound then [(s.seqNo, OutTs(Spliced(gap, s, ts), ts))] else []
  }

  /** The normaliser of the video or of the audio track. */
  class Normaliser {
    const gap: u32
    const ssrc: u32
    const payloadType: nat
    var seqNo: u16
    var srcBase: u32
    var outBase: u32
    var lastOut: u32
    var inited: bool
    ghost var sent: seq<Header>  // everything delivered to the output stream so far

    ghost function State(): Norm
      reads this
    {
      Norm(seqNo, inited, srcBase, outBase, lastOut)
    }

    constructor Video()
      ensures gap == VIDEO_GAP && ssrc == VIDEO_SSRC && payloadType == VIDEO_PT
      ensures State() == Norm(0, false, 0, 0, 0) && sent == []
    {
      gap, ssrc, payloadType := VIDEO_GAP, VIDEO_SSRC, VIDEO_PT;
      seqNo, srcBase, outBase, lastOut, inited := 0, 0, 0, 0, false;
      sent := [];
    }

    constructor Audio()
      ensures gap == AUDIO_GAP && ssrc == AUDIO_SSRC && payloadType == AUDIO_PT
      ensures State() == Norm(0, false, 0, 0, 0) && sent == []
    {
      gap, ssrc, payloadType := AUDIO_GAP, AUDIO_SSRC, AUDIO_PT;
      seqNo, srcBase, outBase, lastOut, inited := 0, 0, 0, 0, false;
      sent := [];
    }

    /** The source changes: the next packet is spliced after the last one. */
    method ResetTimeline()
      modifies this
      ensures State() == Next(gap, old(State()), Reset) && sent == old(sent)
    {
      inited := false;
    }

    method WriteToStream(ts: u32, bound: bool)
      modifies this
      ensures State() == Next(gap, old(State()), Write(ts, bound))
      ensures var out := Sent(gap, old(State()), Write(ts, bound));
        sent == old(sent) + (if out == [] then [] else [Header(payloadType, ssrc, out[0].0, out[0].1)])
    {
      if !bound {
        return;
      }
      var number := seqNo;
      seqNo := (seqNo + 1) % TWO_16;
      if !inited {
        srcBase := ts;
        if lastOut == 0 {
          outBase := 0;
        } else {
          outBase := Wrap(lastOut + gap);
        }
        inited := true;
      }
      var outTs := Wrap(outBase + (ts - srcBase));
      if SignedDiff(outTs, lastOut) > 0 {
        lastOut := outTs;
      }
      sent := sent + [Header(payloadType, ssrc, number, outTs)];
    }
  }

  function Run(gap: u32, s: Norm, es: seq<Event>): Norm
    decreases es
  {
    if es == [] then s else Run(gap, Next(gap, s, es[0]), es[1..])
  }

  function SentBy(gap: u32, s: Norm, es: seq<Event>): seq<(u16, u32)>
    decreases es
  {
    if es == [] then [] else Sent(gap, s, es[0]) + SentBy(gap, Next(gap, s, es[0]), es[1..])
  }

  // ---------------------------------------------------------------------
  // The unbounded timeline
  // ---------------------------------------------------------------------

  /** What the sources do, with their own timestamps unwrapped. */
  datatype SourceEvent = Switch | Packet(t: int, bound: bool)

  function Wire(e: SourceEvent): Event {
    match e
    case Switch => Reset
    case Packet(t, bound) => Write(Wrap(t), bound)
  }

  function WireAll(es: seq<SourceEvent>): (r: seq<Event>)
    ensures |r| == |es|
  {
    if es == [] then [] else [Wire(es[0])] + WireAll(es[1..])
  }

  /** `high` is the high-water mark: the largest output timestamp so far. */
  datatype Timeline = Timeline(count: nat, inited: bool, srcBase: int, outBase: int, high: int)

  const START := Timeline(0, false, 0, 0, 0)

  /** Where a new source begins: the gap is skipped when the 32-bit mark reads zero. */
  function SpliceAt(gap: u32, high: int): int {
    if Wrap(high) == 0 then high else high + gap
  }

  function Joined(gap: u32, m: Timeline, t: int): Timeline {
    if m.inited then m else m.(inited := true, srcBase := t, outBase := SpliceAt(gap, m.high))
  }

  function Out(m: Timeline, t: int): int {
    m.outBase + (t - m.srcBase)
  }

  function Advance(gap: u32, m: Timeline, e: SourceEvent): Timeline {
    match e
    case Switch => m.(inited := false)
    case Packet(t, bound) =>
      if !bound then m
      else
        var m1 := Joined(gap, m, t);
        m1.(count := m.count + 1, high := Max(m.high, Out(m1, t)))
  }

  function AdvanceAll(gap: u32, m: Timeline, es: seq<SourceEvent>): Timeline
    decreases es
  {
    if es == [] then m else AdvanceAll(gap, Advance(gap, m, es[0]), es[1..])
  }

  function Outs(gap: u32, m: Timeline, es: seq<SourceEvent>): seq<int>
    decreases es
  {
    if es == [] then []
    else HeadOut(gap, m, es[0]) + Outs(gap, Advance(gap, m, es[0]), es[1..])
  }

  function HeadOut(gap: u32, m: Timeline, e: SourceEvent): seq<int> {
    if e.Packet? && e.bound then [Out(Joined(gap, m, e.t), e.t)] else []
  }

  /** Packet i carries the sequence number count + i and the timestamp outs[i], modulo the widths of the fields. */
  predicate Numbered(count: nat, outs: seq<int>, sent: seq<(u16, u32)>) {
    |sent| == |outs| && forall i :: 0 <= i < |outs| ==> sent[i] == ((count + i) % TWO_16, Wrap(outs[i]))
  }

  lemma NumberedAppend(count: nat, head: seq<int>, sentHead: seq<(u16, u32)>, outs: seq<int>, sent: seq<(u16, u32)>)
    requires Numbered(count, head, sentHead) && Numbered(count + |head|, outs, sent)
    ensures Numbered(count, head + outs, sentHead + sent)
  {
    forall i | |head| <= i < |head| + |outs|
      ensures (sentHead + sent)[i] == ((count + i) % TWO_16, Wrap((head + outs)[i]))
    {
      var j := i - |head|;
      assert count + |head| + j == count + i;
    }
  }

  /** A packet lands within half the 32-bit circle of the high-water mark. */
  predicate InWindow(gap: u32, m: Timeline, e: SourceEvent) {
    e.Packet? && e.bound ==> -TWO_31 <= Out(Joined(gap, m, e.t), e.t) - m.high < TWO_31
  }

  predicate AllInWindow(gap: u32, m: Timeline, es: seq<SourceEvent>)
    decreases es
  {
    es != [] ==> InWindow(gap, m, es[0]) && AllInWindow(gap, Advance(gap, m, es[0]), es[1..])
  }

  /** The machine state is the timeline modulo 2^32 and 2^16. */
  predicate Image(m: Timeline, s: Norm) {
    && s.seqNo == m.count % TWO_16
    && s.inited == m.inited
    && s.lastOut == Wrap(m.high)
    && (m.inited ==> s.srcBase == Wrap(m.srcBase) && s.outBase == Wrap(m.outBase))
  }

  lemma SignedDiffOfImages(a: int, b: int)
    requires -TWO_31 <= a - b < TWO_31
    ensures SignedDiff(Wrap(a), Wrap(b)) == a - b
  {
    assert Wrap(Wrap(a) - Wrap(b)) == Wrap(a - b);
  }

  lemma OutOfImages(m: Timeline, s: Norm, t: int)
    requires Image(m, s) && m.inited
    ensures OutTs(s, Wrap(t)) == Wrap(Out(m, t))
  {
  }

  lemma StepRefines(gap: u32, m: Timeline, s: Norm, e: SourceEvent)
    requires Image(m, s) && InWindow(gap, m, e)
    ensures Image(Advance(gap, m, e), Next(gap, s, Wire(e)))
    ensures Numbered(m.count, HeadOut(gap, m, e), Sent(gap, s, Wire(e)))
    ensures Advance(gap, m, e).count == m.count + |HeadOut(gap, m, e)|
  {
    if e.Packet? && e.bound {
      var m1, s1 := Joined(gap, m, e.t), Spliced(gap, s, Wrap(e.t));
      OutOfImages(m1, s1, e.t);
      SignedDiffOfImages(Out(m1, e.t), m.high);
    }
  }

  /** Every interleaving of writes and source switches: state and packets are the timeline's image. */
  lemma {:induction false} TimelineRefinement(gap: u32, m: Timeline, s: Norm, es: seq<SourceEvent>)
    requires Image(m, s) && AllInWindow(gap, m, es)
    ensures Image(AdvanceAll(gap, m, es), Run(gap, s, WireAll(es)))
    ensures Numbered(m.count, Outs(gap, m, es), SentBy(gap, s, WireAll(es)))
    decreases es
  {
    if es != [] {
      var m', s' := Advance(gap, m, es[0]), Next(gap, s, Wire(es[0]));
      StepRefines(gap, m, s, es[0]);
      TimelineRefinement(gap, m', s', es[1..]);
      NumberedAppend(m.count, HeadOut(gap, m, es[0]), Sent(gap, s, Wire(es[0])),
                     Outs(gap, m', es[1..]), SentBy(gap, s', WireAll(es[1..])));
      assert WireAll(es)[1..] == WireAll(es[1..]);
    }
  }

  // ---------------------------------------------------------------------
  // What the timeline guarantees
  // ---------------------------------------------------------------------

  /**
   Each source's timestamps never decrease and never jump by half the circle.
   `prev` is the last timestamp of the current source. Packets that are
   dropped for want of an output stream do not count.
   */
  predicate Steady(es: seq<SourceEvent>, prev: Option<int>) {
    es != [] ==>
      match es[0]
      case Switch => Steady(es[1..], None)
      case Packet(t, bound) =>
        if bound then
          (prev.Some? ==> 0 <= t - prev.value < TWO_31) && Steady(es[1..], Some(t))
        else Steady(es[1..], prev)
  }

  /** The current source's latest packet is the high-water mark. */
  predicate AtMark(m: Timeline, prev: Option<int>) {
    m.inited == prev.Some? && (prev.Some? ==> Out(m, prev.value) == m.high)
  }

  predicate Ascending(low: int, outs: seq<int>) {
    && (outs != [] ==> 0 <= outs[0] - low < TWO_31)
    && forall i :: 0 < i < |outs| ==> 0 <= outs[i] - outs[i - 1] < TWO_31
  }

  lemma AscendingCons(low: int, first: int, rest: seq<int>)
    requires 0 <= first - low < TWO_31 && Ascending(first, rest)
    ensures Ascending(low, [first] + rest)
  {
    var outs := [first] + rest;
    forall i | 0 < i < |outs|
      ensures 0 <= outs[i] - outs[i - 1] < TWO_31
    {
      assert outs[i] == rest[i - 1];
      if i > 1 {
        assert outs[i - 1] == rest[i - 2];
      }
    }
  }

  /** Steady sources meet the refinement's premise, whatever the switches, and the output never steps back. */
  lemma {:induction false} SteadySourcesAscend(gap: u32, m: Timeline, es: seq<SourceEvent>, prev: Option<int>)
    requires gap < TWO_31
    requires Steady(es, prev) && AtMark(m, prev)
    ensures AllInWindow(gap, m, es) && Ascending(m.high, Outs(gap, m, es))
    decreases es
  {
    if es != [] {
      var m' := Advance(gap, m, es[0]);
      var prev' := if es[0].Switch? then None else if es[0].bound then Some(es[0].t) else prev;
      SteadySourcesAscend(gap, m', es[1..], prev');
      if es[0].Packet? && es[0].bound {
        assert Outs(gap, m, es) == [m'.high] + Outs(gap, m', es[1..]);
        AscendingCons(m.high, m'.high, Outs(gap, m', es[1..]));
      } else {
        assert Outs(gap, m, es) == Outs(gap, m', es[1..]);
      }
    }
  }

  /** Consecutive sequence numbers, and no timestamp before its predecessor in the serial order of RFC 1982. */
  predicate OneStream(sent: seq<(u16, u32)>) {
    forall i :: 0 < i < |sent| ==>
      sent[i].0 == (sent[i - 1].0 + 1) % TWO_16 && SignedDiff(sent[i].1, sent[i - 1].1) >= 0
  }

  lemma NextNumber(n: nat)
    ensures (n + 1) % TWO_16 == (n % TWO_16 + 1) % TWO_16
  {
  }

  lemma InOrder(outs: seq<int>, sent: seq<(u16, u32)>)
    requires Ascending(0, outs) && Numbered(0, outs, sent)
    ensures OneStream(sent)
  {
    forall i | 0 < i < |sent|
      ensures sent[i].0 == (sent[i - 1].0 + 1) % TWO_16 && SignedDiff(sent[i].1, sent[i - 1].1) >= 0
    {
      var n, a, b := i - 1, outs[i - 1], outs[i];
      assert sent[i - 1] == (n % TWO_16, Wrap(a));
      assert sent[i] == ((n + 1) % TWO_16, Wrap(b));
      assert 0 <= b - a < TWO_31;
      NextNumber(n);
      SignedDiffOfImages(b, a);
    }
  }

  /** What a consumer sees, for any number of switches and any number of wraps of the 32-bit clock. */
  lemma ConsumerSeesOneStream(gap: u32, es: seq<SourceEvent>)
    requires gap < TWO_31 && Steady(es, None)
    ensures OneStream(SentBy(gap, Norm(0, false, 0, 0, 0), WireAll(es)))
  {
    SteadySourcesAscend(gap, START, es, None);
    TimelineRefinement(gap, START, Norm(0, false, 0, 0, 0), es);
    InOrder(Outs(gap, START, es), SentBy(gap, Norm(0, false, 0, 0, 0), WireAll(es)));
  }

  /** The packets of one source, with the timestamps ts. */
  function Source(ts: seq<int>): (r: seq<SourceEvent>)
    ensures |r| == |ts|
  {
    if ts == [] then [] else [Packet(ts[0], true)] + Source(ts[1..])
  }

  lemma {:induction false} SourceOuts(gap: u32, m: Timeline, ts: seq<int>)
    requires m.inited
    ensures |Outs(gap, m, Source(ts))| == |ts|
    ensures forall i :: 0 <= i < |ts| ==> Outs(gap, m, Source(ts))[i] == Out(m, ts[i])
    decreases ts
  {
    if ts != [] {
      assert Source(ts)[1..] == Source(ts[1..]);
      SourceOuts(gap, Advance(gap, m, Source(ts)[0]), ts[1..]);
    }
  }

  /** How far behind its first packet a source may fall without going below the old mark. */
  function Slack(gap: u32, high: int): int {
    if Wrap(high) == 0 then 0 else gap
  }

  /**
   A source spliced in at any state starts at the mark (plus the gap, unless
   the 32-bit mark reads zero), and stays at or above the mark left by earlier
   sources exactly when it never reorders back by more than that gap.
   */
  lemma NeverBelowEarlierSources(gap: u32, m: Timeline, ts: seq<int>)
    requires !m.inited && ts != []
    ensures var outs := Outs(gap, m, Source(ts));
      && |outs| == |ts|
      && outs[0] == m.high + Slack(gap, m.high)
      && ((forall i :: 0 <= i < |ts| ==> outs[i] >= m.high)
          <==> (forall i :: 0 <= i < |ts| ==> ts[i] >= ts[0] - Slack(gap, m.high)))
  {
    var m1 := Joined(gap, m, ts[0]);
    var m2 := Advance(gap, m, Packet(ts[0], true));
    assert Source(ts)[1..] == Source(ts[1..]);
    SourceOuts(gap, m2, ts[1..]);
    var outs := Outs(gap, m, Source(ts));
    assert outs == [Out(m1, ts[0])] + Outs(gap, m2, Source(ts[1..]));
    assert forall i :: 0 <= i < |ts| ==> outs[i] == m.high + Slack(gap, m.high) + (ts[i] - ts[0]);
  }

  /** Every packet stays at or above `floor`, the mark its source was spliced at. */
  predicate StaysAbove(gap: u32, m: Timeline, floor: int, es: seq<SourceEvent>)
    decreases es
  {
    es != [] ==>
      match es[0]
      case Switch => StaysAbove(gap, Advance(gap, m, es[0]), m.high, es[1..])
      case Packet(t, bound) =>
        (bound ==> Out(Joined(gap, m, t), t) >= floor) && StaysAbove(gap, Advance(gap, m, es[0]), floor, es[1..])
  }

  /** No source reorders back from its first packet by more than the slack at its splice. */
  predicate ReordersWithin(gap: u32, m: Timeline, floor: int, es: seq<SourceEvent>)
    decreases es
  {
    es != [] ==>
      match es[0]
      case Switch => ReordersWithin(gap, Advance(gap, m, es[0]), m.high, es[1..])
      case Packet(t, bound) =>
        (bound && m.inited ==> t >= m.srcBase - Slack(gap, floor))
        && ReordersWithin(gap, Advance(gap, m, es[0]), floor, es[1..])
  }

  /** The current source, if any, was spliced at `floor`. */
  predicate SplicedAt(gap: u32, m: Timeline, floor: int) {
    m.high >= floor && if m.inited then m.outBase == SpliceAt(gap, floor) else m.high == floor
  }

  /** Over whole runs: no source falls below the mark of the earlier ones exactly when none reorders beyond its slack. */
  lemma {:induction false} RunStaysAbove(gap: u32, m: Timeline, floor: int, es: seq<SourceEvent>)
    requires SplicedAt(gap, m, floor)
    ensures StaysAbove(gap, m, floor, es) <==> ReordersWithin(gap, m, floor, es)
    decreases es
  {
    if es != [] {
      RunStaysAbove(gap, Advance(gap, m, es[0]), if es[0].Switch? then m.high else floor, es[1..]);
    }
  }

  /** Which source each output packet is from, counting from n. */
  function Owners(es: seq<SourceEvent>, n: nat): seq<nat>
    decreases es
  {
    if es == [] then []
    else if es[0].Switch? then Owners(es[1..], n + 1)
    else (if es[0].bound then [n] else []) + Owners(es[1..], n)
  }

  lemma {:induction false} OwnersOfOuts(gap: u32, m: Timeline, es: seq<SourceEvent>, n: nat)
    ensures |Owners(es, n)| == |Outs(gap, m, es)|
    ensures forall j :: 0 <= j < |Owners(es, n)| ==> Owners(es, n)[j] >= n
    decreases es
  {
    if es != [] {
      OwnersOfOuts(gap, Advance(gap, m, es[0]), es[1..], if es[0].Switch? then n + 1 else n);
    }
  }

  /** Sources after the current one stay above the mark as it is now. */
  lemma {:induction false} LaterStayAbove(gap: u32, m: Timeline, floor: int, es: seq<SourceEvent>, n: nat)
    requires StaysAbove(gap, m, floor, es) && m.high >= floor
    ensures |Owners(es, n)| == |Outs(gap, m, es)|
    ensures forall j :: 0 <= j < |Owners(es, n)| ==> Outs(gap, m, es)[j] >= if Owners(es, n)[j] > n then m.high else floor
    decreases es
  {
    OwnersOfOuts(gap, m, es, n);
    if es != [] {
      var n' := if es[0].Switch? then n + 1 else n;
      var m' := Advance(gap, m, es[0]);
      OwnersOfOuts(gap, m', es[1..], n');
      LaterStayAbove(gap, m', if es[0].Switch? then m.high else floor, es[1..], n');
    }
  }

  predicate InSourceOrder(outs: seq<int>, owners: seq<nat>)
    requires |outs| == |owners|
  {
    forall i, j :: 0 <= i < j < |outs| && owners[i] < owners[j] ==> outs[i] <= outs[j]
  }

  lemma ConsInOrder(out: int, n: nat, outs: seq<int>, owners: seq<nat>)
    requires |outs| == |owners| && InSourceOrder(outs, owners)
    requires forall j :: 0 <= j < |outs| && owners[j] > n ==> outs[j] >= out
    ensures InSourceOrder([out] + outs, [n] + owners)
  {
    var a, b := [out] + outs, [n] + owners;
    assert forall j :: 0 < j < |a| ==> a[j] == outs[j - 1] && b[j] == owners[j - 1];
  }

  lemma {:induction false} RunInSourceOrder(gap: u32, m: Timeline, floor: int, es: seq<SourceEvent>, n: nat)
    requires StaysAbove(gap, m, floor, es) && m.high >= floor
    ensures |Owners(es, n)| == |Outs(gap, m, es)| && InSourceOrder(Outs(gap, m, es), Owners(es, n))
    decreases es
  {
    OwnersOfOuts(gap, m, es, n);
    if es != [] {
      var n' := if es[0].Switch? then n + 1 else n;
      var m', floor' := Advance(gap, m, es[0]), if es[0].Switch? then m.high else floor;
      var outs, owners := Outs(gap, m', es[1..]), Owners(es[1..], n');
      RunInSourceOrder(gap, m', floor', es[1..], n');
      if es[0].Packet? && es[0].bound {
        var out := Out(Joined(gap, m, es[0].t), es[0].t);
        LaterStayAbove(gap, m', floor', es[1..], n');
        ConsInOrder(out, n, outs, owners);
        assert Outs(gap, m, es) == [out] + outs && Owners(es, n) == [n] + owners;
      } else {
        assert Outs(gap, m, es) == [] + outs == outs;
        assert Owners(es, n) == owners;
      }
    }
  }

  /** Any number of reordering sources: no packet is earlier than a packet of an earlier source, if none reorders beyond its slack. */
  lemma SourcesStayInOrder(gap: u32, es: seq<SourceEvent>)
    requires ReordersWithin(gap, START, 0, es)
    ensures |Owners(es, 0)| == |Outs(gap, START, es)| && InSourceOrder(Outs(gap, START, es), Owners(es, 0))
  {
    RunStaysAbove(gap, START, 0, es);
    RunInSourceOrder(gap, START, 0, es, 0);
  }

  /** The first source, whose timestamps start at t0; they go out counted from there. */
  function FirstSource(t0: int, count: nat, high: int): Timeline {
    Timeline(count, true, t0, 0, high)
  }

  lemma FirstSourceOuts(gap: u32, t0: int, count: nat, high: int, t: int, rest: seq<SourceEvent>)
    requires t - t0 >= high
    ensures Outs(gap, FirstSource(t0, count, high), [Packet(t, true)] + rest)
         == [t - t0] + Outs(gap, FirstSource(t0, count + 1, t - t0), rest)
  {
    assert ([Packet(t, true)] + rest)[1..] == rest;
  }

  lemma FirstOuts(gap: u32, t0: int, rest: seq<SourceEvent>)
    ensures Outs(gap, START, [Packet(t0, true)] + rest) == [0] + Outs(gap, FirstSource(t0, 1, 0), rest)
  {
    assert ([Packet(t0, true)] + rest)[1..] == rest;
  }

  lemma SteadyCons(t: int, rest: seq<SourceEvent>, prev: Option<int>)
    requires Steady(rest, Some(t)) && (prev.Some? ==> 0 <= t - prev.value < TWO_31)
    ensures Steady([Packet(t, true)] + rest, prev)
  {
    assert ([Packet(t, true)] + rest)[1..] == rest;
  }

  function NextSource(t: int): seq<SourceEvent> {
    [Switch] + ([Packet(t, true)] + [])
  }

  lemma NextSourceOuts(gap: u32, m: Timeline, t: int, last: int)
    requires m.high == TWO_32
    ensures Outs(gap, m, NextSource(t)) == [TWO_32] && Steady(NextSource(t), Some(last))
  {
    var m1 := Advance(gap, m, Switch);
    var packet := [Packet(t, true)] + [];
    assert NextSource(t)[1..] == packet && packet[1..] == [];
    assert Outs(gap, m1, packet) == [TWO_32] + [];
    assert Outs(gap, m, NextSource(t)) == [] + Outs(gap, m1, packet);
    SteadyCons(t, [], None);
  }

  /** The gap is lost at an exact wrap: a steady source comes to 2^32, and the next one starts at the same timestamp. */
  lemma WrapLosesTheGap(gap: u32, t0: int, t1: int) returns (es: seq<SourceEvent>)
    ensures Steady(es, None)
    ensures var outs := Outs(gap, START, es); |outs| == 5 && outs[3] == outs[4] == TWO_32
  {
    var a, b := TWO_31 - 1, TWO_32 - 2;
    var es3 := [Packet(t0 + TWO_32, true)] + NextSource(t1);
    var es2 := [Packet(t0 + b, true)] + es3;
    var es1 := [Packet(t0 + a, true)] + es2;
    es := [Packet(t0, true)] + es1;
    NextSourceOuts(gap, FirstSource(t0, 4, TWO_32), t1, t0 + TWO_32);
    FirstSourceOuts(gap, t0, 3, b, t0 + TWO_32, NextSource(t1));
    FirstSourceOuts(gap, t0, 2, a, t0 + b, es3);
    FirstSourceOuts(gap, t0, 1, 0, t0 + a, es2);
    FirstOuts(gap, t0, es1);
    SteadyCons(t0 + TWO_32, NextSource(t1), Some(t0 + b));
    SteadyCons(t0 + b, es3, Some(t0 + a));
    SteadyCons(t0 + a, es2, Some(t0));
    SteadyCons(t0, es1, None);
  }

  /** The premise of the refinement is exact: one circle around the mark, the image survives iff the packet is in the window. */
  lemma WindowIsExact(gap: u32, m: Timeline, s: Norm, t: int)
    requires Image(m, s)
    requires -TWO_32 < Out(Joined(gap, m, t), t) - m.high < TWO_32
    ensures Image(Advance(gap, m, Packet(t, true)), Next(gap, s, Write(Wrap(t), true)))
            <==> InWindow(gap, m, Packet(t, true))
  {
    var m1, s1 := Joined(gap, m, t), Spliced(gap, s, Wrap(t));
    OutOfImages(m1, s1, t);
    if InWindow(gap, m, Packet(t, true)) {
      StepRefines(gap, m, s, Packet(t, true));
    } else {
      OutsideTheWindow(Out(m1, t), m.high);
      var behind := Out(m1, t) < m.high;
      assert Next(gap, s, Write(Wrap(t), true)).lastOut == if behind then Wrap(Out(m1, t)) else Wrap(m.high);
      assert Advance(gap, m, Packet(t, true)).high == if behind then m.high else Out(m1, t);
    }
  }

  lemma OutsideTheWindow(out: int, high: int)
    requires -TWO_32 < out - high < -TWO_31 || TWO_31 <= out - high < TWO_32
    ensures (SignedDiff(Wrap(out), Wrap(high)) > 0) == (out < high)
    ensures Wrap(out) != Wrap(high)
  {
    var around := if out < high then out + TWO_32 else out - TWO_32;
    assert Wrap(out) == Wrap(around);
    SignedDiffOfImages(around, high);
  }
}
