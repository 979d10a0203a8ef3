/**
 The rate of the fallback stream and the RTP timestamps it produces.
 */
module Pacing {
  import opened Wrappers
  import opened AnnexB
  import opened AccessUnit
  import opened AnnexBLaws
  import Rtp

  const BUDGET := 200_000    // bytes per second
  const MIN_FPS := 2
  const NEUTRAL_FPS: Rate := 2
  const CLOCK_RATE := 90_000

  function TotalBytes(au: AU, k: nat): nat
    requires k <= |au|
  {
    if k == 0 then 0 else TotalBytes(au, k - 1) + |au[k - 1]|
  }

  method AuBytes(au: AU) returns (n: nat)
    ensures n == TotalBytes(au, |au|)
  {
    n := 0;
    for i := 0 to |au|
      invariant n == TotalBytes(au, i)
    {
      n := n + |au[i]|;
    }
  }

  function CapFallbackFPS(fps: int, frameBytes: int): int {
    if frameBytes <= 0 then fps
    else
      var limit := if BUDGET / frameBytes < MIN_FPS then MIN_FPS else BUDGET / frameBytes;
      if fps > limit then limit else fps
  }

  function FloorFPS(fps: int): int {
    if fps <= 0 then 5 else if fps < 2 then 2 else fps
  }

  predicate RateOk(fps: int) {
    MIN_FPS <= fps <= 60
  }

  lemma QuotientFits(b: int, n: int, q: int)
    requires n > 0 && q <= b / n
    ensures q * n <= b
  {
    assert b / n * n <= b;
    assert q * n <= b / n * n;
  }

  /** A configured rate (1 to 60), floored and capped, stays in 2..60 and within the byte budget unless at the floor. */
  lemma CappedRate(configured: int, frameBytes: nat)
    requires 1 <= configured <= 60
    ensures var fps := CapFallbackFPS(FloorFPS(configured), frameBytes);
      RateOk(fps) && fps <= FloorFPS(configured) && (fps * frameBytes <= BUDGET || fps == MIN_FPS)
  {
    var fps := CapFallbackFPS(FloorFPS(configured), frameBytes);
    if frameBytes > 0 && fps != MIN_FPS {
      QuotientFits(BUDGET, frameBytes, fps);
    }
  }

  /** Exactly which frames force a lower rate. */
  lemma WhenTheRateIsCapped(fps: int, frameBytes: int)
    requires fps >= MIN_FPS && frameBytes > 0
    ensures CapFallbackFPS(fps, frameBytes) < fps <==> fps > MIN_FPS && fps * frameBytes > BUDGET
  {
    var q := BUDGET / frameBytes;
    if fps <= q {
      QuotientFits(BUDGET, frameBytes, fps);
    } else {
      assert BUDGET < (q + 1) * frameBytes;
      assert (q + 1) * frameBytes <= fps * frameBytes;
    }
  }

  /** The cap lowers the rate no further than the budget asks: any higher rate would exceed it. A frame of no size changes nothing. */
  lemma CapIsHighest(fps: int, frameBytes: int)
    requires fps >= MIN_FPS
    ensures frameBytes <= 0 ==> CapFallbackFPS(fps, frameBytes) == fps
    ensures frameBytes > 0 ==> forall q :: CapFallbackFPS(fps, frameBytes) < q <= fps ==> q * frameBytes > BUDGET
  {
    if frameBytes > 0 {
      forall q | CapFallbackFPS(fps, frameBytes) < q <= fps
        ensures q * frameBytes > BUDGET
      {
        OverTheQuotient(BUDGET, frameBytes, q);
      }
    }
  }

  lemma OverTheQuotient(b: int, n: int, q: int)
    requires n > 0 && q > b / n
    ensures q * n > b
  {
    var d := b / n;
    assert b < d * n + n;
    assert (d + 1) * n == d * n + n;
    ScaleUp(d + 1, q, n);
  }

  lemma ScaleUp(x: int, y: int, n: int)
    requires x <= y && n > 0
    ensures x * n <= y * n
  {
  }

  /** A configured rate of two or more is kept; one frame a second becomes two, and no rate at all five. */
  lemma FloorKeeps(fps: int)
    ensures fps >= 2 ==> FloorFPS(fps) == fps
    ensures fps == 1 ==> FloorFPS(fps) == 2
    ensures fps <= 0 ==> FloorFPS(fps) == 5
  {
  }

  /** What is counted is what is written out, less the start codes. */
  lemma {:induction false} PayloadOfWritten(au: AU, k: nat)
    requires k <= |au|
    ensures |Written(au, k)| == TotalBytes(au, k) + 4 * k
  {
    if k > 0 {
      PayloadOfWritten(au, k - 1);
    }
  }

  lemma IncrementRange(fps: int)
    requires RateOk(fps)
    ensures 1500 <= CLOCK_RATE / fps <= 45_000
  {
    var q := CLOCK_RATE / fps;
    assert q * fps <= CLOCK_RATE < (q + 1) * fps;
    assert q < 1500 ==> (q + 1) * fps <= 1500 * 60;
    assert q > 45_000 ==> 45_001 * 2 <= q * fps;
  }

  /** One tick of the fallback loop: does it switch to the neutral image, was the frame accepted by the RTP encoder, and in how many packets. */
  datatype Beat = Beat(switches: bool, packets: Option<nat>)

  /** A frame that is accepted makes at least one packet. */
  predicate Real(bs: seq<Beat>) {
    forall i :: 0 <= i < |bs| && bs[i].packets.Some? ==> bs[i].packets.value > 0
  }

  type Rate = fps: int | RateOk(fps) witness MIN_FPS

  datatype Tempo = Tempo(fps: Rate, ts: int)

  function AfterBeat(m: Tempo, b: Beat): Tempo {
    var fps := if b.switches then NEUTRAL_FPS else m.fps;
    Tempo(fps, if b.packets.Some? then m.ts + CLOCK_RATE / fps else m.ts)
  }

  function Burst(ts: int, n: nat): (r: seq<Rtp.SourceEvent>)
    ensures |r| == n && forall i :: 0 <= i < n ==> r[i] == Rtp.Packet(ts, true)
  {
    seq(n, _ => Rtp.Packet(ts, true))
  }

  /** The packets a fallback run writes, with timestamps unwrapped. */
  function PacketsOf(m: Tempo, bs: seq<Beat>): seq<Rtp.SourceEvent>
    decreases bs
  {
    if bs == [] then []
    else Burst(m.ts, bs[0].packets.GetOr(0)) + PacketsOf(AfterBeat(m, bs[0]), bs[1..])
  }

  lemma WrapAdd(a: int, b: int)
    ensures Rtp.Wrap(Rtp.Wrap(a) + b) == Rtp.Wrap(a + b)
  {
  }

  /** The counters of the fallback loop. */
  class FallbackTempo {
    var fps: Rate
    var tsInc: Rtp.u32
    var ts: Rtp.u32
    ghost var unwrapped: int

    ghost predicate Valid()
      reads this
    {
      tsInc == CLOCK_RATE / fps && ts == Rtp.Wrap(unwrapped)
    }

    constructor (configured: int, frame: AU)
      requires 1 <= configured <= 60
      ensures Valid() && unwrapped == 0 && fps == CapFallbackFPS(FloorFPS(configured), TotalBytes(frame, |frame|))
    {
      var bytes := AuBytes(frame);
      CappedRate(configured, bytes);
      var rate := CapFallbackFPS(FloorFPS(configured), bytes);
      IncrementRange(rate);
      fps, tsInc, ts := rate, CLOCK_RATE / rate, 0;
      unwrapped := 0;
    }

    /** Returns the timestamp of the frame sent at this tick. */
    method Tick(b: Beat) returns (stamp: Rtp.u32)
      requires Valid()
      modifies this
      ensures Valid() && stamp == old(ts)
      ensures Tempo(fps, unwrapped) == AfterBeat(old(Tempo(fps, unwrapped)), b)
    {
      if b.switches {
        fps := NEUTRAL_FPS;
        IncrementRange(fps);
        tsInc := CLOCK_RATE / fps;
      }
      stamp := ts;
      if b.packets.None? {
        return;
      }
      WrapAdd(unwrapped, tsInc);
      ts := Rtp.Wrap(ts + tsInc);
      unwrapped := unwrapped + tsInc;
    }
  }

  lemma {:induction false} BurstThenSteady(ts: int, n: nat, rest: seq<Rtp.SourceEvent>, prev: Option<int>)
    requires prev.Some? ==> 0 <= ts - prev.value < Rtp.TWO_31
    requires Rtp.Steady(rest, if n > 0 then Some(ts) else prev)
    ensures Rtp.Steady(Burst(ts, n) + rest, prev)
    decreases n
  {
    var all := Burst(ts, n) + rest;
    if n > 0 {
      assert all[1..] == Burst(ts, n - 1) + rest;
      BurstThenSteady(ts, n - 1, rest, Some(ts));
    } else {
      assert all == rest;
    }
  }

  /** Whatever the switches and refusals, the run is a steady source for the normaliser, with steps of at most half a second. */
  lemma {:induction false} FallbackSourceIsSteady(m: Tempo, bs: seq<Beat>, prev: Option<int>)
    requires Real(bs)
    requires prev.Some? ==> 0 <= m.ts - prev.value <= 45_000
    ensures Rtp.Steady(PacketsOf(m, bs), prev)
    decreases bs
  {
    if bs != [] {
      var m' := AfterBeat(m, bs[0]);
      var n := bs[0].packets.GetOr(0);
      IncrementRange(m'.fps);
      FallbackSourceIsSteady(m', bs[1..], if n > 0 then Some(m.ts) else prev);
      BurstThenSteady(m.ts, n, PacketsOf(m', bs[1..]), prev);
    }
  }

  /** So a fallback run spliced in anywhere stays in the normaliser's window and never steps back, for as long as it lasts. */
  lemma FallbackRunAscends(gap: Rtp.u32, t: Rtp.Timeline, configured: int, frame: AU, bs: seq<Beat>)
    requires gap < Rtp.TWO_31 && 1 <= configured <= 60 && Real(bs) && !t.inited
    ensures RateOk(CapFallbackFPS(FloorFPS(configured), TotalBytes(frame, |frame|)))
    ensures var m := Tempo(CapFallbackFPS(FloorFPS(configured), TotalBytes(frame, |frame|)), 0);
      && Rtp.AllInWindow(gap, t, PacketsOf(m, bs))
      && Rtp.Ascending(t.high, Rtp.Outs(gap, t, PacketsOf(m, bs)))
  {
    CappedRate(configured, TotalBytes(frame, |frame|));
    var m := Tempo(CapFallbackFPS(FloorFPS(configured), TotalBytes(frame, |frame|)), 0);
    FallbackSourceIsSteady(m, bs, None);
    Rtp.SteadySourcesAscend(gap, t, PacketsOf(m, bs), None);
  }

  // ---------------------------------------------------------------------
  // Keeping time
  // ---------------------------------------------------------------------

  function AfterBeats(m: Tempo, bs: seq<Beat>): Tempo
    decreases bs
  {
    if bs == [] then m else AfterBeats(AfterBeat(m, bs[0]), bs[1..])
  }

  /** Every frame is accepted and none switches to the neutral image. */
  predicate Even(bs: seq<Beat>) {
    forall i :: 0 <= i < |bs| ==> !bs[i].switches && bs[i].packets.Some?
  }

  lemma {:induction false} EvenBeats(m: Tempo, bs: seq<Beat>)
    requires Even(bs)
    ensures AfterBeats(m, bs) == Tempo(m.fps, m.ts + |bs| * (CLOCK_RATE / m.fps))
    decreases bs
  {
    if bs != [] {
      assert bs[0] in bs;
      var step := CLOCK_RATE / m.fps;
      assert AfterBeat(m, bs[0]) == Tempo(m.fps, m.ts + step);
      EvenBeats(AfterBeat(m, bs[0]), bs[1..]);
      assert (|bs| - 1) * step + step == |bs| * step;
    }
  }

  /** A second's worth of frames takes a second of timestamps, less than one tick for each frame short. */
  lemma ASecondOfFrames(m: Tempo, bs: seq<Beat>)
    requires Even(bs) && |bs| == m.fps
    ensures CLOCK_RATE - m.fps < AfterBeats(m, bs).ts - m.ts <= CLOCK_RATE
  {
    EvenBeats(m, bs);
    var q := CLOCK_RATE / m.fps;
    assert CLOCK_RATE == m.fps * q + CLOCK_RATE % m.fps;
  }

  /** The switch to the neutral image takes effect with the frame it comes with. */
  lemma NeutralTempo(m: Tempo, packets: Option<nat>)
    ensures var after := AfterBeat(m, Beat(true, packets));
      after.fps == 2 && after.ts == m.ts + (if packets.Some? then 45_000 else 0)
  {
  }
}
