/**
 The handler's runs and the normaliser put together: whatever happens to the
 camera, consumers read one continuous RTP stream.
 */
module Continuity {
  import opened Wrappers
  import opened AccessUnit
  import opened Handler
  import HandlerLaws
  import Pacing
  import Rtp

  /** Entry i of the trace is stamped stamps[i] by its producer (unwrapped) and makes counts[i] packets. */
  predicate Clocked(t: seq<Entry>, stamps: seq<int>, counts: seq<nat>) {
    |stamps| == |counts| == |t| && forall i :: 0 <= i < |t| && t[i].Deliver? ==> counts[i] > 0
  }

  /** No producer's clock steps back, or forward by half the 32-bit circle. Nothing is assumed between producers. */
  predicate SteadyClocks(t: seq<Entry>, stamps: seq<int>)
    requires |stamps| == |t|
  {
    forall i :: 0 < i < |t| && t[i - 1].Deliver? && t[i].Deliver? && t[i - 1].shot.from == t[i].shot.from ==>
      0 <= stamps[i] - stamps[i - 1] < Rtp.TWO_31
  }

  /** What the normaliser is called with from entry k on. */
  function Calls(t: seq<Entry>, stamps: seq<int>, counts: seq<nat>, k: nat): seq<Rtp.SourceEvent>
    requires Clocked(t, stamps, counts) && k <= |t|
    decreases |t| - k
  {
    if k == |t| then []
    else (if t[k].Reset? then [Rtp.Switch] else Pacing.Burst(stamps[k], counts[k])) + Calls(t, stamps, counts, k + 1)
  }

  lemma {:induction false} SegmentsAreSteady(t: seq<Entry>, stamps: seq<int>, counts: seq<nat>, k: nat, prev: Option<int>)
    requires Clocked(t, stamps, counts) && SteadyClocks(t, stamps) && HandlerLaws.Segmented(t) && k <= |t|
    requires prev.Some? ==> k > 0 && t[k - 1].Deliver? && prev.value == stamps[k - 1]
    ensures Rtp.Steady(Calls(t, stamps, counts, k), prev)
    decreases |t| - k
  {
    if k < |t| {
      var rest := Calls(t, stamps, counts, k + 1);
      if t[k].Reset? {
        SegmentsAreSteady(t, stamps, counts, k + 1, None);
        assert ([Rtp.Switch] + rest)[1..] == rest;
      } else {
        SegmentsAreSteady(t, stamps, counts, k + 1, Some(stamps[k]));
        assert prev.Some? ==> HandlerLaws.SameProducer(t[k - 1], t[k]);
        Pacing.BurstThenSteady(stamps[k], counts[k], rest, prev);
      }
    }
  }

  /**
   The clock of each producer at entry i: a camera session's is its own
   (`camera`); a fallback run's starts at zero and advances with each accepted
   frame by the increment of the rate in force, `rates[i]` at entry i.
   */
  function Stamp(t: seq<Entry>, camera: seq<int>, rates: seq<Pacing.Rate>, i: nat): int
    requires |camera| == |rates| == |t| && i < |t|
  {
    if !(t[i].Deliver? && t[i].shot.from.FallbackRun?) then camera[i]
    else if i > 0 && t[i - 1].Deliver? && t[i - 1].shot.from == t[i].shot.from then
      Pacing.AfterBeat(Pacing.Tempo(rates[i - 1], Stamp(t, camera, rates, i - 1)), Pacing.Beat(false, Some(1))).ts
    else 0
  }

  function Stamps(t: seq<Entry>, camera: seq<int>, rates: seq<Pacing.Rate>): (r: seq<int>)
    requires |camera| == |rates| == |t|
    ensures |r| == |t| && forall i :: 0 <= i < |t| ==> r[i] == Stamp(t, camera, rates, i)
  {
    seq(|t|, i requires 0 <= i < |t| => Stamp(t, camera, rates, i))
  }

  /** No camera session's clock steps back, or forward by half the 32-bit circle. Nothing is assumed between sessions. */
  predicate SteadyCameras(t: seq<Entry>, camera: seq<int>)
    requires |camera| == |t|
  {
    forall i :: 0 < i < |t| && t[i - 1].Deliver? && t[i].Deliver? && t[i].shot.from.Session?
                && t[i - 1].shot.from == t[i].shot.from ==>
      0 <= camera[i] - camera[i - 1] < Rtp.TWO_31
  }

  /** Fallback runs keep their clocks steady by themselves. */
  lemma StampsAreSteady(t: seq<Entry>, camera: seq<int>, rates: seq<Pacing.Rate>)
    requires |camera| == |rates| == |t| && SteadyCameras(t, camera)
    ensures SteadyClocks(t, Stamps(t, camera, rates))
  {
    var stamps := Stamps(t, camera, rates);
    forall i | 0 < i < |t| && t[i - 1].Deliver? && t[i].Deliver? && t[i - 1].shot.from == t[i].shot.from
      ensures 0 <= stamps[i] - stamps[i - 1] < Rtp.TWO_31
    {
      Pacing.IncrementRange(rates[i - 1]);
    }
  }

  /**
   Every run of the handler, with any stalls, disconnections, rebuilds and
   retries: if each camera session keeps its own clock steady, the video packets
   written carry consecutive sequence numbers and timestamps that never step back.
   */
  lemma OutputIsOneStream(cfg: Config, codec: Codec, restored: bool, pre: Placeholder, es: seq<Event>,
                          camera: seq<int>, rates: seq<Pacing.Rate>, counts: seq<nat>)
    requires Valid(cfg, Initial(cfg, codec, restored, pre), es)
    requires var t := Run(cfg, Initial(cfg, codec, restored, pre), es).trace;
      |camera| == |rates| == |t| && SteadyCameras(t, camera) && Clocked(t, Stamps(t, camera, rates), counts)
    ensures var t := Run(cfg, Initial(cfg, codec, restored, pre), es).trace;
      Rtp.OneStream(Rtp.SentBy(Rtp.VIDEO_GAP, Rtp.Norm(0, false, 0, 0, 0),
                               Rtp.WireAll(Calls(t, Stamps(t, camera, rates), counts, 0))))
  {
    HandlerLaws.RunFlows(cfg, Initial(cfg, codec, restored, pre), es);
    SegmentedTraceIsOneStream(Run(cfg, Initial(cfg, codec, restored, pre), es).trace, camera, rates, counts);
  }

  lemma SegmentedTraceIsOneStream(t: seq<Entry>, camera: seq<int>, rates: seq<Pacing.Rate>, counts: seq<nat>)
    requires HandlerLaws.Segmented(t) && |camera| == |rates| == |t| && SteadyCameras(t, camera)
    requires Clocked(t, Stamps(t, camera, rates), counts)
    ensures Rtp.OneStream(Rtp.SentBy(Rtp.VIDEO_GAP, Rtp.Norm(0, false, 0, 0, 0),
                                     Rtp.WireAll(Calls(t, Stamps(t, camera, rates), counts, 0))))
  {
    var stamps := Stamps(t, camera, rates);
    StampsAreSteady(t, camera, rates);
    SegmentsAreSteady(t, stamps, counts, 0, None);
    Rtp.ConsumerSeesOneStream(Rtp.VIDEO_GAP, Calls(t, stamps, counts, 0));
  }
}
