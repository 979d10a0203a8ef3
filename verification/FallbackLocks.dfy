/**
 The start/stop protocol of the fallback at lock level: critical sections of the
 fallback mutex, the wait group, and the goroutine's own cleanup are separate
 steps, interleaved in any order by any number of callers.
 */
module FallbackLocks {
  import opened Wrappers

  /** A goroutine: in its loop, out of it, past its cleanup, past Done. */
  datatype RunPc = Running | Exited | Cleaned | Finished

  /** A stop call: before its critical section, after it, after cancelling, past Wait. */
  datatype StopPc = Called | Unlocked | Waiting | Released

  /** `took` is the run whose cancel this call found; every run below `bar` began before the call, and later before the end of its Wait. */
  datatype Stop = Stop(pc: StopPc, took: Option<nat>, bar: nat)

  datatype Kind = Nothing | LastKeyframe | Neutral

  datatype State = State(runs: seq<RunPc>, wg: int, cancel: Option<nat>, kind: Kind, since: nat, stops: seq<Stop>)

  datatype Event =
    | Start(now: nat)            // startFallback, one critical section
    | Call                       // stopFallback is entered
    | Unlock(k: nat)             // its critical section
    | Cancel(k: nat)
    | Release(k: nat)            // its Wait sees the counter at zero
    | Emit(r: nat)               // run r writes packets
    | SetKind(r: nat, kind: Kind)  // run r reports what it serves, under another lock
    | Exit(r: nat)               // run r leaves its loop: cancelled or aborted
    | Cleanup(r: nat)            // deferred critical section of run r
    | Finish(r: nat)             // deferred Done of run r

  const INITIAL := State([], 0, None, Nothing, 0, [])

  predicate AtPc(s: State, r: nat, pc: RunPc) {
    r < |s.runs| && s.runs[r] == pc
  }

  predicate StopAt(s: State, k: nat, pc: StopPc) {
    k < |s.stops| && s.stops[k].pc == pc
  }

  /** A run may write or exit at any time in its loop: select does not prefer the cancellation. */
  predicate Enabled(s: State, e: Event) {
    match e
    case Start(now) => now > 0
    case Call => true
    case Unlock(k) => StopAt(s, k, Called)
    case Cancel(k) => StopAt(s, k, Unlocked)
    case Release(k) => StopAt(s, k, Waiting) && s.wg == 0
    case Emit(r) => AtPc(s, r, Running)
    case SetKind(r, kind) => AtPc(s, r, Running) && kind != Nothing
    case Exit(r) => AtPc(s, r, Running)
    case Cleanup(r) => AtPc(s, r, Exited)
    case Finish(r) => AtPc(s, r, Cleaned)
  }

  function Apply(s: State, e: Event): State
    requires Enabled(s, e)
  {
    match e
    case Start(now) =>
      if s.cancel.Some? then s
      else s.(runs := s.runs + [Running], wg := s.wg + 1, cancel := Some(|s.runs|), kind := LastKeyframe, since := now)
    case Call => s.(stops := s.stops + [Stop(Called, None, |s.runs|)])
    case Unlock(k) =>
      s.(stops := s.stops[k := s.stops[k].(pc := Unlocked, took := s.cancel)],
         cancel := None, kind := Nothing, since := 0)
    case Cancel(k) => s.(stops := s.stops[k := s.stops[k].(pc := Waiting)])
    case Release(k) => s.(stops := s.stops[k := s.stops[k].(pc := Released, bar := |s.runs|)])
    case Emit(r) => s
    case SetKind(r, kind) => s.(kind := kind)
    case Exit(r) => s.(runs := s.runs[r := Exited])
    case Cleanup(r) => s.(runs := s.runs[r := Cleaned], cancel := None, kind := Nothing, since := 0)
    case Finish(r) => s.(runs := s.runs[r := Finished], wg := s.wg - 1)
  }

  predicate Valid(s: State, es: seq<Event>)
    decreases es
  {
    es != [] ==> Enabled(s, es[0]) && Valid(Apply(s, es[0]), es[1..])
  }

  function Run(s: State, es: seq<Event>): State
    requires Valid(s, es)
    decreases es
  {
    if es == [] then s else Run(Apply(s, es[0]), es[1..])
  }

  /** Run r has not executed its cleanup. */
  predicate Uncleaned(runs: seq<RunPc>, r: nat) {
    r < |runs| && (runs[r].Running? || runs[r].Exited?)
  }

  // ---------------------------------------------------------------------
  // Every interleaving
  // ---------------------------------------------------------------------

  /** Runs that have not called Done. */
  function Pending(runs: seq<RunPc>, k: nat): nat
    requires k <= |runs|
  {
    if k == 0 then 0 else Pending(runs, k - 1) + if runs[k - 1].Finished? then 0 else 1
  }

  predicate Idle(s: State) {
    s.cancel == None && s.kind == Nothing && s.since == 0
  }

  ghost predicate Inv(s: State) {
    && s.wg == Pending(s.runs, |s.runs|)
    && (s.cancel.Some? ==> Uncleaned(s.runs, s.cancel.value) && s.kind != Nothing && s.since > 0)
    && ((forall r :: 0 <= r < |s.runs| ==> !Uncleaned(s.runs, r)) ==> Idle(s))
    && (forall k :: 0 <= k < |s.stops| ==>
          s.stops[k].bar <= |s.runs|
          && (s.stops[k].pc.Released? ==> forall r :: 0 <= r < s.stops[k].bar ==> s.runs[r].Finished?))
  }

  lemma {:induction false} PendingAfter(runs: seq<RunPc>, r: nat, pc: RunPc, k: nat)
    requires r < |runs| && k <= |runs|
    ensures Pending(runs[r := pc], k)
         == Pending(runs, k) + (if r < k && runs[r].Finished? && !pc.Finished? then 1 else 0)
                             - (if r < k && !runs[r].Finished? && pc.Finished? then 1 else 0)
  {
    if k > 0 {
      PendingAfter(runs, r, pc, k - 1);
    }
  }

  lemma {:induction false} PendingOfPrefix(a: seq<RunPc>, b: seq<RunPc>, k: nat)
    requires k <= |a| && k <= |b| && forall i :: 0 <= i < k ==> a[i] == b[i]
    ensures Pending(a, k) == Pending(b, k)
  {
    if k > 0 {
      PendingOfPrefix(a, b, k - 1);
    }
  }

  lemma {:induction false} NonePending(runs: seq<RunPc>, k: nat)
    requires k <= |runs| && Pending(runs, k) == 0
    ensures forall r :: 0 <= r < k ==> runs[r].Finished?
  {
    if k > 0 {
      NonePending(runs, k - 1);
    }
  }

  lemma StartKeepsInv(s: State, now: nat)
    requires Inv(s) && now > 0
    ensures Inv(Apply(s, Start(now)))
  {
    PendingOfPrefix(s.runs + [Running], s.runs, |s.runs|);
    assert s.cancel.None? ==> Uncleaned(Apply(s, Start(now)).runs, |s.runs|);
  }

  lemma StopKeepsInv(s: State, e: Event)
    requires Inv(s) && Enabled(s, e) && (e.Call? || e.Unlock? || e.Cancel? || e.Release?)
    ensures Inv(Apply(s, e))
  {
    if e.Release? {
      NonePending(s.runs, |s.runs|);
    }
  }

  lemma GoroutineKeepsInv(s: State, e: Event)
    requires Inv(s) && Enabled(s, e) && (e.Emit? || e.SetKind? || e.Exit? || e.Cleanup? || e.Finish?)
    ensures Inv(Apply(s, e))
  {
    var runs' := Apply(s, e).runs;
    match e {
      case SetKind(r, _) => assert Uncleaned(runs', r);
      case Exit(r) =>
        PendingAfter(s.runs, r, Exited, |s.runs|);
        assert Uncleaned(runs', r);
      case Cleanup(r) => PendingAfter(s.runs, r, Cleaned, |s.runs|);
      case Finish(r) =>
        PendingAfter(s.runs, r, Finished, |s.runs|);
        assert forall i :: 0 <= i < |s.runs| ==> Uncleaned(runs', i) == Uncleaned(s.runs, i);
      case Emit(_) =>
    }
  }

  lemma StepKeepsInv(s: State, e: Event)
    requires Inv(s) && Enabled(s, e)
    ensures Inv(Apply(s, e))
  {
    if e.Start? {
      StartKeepsInv(s, e.now);
    } else if e.Call? || e.Unlock? || e.Cancel? || e.Release? {
      StopKeepsInv(s, e);
    } else {
      GoroutineKeepsInv(s, e);
    }
  }

  lemma {:induction false} RunKeepsInv(s: State, es: seq<Event>)
    requires Inv(s) && Valid(s, es)
    ensures Inv(Run(s, es))
    decreases es
  {
    if es != [] {
      StepKeepsInv(s, es[0]);
      RunKeepsInv(Apply(s, es[0]), es[1..]);
    }
  }

  lemma Reachable(es: seq<Event>)
    requires Valid(INITIAL, es)
    ensures Inv(Run(INITIAL, es))
  {
    RunKeepsInv(INITIAL, es);
  }

  /** The counter is the number of runs that have not called Done; with every run cleaned, nothing is reported and nothing can be cancelled; while something can, it is reported. */
  lemma CounterAndStatus(es: seq<Event>)
    requires Valid(INITIAL, es)
    ensures var s := Run(INITIAL, es);
      && s.wg == Pending(s.runs, |s.runs|)
      && ((forall r :: 0 <= r < |s.runs| ==> !Uncleaned(s.runs, r)) ==> Idle(s))
      && (s.cancel.Some? ==> s.kind != Nothing && s.since > 0)
  {
    Reachable(es);
  }

  /** Release, and all that happens later, keeps the runs below the bar finished: none of them writes again. */
  lemma {:induction false} ReleasedForGood(s: State, k: nat, es: seq<Event>)
    requires Inv(s) && Valid(s, es) && StopAt(s, k, Released)
    ensures forall i :: 0 <= i < |es| && es[i].Emit? ==> es[i].r >= s.stops[k].bar
    decreases es
  {
    if es != [] {
      var s' := Apply(s, es[0]);
      StepKeepsInv(s, es[0]);
      ReleasedForGood(s', k, es[1..]);
      assert forall i :: 1 <= i < |es| ==> es[i] == es[1..][i - 1];
    }
  }

  /** The bar of a stop call never falls below the number of runs started before the call. */
  lemma {:induction false} BarCoversEarlierRuns(s: State, k: nat, es: seq<Event>)
    requires Inv(s) && Valid(s, es) && k < |s.stops|
    ensures k < |Run(s, es).stops| && Run(s, es).stops[k].bar >= s.stops[k].bar
    decreases es
  {
    if es != [] {
      StepKeepsInv(s, es[0]);
      BarCoversEarlierRuns(Apply(s, es[0]), k, es[1..]);
    }
  }

  /**
   The barrier: in every interleaving, once a stop call has returned (in state
   s2), no packet is ever written by a run started before the call (in state s1).
   */
  lemma StopIsABarrier(before: seq<Event>, during: seq<Event>, after: seq<Event>)
    requires Valid(INITIAL, before)
    requires Valid(Apply(Run(INITIAL, before), Call), during)
    requires var s1, k := Run(INITIAL, before), |Run(INITIAL, before).stops|;
      StopAt(Run(Apply(s1, Call), during), k, Released)
    requires Valid(Run(Apply(Run(INITIAL, before), Call), during), after)
    ensures forall i :: 0 <= i < |after| && after[i].Emit? ==> after[i].r >= |Run(INITIAL, before).runs|
  {
    var s1 := Run(INITIAL, before);
    var k := |s1.stops|;
    Reachable(before);
    StepKeepsInv(s1, Call);
    BarCoversEarlierRuns(Apply(s1, Call), k, during);
    RunKeepsInv(Apply(s1, Call), during);
    ReleasedForGood(Run(Apply(s1, Call), during), k, after);
  }

  // ---------------------------------------------------------------------
  // Exactly when runs overlap
  // ---------------------------------------------------------------------

  ghost predicate AtMostOne(s: State) {
    forall q: nat, r: nat :: Uncleaned(s.runs, q) && Uncleaned(s.runs, r) ==> q == r
  }

  /** The cancel is that of a live run no stop has taken, and there is one for each such run. */
  ghost predicate CancelAtHand(s: State) {
    && (s.cancel.Some? ==> Uncleaned(s.runs, s.cancel.value) && !Taken(s.stops, s.cancel.value))
    && (forall r: nat :: Uncleaned(s.runs, r) ==> s.cancel == Some(r) || Taken(s.stops, r))
  }

  predicate SomeUncleaned(s: State) {
    exists r :: 0 <= r < |s.runs| && Uncleaned(s.runs, r)
  }

  predicate Taken(stops: seq<Stop>, r: nat) {
    exists k :: 0 <= k < |stops| && stops[k].took == Some(r)
  }

  lemma TakenSame(a: seq<Stop>, b: seq<Stop>)
    requires |a| <= |b| && forall k :: 0 <= k < |b| ==> b[k].took == if k < |a| then a[k].took else None
    ensures forall r: nat :: Taken(a, r) <==> Taken(b, r)
  {
    forall r: nat | Taken(a, r)
      ensures Taken(b, r)
    {
      var k :| 0 <= k < |a| && a[k].took == Some(r);
      assert b[k].took == Some(r);
    }
  }

  lemma UnlockTakes(s: State, k: nat)
    requires StopAt(s, k, Called) && s.stops[k].took.None?
    ensures var s' := Apply(s, Unlock(k));
      forall r: nat :: Taken(s'.stops, r) <==> Taken(s.stops, r) || s.cancel == Some(r)
  {
    var s' := Apply(s, Unlock(k));
    forall r: nat
      ensures Taken(s'.stops, r) <==> Taken(s.stops, r) || s.cancel == Some(r)
    {
      if Taken(s.stops, r) {
        var j :| 0 <= j < |s.stops| && s.stops[j].took == Some(r);
        assert s'.stops[j].took == Some(r);
      }
      if s.cancel == Some(r) {
        assert s'.stops[k].took == Some(r);
      }
    }
  }

  /** A start that finds no cancel while a run has not been cleaned up. */
  predicate Crowds(s: State, e: Event) {
    e.Start? && s.cancel.None? && SomeUncleaned(s)
  }

  predicate NeverCrowded(s: State, es: seq<Event>)
    requires Valid(s, es)
    decreases es
  {
    es != [] ==> !Crowds(s, es[0]) && NeverCrowded(Apply(s, es[0]), es[1..])
  }

  /** At most one run has not been cleaned up, at the start of the events and after each. */
  ghost predicate AlwaysOne(s: State, es: seq<Event>)
    requires Valid(s, es)
    decreases es
  {
    AtMostOne(s) && (es != [] ==> AlwaysOne(Apply(s, es[0]), es[1..]))
  }

  lemma StartOverlaps(s: State, now: nat)
    requires AtMostOne(s) && now > 0
    ensures AtMostOne(Apply(s, Start(now))) <==> !Crowds(s, Start(now))
  {
    var runs' := Apply(s, Start(now)).runs;
    if s.cancel.None? {
      assert Uncleaned(runs', |s.runs|);
      assert forall q: nat :: Uncleaned(runs', q) <==> q == |s.runs| || Uncleaned(s.runs, q);
    }
  }

  lemma OthersNeverOverlap(s: State, e: Event)
    requires AtMostOne(s) && Enabled(s, e) && !e.Start?
    ensures AtMostOne(Apply(s, e))
  {
    assert forall q: nat :: Uncleaned(Apply(s, e).runs, q) ==> Uncleaned(s.runs, q);
  }

  /** In every interleaving: runs never overlap exactly when no start finds the cancel gone while a run is uncleaned. */
  lemma {:induction false} WhenRunsOverlap(s: State, es: seq<Event>)
    requires AtMostOne(s) && Valid(s, es)
    ensures AlwaysOne(s, es) <==> NeverCrowded(s, es)
    decreases es
  {
    if es != [] {
      var e := es[0];
      if e.Start? {
        StartOverlaps(s, e.now);
      } else {
        OthersNeverOverlap(s, e);
      }
      if AtMostOne(Apply(s, e)) {
        WhenRunsOverlap(Apply(s, e), es[1..]);
      }
    }
  }

  /** Stops that have not entered have taken nothing, and what was taken is an earlier run. */
  ghost predicate TakenEarlier(s: State) {
    forall k :: 0 <= k < |s.stops| && s.stops[k].took.Some? ==>
      s.stops[k].took.value < |s.runs| && !s.stops[k].pc.Called?
  }

  lemma StartKeepsCancel(s: State, now: nat)
    requires AtMostOne(s) && CancelAtHand(s) && TakenEarlier(s) && now > 0 && !Crowds(s, Start(now))
    ensures CancelAtHand(Apply(s, Start(now))) && TakenEarlier(Apply(s, Start(now)))
  {
    if s.cancel.None? {
      var runs' := Apply(s, Start(now)).runs;
      assert !Taken(s.stops, |s.runs|);
      assert forall q: nat :: Uncleaned(runs', q) ==> q == |s.runs| || Uncleaned(s.runs, q);
    }
  }

  lemma StepKeepsCancel(s: State, e: Event)
    requires AtMostOne(s) && CancelAtHand(s) && TakenEarlier(s) && Enabled(s, e) && !Crowds(s, e)
    ensures CancelAtHand(Apply(s, e)) && TakenEarlier(Apply(s, e))
  {
    var s' := Apply(s, e);
    match e {
      case Start(now) => StartKeepsCancel(s, now);
      case Call => TakenSame(s.stops, s'.stops);
      case Unlock(k) => UnlockTakes(s, k);
      case Cancel(k) => TakenSame(s.stops, s'.stops);
      case Release(k) => TakenSame(s.stops, s'.stops);
      case Exit(r) => assert forall q: nat :: Uncleaned(s'.runs, q) <==> Uncleaned(s.runs, q);
      case Cleanup(r) =>
        assert Uncleaned(s.runs, r);
        assert forall q: nat :: Uncleaned(s'.runs, q) ==> Uncleaned(s.runs, q) && q != r;
      case Finish(r) => assert forall q: nat :: Uncleaned(s'.runs, q) <==> Uncleaned(s.runs, q);
      case Emit(_) =>
      case SetKind(_, _) =>
    }
  }

  lemma {:induction false} RunKeepsCancel(s: State, es: seq<Event>)
    requires AtMostOne(s) && CancelAtHand(s) && TakenEarlier(s) && Valid(s, es) && NeverCrowded(s, es)
    ensures AtMostOne(Run(s, es)) && CancelAtHand(Run(s, es))
    decreases es
  {
    if es != [] {
      StepKeepsCancel(s, es[0]);
      if es[0].Start? {
        StartOverlaps(s, es[0].now);
      } else {
        OthersNeverOverlap(s, es[0]);
      }
      RunKeepsCancel(Apply(s, es[0]), es[1..]);
    }
  }

  /** Under that condition: at most one live run, and a cancel at hand exactly when there is a live run no stop has taken. */
  lemma SingleOwner(es: seq<Event>)
    requires Valid(INITIAL, es) && NeverCrowded(INITIAL, es)
    ensures var s := Run(INITIAL, es);
      && AtMostOne(s)
      && (s.cancel.Some? <==> exists r :: 0 <= r < |s.runs| && Uncleaned(s.runs, r) && !Taken(s.stops, r))
  {
    RunKeepsCancel(INITIAL, es);
  }

  // ---------------------------------------------------------------------
  // No start during a stop
  // ---------------------------------------------------------------------

  predicate StopUnderway(s: State) {
    exists k :: 0 <= k < |s.stops| && (s.stops[k].pc.Unlocked? || s.stops[k].pc.Waiting?)
  }

  /** No start enters between the critical section of a stop and the end of its Wait. */
  predicate Disciplined(s: State, es: seq<Event>)
    requires Valid(s, es)
    decreases es
  {
    es != [] ==> (es[0].Start? ==> !StopUnderway(s)) && Disciplined(Apply(s, es[0]), es[1..])
  }

  /** The run taken by a stop that has returned is finished. */
  ghost predicate TakenFinished(s: State) {
    forall k :: 0 <= k < |s.stops| && s.stops[k].took.Some? && s.stops[k].pc.Released? ==>
      AtPc(s, s.stops[k].took.value, Finished)
  }

  lemma StepKeepsTaken(s: State, e: Event)
    requires Inv(s) && TakenEarlier(s) && TakenFinished(s) && Enabled(s, e)
    ensures TakenFinished(Apply(s, e))
  {
    if e.Release? {
      NonePending(s.runs, |s.runs|);
    }
  }

  lemma StartIsClear(s: State, now: nat)
    requires CancelAtHand(s) && TakenEarlier(s) && TakenFinished(s) && !StopUnderway(s)
    ensures !Crowds(s, Start(now))
  {
    if s.cancel.None? {
      assert forall k :: 0 <= k < |s.stops| && s.stops[k].took.Some? ==> s.stops[k].pc.Released?;
      assert forall r: nat :: Taken(s.stops, r) ==> AtPc(s, r, Finished);
    }
  }

  lemma {:induction false} DisciplinedIsUncrowded(s: State, es: seq<Event>)
    requires Inv(s) && AtMostOne(s) && CancelAtHand(s) && TakenEarlier(s) && TakenFinished(s)
    requires Valid(s, es) && Disciplined(s, es)
    ensures NeverCrowded(s, es)
    decreases es
  {
    if es != [] {
      var e := es[0];
      if e.Start? {
        StartIsClear(s, e.now);
        StartOverlaps(s, e.now);
      } else {
        OthersNeverOverlap(s, e);
      }
      StepKeepsInv(s, e);
      StepKeepsCancel(s, e);
      StepKeepsTaken(s, e);
      DisciplinedIsUncrowded(Apply(s, e), es[1..]);
    }
  }

  /** It is enough that no start enters between the critical section of a stop and the end of its Wait. */
  lemma DisciplineSuffices(es: seq<Event>)
    requires Valid(INITIAL, es) && Disciplined(INITIAL, es)
    ensures NeverCrowded(INITIAL, es) && AlwaysOne(INITIAL, es)
  {
    DisciplinedIsUncrowded(INITIAL, es);
    WhenRunsOverlap(INITIAL, es);
  }

  /** It does happen: a start inside a stop lets the old run's cleanup drop the new run's cancel, and two runs live on. */
  lemma UndisciplinedRunsOverlap(now: nat) returns (es: seq<Event>)
    requires now > 0
    ensures Valid(INITIAL, es)
    ensures var s := Run(INITIAL, es);
      Uncleaned(s.runs, 1) && Uncleaned(s.runs, 2) && s.cancel == Some(2) && !Taken(s.stops, 1)
  {
    var s1 := Apply(Apply(INITIAL, Start(now)), Call);
    var s2 := Apply(Apply(s1, Unlock(0)), Start(now));
    assert s2.runs == [Running, Running] && s2.cancel == Some(1) && s2.stops == [Stop(Unlocked, Some(0), 1)];
    var s3 := Apply(Apply(s2, Exit(0)), Cleanup(0));
    assert s3.runs == [Cleaned, Running] && s3.cancel == None && s3.stops == s2.stops;
    var rest := TwoSteps(s2, Exit(0), Cleanup(0), [Start(now)]);
    rest := TwoSteps(s1, Unlock(0), Start(now), rest);
    es := TwoSteps(INITIAL, Start(now), Call, rest);
  }

  lemma TwoSteps(s: State, e1: Event, e2: Event, rest: seq<Event>) returns (es: seq<Event>)
    requires Enabled(s, e1) && Enabled(Apply(s, e1), e2) && Valid(Apply(Apply(s, e1), e2), rest)
    ensures es == [e1, e2] + rest && Valid(s, es) && Run(s, es) == Run(Apply(Apply(s, e1), e2), rest)
  {
    es := [e1, e2] + rest;
    assert es[1..] == [e2] + rest && es[1..][1..] == rest;
  }
}
