/**
 The per-host handshake gate: a one-slot channel, filled by the stream that
 starts a handshake and drained by a timer some time after it is done.
 Times are in milliseconds.
 */
module HostGate {
  import opened Wrappers

  const SPACING := 300

  /** `full` is the slot; `timers` are the deadlines of the pending drains. */
  datatype Slot = Slot(full: bool, timers: seq<int>)

  /** The slot and its timers. */
  class Gate {
    var full: bool
    var timers: seq<int>

    ghost function View(): Slot
      reads this
    {
      Slot(full, timers)
    }

    constructor ()
      ensures View() == Slot(false, [])
    {
      full, timers := false, [];
    }

    /** The send on the channel, when it can proceed. */
    method Acquire()
      requires !full
      modifies this
      ensures View() == Filled(old(View()))
    {
      full := true;
    }

    /** Drains the slot now or, after a delay, from a timer. */
    method ReleaseAfter(now: int, d: int)
      requires d <= 0 ==> full
      modifies this
      ensures View() == Released(old(View()), now, d)
    {
      if d <= 0 {
        full := false;
        return;
      }
      timers := timers + [now + d];
    }

    method Fire(k: nat)
      requires k < |timers| && full
      modifies this
      ensures View() == Fired(old(View()), k)
    {
      timers := timers[..k] + timers[k + 1..];
      full := false;
    }
  }

  /** One connection attempt, from the moment it has the slot. */
  class Attempt {
    const gate: Gate
    var gateHeld: bool

    constructor (gate: Gate)
      requires !gate.full
      modifies gate
      ensures this.gate == gate && gateHeld && gate.View() == Filled(old(gate.View()))
    {
      this.gate, gateHeld := gate, true;
      new;
      gate.Acquire();
    }

    /** Called after PLAY and again, deferred, on every way out. */
    method ReleaseGate(now: int)
      modifies this, gate
      ensures !gateHeld
      ensures gate.View() == if old(gateHeld) then Released(old(gate.View()), now, SPACING) else old(gate.View())
    {
      if gateHeld {
        gateHeld := false;
        gate.ReleaseAfter(now, SPACING);
      }
    }
  }

  function Filled(g: Slot): Slot {
    g.(full := true)
  }

  function Released(g: Slot, now: int, d: int): Slot {
    if d <= 0 then g.(full := false) else g.(timers := g.timers + [now + d])
  }

  function Fired(g: Slot, k: nat): Slot
    requires k < |g.timers|
  {
    Slot(false, g.timers[..k] + g.timers[k + 1..])
  }

  // ---------------------------------------------------------------------
  // Any number of streams of one host
  // ---------------------------------------------------------------------

  /** Where a stream is: between attempts, before PLAY, or after it. */
  datatype Pc = Idle | Shaking | Playing

  /** `held` is the attempt's own flag; the counters are for the specification. */
  datatype Stream = Stream(pc: Pc, held: bool, acquired: nat, released: nat)

  datatype State = State(gate: Slot, streams: seq<Stream>, clock: int, lastRelease: Option<int>)

  /** Exit is any way out of an attempt, before PLAY or after it. */
  datatype Event =
    | Acquire(i: nat, now: int)
    | Play(i: nat, now: int)
    | Exit(i: nat, now: int)
    | Fire(k: nat, now: int)

  function Start(n: nat): State {
    State(Slot(false, []), seq(n, _ => Stream(Idle, false, 0, 0)), 0, None)
  }

  predicate At(s: State, i: nat, pc: Pc) {
    i < |s.streams| && s.streams[i].pc == pc
  }

  /** A timer may fire any time from its deadline on. */
  predicate Enabled(s: State, e: Event) {
    && e.now >= s.clock
    && match e
       case Acquire(i, _) => At(s, i, Idle) && !s.gate.full
       case Play(i, _) => At(s, i, Shaking)
       case Exit(i, _) => At(s, i, Shaking) || At(s, i, Playing)
       case Fire(k, now) => k < |s.gate.timers| && s.gate.timers[k] <= now
  }

  /** What ReleaseGate does for stream i. */
  function ReleaseGate(s: State, i: nat, now: int): State
    requires i < |s.streams|
  {
    var t := s.streams[i];
    if !t.held then s
    else s.(gate := Released(s.gate, now, SPACING), lastRelease := Some(now),
            streams := s.streams[i := t.(held := false, released := t.released + 1)])
  }

  function MoveTo(s: State, i: nat, pc: Pc): State
    requires i < |s.streams|
  {
    s.(streams := s.streams[i := s.streams[i].(pc := pc)])
  }

  function Apply(s: State, e: Event): State
    requires Enabled(s, e)
  {
    var s0 := s.(clock := e.now);
    match e
    case Acquire(i, _) =>
      var t := s.streams[i];
      s0.(gate := Filled(s.gate), streams := s.streams[i := Stream(Shaking, true, t.acquired + 1, t.released)])
    case Play(i, now) => MoveTo(ReleaseGate(s0, i, now), i, Playing)
    case Exit(i, now) => MoveTo(ReleaseGate(s0, i, now), i, Idle)
    case Fire(k, _) => s0.(gate := Fired(s.gate, k))
  }

  predicate Valid(s: State, es: seq<Event>)
    decreases es
  {
    es != [] ==> Enabled(s, es[0]) && Valid(Apply(s, es[0]), es[1..])
  }

  function Run(s: State, es: seq<Event>): State
    requires Valid(s, es)
    decreases es
  {
    if es == [] then s else Run(Apply(s, es[0]), es[1..])
  }

  function Holders(ts: seq<Stream>, k: nat): nat
    requires k <= |ts|
  {
    if k == 0 then 0 else Holders(ts, k - 1) + if ts[k - 1].held then 1 else 0
  }

  lemma {:induction false} HoldersAfter(ts: seq<Stream>, i: nat, t: Stream, k: nat)
    requires i < |ts| && k <= |ts|
    ensures Holders(ts[i := t], k)
         == Holders(ts, k) + (if i < k && t.held then 1 else 0) - (if i < k && ts[i].held then 1 else 0)
  {
    if k > 0 {
      HoldersAfter(ts, i, t, k - 1);
    }
  }

  lemma {:induction false} NoHolders(n: nat, k: nat)
    requires k <= n
    ensures Holders(Start(n).streams, k) == 0
  {
    if k > 0 {
      NoHolders(n, k - 1);
    }
  }

  /** The flag tells whether the attempt still owes a release. */
  predicate Owes(t: Stream) {
    && (t.held <==> t.pc.Shaking?)
    && t.acquired == t.released + if t.held then 1 else 0
  }

  ghost predicate Inv(s: State) {
    && Holders(s.streams, |s.streams|) + |s.gate.timers| == (if s.gate.full then 1 else 0)
    && (forall i :: 0 <= i < |s.streams| ==> Owes(s.streams[i]))
    && (s.lastRelease.Some? && s.gate.timers != [] ==> s.gate.timers == [s.lastRelease.value + SPACING])
    && (s.lastRelease.Some? && !s.gate.full ==> s.clock >= s.lastRelease.value + SPACING)
    && (s.gate.timers != [] ==> s.lastRelease.Some?)
  }

  lemma {:induction false} HolderCounts(ts: seq<Stream>, i: nat, k: nat)
    requires i < k <= |ts| && ts[i].held
    ensures Holders(ts, k) >= 1
  {
    if i < k - 1 {
      HolderCounts(ts, i, k - 1);
    }
  }

  /** A release is by the only holder, with no drain pending. */
  lemma ReleaseKeepsCount(s: State, i: nat, now: int)
    requires i < |s.streams| && Inv(s)
    ensures var s' := ReleaseGate(s, i, now);
      && Holders(s'.streams, |s'.streams|) + |s'.gate.timers| == (if s'.gate.full then 1 else 0)
      && (s.streams[i].held ==> s.gate.full && s.gate.timers == [])
  {
    if s.streams[i].held {
      HolderCounts(s.streams, i, |s.streams|);
      HoldersAfter(s.streams, i, ReleaseGate(s, i, now).streams[i], |s.streams|);
    }
  }

  lemma LeaveKeepsInv(s: State, i: nat, now: int, pc: Pc)
    requires i < |s.streams| && Inv(s) && s.clock <= now && pc != Shaking
    ensures Inv(MoveTo(ReleaseGate(s.(clock := now), i, now), i, pc))
  {
    var s1 := s.(clock := now);
    var s2 := ReleaseGate(s1, i, now);
    ReleaseKeepsCount(s1, i, now);
    HoldersAfter(s2.streams, i, MoveTo(s2, i, pc).streams[i], |s2.streams|);
  }

  lemma StepKeepsInv(s: State, e: Event)
    requires Inv(s) && Enabled(s, e)
    ensures Inv(Apply(s, e))
  {
    match e {
      case Acquire(i, _) => HoldersAfter(s.streams, i, Apply(s, e).streams[i], |s.streams|);
      case Play(i, now) => LeaveKeepsInv(s, i, now, Playing);
      case Exit(i, now) => LeaveKeepsInv(s, i, now, Idle);
      case Fire(k, _) =>
    }
  }

  lemma {:induction false} RunKeepsInv(s: State, es: seq<Event>)
    requires Inv(s) && Valid(s, es)
    ensures Inv(Run(s, es))
    decreases es
  {
    if es != [] {
      StepKeepsInv(s, es[0]);
      RunKeepsInv(Apply(s, es[0]), es[1..]);
    }
  }

  /**
   For any number of streams, in every interleaving: the slot is full exactly
   when one stream holds it or one drain is pending, never both; and although
   every way out of an attempt releases again, each acquire has been matched by
   exactly one release, except that of a stream before PLAY.
   */
  lemma OneHandshakeAtATime(n: nat, es: seq<Event>)
    requires Valid(Start(n), es)
    ensures var s := Run(Start(n), es);
      && Holders(s.streams, |s.streams|) + |s.gate.timers| == (if s.gate.full then 1 else 0)
      && forall i :: 0 <= i < |s.streams| ==>
           s.streams[i].acquired == s.streams[i].released + if s.streams[i].pc.Shaking? then 1 else 0
  {
    NoHolders(n, n);
    RunKeepsInv(Start(n), es);
    var s := Run(Start(n), es);
    assert forall i :: 0 <= i < |s.streams| ==> Owes(s.streams[i]);
  }

  /** No drain or release finds the slot empty, and every acquire is at least the spacing after the previous release call. */
  lemma HandshakesAreSpaced(n: nat, es: seq<Event>, e: Event)
    requires Valid(Start(n), es) && Enabled(Run(Start(n), es), e)
    ensures var s := Run(Start(n), es);
      && (e.Fire? || (e.Play? && s.streams[e.i].held) || (e.Exit? && s.streams[e.i].held) ==> s.gate.full)
      && (e.Acquire? && s.lastRelease.Some? ==> e.now >= s.lastRelease.value + SPACING)
  {
    NoHolders(n, n);
    RunKeepsInv(Start(n), es);
    var s := Run(Start(n), es);
    if e.Play? || e.Exit? {
      ReleaseKeepsCount(s, e.i, e.now);
    }
  }

  /** The gate is never lost: with every attempt past PLAY or over and no drain pending, any idle stream can acquire. */
  lemma GateComesBack(n: nat, es: seq<Event>, i: nat)
    requires Valid(Start(n), es)
    requires var s := Run(Start(n), es);
      At(s, i, Idle) && s.gate.timers == [] && forall j :: 0 <= j < |s.streams| ==> !s.streams[j].pc.Shaking?
    ensures Enabled(Run(Start(n), es), Acquire(i, Run(Start(n), es).clock))
  {
    NoHolders(n, n);
    RunKeepsInv(Start(n), es);
    var s := Run(Start(n), es);
    assert forall j :: 0 <= j < |s.streams| ==> Owes(s.streams[j]);
    NobodyHolds(s.streams, |s.streams|);
  }

  lemma {:induction false} NobodyHolds(ts: seq<Stream>, k: nat)
    requires k <= |ts| && forall j :: 0 <= j < |ts| ==> !ts[j].held
    ensures Holders(ts, k) == 0
  {
    if k > 0 {
      NobodyHolds(ts, k - 1);
    }
  }

  /** Without the flag the deferred release after PLAY could find the slot empty. */
  lemma FlagIsNeeded() returns (es: seq<Event>)
    ensures Valid(Start(1), es)
    ensures At(Run(Start(1), es), 0, Playing) && !Run(Start(1), es).gate.full
  {
    var e1, e2, e3 := Acquire(0, 0), Play(0, 0), Fire(0, SPACING);
    var s1 := Apply(Start(1), e1);
    var s2 := Apply(s1, e2);
    var s3 := Apply(s2, e3);
    es := [e1, e2, e3];
    assert es[1..] == [e2, e3] && [e2, e3][1..] == [e3] && [e3][1..] == [];
    assert Valid(s3, []) && Run(s3, []) == s3;
    assert Valid(s2, [e3]) && Run(s2, [e3]) == s3;
    assert Valid(s1, [e2, e3]) && Run(s1, [e2, e3]) == s3;
  }
}
