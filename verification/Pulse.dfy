/**
 Fixed-duration output pulses.

 Durations are counted in nanoseconds, the resolution of the original's duration type, with its
 largest value as the point where additions saturate.
*/
module Pulse {
  import opened Prelude

  const DURATION_MAX := U64_MAX * 1_000_000_000 + 999_999_999

  type Duration = d: int | 0 <= d <= DURATION_MAX

  function FromMillis(ms: U64): Duration {
    ms * 1_000_000
  }

  function SaturatingAdd(a: Duration, b: Duration): Duration {
    Min(a + b, DURATION_MAX)
  }

  datatype PulseEvent = Quiet | Completed | Aborted

  datatype PulseState = PulseState(duration: Duration, elapsed: Duration, active: bool)

  function Idle(duration: Duration): PulseState {
    PulseState(duration, 0, false)
  }

  /** The result says whether the trigger was accepted. */
  function Triggered(p: PulseState): (PulseState, bool) {
    if p.active then (p, false) else (p.(active := true, elapsed := 0), true)
  }

  function Ticked(p: PulseState, dt: Duration, healthy: bool): (PulseState, PulseEvent) {
    if !p.active then (p, Quiet)
    else if !healthy then (Idle(p.duration), Aborted)
    else
      var elapsed := SaturatingAdd(p.elapsed, dt);
      if elapsed >= p.duration then (Idle(p.duration), Completed)
      else (p.(elapsed := elapsed), Quiet)
  }

  class PulseEngine {
    const duration: Duration
    var elapsed: Duration
    var active: bool

    function View(): PulseState
      reads this
    {
      PulseState(duration, elapsed, active)
    }

    constructor (duration: Duration)
      ensures View() == Idle(duration)
    {
      this.duration := duration;
      elapsed, active := 0, false;
    }

    method Reset()
      modifies this
      ensures View() == Idle(duration)
    {
      active := false;
      elapsed := 0;
    }

    method Trigger() returns (accepted: bool)
      modifies this
      ensures (View(), accepted) == Triggered(old(View()))
    {
      if active {
        return false;
      }
      active := true;
      elapsed := 0;
      return true;
    }

    method Tick(dt: Duration, healthy: bool) returns (event: PulseEvent)
      modifies this
      ensures (View(), event) == Ticked(old(View()), dt, healthy)
    {
      if !active {
        return Quiet;
      }
      if !healthy {
        Reset();
        return Aborted;
      }
      elapsed := SaturatingAdd(elapsed, dt);
      if elapsed >= duration {
        Reset();
        return Completed;
      }
      return Quiet;
    }
  }

  // ---- An engine under an arbitrary sequence of triggers and ticks -----------------------------

  datatype PulseOp = Trigger | Tick(dt: Duration, healthy: bool)

  function Apply(p: PulseState, op: PulseOp): PulseState {
    match op
    case Trigger => Triggered(p).0
    case Tick(dt, healthy) => Ticked(p, dt, healthy).0
  }

  function After(p: PulseState, ops: seq<PulseOp>): PulseState {
    if ops == [] then p else Apply(After(p, ops[..|ops| - 1]), ops[|ops| - 1])
  }

  function AcceptedCount(p: PulseState, ops: seq<PulseOp>): nat {
    if ops == [] then 0
    else
      var before := After(p, ops[..|ops| - 1]);
      AcceptedCount(p, ops[..|ops| - 1]) + Unit(ops[|ops| - 1].Trigger? && Triggered(before).1)
  }

  function EventCount(p: PulseState, ops: seq<PulseOp>, event: PulseEvent): nat {
    if ops == [] then 0
    else
      var before, op := After(p, ops[..|ops| - 1]), ops[|ops| - 1];
      EventCount(p, ops[..|ops| - 1], event)
      + Unit(op.Tick? && Ticked(before, op.dt, op.healthy).1 == event)
  }

  /** The ticks after which the output is high. */
  function HighTicks(p: PulseState, ops: seq<PulseOp>): nat {
    if ops == [] then 0
    else HighTicks(p, ops[..|ops| - 1]) + Unit(ops[|ops| - 1].Tick? && After(p, ops).active)
  }

  /** Appending to a history extends it. */
  lemma AfterAppend(p: PulseState, ops: seq<PulseOp>, op: PulseOp)
    ensures After(p, ops + [op]) == Apply(After(p, ops), op)
    ensures AcceptedCount(p, ops + [op])
         == AcceptedCount(p, ops) + Unit(op.Trigger? && Triggered(After(p, ops)).1)
    ensures HighTicks(p, ops + [op]) == HighTicks(p, ops) + Unit(op.Tick? && After(p, ops + [op]).active)
  {
    assert (ops + [op])[..|ops|] == ops;
  }

  /** Conservation: every accepted trigger ends in exactly one completion or abort, or is in flight. */
  lemma {:induction false} TriggersAreConserved(duration: Duration, ops: seq<PulseOp>)
    ensures AcceptedCount(Idle(duration), ops)
         == EventCount(Idle(duration), ops, Completed) + EventCount(Idle(duration), ops, Aborted)
            + Unit(After(Idle(duration), ops).active)
  {
    if ops == [] {
    } else {
      TriggersAreConserved(duration, ops[..|ops| - 1]);
    }
  }

  /** The healthy ticks the running pulse has had since its trigger; 0 when none is running. */
  function Progress(p: PulseState, ops: seq<PulseOp>): nat {
    if ops == [] || !After(p, ops).active then 0
    else Progress(p, ops[..|ops| - 1]) + Unit(ops[|ops| - 1].Tick?)
  }

  ghost predicate UniformTicks(ops: seq<PulseOp>, dt: Duration) {
    forall i :: 0 <= i < |ops| && ops[i].Tick? ==> ops[i].dt == dt
  }

  lemma TicksSplit(dt: Duration, a: nat, b: nat)
    ensures dt * (a + b) == dt * a + dt * b
  {
  }

  /** With ticks of one length the elapsed time is the number of ticks times that length. */
  lemma {:induction false} ElapsedIsProgress(duration: Duration, dt: Duration, ops: seq<PulseOp>)
    requires UniformTicks(ops, dt) && duration > 0
    ensures var p := After(Idle(duration), ops);
            && p.duration == duration
            && p.elapsed == dt * Progress(Idle(duration), ops)
            && p.elapsed < duration
  {
    if ops == [] {
    } else {
      var front := ops[..|ops| - 1];
      ElapsedIsProgress(duration, dt, front);
      TicksSplit(dt, Progress(Idle(duration), front), 1);
    }
  }

  lemma TicksMonotone(dt: Duration, a: nat, b: nat)
    ensures a <= b ==> dt * a <= dt * b
  {
    if a <= b {
      TicksSplit(dt, a, b - a);
    }
  }

  /** A running pulse has had at most `most` ticks. */
  lemma ProgressIsBounded(duration: Duration, dt: Duration, most: nat, ops: seq<PulseOp>)
    requires UniformTicks(ops, dt)
    requires dt * most < duration <= dt * (most + 1)
    ensures Progress(Idle(duration), ops) <= most
  {
    ElapsedIsProgress(duration, dt, ops);
    TicksMonotone(dt, most + 1, Progress(Idle(duration), ops));
  }

  /**
   Energisation budget: if `most` is the largest number of ticks that does not reach the duration,
   the output is high after at most `most` ticks per accepted trigger; while a pulse is running
   its own share so far is exactly its progress.
  */
  lemma {:induction false} HighTicksBudget(duration: Duration, dt: Duration, most: nat, ops: seq<PulseOp>)
    requires UniformTicks(ops, dt)
    requires dt * most < duration <= dt * (most + 1)
    ensures var p := Idle(duration);
            && Progress(p, ops) <= most
            && HighTicks(p, ops)
            <= most * (AcceptedCount(p, ops) - Unit(After(p, ops).active)) + Progress(p, ops)
            && AcceptedCount(p, ops) >= Unit(After(p, ops).active)
            && HighTicks(p, ops) <= most * AcceptedCount(p, ops)
  {
    var p := Idle(duration);
    ProgressIsBounded(duration, dt, most, ops);
    if ops == [] {
    } else {
      var front := ops[..|ops| - 1];
      HighTicksBudget(duration, dt, most, front);
      ProgressIsBounded(duration, dt, most, front);
      var a := AcceptedCount(p, front) - Unit(After(p, front).active);
      assert most * (a + 1) == most * a + most;
    }
    var a := AcceptedCount(p, ops) - Unit(After(p, ops).active);
    assert most * (a + 1) == most * a + most;
  }

  /** The sum of tick lengths, without any bound. */
  function Total(ops: seq<PulseOp>): nat {
    if ops == [] then 0
    else
      var op := ops[|ops| - 1];
      Total(ops[..|ops| - 1]) + if op.Tick? then op.dt else 0
  }

  ghost predicate Undisturbed(ops: seq<PulseOp>) {
    forall i :: 0 <= i < |ops| && ops[i].Tick? ==> ops[i].healthy
  }

  /** A fresh pulse that meets no fault stays up as long as its ticks have not reached the duration,
      whatever further triggers arrive in between. */
  lemma {:induction false} RunsUntilDuration(p: PulseState, ops: seq<PulseOp>)
    requires p.active && p.elapsed == 0 && 0 < p.duration
    requires Undisturbed(ops) && Total(ops) < p.duration
    ensures After(p, ops) == p.(elapsed := Total(ops))
  {
    if ops == [] {
    } else {
      RunsUntilDuration(p, ops[..|ops| - 1]);
    }
  }

  /** The pulse completes on a tick exactly if that tick is the first to bring the sum to the duration; the
      engine's own sum saturates, but never before it has reached the duration. */
  lemma CompletesOnFirstReach(p: PulseState, ops: seq<PulseOp>, dt: Duration)
    requires p.active && p.elapsed == 0 && 0 < p.duration
    requires Undisturbed(ops) && Total(ops) < p.duration
    ensures var before := After(p, ops);
            Ticked(before, dt, true).1 == Completed <==> Total(ops + [Tick(dt, true)]) >= p.duration
  {
    RunsUntilDuration(p, ops);
    assert (ops + [Tick(dt, true)])[..|ops|] == ops;
  }
}
