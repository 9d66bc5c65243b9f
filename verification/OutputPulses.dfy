/** The three output pulses over whole runs: their energisation budget and their independence. */
module OutputPulses {
  import opened Prelude
  import opened Ipc
  import opened Ports
  import opened Control
  import opened Runs
  import opened ManualMode
  import opened ModeSafety
  import IC = InputConditioner
  import P = Pulse

  datatype Line = WrapLine | KnivesInLine | KnivesOutLine

  function Engine(p: Pulses, line: Line): P.PulseState {
    match line
    case WrapLine => p.wrap
    case KnivesInLine => p.knivesIn
    case KnivesOutLine => p.knivesOut
  }

  predicate Level(out: Outputs, line: Line) {
    match line
    case WrapLine => out.wrap
    case KnivesInLine => out.knivesIn
    case KnivesOutLine => out.knivesOut
  }

  /** Command cmd, met in state s, reaches for the line's engine. */
  predicate Reaches(s: Sys, cmd: Command, line: Line) {
    && s.ctl.manual.left == 0 && s.ctl.machine.mode == Operational
    && match line {
         case WrapLine => cmd == Wrap
         case KnivesInLine => cmd == ToggleKnife && !s.ctl.pulses.KnifeActive() && s.ctl.senses.knifeDb.level
         case KnivesOutLine => cmd == ToggleKnife && !s.ctl.pulses.KnifeActive() && !s.ctl.senses.knifeDb.level
       }
  }

  /** The triggers a batch sends to the line's engine. */
  function BatchOps(s: Sys, cmds: seq<Command>, answers: Answers, i: nat, line: Line): seq<P.PulseOp>
    requires i <= |cmds|
  {
    if i == 0 then []
    else
      BatchOps(s, cmds, answers, i - 1, line)
      + if Reaches(Commanded(s, cmds, answers, i - 1), cmds[i - 1], line) then [P.Trigger] else []
  }

  function StepOps(r: Scenario, n: nat, line: Line): seq<P.PulseOp> {
    BatchOps(Sensing(r, n), r.steps(n).cmds, r.answers, |r.steps(n).cmds|, line)
    + if ManualStep(r, n) then [] else [P.Tick(SCAN, r.steps(n).inputs.healthy)]
  }

  /** The history of the line's engine: all triggers and ticks of the first n steps. */
  function Ops(r: Scenario, n: nat, line: Line): seq<P.PulseOp> {
    if n == 0 then [] else Ops(r, n - 1, line) + StepOps(r, n - 1, line)
  }

  lemma {:induction false} BatchOpsAreTriggers(s: Sys, cmds: seq<Command>, answers: Answers, i: nat, line: Line)
    requires i <= |cmds|
    ensures forall op :: op in BatchOps(s, cmds, answers, i, line) ==> op == P.Trigger
  {
    if i == 0 {
    } else {
      BatchOpsAreTriggers(s, cmds, answers, i - 1, line);
    }
  }

  lemma DispatchOnEngine(s: Sys, cmd: Command, answers: Answers, line: Line)
    ensures Engine(Dispatched(s, cmd, answers).ctl.pulses, line)
         == if Reaches(s, cmd, line) then P.Triggered(Engine(s.ctl.pulses, line)).0 else Engine(s.ctl.pulses, line)
  {
  }

  lemma {:induction false} BatchOnEngine(s: Sys, cmds: seq<Command>, answers: Answers, i: nat, line: Line)
    requires i <= |cmds|
    ensures Engine(Commanded(s, cmds, answers, i).ctl.pulses, line)
         == P.After(Engine(s.ctl.pulses, line), BatchOps(s, cmds, answers, i, line))
  {
    hide Dispatched;
    if i == 0 {
    } else {
      var t, front := Commanded(s, cmds, answers, i - 1), BatchOps(s, cmds, answers, i - 1, line);
      BatchOnEngine(s, cmds, answers, i - 1, line);
      DispatchOnEngine(t, cmds[i - 1], answers, line);
      if Reaches(t, cmds[i - 1], line) {
        P.AfterAppend(Engine(s.ctl.pulses, line), front, P.Trigger);
      } else {
        assert BatchOps(s, cmds, answers, i, line) == front;
      }
    }
  }

  /** Triggers on a running pulse change nothing; on an idle engine the first one is accepted. */
  lemma {:induction false} TriggersOnly(p: P.PulseState, ops: seq<P.PulseOp>)
    requires forall op :: op in ops ==> op == P.Trigger
    ensures P.After(p, ops) == if p.active || ops == [] then p else p.(active := true, elapsed := 0)
    ensures P.AcceptedCount(p, ops) == Unit(!p.active && P.After(p, ops).active)
    ensures P.HighTicks(p, ops) == 0
  {
    if ops == [] {
    } else {
      var front := ops[..|ops| - 1];
      forall op | op in front
        ensures op == P.Trigger
      {
        assert op in ops;
      }
      TriggersOnly(p, front);
      assert ops[|ops| - 1] in ops;
    }
  }

  lemma {:induction false} AfterConcat(p: P.PulseState, a: seq<P.PulseOp>, b: seq<P.PulseOp>)
    ensures P.After(p, a + b) == P.After(P.After(p, a), b)
    ensures P.AcceptedCount(p, a + b) == P.AcceptedCount(p, a) + P.AcceptedCount(P.After(p, a), b)
    ensures P.HighTicks(p, a + b) == P.HighTicks(p, a) + P.HighTicks(P.After(p, a), b)
  {
    if b == [] {
      assert a + b == a;
    } else {
      assert (a + b)[..|a + b| - 1] == a + b[..|b| - 1];
      AfterConcat(p, a, b[..|b| - 1]);
    }
  }

  /** The line's engine is idle before step n and running after its batch: the step fires the line. */
  predicate FiredIn(r: Scenario, n: nat, line: Line) {
    !Engine(At(r, n).ctl.pulses, line).active && Engine(Served(r, n).ctl.pulses, line).active
  }

  /** Step n drives the line high in normal control. */
  predicate HighIn(r: Scenario, n: nat, line: Line) {
    !ManualStep(r, n) && Level(OutputsOf(r, n), line)
  }

  /** What the output phase makes of the pulses. */
  lemma DriveOnEngine(r: Scenario, n: nat, line: Line)
    ensures var p, q := Engine(Served(r, n).ctl.pulses, line), Engine(At(r, n + 1).ctl.pulses, line);
            && q == (if ManualStep(r, n) then p else P.Ticked(p, SCAN, r.steps(n).inputs.healthy).0)
            && (!ManualStep(r, n) ==> Level(OutputsOf(r, n), line) == q.active)
  {
  }

  /** One step seen from the line's engine. */
  lemma StepOnEngine(r: Scenario, n: nat, line: Line)
    ensures var p, ops := Engine(At(r, n).ctl.pulses, line), StepOps(r, n, line);
            && Engine(At(r, n + 1).ctl.pulses, line) == P.After(p, ops)
            && P.AcceptedCount(p, ops) == Unit(FiredIn(r, n, line))
            && P.HighTicks(p, ops) == Unit(HighIn(r, n, line))
  {
    var s, cmds := Sensing(r, n), r.steps(n).cmds;
    assert s.ctl.pulses == At(r, n).ctl.pulses;
    hide Stepped, Sensed, Dispatched;
    var p := Engine(s.ctl.pulses, line);
    var ops := BatchOps(s, cmds, r.answers, |cmds|, line);
    BatchOnEngine(s, cmds, r.answers, |cmds|, line);
    BatchOpsAreTriggers(s, cmds, r.answers, |cmds|, line);
    TriggersOnly(p, ops);
    DriveOnEngine(r, n, line);
    if ManualStep(r, n) {
      assert StepOps(r, n, line) == ops;
    } else {
      P.AfterAppend(p, ops, P.Tick(SCAN, r.steps(n).inputs.healthy));
    }
  }

  lemma {:induction false} BatchOpsCause(s: Sys, cmds: seq<Command>, answers: Answers, i: nat, line: Line)
    requires i <= |cmds|
    ensures BatchOps(s, cmds, answers, i, line) != []
       <==> exists j: nat :: j < i && Reaches(Commanded(s, cmds, answers, j), cmds[j], line)
  {
    hide Dispatched, Reaches;
    if i == 0 {
    } else {
      var last: nat := i - 1;
      BatchOpsCause(s, cmds, answers, last, line);
      assert Reaches(Commanded(s, cmds, answers, last), cmds[last], line)
          || !Reaches(Commanded(s, cmds, answers, last), cmds[last], line);
    }
  }

  /** A step fires a line iff the line is idle and some command of its batch reaches for it. */
  lemma FiringCause(r: Scenario, n: nat, line: Line)
    ensures FiredIn(r, n, line)
       <==> && !Engine(At(r, n).ctl.pulses, line).active
            && exists i: nat :: i < |r.steps(n).cmds| && Reaches(Mid(r, n, i), r.steps(n).cmds[i], line)
  {
    var s, cmds := Sensing(r, n), r.steps(n).cmds;
    assert s.ctl.pulses == At(r, n).ctl.pulses;
    hide Stepped, Sensed, Dispatched, Reaches;
    BatchOnEngine(s, cmds, r.answers, |cmds|, line);
    BatchOpsAreTriggers(s, cmds, r.answers, |cmds|, line);
    TriggersOnly(Engine(s.ctl.pulses, line), BatchOps(s, cmds, r.answers, |cmds|, line));
    BatchOpsCause(s, cmds, r.answers, |cmds|, line);
  }

  /** No output fires by itself: a firing takes the operator's command for that line in the same batch, a
      healthy bus, and no manual-IO mode; a knife fires in the direction of the debounced knife input. */
  lemma FiringNeedsOperator(r: Scenario, n: nat, line: Line)
    requires FiredIn(r, n, line)
    ensures r.steps(n).inputs.healthy && At(r, n).ctl.manual.left == 0
    ensures line == WrapLine ==> Wrap in r.steps(n).cmds
    ensures line != WrapLine ==>
      && ToggleKnife in r.steps(n).cmds
      && (line == KnivesInLine <==> IC.LatestWindow(KnifeBits(r), 3, false, n + 1))
  {
    FiringCause(r, n, line);
    SensingKeepsManual(r, n);
    hide At, FiredIn, Engine, Sensed, Dispatched, Commanded;
    var cmds := r.steps(n).cmds;
    var i: nat :| i < |cmds| && Reaches(Mid(r, n, i), cmds[i], line);
    CommandsKeepSenses(Sensing(r, n), cmds, r.answers, i);
    SensingFollowsInputs(r, n);
    IC.LevelIsLatestWindow(DEBOUNCE, false, KnifeBits(r), n + 1);
    ModeTellsInputs(r, n);
    SensingKnown(r, n);
    CommandsKeepInputsKnown(Sensing(r, n), cmds, r.answers, i, r.steps(n).inputs.healthy);
  }

  function FiringSteps(r: Scenario, n: nat, line: Line): nat {
    if n == 0 then 0 else FiringSteps(r, n - 1, line) + Unit(FiredIn(r, n - 1, line))
  }

  function HighSteps(r: Scenario, n: nat, line: Line): nat {
    if n == 0 then 0 else HighSteps(r, n - 1, line) + Unit(HighIn(r, n - 1, line))
  }

  lemma StepOpsUniform(r: Scenario, n: nat, line: Line)
    ensures P.UniformTicks(StepOps(r, n, line), SCAN)
  {
    hide Stepped;
    var ops := BatchOps(Sensing(r, n), r.steps(n).cmds, r.answers, |r.steps(n).cmds|, line);
    BatchOpsAreTriggers(Sensing(r, n), r.steps(n).cmds, r.answers, |r.steps(n).cmds|, line);
    assert forall i :: 0 <= i < |ops| ==> ops[i] in ops;
  }

  lemma EnginesStartIdle(r: Scenario, line: Line)
    ensures Engine(At(r, 0).ctl.pulses, line) == P.Idle(PULSE)
  {
    hide Stepped;
  }

  /** Each engine is exactly a pulse engine under the triggers and ticks of its own line. */
  lemma {:induction false} EngineFollowsOps(r: Scenario, n: nat, line: Line)
    ensures var p, ops := P.Idle(PULSE), Ops(r, n, line);
            && Engine(At(r, n).ctl.pulses, line) == P.After(p, ops)
            && P.AcceptedCount(p, ops) == FiringSteps(r, n, line)
            && P.HighTicks(p, ops) == HighSteps(r, n, line)
            && P.UniformTicks(ops, SCAN)
  {
    hide At, Engine, StepOps, FiredIn, HighIn;
    if n == 0 {
      EnginesStartIdle(r, line);
    } else {
      EngineFollowsOps(r, n - 1, line);
      StepOnEngine(r, n - 1, line);
      StepOpsUniform(r, n - 1, line);
      AfterConcat(P.Idle(PULSE), Ops(r, n - 1, line), StepOps(r, n - 1, line));
    }
  }

  /** The line's pulse is running after n steps, told by its triggers and ticks alone. */
  ghost predicate Running(r: Scenario, n: nat, line: Line) {
    P.After(P.Idle(PULSE), Ops(r, n, line)).active
  }

  lemma RunningLine(r: Scenario, n: nat, line: Line)
    ensures Engine(At(r, n + 1).ctl.pulses, line).active <==> Running(r, n + 1, line)
    ensures !ManualStep(r, n) ==> (Level(OutputsOf(r, n), line) <==> Running(r, n + 1, line))
  {
    hide At, OutputsOf, Ops, ManualStep, Engine, Level;
    EngineFollowsOps(r, n + 1, line);
    DriveOnEngine(r, n, line);
  }

  /** The panel shows a pulse in every step, IO test mode included, exactly while its line's history has one
      running: the wrap flag for the wrap line and the knife flag for either knife line. Outside the IO test mode
      the flags are the outputs themselves. */
  lemma ShownPulses(r: Scenario, n: nat)
    ensures var seen, out := Snapshot(At(r, n + 1).ctl), OutputsOf(r, n);
            && (seen.wrapActive <==> Running(r, n + 1, WrapLine))
            && (seen.knifeActive <==> Running(r, n + 1, KnivesInLine) || Running(r, n + 1, KnivesOutLine))
            && (!ManualStep(r, n) ==>
                (seen.wrapActive <==> out.wrap) && (seen.knifeActive <==> out.knivesIn || out.knivesOut))
  {
    hide Stepped, ManualStep, Running;
    RunningLine(r, n, WrapLine);
    RunningLine(r, n, KnivesInLine);
    RunningLine(r, n, KnivesOutLine);
  }

  /**
   Energisation budget, in every run, with bus drops and manual freezes: a line is high in at most
   499 normal-control steps for each step that fired it, and every firing has completed, was aborted,
   or is still running.
  */
  lemma EnergisationBudget(r: Scenario, n: nat, line: Line)
    ensures HighSteps(r, n, line) <= 499 * FiringSteps(r, n, line)
    ensures FiringSteps(r, n, line)
         == P.EventCount(P.Idle(PULSE), Ops(r, n, line), P.Completed)
            + P.EventCount(P.Idle(PULSE), Ops(r, n, line), P.Aborted)
            + Unit(Engine(At(r, n).ctl.pulses, line).active)
  {
    assert SCAN == 10_000_000 && PULSE == 5_000_000_000;
    hide *;
    EngineFollowsOps(r, n, line);
    P.HighTicksBudget(PULSE, SCAN, 499, Ops(r, n, line));
    P.TriggersAreConserved(PULSE, Ops(r, n, line));
  }

  /** No step from n up to but not including m is a normal one on a faulted bus; steps of the IO test
      mode freeze the pulses, whatever the bus does. */
  ghost predicate Undisturbed(r: Scenario, n: nat, m: nat) {
    forall k: nat :: n <= k < m ==> ManualStep(r, k) || r.steps(k).inputs.healthy
  }

  /** The normal steps from n up to but not including m. */
  function NormalSteps(r: Scenario, n: nat, m: nat): nat
    requires n <= m
  {
    if n == m then 0 else NormalSteps(r, n, m - 1) + Unit(!ManualStep(r, m - 1))
  }

  lemma {:induction false} EngineKeepsDuration(p: P.PulseState, ops: seq<P.PulseOp>)
    ensures P.After(p, ops).duration == p.duration
  {
    if ops == [] {
    } else {
      EngineKeepsDuration(p, ops[..|ops| - 1]);
    }
  }

  /** A running pulse meets one undisturbed step: it stays frozen, gains one scan, or ends. */
  lemma UndisturbedStep(r: Scenario, n: nat, line: Line)
    requires Undisturbed(r, n, n + 1)
    requires Engine(At(r, n).ctl.pulses, line).active || FiredIn(r, n, line)
    ensures var p := if FiredIn(r, n, line) then P.PulseState(PULSE, 0, true) else Engine(At(r, n).ctl.pulses, line);
            Engine(At(r, n + 1).ctl.pulses, line) == if ManualStep(r, n) then p else P.Ticked(p, SCAN, true).0
    ensures HighIn(r, n, line) <==> !ManualStep(r, n) && Engine(At(r, n + 1).ctl.pulses, line).active
  {
    var s, cmds := Sensing(r, n), r.steps(n).cmds;
    assert s.ctl.pulses == At(r, n).ctl.pulses;
    hide Stepped, Sensed, Dispatched, ManualStep;
    EngineFollowsOps(r, n, line);
    EngineKeepsDuration(P.Idle(PULSE), Ops(r, n, line));
    BatchOnEngine(s, cmds, r.answers, |cmds|, line);
    BatchOpsAreTriggers(s, cmds, r.answers, |cmds|, line);
    TriggersOnly(Engine(s.ctl.pulses, line), BatchOps(s, cmds, r.answers, |cmds|, line));
    DriveOnEngine(r, n, line);
    assert ManualStep(r, n) || r.steps(n).inputs.healthy;
  }

  lemma NotFiredWhileActive(r: Scenario, n: nat, line: Line)
    requires Engine(At(r, n).ctl.pulses, line).active
    ensures !FiredIn(r, n, line)
  {
  }

  /** As long as a fired pulse has met fewer than 500 normal steps and no faulted one, it has been high in
      all of them and its clock counts them; steps of the IO test mode in between do not matter. */
  lemma {:induction false} UndisturbedProgress(r: Scenario, n: nat, line: Line, m: nat)
    requires FiredIn(r, n, line) && n < m && Undisturbed(r, n, m) && NormalSteps(r, n, m) < 500
    ensures var p := Engine(At(r, m).ctl.pulses, line);
            p.active && p.duration == PULSE && p.elapsed == SCAN * NormalSteps(r, n, m)
    ensures forall k: nat :: n <= k < m ==> (HighIn(r, k, line) <==> !ManualStep(r, k))
    ensures HighSteps(r, m, line) == HighSteps(r, n, line) + NormalSteps(r, n, m)
    decreases m
  {
    hide Stepped, FiredIn, HighIn, ManualStep, Engine;
    if m == n + 1 {
      assert NormalSteps(r, n, n) == 0;
    } else {
      UndisturbedProgress(r, n, line, m - 1);
      NotFiredWhileActive(r, m - 1, line);
    }
    UndisturbedStep(r, m - 1, line);
  }

  /**
   Length of a pulse. Take a fired pulse up to its 500th normal step, m - 1, and let no normal step so far
   have met a faulted bus; windows of the IO test mode may fall anywhere, the firing step included. Then
   the line has been high in exactly the 499 normal steps before and is low in the 500th: the firing step
   already ticks, so the 5 s pulse gives 499 high scans.
  */
  lemma PulseLength(r: Scenario, n: nat, line: Line, m: nat)
    requires FiredIn(r, n, line) && n < m && Undisturbed(r, n, m)
    requires NormalSteps(r, n, m) == 500 && !ManualStep(r, m - 1)
    ensures forall k: nat :: n <= k < m - 1 ==> (HighIn(r, k, line) <==> !ManualStep(r, k))
    ensures !HighIn(r, m - 1, line)
    ensures HighSteps(r, m, line) == HighSteps(r, n, line) + 499
  {
    hide Stepped, FiredIn, HighIn, ManualStep, Engine;
    assert NormalSteps(r, n, n) == 0;
    assert m - 1 > n;
    UndisturbedProgress(r, n, line, m - 1);
    NotFiredWhileActive(r, m - 1, line);
    UndisturbedStep(r, m - 1, line);
  }

  lemma {:induction false} AllNormal(r: Scenario, n: nat, m: nat)
    requires n <= m && forall k: nat :: n <= k < m ==> !ManualStep(r, k)
    ensures NormalSteps(r, n, m) == m - n
    decreases m
  {
    hide ManualStep;
    if m == n {
    } else {
      AllNormal(r, n, m - 1);
    }
  }

  /** In particular a pulse that meets neither is high in the firing step and the 498 after it. */
  lemma UninterruptedPulse(r: Scenario, n: nat, line: Line)
    requires FiredIn(r, n, line)
    requires forall k: nat :: n <= k < n + 500 ==> !ManualStep(r, k) && r.steps(k).inputs.healthy
    ensures forall k: nat :: n <= k < n + 499 ==> HighIn(r, k, line)
    ensures !HighIn(r, n + 499, line)
  {
    hide Stepped, FiredIn, HighIn, ManualStep;
    AllNormal(r, n, n + 500);
    PulseLength(r, n, line, n + 500);
  }
}
