/**
 Whole runs of the control cycle.

 A scenario fixes the counters loaded at start, the inputs and command batch of every step, and
 every answer of the network. Quantifying over all scenarios covers every finite run: the steps after
 its end may be anything.
*/
module Runs {
  import opened Ipc
  import opened Wago
  import opened Ports
  import opened Control
  import IC = InputConditioner
  import L = Ledger

  datatype StepIn = StepIn(inputs: Inputs, cmds: seq<Command>)

  datatype Scenario = Scenario(loaded: L.Counters, bus: BusState, steps: nat -> StepIn, answers: Answers)

  /** The system after the first n steps. */
  function At(r: Scenario, n: nat): Sys {
    if n == 0 then Sys(Boot(r.loaded), [], 0, r.bus)
    else Stepped(At(r, n - 1), r.steps(n - 1).inputs, r.steps(n - 1).cmds, r.answers).0
  }

  /** The outputs commanded by step n. */
  function OutputsOf(r: Scenario, n: nat): Outputs {
    Stepped(At(r, n), r.steps(n).inputs, r.steps(n).cmds, r.answers).1
  }

  /** Step n after its input phase. */
  function Sensing(r: Scenario, n: nat): Sys {
    At(r, n).(ctl := Sensed(At(r, n).ctl, r.steps(n).inputs))
  }

  /** Step n after the first i commands of its batch. */
  function Mid(r: Scenario, n: nat, i: nat): Sys
    requires i <= |r.steps(n).cmds|
  {
    Commanded(Sensing(r, n), r.steps(n).cmds, r.answers, i)
  }

  /** Step n after its whole batch. */
  function Served(r: Scenario, n: nat): Sys {
    Mid(r, n, |r.steps(n).cmds|)
  }

  /** A step in which the IO test screen drives the outputs. */
  predicate ManualStep(r: Scenario, n: nat) {
    At(r, n + 1).ctl.manual.left > 0
  }

  // ---- What the phases leave alone -------------------------------------------------------------

  /** The command phase never touches the input conditioning or the manual-IO countdown. */
  lemma {:induction false} CommandsKeepSenses(s: Sys, cmds: seq<Command>, answers: Answers, i: nat)
    requires i <= |cmds|
    ensures var t := Commanded(s, cmds, answers, i);
            t.ctl.senses == s.ctl.senses && t.ctl.manual.left == s.ctl.manual.left
  {
    if i == 0 {
    } else {
      CommandsKeepSenses(s, cmds, answers, i - 1);
    }
  }

  /** In manual-IO mode a batch changes nothing but the operator's held bits. */
  lemma {:induction false} CommandsIgnored(s: Sys, cmds: seq<Command>, answers: Answers, i: nat)
    requires i <= |cmds| && s.ctl.manual.left > 0
    ensures var t := Commanded(s, cmds, answers, i);
            t == s.(ctl := s.ctl.(manual := t.ctl.manual)) && t.ctl.manual.left == s.ctl.manual.left
  {
    if i == 0 {
    } else {
      CommandsIgnored(s, cmds, answers, i - 1);
    }
  }

  // ---- The conditioned inputs as functions of the raw history ----------------------------------

  function FullBits(r: Scenario): nat -> bool {
    (n: nat) => r.steps(n).inputs.baleFull
  }

  function KnifeBits(r: Scenario): nat -> bool {
    (n: nat) => r.steps(n).inputs.knifeIn
  }

  function OpenBits(r: Scenario): nat -> bool {
    (n: nat) => r.steps(n).inputs.baleOpen
  }

  /** The debouncers see every sample, healthy or not; nothing else moves them. */
  lemma {:induction false} SensesFollowInputs(r: Scenario, n: nat)
    ensures var senses := At(r, n).ctl.senses;
            && senses.fullDb == IC.At(DEBOUNCE, false, FullBits(r), n)
            && senses.knifeDb == IC.At(DEBOUNCE, false, KnifeBits(r), n)
            && senses.openDb == IC.At(DEBOUNCE, false, OpenBits(r), n)
            && senses.lastOpenLevel == senses.openDb.level
  {
    if n == 0 {
    } else {
      SensesFollowInputs(r, n - 1);
      CommandsKeepSenses(Sensing(r, n - 1), r.steps(n - 1).cmds, r.answers, |r.steps(n - 1).cmds|);
    }
  }

  lemma SensingFollowsInputs(r: Scenario, n: nat)
    ensures var senses := Sensing(r, n).ctl.senses;
            && senses.fullDb == IC.At(DEBOUNCE, false, FullBits(r), n + 1)
            && senses.knifeDb == IC.At(DEBOUNCE, false, KnifeBits(r), n + 1)
            && senses.openDb == IC.At(DEBOUNCE, false, OpenBits(r), n + 1)
  {
    hide Stepped;
    SensesFollowInputs(r, n);
  }

  /** The output phase moves only the pulses and the manual-IO countdown. */
  lemma DriveKeeps(r: Scenario, n: nat)
    ensures var c, d := Served(r, n).ctl, At(r, n + 1).ctl;
            d == c.(pulses := d.pulses, manual := d.manual)
  {
    hide Dispatched, Sensed, Commanded;
  }
}
