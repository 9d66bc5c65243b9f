/** Modes, port calls and pulses over whole runs: what holds at the end of every step. */
module ModeSafety {
  import opened Prelude
  import opened Ipc
  import opened Machine
  import opened Ports
  import opened Control
  import opened Runs
  import opened ManualMode
  import opened Pulse
  import IC = InputConditioner

  // ---- The two knife directions ----------------------------------------------------------------

  ghost predicate KnivesApart(p: Pulses) {
    !(p.knivesIn.active && p.knivesOut.active)
  }

  lemma {:induction false} CommandsKeepKnivesApart(s: Sys, cmds: seq<Command>, answers: Answers, i: nat)
    requires i <= |cmds| && KnivesApart(s.ctl.pulses)
    ensures KnivesApart(Commanded(s, cmds, answers, i).ctl.pulses)
  {
    if i == 0 {
    } else {
      CommandsKeepKnivesApart(s, cmds, answers, i - 1);
    }
  }

  /** In every reachable state at most one knife pulse runs; every step drives at most one knife
      output, and drives nothing while the bus is down. */
  lemma {:induction false} OutputsAreSafe(r: Scenario, n: nat)
    ensures KnivesApart(At(r, n).ctl.pulses)
    ensures !(OutputsOf(r, n).knivesIn && OutputsOf(r, n).knivesOut)
    ensures !r.steps(n).inputs.healthy ==> OutputsOf(r, n) == ALL_LOW
  {
    if n == 0 {
    } else {
      OutputsAreSafe(r, n - 1);
      CommandsKeepKnivesApart(Sensing(r, n - 1), r.steps(n - 1).cmds, r.answers, |r.steps(n - 1).cmds|);
    }
    CommandsKeepKnivesApart(Sensing(r, n), r.steps(n).cmds, r.answers, |r.steps(n).cmds|);
  }

  // ---- Modes and what is known of the inputs ---------------------------------------------------

  /** The inputs are known exactly in mode Operational, which needs a healthy bus. */
  ghost predicate InputsKnownIffOperational(m: MachineState, healthy: bool) {
    && (m.knifeIn == None <==> m.mode != Operational)
    && (m.baleFull ==> m.mode == Operational)
    && (m.mode == Operational ==> healthy)
  }

  lemma DispatchKeepsInputsKnown(s: Sys, cmd: Command, answers: Answers, healthy: bool)
    requires InputsKnownIffOperational(s.ctl.machine, healthy)
    ensures InputsKnownIffOperational(Dispatched(s, cmd, answers).ctl.machine, healthy)
  {
  }

  lemma {:induction false} CommandsKeepInputsKnown(s: Sys, cmds: seq<Command>, answers: Answers, i: nat, healthy: bool)
    requires i <= |cmds| && InputsKnownIffOperational(s.ctl.machine, healthy)
    ensures InputsKnownIffOperational(Commanded(s, cmds, answers, i).ctl.machine, healthy)
  {
    hide Dispatched;
    if i == 0 {
    } else {
      CommandsKeepInputsKnown(s, cmds, answers, i - 1, healthy);
      DispatchKeepsInputsKnown(Commanded(s, cmds, answers, i - 1), cmds[i - 1], answers, healthy);
    }
  }

  lemma SensingKnown(r: Scenario, n: nat)
    requires InputsKnownIffOperational(At(r, n).ctl.machine, n > 0 && r.steps(n - 1).inputs.healthy)
    ensures InputsKnownIffOperational(Sensing(r, n).ctl.machine, r.steps(n).inputs.healthy)
  {
    hide Stepped;
  }

  lemma {:induction false} ModeTellsInputs(r: Scenario, n: nat)
    ensures InputsKnownIffOperational(At(r, n).ctl.machine, n > 0 && r.steps(n - 1).inputs.healthy)
  {
    hide Stepped, Sensed, Dispatched;
    if n == 0 {
    } else {
      ModeTellsInputs(r, n - 1);
      SensingKnown(r, n - 1);
      DriveKeeps(r, n - 1);
      var healthy := r.steps(n - 1).inputs.healthy;
      CommandsKeepInputsKnown(Sensing(r, n - 1), r.steps(n - 1).cmds, r.answers, |r.steps(n - 1).cmds|, healthy);
    }
  }

  /** What the panel sees after a step: an Operational mode comes from a healthy bus in that step, the
      knife position is unknown in every other mode, and wrap is never armed outside Operational. */
  lemma SnapshotIsHonest(r: Scenario, n: nat)
    ensures var seen := Snapshot(At(r, n + 1).ctl);
            && (seen.mode == Operational ==> r.steps(n).inputs.healthy)
            && (seen.knife == Unknown <==> seen.mode != Operational)
            && (seen.wrapArmed <==> seen.baleFull)
            && (seen.baleFull ==> seen.mode == Operational)
  {
    hide Stepped;
    ModeTellsInputs(r, n + 1);
  }

  lemma {:induction false} OperationalKeepsMachine(s: Sys, cmds: seq<Command>, answers: Answers, i: nat)
    requires i <= |cmds| && Commanded(s, cmds, answers, i).ctl.machine.mode == Operational
    ensures Commanded(s, cmds, answers, i).ctl.machine == s.ctl.machine
  {
    if i == 0 {
    } else {
      OperationalKeepsMachine(s, cmds, answers, i - 1);
    }
  }

  lemma SensedMachine(r: Scenario, n: nat)
    ensures var full := IC.At(DEBOUNCE, false, FullBits(r), n + 1).level;
            var inward := IC.At(DEBOUNCE, false, KnifeBits(r), n + 1).level;
            Sensing(r, n).ctl.machine.mode == Operational && r.steps(n).inputs.healthy ==>
              Sensing(r, n).ctl.machine == MachineState(Operational, full, Some(inward))
    ensures var inputs, senses := r.steps(n).inputs, Sensing(r, n).ctl.senses;
            senses.di1 == inputs.baleFull && senses.di2 == inputs.knifeIn && senses.di3 == inputs.baleOpen
  {
    hide Stepped;
    SensesFollowInputs(r, n);
  }

  /** The panel shows the raw inputs of the step as they are, and in mode Operational the bale-full and
      knife indications are the values of the latest full debounce windows. */
  lemma ShownInputs(r: Scenario, n: nat)
    ensures var seen, inputs := Snapshot(At(r, n + 1).ctl), r.steps(n).inputs;
            && seen.di1 == inputs.baleFull && seen.di2 == inputs.knifeIn && seen.di3 == inputs.baleOpen
            && (seen.mode == Operational ==>
                && (seen.baleFull <==> IC.LatestWindow(FullBits(r), 3, false, n + 1))
                && (seen.knife == In <==> IC.LatestWindow(KnifeBits(r), 3, false, n + 1)))
  {
    hide Stepped, Sensed, Dispatched;
    var cmds := r.steps(n).cmds;
    DriveKeeps(r, n);
    CommandsKeepSenses(Sensing(r, n), cmds, r.answers, |cmds|);
    SensedMachine(r, n);
    if At(r, n + 1).ctl.machine.mode == Operational {
      OperationalKeepsMachine(Sensing(r, n), cmds, r.answers, |cmds|);
      ModeTellsInputs(r, n + 1);
      IC.LevelIsLatestWindow(DEBOUNCE, false, FullBits(r), n + 1);
      IC.LevelIsLatestWindow(DEBOUNCE, false, KnifeBits(r), n + 1);
    }
  }

  // ---- No pulse outlives the mode that allowed it ----------------------------------------------

  ghost predicate QuietUnlessOperational(c: ControlState) {
    c.machine.mode != Operational ==> !c.pulses.AnyActive()
  }

  lemma {:induction false} CommandsKeepQuiet(s: Sys, cmds: seq<Command>, answers: Answers, i: nat)
    requires i <= |cmds| && QuietUnlessOperational(s.ctl)
    ensures QuietUnlessOperational(Commanded(s, cmds, answers, i).ctl)
  {
    if i == 0 {
    } else {
      CommandsKeepQuiet(s, cmds, answers, i - 1);
    }
  }

  lemma QuietStep(r: Scenario, n: nat)
    requires QuietUnlessOperational(At(r, n).ctl) && At(r, n).ctl.manual.left == 0 && !ManualBatch(r, n)
    ensures QuietUnlessOperational(At(r, n + 1).ctl)
    ensures At(r, n + 1).ctl.machine.mode != Operational ==>
      !At(r, n + 1).ctl.pulses.AnyActive() && OutputsOf(r, n) == ALL_LOW
  {
    var cmds := r.steps(n).cmds;
    CommandsKeepSenses(Sensing(r, n), cmds, r.answers, |cmds|);
    if r.steps(n).inputs.healthy {
      CommandsKeepQuiet(Sensing(r, n), cmds, r.answers, |cmds|);
    }
  }

  lemma StartsQuiet(r: Scenario)
    ensures QuietUnlessOperational(At(r, 0).ctl) && At(r, 0).ctl.manual.left == 0
  {
    hide Stepped;
  }

  /** Without the IO test mode no mode change strands a pulse: a step that ends outside Operational ends
      with all pulses idle and all outputs low. (A bus drop lets a switch through with a pulse still
      running; the same step then aborts that pulse.) */
  lemma {:induction false} NoStrandedPulse(r: Scenario, n: nat)
    requires forall k: nat :: k <= n ==> !ManualBatch(r, k)
    ensures QuietUnlessOperational(At(r, n).ctl) && At(r, n).ctl.manual.left == 0
    ensures At(r, n + 1).ctl.machine.mode != Operational ==>
      !At(r, n + 1).ctl.pulses.AnyActive() && OutputsOf(r, n) == ALL_LOW
  {
    hide At, OutputsOf, ManualBatch, LastBits, ManualLevels;
    if n == 0 {
      StartsQuiet(r);
    } else {
      NoStrandedPulse(r, n - 1);
      ManualStepEffect(r, n - 1);
    }
    QuietStep(r, n);
  }

  // ---- The idle gate on the switch to Ethernet, and its gap ------------------------------------

  /** Command i of step n is a switch to Ethernet that is carried out. */
  ghost predicate SwitchServed(r: Scenario, n: nat, i: nat)
    requires i < |r.steps(n).cmds|
  {
    && r.steps(n).cmds[i] == EnterEthernet
    && Mid(r, n, i).ctl.machine.mode != Ethernet && Mid(r, n, i + 1).ctl.machine.mode == Ethernet
  }

  /** A switch to Ethernet is carried out in step n while some pulse is running. */
  ghost predicate SwitchedMidPulse(r: Scenario, n: nat) {
    exists i: nat :: i < |r.steps(n).cmds| && SwitchServed(r, n, i) && Mid(r, n, i).ctl.pulses.AnyActive()
  }

  lemma DispatchAwayFromOperational(s: Sys, cmd: Command, answers: Answers)
    requires s.ctl.machine.mode != Operational
    ensures var t := Dispatched(s, cmd, answers); var m, n := s.ctl.machine.mode, t.ctl.machine.mode;
            && n != Operational && t.ctl.pulses == s.ctl.pulses && t.ctl.manual.left == s.ctl.manual.left
            && (cmd != EnterEthernet && m != Ethernet ==> n == m)
            && (cmd != ReturnToEthercat && m == Ethernet ==> n == Ethernet)
            && (cmd == EnterEthernet && s.ctl.manual.left == 0 ==> n == Ethernet)
            && (cmd == ReturnToEthercat && s.ctl.manual.left == 0 ==> n != Ethernet)
  {
  }

  /** Outside Operational no command starts a pulse or leads back to Operational. */
  lemma {:induction false} AwayStaysAway(s: Sys, cmds: seq<Command>, answers: Answers, i: nat)
    requires i <= |cmds| && s.ctl.machine.mode != Operational
    ensures var t := Commanded(s, cmds, answers, i);
            && t.ctl.machine.mode != Operational && t.ctl.pulses == s.ctl.pulses
            && t.ctl.manual.left == s.ctl.manual.left
  {
    hide Dispatched;
    if i == 0 {
    } else {
      AwayStaysAway(s, cmds, answers, i - 1);
      DispatchAwayFromOperational(Commanded(s, cmds, answers, i - 1), cmds[i - 1], answers);
    }
  }

  ghost predicate Absent(cmds: seq<Command>, cmd: Command, a: nat, b: nat) {
    forall k: nat :: a <= k < b && k < |cmds| ==> cmds[k] != cmd
  }

  /** Outside Operational the side of the switch changes only by its own command. */
  lemma {:induction false} SideHolds(s: Sys, cmds: seq<Command>, answers: Answers, a: nat, i: nat)
    requires a <= i <= |cmds| && s.ctl.machine.mode != Operational
    requires var away := Commanded(s, cmds, answers, a).ctl.machine.mode == Ethernet;
             Absent(cmds, if away then ReturnToEthercat else EnterEthernet, a, i)
    ensures Commanded(s, cmds, answers, i).ctl.machine.mode == Ethernet
       <==> Commanded(s, cmds, answers, a).ctl.machine.mode == Ethernet
    decreases i
  {
    hide Dispatched;
    if a == i {
    } else {
      SideHolds(s, cmds, answers, a, i - 1);
      AwayStaysAway(s, cmds, answers, i - 1);
      DispatchAwayFromOperational(Commanded(s, cmds, answers, i - 1), cmds[i - 1], answers);
    }
  }

  lemma {:induction false} FirstFrom(cmds: seq<Command>, cmd: Command, a: nat, b: nat) returns (i: nat)
    requires a <= b < |cmds| && cmds[b] == cmd
    ensures a <= i <= b && cmds[i] == cmd && Absent(cmds, cmd, a, i)
    decreases b - a
  {
    if cmds[a] == cmd {
      i := a;
    } else {
      i := FirstFrom(cmds, cmd, a + 1, b);
    }
  }

  /** A switch follows position a of the batch. */
  ghost predicate SwitchAsked(cmds: seq<Command>, a: nat) {
    exists i: nat :: a <= i < |cmds| && cmds[i] == EnterEthernet
  }

  /** A return to EtherCAT and, behind it, a switch back to Ethernet. */
  ghost predicate ReturnThenSwitch(cmds: seq<Command>) {
    exists j: nat :: j < |cmds| && cmds[j] == ReturnToEthercat && SwitchAsked(cmds, j)
  }

  lemma FaultedSensing(r: Scenario, n: nat)
    requires !r.steps(n).inputs.healthy || At(r, n).ctl.machine.mode == Ethernet
    ensures var c, d := At(r, n).ctl, Sensing(r, n).ctl;
            && d.machine.mode != Operational && d.pulses == c.pulses && d.manual == c.manual
            && (d.machine.mode == Ethernet <==> c.machine.mode == Ethernet)
  {
    hide Stepped;
  }

  lemma SwitchNeedsIdle(s: Sys, answers: Answers)
    requires s.ctl.machine.mode != Ethernet && Dispatched(s, EnterEthernet, answers).ctl.machine.mode == Ethernet
    ensures s.ctl.machine.mode == Operational ==> !s.ctl.pulses.AnyActive()
    ensures s.ctl.manual.left == 0
  {
  }

  /** A switch that meets the machine outside Operational and outside Ethernet is carried out. */
  lemma SwitchAway(r: Scenario, n: nat, i: nat)
    requires i < |r.steps(n).cmds| && r.steps(n).cmds[i] == EnterEthernet
    requires Sensing(r, n).ctl.machine.mode != Operational && Sensing(r, n).ctl.manual.left == 0
    requires Mid(r, n, i).ctl.machine.mode != Ethernet
    ensures SwitchServed(r, n, i) && Mid(r, n, i).ctl.pulses == Sensing(r, n).ctl.pulses
  {
    hide Dispatched, Sensed, Stepped;
    AwayStaysAway(Sensing(r, n), r.steps(n).cmds, r.answers, i);
    DispatchAwayFromOperational(Mid(r, n, i), EnterEthernet, r.answers);
  }

  /** From a faulted start the first switch of the batch is carried out. */
  lemma FaultedSwitch(r: Scenario, n: nat)
    requires Sensing(r, n).ctl.machine.mode != Operational && Sensing(r, n).ctl.machine.mode != Ethernet
    requires Sensing(r, n).ctl.manual.left == 0 && Sensing(r, n).ctl.pulses.AnyActive()
    requires SwitchAsked(r.steps(n).cmds, 0)
    ensures SwitchedMidPulse(r, n)
  {
    hide Dispatched, Sensed, Stepped;
    var cmds := r.steps(n).cmds;
    var k: nat :| k < |cmds| && cmds[k] == EnterEthernet;
    var i := FirstFrom(cmds, EnterEthernet, 0, k);
    SideHolds(Sensing(r, n), cmds, r.answers, 0, i);
    SwitchAway(r, n, i);
  }

  /** From Ethernet mode the first switch behind the first return is carried out. */
  lemma ReturnedSwitch(r: Scenario, n: nat)
    requires Sensing(r, n).ctl.machine.mode == Ethernet
    requires Sensing(r, n).ctl.manual.left == 0 && Sensing(r, n).ctl.pulses.AnyActive()
    requires ReturnThenSwitch(r.steps(n).cmds)
    ensures SwitchedMidPulse(r, n)
  {
    hide Dispatched, Sensed, Stepped;
    var s, cmds := Sensing(r, n), r.steps(n).cmds;
    var l: nat :| l < |cmds| && cmds[l] == ReturnToEthercat && SwitchAsked(cmds, l);
    var k: nat :| l <= k < |cmds| && cmds[k] == EnterEthernet;
    var j := FirstFrom(cmds, ReturnToEthercat, 0, l);
    SideHolds(s, cmds, r.answers, 0, j);
    AwayStaysAway(s, cmds, r.answers, j);
    DispatchAwayFromOperational(Mid(r, n, j), cmds[j], r.answers);
    var i := FirstFrom(cmds, EnterEthernet, j + 1, k);
    SideHolds(s, cmds, r.answers, j + 1, i);
    SwitchAway(r, n, i);
  }

  /** Away from Operational, a switch past a running pulse is asked for in one of those two ways. */
  lemma SwitchMidPulseCause(r: Scenario, n: nat)
    requires Sensing(r, n).ctl.machine.mode != Operational && SwitchedMidPulse(r, n)
    ensures Sensing(r, n).ctl.manual.left == 0 && Sensing(r, n).ctl.pulses.AnyActive()
    ensures if Sensing(r, n).ctl.machine.mode == Ethernet then ReturnThenSwitch(r.steps(n).cmds)
            else SwitchAsked(r.steps(n).cmds, 0)
  {
    hide Dispatched, Sensed, Stepped;
    var s, cmds := Sensing(r, n), r.steps(n).cmds;
    var i: nat :| i < |cmds| && SwitchServed(r, n, i) && Mid(r, n, i).ctl.pulses.AnyActive();
    AwayStaysAway(s, cmds, r.answers, i);
    SwitchNeedsIdle(Mid(r, n, i), r.answers);
    if s.ctl.machine.mode == Ethernet {
      if Absent(cmds, ReturnToEthercat, 0, i) {
        SideHolds(s, cmds, r.answers, 0, i);
        assert false;
      }
      var j: nat :| j < i && cmds[j] == ReturnToEthercat;
      assert SwitchAsked(cmds, j);
    }
  }

  /** A healthy step that does not start in Ethernet mode carries out no switch past a running pulse. */
  lemma HealthyGate(r: Scenario, n: nat)
    requires r.steps(n).inputs.healthy && At(r, n).ctl.machine.mode != Ethernet
    ensures !SwitchedMidPulse(r, n)
  {
    var s, cmds := Sensing(r, n), r.steps(n).cmds;
    assert QuietUnlessOperational(s.ctl);
    hide Stepped, Sensed, Dispatched;
    forall i: nat | i < |cmds| && SwitchServed(r, n, i)
      ensures !Mid(r, n, i).ctl.pulses.AnyActive()
    {
      CommandsKeepQuiet(s, cmds, r.answers, i);
      SwitchNeedsIdle(Mid(r, n, i), r.answers);
    }
  }

  /**
   The switch to Ethernet is meant for an idle machine. The code gates it in mode Operational only, and
   folds the health of the bus in first. In every run a step carries out a switch past a running pulse
   exactly if its commands are not suspended, a pulse was running before the step, and either the bus is
   down in it and the batch asks for a switch, or it starts in Ethernet mode and the batch asks for a
   return and then a switch.
  */
  lemma SwitchedMidPulseIff(r: Scenario, n: nat)
    ensures SwitchedMidPulse(r, n)
       <==> && At(r, n).ctl.manual.left == 0
            && At(r, n).ctl.pulses.AnyActive()
            && if At(r, n).ctl.machine.mode == Ethernet then ReturnThenSwitch(r.steps(n).cmds)
               else !r.steps(n).inputs.healthy && SwitchAsked(r.steps(n).cmds, 0)
  {
    if r.steps(n).inputs.healthy && At(r, n).ctl.machine.mode != Ethernet {
      HealthyGate(r, n);
    } else {
      FaultedSensing(r, n);
      hide *;
      if SwitchedMidPulse(r, n) {
        SwitchMidPulseCause(r, n);
      } else if Sensing(r, n).ctl.manual.left == 0 && Sensing(r, n).ctl.pulses.AnyActive() {
        if Sensing(r, n).ctl.machine.mode == Ethernet {
          if ReturnThenSwitch(r.steps(n).cmds) {
            ReturnedSwitch(r, n);
          }
        } else if SwitchAsked(r.steps(n).cmds, 0) {
          FaultedSwitch(r, n);
        }
      }
    }
  }

  /** Such a run exists: a wrap in a healthy step, then a bus drop together with the switch. */
  lemma SwitchPastAWrap(r: Scenario)
    requires r.steps(0) == StepIn(Inputs(false, false, false, true), [Wrap])
    requires r.steps(1) == StepIn(Inputs(false, false, false, false), [EnterEthernet])
    ensures SwitchedMidPulse(r, 1)
  {
    var s := Sensing(r, 0);
    assert s.ctl.machine.mode == Operational && s.ctl.manual.left == 0;
    assert Commanded(s, [Wrap], r.answers, 1) == Dispatched(Commanded(s, [Wrap], r.answers, 0), Wrap, r.answers);
    assert Served(r, 0).ctl.pulses.wrap == PulseState(PULSE, 0, true);
    assert At(r, 1).ctl.pulses.wrap.active && At(r, 1).ctl.manual.left == 0;
    assert At(r, 1).ctl.machine.mode == Operational;
    assert r.steps(1).cmds[0] == EnterEthernet;
    SwitchedMidPulseIff(r, 1);
  }
}
