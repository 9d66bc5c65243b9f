/**
 Wrap and knife do not influence each other except through the idle gate on the mode switch: deleting
 all commands of one of them from a run without mode switches changes nothing outside its own part of the state.
*/
module Independence {
  import opened Ipc
  import opened Ports
  import opened Control
  import opened Wago
  import opened Runs
  import P = Pulse
  import L = Ledger

  /** The two deletable commands. */
  datatype Subject = Knife | Wrapper {
    function Cmd(): Command {
      match this
      case Knife => ToggleKnife
      case Wrapper => Wrap
    }
  }

  /** The system with the subject's own part blanked: its pulses, and for the wrap also the latch it clears. */
  function Erased(s: Sys, subject: Subject): Sys {
    var c := s.ctl;
    match subject
    case Knife => s.(ctl := c.(pulses := c.pulses.(knivesIn := P.Idle(PULSE), knivesOut := P.Idle(PULSE))))
    case Wrapper => s.(ctl := c.(pulses := c.pulses.(wrap := P.Idle(PULSE)), fullLatch := 0))
  }

  function Without(cmds: seq<Command>, subject: Subject): seq<Command> {
    if cmds == [] then []
    else
      var front := Without(cmds[..|cmds| - 1], subject);
      if cmds[|cmds| - 1] == subject.Cmd() then front else front + [cmds[|cmds| - 1]]
  }

  lemma {:induction false} WithoutKeepsOthers(cmds: seq<Command>, subject: Subject, cmd: Command)
    requires cmd != subject.Cmd()
    ensures cmd in Without(cmds, subject) <==> cmd in cmds
  {
    if cmds == [] {
    } else {
      WithoutKeepsOthers(cmds[..|cmds| - 1], subject, cmd);
      assert cmds == cmds[..|cmds| - 1] + [cmds[|cmds| - 1]];
    }
  }

  lemma WithoutKeepsManual(cmds: seq<Command>, subject: Subject)
    ensures HasManual(Without(cmds, subject)) == HasManual(cmds)
  {
    if HasManual(cmds) {
      var i :| 0 <= i < |cmds| && cmds[i].ManualIo?;
      WithoutKeepsOthers(cmds, subject, cmds[i]);
    }
    if HasManual(Without(cmds, subject)) {
      var i :| 0 <= i < |Without(cmds, subject)| && Without(cmds, subject)[i].ManualIo?;
      WithoutKeepsOthers(cmds, subject, Without(cmds, subject)[i]);
    }
  }

  lemma DispatchErased(s: Sys, cmd: Command, answers: Answers, subject: Subject)
    requires cmd != EnterEthernet
    ensures Erased(Dispatched(s, cmd, answers), subject)
         == if cmd == subject.Cmd() then Erased(s, subject)
            else Erased(Dispatched(Erased(s, subject), cmd, answers), subject)
  {
  }

  lemma {:induction false} PrefixDecides(s: Sys, a: seq<Command>, b: seq<Command>, answers: Answers, i: nat)
    requires i <= |a| && i <= |b| && a[..i] == b[..i]
    ensures Commanded(s, a, answers, i) == Commanded(s, b, answers, i)
  {
    hide Dispatched;
    if i == 0 {
    } else {
      var last: nat := i - 1;
      assert a[..last] == a[..i][..last] == b[..last];
      assert a[last] == a[..i][last] == b[..i][last] == b[last];
      PrefixDecides(s, a, b, answers, last);
    }
  }

  lemma {:induction false} BatchErased(
    s: Sys, t: Sys, cmds: seq<Command>, answers: Answers, i: nat, subject: Subject)
    requires Erased(s, subject) == Erased(t, subject)
    requires EnterEthernet !in cmds && i <= |cmds|
    ensures var kept := Without(cmds[..i], subject);
            Erased(Commanded(s, cmds, answers, i), subject) == Erased(Commanded(t, kept, answers, |kept|), subject)
  {
    hide Dispatched, Erased;
    if i == 0 {
    } else {
      var last: nat := i - 1;
      var cmd, front := cmds[last], Without(cmds[..last], subject);
      assert cmds[..i][..last] == cmds[..last] && cmds[..i][last] == cmd;
      BatchErased(s, t, cmds, answers, last, subject);
      DispatchErased(Commanded(s, cmds, answers, last), cmd, answers, subject);
      if cmd != subject.Cmd() {
        PrefixDecides(t, front, front + [cmd], answers, |front|);
        DispatchErased(Commanded(t, front, answers, |front|), cmd, answers, subject);
      }
    }
  }

  /** q is r with every command of the subject deleted. */
  ghost predicate Twin(r: Scenario, q: Scenario, subject: Subject) {
    && r.loaded == q.loaded && r.bus == q.bus && r.answers == q.answers
    && forall n: nat :: q.steps(n) == StepIn(r.steps(n).inputs, Without(r.steps(n).cmds, subject))
  }

  ghost predicate NoSwitch(r: Scenario) {
    forall n: nat :: EnterEthernet !in r.steps(n).cmds
  }

  lemma SensingErased(r: Scenario, q: Scenario, n: nat, subject: Subject)
    requires Twin(r, q, subject) && Erased(At(r, n), subject) == Erased(At(q, n), subject)
    ensures Erased(Sensing(r, n), subject) == Erased(Sensing(q, n), subject)
  {
    hide Stepped;
    assert r.steps(n).inputs == q.steps(n).inputs;
  }

  lemma ServedErased(r: Scenario, q: Scenario, n: nat, subject: Subject)
    requires Twin(r, q, subject) && NoSwitch(r)
    requires Erased(At(r, n), subject) == Erased(At(q, n), subject)
    ensures Erased(Served(r, n), subject) == Erased(Served(q, n), subject)
  {
    hide Stepped, Dispatched, Sensed, Erased;
    var cmds := r.steps(n).cmds;
    SensingErased(r, q, n, subject);
    BatchErased(Sensing(r, n), Sensing(q, n), cmds, r.answers, |cmds|, subject);
    assert cmds[..|cmds|] == cmds;
  }

  /** The outputs that are not the subject's. */
  predicate OtherOutputsEqual(a: Outputs, b: Outputs, subject: Subject) {
    match subject
    case Knife => a.wrap == b.wrap
    case Wrapper => a.knivesIn == b.knivesIn && a.knivesOut == b.knivesOut
  }

  lemma StepErased(r: Scenario, q: Scenario, n: nat, subject: Subject)
    requires Twin(r, q, subject) && NoSwitch(r)
    requires Erased(At(r, n), subject) == Erased(At(q, n), subject)
    ensures Erased(At(r, n + 1), subject) == Erased(At(q, n + 1), subject)
    ensures OtherOutputsEqual(OutputsOf(r, n), OutputsOf(q, n), subject)
    ensures ManualStep(r, n) ==> OutputsOf(r, n) == OutputsOf(q, n)
  {
    ServedErased(r, q, n, subject);
    WithoutKeepsManual(r.steps(n).cmds, subject);
    assert r.steps(n).inputs == q.steps(n).inputs;
    var s, t := Served(r, n), Served(q, n);
    assert At(r, n + 1) == s.(ctl := Driven(s.ctl, HasManual(r.steps(n).cmds), r.steps(n).inputs.healthy).0);
    assert At(q, n + 1) == t.(ctl := Driven(t.ctl, HasManual(q.steps(n).cmds), q.steps(n).inputs.healthy).0);
  }

  /** What a snapshot shows besides the subject. */
  function OtherView(seen: StateSnapshot, subject: Subject): StateSnapshot {
    match subject
    case Knife => seen.(knifeActive := false)
    case Wrapper => seen.(wrapActive := false, fullLatched := false)
  }

  lemma ErasedShowsOthers(s: Sys, t: Sys, subject: Subject)
    requires Erased(s, subject) == Erased(t, subject)
    ensures OtherView(Snapshot(s.ctl), subject) == OtherView(Snapshot(t.ctl), subject)
  {
  }

  lemma ErasedAtStart(r: Scenario, q: Scenario, subject: Subject)
    requires Twin(r, q, subject)
    ensures Erased(At(r, 0), subject) == Erased(At(q, 0), subject)
  {
  }

  lemma {:induction false} ErasedRuns(r: Scenario, q: Scenario, n: nat, subject: Subject)
    requires Twin(r, q, subject) && NoSwitch(r)
    ensures Erased(At(r, n), subject) == Erased(At(q, n), subject)
  {
    hide *;
    if n == 0 {
      ErasedAtStart(r, q, subject);
    } else {
      ErasedRuns(r, q, n - 1, subject);
      StepErased(r, q, n - 1, subject);
    }
  }

  /** Independence: without mode switches, deleting all knife commands leaves the wrap output, counters,
      mode, latch and manual countdown of every step unchanged; deleting all wrap commands leaves
      everything but the wrap output and the latch unchanged. */
  lemma DeletingOneLeavesTheOther(r: Scenario, q: Scenario, n: nat, subject: Subject)
    requires Twin(r, q, subject) && NoSwitch(r)
    ensures Erased(At(r, n), subject) == Erased(At(q, n), subject)
    ensures OtherView(Snapshot(At(r, n).ctl), subject) == OtherView(Snapshot(At(q, n).ctl), subject)
    ensures OtherOutputsEqual(OutputsOf(r, n), OutputsOf(q, n), subject)
  {
    hide *;
    ErasedRuns(r, q, n, subject);
    ErasedShowsOthers(At(r, n), At(q, n), subject);
    StepErased(r, q, n, subject);
  }

  /** The idle gate is the one coupling: with a mode switch in the run, deleting the knife command
      lets the switch through and the runs part. */
  lemma IdleGateCouples(bus: BusState, answers: Answers)
    ensures var both := [ToggleKnife, EnterEthernet];
            var inputs := Inputs(false, false, false, true);
            var boot := Sys(Boot(L.ZERO), [], 0, bus);
            && Stepped(boot, inputs, both, answers).0.ctl.machine.mode == Operational
            && Stepped(boot, inputs, Without(both, Knife), answers).0.ctl.machine.mode == Ethernet
  {
    var both, one := [ToggleKnife, EnterEthernet], [EnterEthernet];
    assert both[..|both| - 1] == [ToggleKnife];
    assert [ToggleKnife][..0] == [];
    assert Without([ToggleKnife], Knife) == [];
    assert Without(both, Knife) == one;
    var boot := Sys(Boot(L.ZERO), [], 0, bus);
    var s := boot.(ctl := Sensed(boot.ctl, Inputs(false, false, false, true)));
    var t := Commanded(s, both, answers, 1);
    assert Commanded(s, both, answers, 0) == s && t == Dispatched(s, both[0], answers);
    assert t.ctl.pulses.AnyActive() && t.ctl.machine.mode == Operational;
    assert Commanded(s, both, answers, 2) == Dispatched(t, both[1], answers);
    assert Commanded(s, one, answers, 0) == s && Commanded(s, one, answers, 1) == Dispatched(s, one[0], answers);
  }
}
