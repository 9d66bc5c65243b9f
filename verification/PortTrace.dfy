/** The calls on the network and bus-master ports over whole runs, and the modes and addresses they account for. */
module PortTrace {
  import opened Prelude
  import opened Ipc
  import opened Machine
  import opened Ports
  import opened Control
  import opened Runs

  /** The call that belongs at position i of (suspend, enter_ethernet, enter_ethercat, restart)*. The network
      is called at every second position pair, so the call at position i gets the answer numbered i / 2. */
  function PlannedCall(i: nat, answers: Answers): PortCall {
    match i % 4
    case 0 => Suspend
    case 1 => EnterEthernetCall(answers(i / 2).ip)
    case 2 => EnterEthercatCall(answers(i / 2).ok)
    case _ => Restart
  }

  function PlannedCalls(count: nat, answers: Answers): seq<PortCall> {
    seq(count, i requires 0 <= i < count => PlannedCall(i, answers))
  }

  /** The calls so far follow the cycle and carry the network's answers in turn; their number tells the mode,
      and the address is the one that the network gave last. */
  ghost predicate PortsInStep(s: Sys, answers: Answers) {
    && s.calls == PlannedCalls(|s.calls|, answers)
    && (|s.calls| % 4 == 0 || |s.calls| % 4 == 2)
    && s.asked == |s.calls| / 2
    && (s.ctl.machine.mode == Ethernet <==> |s.calls| % 4 == 2)
    && s.ctl.lastIp == if |s.calls| % 4 == 2 then answers(s.asked - 1).ip else None
  }

  /** The command leaves the ports alone. */
  ghost predicate PortsUntouched(s: Sys, t: Sys) {
    t.calls == s.calls && t.asked == s.asked && t.ctl.machine.mode == s.ctl.machine.mode && t.ctl.lastIp == s.ctl.lastIp
  }

  /** The command takes the machine to Ethernet mode. */
  ghost predicate PortsLeft(s: Sys, t: Sys, answers: Answers) {
    var ip := answers(s.asked).ip;
    && s.ctl.machine.mode != Ethernet && t.ctl.machine.mode == Ethernet
    && t.calls == s.calls + [Suspend, EnterEthernetCall(ip)]
    && t.asked == s.asked + 1 && t.ctl.lastIp == ip
  }

  /** The command takes the machine back. */
  ghost predicate PortsRejoined(s: Sys, t: Sys, answers: Answers) {
    && s.ctl.machine.mode == Ethernet && t.ctl.machine.mode == Initializing
    && t.calls == s.calls + [EnterEthercatCall(answers(s.asked).ok), Restart]
    && t.asked == s.asked + 1 && t.ctl.lastIp == None
  }

  /** The three ways in which one command can touch the ports, each under its exact condition. */
  lemma DispatchOnPorts(s: Sys, cmd: Command, answers: Answers)
    ensures var t := Dispatched(s, cmd, answers); var c := s.ctl; var mode := c.machine.mode;
            var leaves := cmd == EnterEthernet && c.manual.left == 0 && mode != Ethernet
                            && !(mode == Operational && c.pulses.AnyActive());
            var rejoins := cmd == ReturnToEthercat && c.manual.left == 0 && mode == Ethernet;
            && (leaves ==> PortsLeft(s, t, answers))
            && (rejoins ==> PortsRejoined(s, t, answers))
            && (!leaves && !rejoins ==> PortsUntouched(s, t))
  {
  }

  lemma PlannedCallsGrow(count: nat, answers: Answers)
    ensures PlannedCalls(count + 2, answers)
         == PlannedCalls(count, answers) + [PlannedCall(count, answers), PlannedCall(count + 1, answers)]
  {
    hide PlannedCall;
  }

  /** One round of the cycle, the q-th from 0. */
  lemma Round(q: nat, answers: Answers)
    ensures PlannedCall(4 * q, answers) == Suspend
    ensures PlannedCall(4 * q + 1, answers) == EnterEthernetCall(answers(2 * q).ip)
    ensures PlannedCall(4 * q + 2, answers) == EnterEthercatCall(answers(2 * q + 1).ok)
    ensures PlannedCall(4 * q + 3, answers) == Restart
  {
    assert (4 * q + 1) / 2 == 2 * q && (4 * q + 2) / 2 == 2 * q + 1;
  }

  /** The next two calls of the cycle. */
  lemma NextCalls(count: nat, answers: Answers)
    ensures count % 4 == 0 ==>
      PlannedCalls(count + 2, answers)
      == PlannedCalls(count, answers) + [Suspend, EnterEthernetCall(answers(count / 2).ip)]
    ensures count % 4 == 2 ==>
      PlannedCalls(count + 2, answers)
      == PlannedCalls(count, answers) + [EnterEthercatCall(answers(count / 2).ok), Restart]
  {
    hide PlannedCalls, PlannedCall;
    var q := count / 4;
    PlannedCallsGrow(count, answers);
    Round(q, answers);
    if count % 4 == 0 {
      assert count == 4 * q && count / 2 == 2 * q;
    } else if count % 4 == 2 {
      assert count == 4 * q + 2 && count / 2 == 2 * q + 1;
    }
  }

  lemma PairsOfCalls(count: nat)
    requires count % 4 == 0 || count % 4 == 2
    ensures (count + 2) / 2 == count / 2 + 1 && (count + 2) % 4 == 2 - count % 4
  {
  }

  lemma DispatchKeepsPortsInStep(s: Sys, cmd: Command, answers: Answers)
    requires PortsInStep(s, answers)
    ensures PortsInStep(Dispatched(s, cmd, answers), answers)
  {
    hide Dispatched, PlannedCalls;
    DispatchOnPorts(s, cmd, answers);
    NextCalls(|s.calls|, answers);
    PairsOfCalls(|s.calls|);
  }

  /** The input and output phases do not touch what PortsInStep speaks of. */
  lemma SensedKeepsPorts(s: Sys, inputs: Inputs, answers: Answers)
    requires PortsInStep(s, answers)
    ensures PortsInStep(s.(ctl := Sensed(s.ctl, inputs)), answers)
  {
    hide PlannedCalls;
  }

  lemma DrivenKeepsPorts(s: Sys, gotManual: bool, healthy: bool, answers: Answers)
    requires PortsInStep(s, answers)
    ensures PortsInStep(s.(ctl := Driven(s.ctl, gotManual, healthy).0), answers)
  {
    hide PlannedCalls;
  }

  lemma {:induction false} CommandsKeepPortsInStep(s: Sys, cmds: seq<Command>, answers: Answers, i: nat)
    requires i <= |cmds| && PortsInStep(s, answers)
    ensures PortsInStep(Commanded(s, cmds, answers, i), answers)
  {
    hide Dispatched, PortsInStep;
    if i == 0 {
    } else {
      CommandsKeepPortsInStep(s, cmds, answers, i - 1);
      DispatchKeepsPortsInStep(Commanded(s, cmds, answers, i - 1), cmds[i - 1], answers);
    }
  }

  lemma StepKeepsPorts(s: Sys, inputs: Inputs, cmds: seq<Command>, answers: Answers)
    requires PortsInStep(s, answers)
    ensures PortsInStep(Stepped(s, inputs, cmds, answers).0, answers)
  {
    hide Dispatched, Sensed, Driven, PortsInStep;
    var sensed := s.(ctl := Sensed(s.ctl, inputs));
    SensedKeepsPorts(s, inputs, answers);
    CommandsKeepPortsInStep(sensed, cmds, answers, |cmds|);
    DrivenKeepsPorts(Commanded(sensed, cmds, answers, |cmds|), HasManual(cmds), inputs.healthy, answers);
  }

  lemma StartInStep(r: Scenario)
    ensures PortsInStep(At(r, 0), r.answers)
  {
    hide Stepped;
  }

  /** After every command of every step, several switches in one batch included, the calls form a
      prefix of the cycle, carry the network's answers in turn, and agree with the mode and the address. */
  lemma {:induction false} PortCallsFollowCycle(r: Scenario, n: nat)
    ensures PortsInStep(At(r, n), r.answers)
    ensures forall i: nat :: i <= |r.steps(n).cmds| ==> PortsInStep(Mid(r, n, i), r.answers)
  {
    hide Stepped, Sensed, Dispatched, PortsInStep;
    if n == 0 {
      StartInStep(r);
    } else {
      PortCallsFollowCycle(r, n - 1);
      StepKeepsPorts(At(r, n - 1), r.steps(n - 1).inputs, r.steps(n - 1).cmds, r.answers);
    }
    SensedKeepsPorts(At(r, n), r.steps(n).inputs, r.answers);
    forall i: nat | i <= |r.steps(n).cmds|
      ensures PortsInStep(Mid(r, n, i), r.answers)
    {
      CommandsKeepPortsInStep(Sensing(r, n), r.steps(n).cmds, r.answers, i);
    }
  }

  // ---- What the panel is shown of them -----------------------------------------------------------

  function EthernetCalls(calls: seq<PortCall>): nat {
    if calls == [] then 0
    else EthernetCalls(calls[..|calls| - 1]) + Unit(calls[|calls| - 1].EnterEthernetCall?)
  }

  function EthercatCalls(calls: seq<PortCall>): nat {
    if calls == [] then 0
    else EthercatCalls(calls[..|calls| - 1]) + Unit(calls[|calls| - 1].EnterEthercatCall?)
  }

  lemma PlannedKind(i: nat, answers: Answers)
    ensures PlannedCall(i, answers).EnterEthernetCall? <==> i % 4 == 1
    ensures PlannedCall(i, answers).EnterEthercatCall? <==> i % 4 == 2
  {
  }

  lemma Quarters(k: nat)
    ensures (k + 3) / 4 == (k + 2) / 4 + Unit(k % 4 == 1)
    ensures (k + 2) / 4 == (k + 1) / 4 + Unit(k % 4 == 2)
  {
  }

  lemma {:induction false} CycleBalance(count: nat, answers: Answers)
    ensures var calls := PlannedCalls(count, answers);
            && EthernetCalls(calls) == (count + 2) / 4
            && EthercatCalls(calls) == (count + 1) / 4
  {
    var calls := PlannedCalls(count, answers);
    if count == 0 {
    } else {
      var k: nat := count - 1;
      assert calls[..k] == PlannedCalls(k, answers) && calls[k] == PlannedCall(k, answers);
      PlannedKind(k, answers);
      Quarters(k);
      hide PlannedCalls, PlannedCall;
      CycleBalance(k, answers);
    }
  }

  /** At step ends: Ethernet mode means exactly one unreturned switch. The panel's address is valid exactly in
      that mode and if the network's latest answer brought an address, and then it is that answer. */
  lemma ModeIsCallBalance(r: Scenario, n: nat)
    ensures var calls := At(r, n).calls; var seen := Snapshot(At(r, n).ctl);
            var asked := EthernetCalls(calls) + EthercatCalls(calls);
            && (seen.mode == Ethernet <==> EthernetCalls(calls) == EthercatCalls(calls) + 1)
            && (seen.mode != Ethernet <==> EthernetCalls(calls) == EthercatCalls(calls))
            && (seen.ipValid <==> seen.mode == Ethernet && r.answers(asked - 1).ip.Some?)
            && seen.ip == if seen.ipValid then r.answers(asked - 1).ip.value else Ip(0, 0, 0, 0)
  {
    hide Stepped, PlannedCalls;
    PortCallsFollowCycle(r, n);
    CycleBalance(|At(r, n).calls|, r.answers);
  }

  /** Command i of step n. A switch to Ethernet is carried out exactly if commands are not suspended and the machine
      is neither in Ethernet mode nor Operational with a pulse running; a return exactly in Ethernet mode.
      Every idle Operational machine thus accepts the switch. */
  lemma SwitchCarriedOutIff(r: Scenario, n: nat, i: nat)
    requires i < |r.steps(n).cmds|
    ensures var cmd, c := r.steps(n).cmds[i], Mid(r, n, i).ctl;
            && Mid(r, n, i + 1).calls
               == Mid(r, n, i).calls
                  + (if cmd == EnterEthernet && At(r, n).ctl.manual.left == 0 && c.machine.mode != Ethernet
                        && (c.machine.mode == Operational ==> !c.pulses.AnyActive())
                     then [Suspend, EnterEthernetCall(r.answers(Mid(r, n, i).asked).ip)]
                     else if cmd == ReturnToEthercat && At(r, n).ctl.manual.left == 0 && c.machine.mode == Ethernet
                     then [EnterEthercatCall(r.answers(Mid(r, n, i).asked).ok), Restart]
                     else [])
  {
    assert Sensing(r, n).ctl.manual == At(r, n).ctl.manual;
    hide Stepped, Sensed, Dispatched;
    CommandsKeepSenses(Sensing(r, n), r.steps(n).cmds, r.answers, i);
    DispatchOnPorts(Mid(r, n, i), r.steps(n).cmds[i], r.answers);
  }

  // ---- The mode as a function of the bus health since the last restart ---------------------------

  /** A batch that makes port calls ends in Ethernet or starts over; any other leaves the mode alone. */
  lemma {:induction false} BatchOnMode(s: Sys, cmds: seq<Command>, answers: Answers, i: nat)
    requires i <= |cmds|
    ensures var t := Commanded(s, cmds, answers, i);
            && |s.calls| <= |t.calls|
            && (|t.calls| == |s.calls| ==> t.calls == s.calls && t.ctl.machine.mode == s.ctl.machine.mode)
            && (|t.calls| > |s.calls| ==> t.ctl.machine.mode == Ethernet || t.ctl.machine.mode == Initializing)
  {
    hide Dispatched;
    if i == 0 {
    } else {
      BatchOnMode(s, cmds, answers, i - 1);
      DispatchOnPorts(Commanded(s, cmds, answers, i - 1), cmds[i - 1], answers);
    }
  }

  lemma StepOnMode(s: Sys, inputs: Inputs, cmds: seq<Command>, answers: Answers)
    ensures var t := Stepped(s, inputs, cmds, answers).0; var mode := t.ctl.machine.mode;
            && |s.calls| <= |t.calls|
            && (|t.calls| == |s.calls| ==> t.calls == s.calls && mode == WithHealth(s.ctl.machine, inputs.healthy).mode)
            && (|t.calls| > |s.calls| ==> mode == Ethernet || mode == Initializing)
  {
    var sensed := s.(ctl := Sensed(s.ctl, inputs));
    assert sensed.ctl.machine.mode == WithHealth(s.ctl.machine, inputs.healthy).mode;
    hide Dispatched, Sensed, WithHealth;
    BatchOnMode(sensed, cmds, answers, |cmds|);
  }

  /** Step k starts over: it is the first one, or the step before returned from Ethernet mode. */
  ghost predicate StartsOver(r: Scenario, k: nat) {
    k == 0 || (At(r, k).calls != At(r, k - 1).calls && At(r, k).ctl.machine.mode != Ethernet)
  }

  ghost predicate HealthySince(r: Scenario, k: nat, n: nat) {
    exists j: nat :: k <= j < n && r.steps(j).inputs.healthy
  }

  /** Outside Ethernet mode the shown mode is told by the bus health since the machine last started over: it is
      Operational exactly after a healthy step, Fault after an unhealthy one if a healthy one went before, and
      Initializing until there has been one. */
  lemma {:induction false} ModeIsHistory(r: Scenario, n: nat) returns (k: nat)
    requires Snapshot(At(r, n).ctl).mode != Ethernet
    ensures k <= n && StartsOver(r, k) && forall j: nat :: k <= j <= n ==> At(r, j).calls == At(r, n).calls
    ensures Snapshot(At(r, n).ctl).mode
         == if n > k && r.steps(n - 1).inputs.healthy then Operational
            else if HealthySince(r, k, n) then Fault
            else Initializing
  {
    hide Stepped;
    if n == 0 {
      k := 0;
    } else {
      var s, inputs := At(r, n - 1), r.steps(n - 1).inputs;
      StepOnMode(s, inputs, r.steps(n - 1).cmds, r.answers);
      if At(r, n).calls != s.calls {
        k := n;
      } else {
        k := ModeIsHistory(r, n - 1);
        var last: nat := n - 1;
        assert HealthySince(r, k, n) <==> HealthySince(r, k, last) || r.steps(last).inputs.healthy;
      }
    }
  }
}
