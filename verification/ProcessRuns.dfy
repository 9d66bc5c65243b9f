/** What reaches the wire and the panel over the whole life of one hardware process. */
module ProcessRuns {
  import opened Prelude
  import opened Ipc
  import opened Machine
  import opened Wago
  import opened Ports
  import opened Control
  import opened Process
  import opened ModeSafety
  import opened PortTrace
  import Runs
  import L = Ledger

  /** One life of the process: its start values and everything the outside world will do. */
  datatype Life = Life(
    loaded: L.Counters, health: Health, cycles: nat -> CycleIn, answers: Answers, sendOk: nat -> bool)

  function Start(e: Life): Proc {
    Proc(Sys(Boot(e.loaded), [], 0, BusState(true, [], e.health, 0, None, false, [])), false, false, false, [])
  }

  /** The process after n cycles; a process that has asked to stop runs no further cycle. */
  function After(e: Life, n: nat): Proc {
    if n == 0 then Start(e)
    else
      var p := After(e, n - 1);
      if p.exited then p else Cycled(p, e.cycles(n - 1), e.answers, e.sendOk)
  }

  /** The inputs cycle n polls. */
  function InputsOf(e: Life, n: nat): Inputs {
    Sampled(After(e, n), e.cycles(n)).1
  }

  // ---- Every process is a run of the control cycle ---------------------------------------------

  function ScenarioOf(e: Life): Runs.Scenario {
    Runs.Scenario(
      e.loaded, Start(e).sys.bus, (n: nat) => Runs.StepIn(InputsOf(e, n), e.cycles(n).cmds), e.answers)
  }

  /** The control state and port calls never depend on the bus object behind the ports. */
  predicate SameControl(s: Sys, t: Sys) {
    s.ctl == t.ctl && s.calls == t.calls && s.asked == t.asked
  }

  lemma DispatchSameControl(s: Sys, t: Sys, cmd: Command, answers: Answers)
    requires SameControl(s, t)
    ensures SameControl(Dispatched(s, cmd, answers), Dispatched(t, cmd, answers))
  {
  }

  lemma {:induction false} BatchSameControl(s: Sys, t: Sys, cmds: seq<Command>, answers: Answers, i: nat)
    requires SameControl(s, t) && i <= |cmds|
    ensures SameControl(Commanded(s, cmds, answers, i), Commanded(t, cmds, answers, i))
  {
    hide Dispatched;
    if i == 0 {
    } else {
      BatchSameControl(s, t, cmds, answers, i - 1);
      DispatchSameControl(Commanded(s, cmds, answers, i - 1), Commanded(t, cmds, answers, i - 1), cmds[i - 1], answers);
    }
  }

  lemma StepSameControl(s: Sys, t: Sys, inputs: Inputs, cmds: seq<Command>, answers: Answers)
    requires SameControl(s, t)
    ensures SameControl(Stepped(s, inputs, cmds, answers).0, Stepped(t, inputs, cmds, answers).0)
    ensures Stepped(s, inputs, cmds, answers).1 == Stepped(t, inputs, cmds, answers).1
  {
    hide Dispatched;
    BatchSameControl(
      s.(ctl := Sensed(s.ctl, inputs)), t.(ctl := Sensed(t.ctl, inputs)), cmds, answers, |cmds|);
  }

  /** The system when cycle n enters the control step, with the polled bus. */
  function Entering(e: Life, n: nat): Sys {
    Sampled(After(e, n), e.cycles(n)).0.sys
  }

  /** What the control step of cycle n returns. */
  function StepOf(e: Life, n: nat): (Sys, Outputs) {
    Stepped(Entering(e, n), InputsOf(e, n), e.cycles(n).cmds, e.answers)
  }

  predicate LeavesByDeadline(e: Life, n: nat) {
    DeadlineLapsed(Sampled(After(e, n), e.cycles(n)).0, e.cycles(n))
  }

  /** Polling moves only the receive side, and only a connected bus can be healthy. */
  lemma PollKeeps(b: BusState, c: CycleIn)
    ensures var (polled, inputs) := Polled(Delivered(b, c));
            && polled == b.(queue := polled.queue, health := c.health, lastInput := polled.lastInput)
            && (inputs.healthy <==> b.connected && c.health == Up)
  {
  }

  /** The cases of one cycle of a running process. */
  lemma CycleCases(e: Life, n: nat)
    requires !After(e, n).exited
    ensures var p, q := After(e, n), After(e, n + 1); var (s, out) := StepOf(e, n);
            && SameControl(Entering(e, n), p.sys)
            && (LeavesByDeadline(e, n) ==>
                && q.exited && q.log == p.log && SameControl(q.sys, p.sys)
                && q.sys.bus.sends == p.sys.bus.sends)
            && (!LeavesByDeadline(e, n) ==> SameControl(q.sys, s) && q.exited == s.bus.restartRequested)
            && (!LeavesByDeadline(e, n) && q.exited ==> q.log == p.log && q.sys.bus.sends == s.bus.sends)
            && (!q.exited ==>
                && q.sys.bus == Written(s.bus, out, e.sendOk)
                && q.log == p.log + [WriteOutputs(out), Pet, Publish(Snapshot(s.ctl))])
            && q.everUp == (p.everUp || InputsOf(e, n).healthy)
            && (!LeavesByDeadline(e, n) ==> q.maintenance == (p.maintenance || s.ctl.machine.mode == Ethernet))
  {
    PollKeeps(After(e, n).sys.bus, e.cycles(n));
    hide Stepped, Written, Snapshot, Polled;
  }

  /** As long as the process runs, it is exactly the control run on its polled inputs: every theorem
      about control runs holds of the process. */
  lemma {:induction false} ProcessIsControlRun(e: Life, n: nat)
    requires !After(e, n).exited
    ensures SameControl(After(e, n).sys, Runs.At(ScenarioOf(e), n))
    ensures SameControl(StepOf(e, n).0, Runs.At(ScenarioOf(e), n + 1))
    ensures StepOf(e, n).1 == Runs.OutputsOf(ScenarioOf(e), n)
  {
    hide Stepped, Cycled, Sampled;
    if n == 0 {
    } else {
      assert !After(e, n - 1).exited;
      ProcessIsControlRun(e, n - 1);
      CycleCases(e, n - 1);
    }
    CycleCases(e, n);
    StepSameControl(Entering(e, n), Runs.At(ScenarioOf(e), n), InputsOf(e, n), e.cycles(n).cmds, e.answers);
  }

  // ---- The master's lifecycle ------------------------------------------------------------------

  /** The master is up until the first switch to Ethernet, and the restart flag stands for a return. */
  ghost predicate BusFollowsCalls(s: Sys, answers: Answers) {
    && PortsInStep(s, answers)
    && (s.bus.connected <==> s.calls == [])
    && (s.bus.restartRequested <==> |s.calls| >= 4)
  }

  lemma DispatchFollowsCalls(s: Sys, cmd: Command, answers: Answers)
    requires BusFollowsCalls(s, answers)
    ensures var t := Dispatched(s, cmd, answers);
            && BusFollowsCalls(t, answers) && |s.calls| <= |t.calls|
            && t.bus.sends == s.bus.sends && t.bus.lastOutput == s.bus.lastOutput
            && (|t.calls| == |s.calls| ==> t.ctl.machine.mode == s.ctl.machine.mode)
  {
    DispatchKeepsPortsInStep(s, cmd, answers);
  }

  lemma {:induction false} BatchFollowsCalls(s: Sys, cmds: seq<Command>, answers: Answers, i: nat)
    requires BusFollowsCalls(s, answers) && i <= |cmds|
    ensures var t := Commanded(s, cmds, answers, i);
            && BusFollowsCalls(t, answers) && |s.calls| <= |t.calls|
            && t.bus.sends == s.bus.sends && t.bus.lastOutput == s.bus.lastOutput
            && (|t.calls| == |s.calls| ==> t.ctl.machine.mode == s.ctl.machine.mode)
  {
    hide Dispatched, BusFollowsCalls;
    if i == 0 {
    } else {
      BatchFollowsCalls(s, cmds, answers, i - 1);
      DispatchFollowsCalls(Commanded(s, cmds, answers, i - 1), cmds[i - 1], answers);
    }
  }

  lemma StepFollowsCalls(s: Sys, inputs: Inputs, cmds: seq<Command>, answers: Answers)
    requires BusFollowsCalls(s, answers)
    ensures var t := Stepped(s, inputs, cmds, answers).0;
            && BusFollowsCalls(t, answers) && |s.calls| <= |t.calls|
            && t.bus.sends == s.bus.sends && t.bus.lastOutput == s.bus.lastOutput
            && (|t.calls| == |s.calls| ==> t.ctl.machine.mode == WithHealth(s.ctl.machine, inputs.healthy).mode)
  {
    var sensed := s.(ctl := Sensed(s.ctl, inputs));
    SensedKeepsPorts(s, inputs, answers);
    assert sensed.ctl.machine.mode == WithHealth(s.ctl.machine, inputs.healthy).mode;
    hide Dispatched, Sensed, WithHealth, PortsInStep;
    BatchFollowsCalls(sensed, cmds, answers, |cmds|);
    DrivenKeepsPorts(Commanded(sensed, cmds, answers, |cmds|), HasManual(cmds), inputs.healthy, answers);
  }

  lemma PollFollowsCalls(e: Life, n: nat)
    requires BusFollowsCalls(After(e, n).sys, e.answers)
    ensures BusFollowsCalls(Entering(e, n), e.answers)
    ensures Entering(e, n).bus.sends == After(e, n).sys.bus.sends
    ensures Entering(e, n).bus.lastOutput == After(e, n).sys.bus.lastOutput
    ensures InputsOf(e, n).healthy ==> After(e, n).sys.bus.connected
  {
    hide Stepped, Cycled, Polled;
    PollKeeps(After(e, n).sys.bus, e.cycles(n));
  }

  lemma {:induction false} BatchKeepsReceived(s: Sys, cmds: seq<Command>, answers: Answers, i: nat)
    requires i <= |cmds|
    ensures var t := Commanded(s, cmds, answers, i);
            t.bus.queue == s.bus.queue && t.bus.lastInput == s.bus.lastInput
  {
    if i == 0 {
    } else {
      BatchKeepsReceived(s, cmds, answers, i - 1);
    }
  }

  lemma StepKeepsReceived(s: Sys, inputs: Inputs, cmds: seq<Command>, answers: Answers)
    ensures var t := Stepped(s, inputs, cmds, answers).0;
            t.bus.queue == s.bus.queue && t.bus.lastInput == s.bus.lastInput
  {
    hide Dispatched, Sensed;
    BatchKeepsReceived(s.(ctl := Sensed(s.ctl, inputs)), cmds, answers, |cmds|);
  }

  /** A running process has switched at most once and not come back: returning always ends it. */
  lemma {:induction false} RunningSwitchedAtMostOnce(e: Life, n: nat)
    requires !After(e, n).exited
    ensures BusFollowsCalls(After(e, n).sys, e.answers) && |After(e, n).sys.calls| <= 2
  {
    hide Stepped, Cycled, Sampled;
    if n == 0 {
      assert BusFollowsCalls(Start(e).sys, e.answers);
    } else {
      assert !After(e, n - 1).exited;
      RunningSwitchedAtMostOnce(e, n - 1);
      PollFollowsCalls(e, n - 1);
      StepFollowsCalls(Entering(e, n - 1), InputsOf(e, n - 1), e.cycles(n - 1).cmds, e.answers);
      CycleCases(e, n - 1);
    }
  }

  /** The bus facts that hold even in the cycle that ends the process. */
  lemma CycleFollowsCalls(e: Life, n: nat)
    requires !After(e, n).exited
    ensures BusFollowsCalls(Entering(e, n), e.answers) && BusFollowsCalls(StepOf(e, n).0, e.answers)
    ensures |Entering(e, n).calls| <= |StepOf(e, n).0.calls|
    ensures StepOf(e, n).0.bus.sends == After(e, n).sys.bus.sends
    ensures StepOf(e, n).0.bus.lastOutput == After(e, n).sys.bus.lastOutput
  {
    hide Stepped, Cycled, Sampled;
    RunningSwitchedAtMostOnce(e, n);
    PollFollowsCalls(e, n);
    StepFollowsCalls(Entering(e, n), InputsOf(e, n), e.cycles(n).cmds, e.answers);
  }

  // ---- What the coupler says ---------------------------------------------------------------------

  /** The messages of a queue before its first receive error, and those behind it. */
  function BeforeError(queue: seq<Received>): seq<Received> {
    if queue == [] || queue[0] == ReceiveError then [] else [queue[0]] + BeforeError(queue[1..])
  }

  function BehindError(queue: seq<Received>): seq<Received> {
    queue[Min(|BeforeError(queue)| + 1, |queue|)..]
  }

  lemma {:induction false} ErrorSplits(queue: seq<Received>)
    ensures var good := BeforeError(queue);
            && ReceiveError !in good && |good| <= |queue|
            && queue == if |good| == |queue| then good else good + [ReceiveError] + BehindError(queue)
  {
    if queue == [] || queue[0] == ReceiveError {
    } else {
      ErrorSplits(queue[1..]);
    }
  }

  /** A drain keeps the newest byte before the first receive error and leaves what stands behind it. */
  lemma DrainSplits(queue: seq<Received>, last: bv8)
    ensures Drained(queue, last) == (BehindError(queue), Newest(BeforeError(queue), last))
  {
    hide Drained, Newest, BeforeError;
    var good := BeforeError(queue);
    ErrorSplits(queue);
    DrainReadsUpToError(good, BehindError(queue), last);
    assert |good| == |queue| ==> BehindError(queue) == [];
  }

  /** The messages that cycle n finds waiting: its own arrivals behind those an earlier receive error held up. */
  function Waiting(e: Life, n: nat): seq<Received> {
    (if n == 0 then [] else BehindError(Waiting(e, n - 1))) + e.cycles(n).arrivals
  }

  /** The byte known after n cycles: the newest one before a receive error, zero until there is one. */
  function Known(e: Life, n: nat): bv8 {
    if n == 0 then 0 else Newest(BeforeError(Waiting(e, n - 1)), Known(e, n - 1))
  }

  /** One poll of a connected bus. */
  lemma PollReads(e: Life, n: nat)
    requires After(e, n).sys.bus.connected
    requires After(e, n).sys.bus.queue == if n == 0 then [] else BehindError(Waiting(e, n - 1))
    requires After(e, n).sys.bus.lastInput == Known(e, n)
    ensures var byte := Known(e, n + 1); var up := e.cycles(n).health == Up;
            InputsOf(e, n) == Inputs(byte & 1 != 0, byte & 2 != 0, byte & 4 != 0, up)
    ensures Entering(e, n).bus.queue == BehindError(Waiting(e, n)) && Entering(e, n).bus.lastInput == Known(e, n + 1)
  {
    hide Stepped, Cycled, Decode, After, Drained, Newest, BeforeError, BehindError;
    DrainSplits(Waiting(e, n), Known(e, n));
    DecodeBits(Known(e, n + 1), e.cycles(n).health == Up);
  }

  /** As long as the master is up, the receive side is told by what was delivered. */
  lemma {:induction false} ReceivedSoFar(e: Life, n: nat)
    requires !After(e, n).exited && After(e, n).sys.calls == []
    ensures After(e, n).sys.bus.connected
    ensures After(e, n).sys.bus.queue == if n == 0 then [] else BehindError(Waiting(e, n - 1))
    ensures After(e, n).sys.bus.lastInput == Known(e, n)
  {
    hide Stepped, Cycled, Sampled, InputsOf, BeforeError, Newest, BehindError;
    RunningSwitchedAtMostOnce(e, n);
    if n == 0 {
    } else {
      assert !After(e, n - 1).exited;
      CycleFollowsCalls(e, n - 1);
      CycleCases(e, n - 1);
      ReceivedSoFar(e, n - 1);
      PollReads(e, n - 1);
      StepKeepsReceived(Entering(e, n - 1), InputsOf(e, n - 1), e.cycles(n - 1).cmds, e.answers);
    }
  }

  /**
   What every cycle polls, in every life. While the master is up the inputs are bits 0, 1 and 2 of the newest
   byte delivered before a receive error, also in cycles whose bus is not healthy, and the health is the
   connector's. Once it is down all inputs are low and the bus counts as not healthy.
  */
  lemma InputsAreWireBits(e: Life, n: nat)
    requires !After(e, n).exited
    ensures var byte := Known(e, n + 1); var up := e.cycles(n).health == Up;
            InputsOf(e, n)
            == if After(e, n).sys.calls == [] then Inputs(byte & 1 != 0, byte & 2 != 0, byte & 4 != 0, up)
               else Inputs(false, false, false, false)
  {
    RunningSwitchedAtMostOnce(e, n);
    if After(e, n).sys.calls == [] {
      ReceivedSoFar(e, n);
      PollReads(e, n);
    } else {
      hide Stepped, Cycled, After;
    }
  }

  // ---- The wire --------------------------------------------------------------------------------

  /** The last byte the writer accepted. */
  function LastAccepted(sends: seq<Send>): Option<bv8> {
    if sends == [] then None
    else if sends[|sends| - 1].ok then Some(sends[|sends| - 1].byte)
    else LastAccepted(sends[..|sends| - 1])
  }

  ghost predicate SafeByte(byte: bv8) {
    !(byte & 2 != 0 && byte & 4 != 0) && byte & 0xF8 == 0
  }

  ghost predicate WireIsSafe(b: BusState) {
    && (forall i :: 0 <= i < |b.sends| ==> SafeByte(b.sends[i].byte))
    && b.lastOutput == LastAccepted(b.sends)
  }

  lemma WriteIsSafe(b: BusState, out: Outputs, sendOk: nat -> bool)
    requires WireIsSafe(b) && !(out.knivesIn && out.knivesOut)
    ensures WireIsSafe(Written(b, out, sendOk))
  {
    EncodeReadsBack(out);
    var c := Written(b, out, sendOk);
    assert SafeByte(Encode(out));
    hide Encode, SafeByte;
    if c.sends != b.sends {
      assert c.sends[..|c.sends| - 1] == b.sends;
    }
  }


  lemma LastOutputKept(e: Life, n: nat)
    requires !After(e, n).exited && After(e, n + 1).exited
    ensures After(e, n + 1).sys.bus.lastOutput == After(e, n).sys.bus.lastOutput
  {
    CycleFollowsCalls(e, n);
    PollKeeps(After(e, n).sys.bus, e.cycles(n));
    hide Stepped, Written, Snapshot, Polled;
  }

  lemma WireStep(e: Life, n: nat)
    requires !After(e, n).exited && WireIsSafe(After(e, n).sys.bus)
    ensures WireIsSafe(After(e, n + 1).sys.bus)
  {
    hide Stepped, Cycled, Sampled;
    CycleCases(e, n);
    CycleFollowsCalls(e, n);
    ProcessIsControlRun(e, n);
    OutputsAreSafe(ScenarioOf(e), n);
    if After(e, n + 1).exited {
      LastOutputKept(e, n);
    } else {
      WriteIsSafe(StepOf(e, n).0.bus, StepOf(e, n).1, e.sendOk);
    }
  }

  /** In every life of the process: no byte handed to the writer has both knife bits or any unused bit
      set, and the remembered output is the last byte the writer accepted. */
  lemma {:induction false} WireSafety(e: Life, n: nat)
    ensures WireIsSafe(After(e, n).sys.bus)
  {
    hide Stepped, Cycled, Sampled;
    if n == 0 {
    } else {
      WireSafety(e, n - 1);
      if !After(e, n - 1).exited {
        WireStep(e, n - 1);
      }
    }
  }

  /** What one cycle sends. It sends exactly if it completes, the master is up at its end, and the byte of its
      outputs differs from the last one the writer accepted; then it sends that byte once, and the writer's next
      answer says whether it was accepted. In a cycle without a healthy bus the byte is zero. */
  lemma CycleSends(e: Life, n: nat)
    requires !After(e, n).exited
    ensures var q, sent, byte := After(e, n + 1), After(e, n).sys.bus.sends, Encode(StepOf(e, n).1);
            && q.sys.bus.sends
               == sent + (if !q.exited && q.sys.calls == [] && LastAccepted(sent) != Some(byte)
                          then [Send(byte, e.sendOk(|sent|))] else [])
            && (!InputsOf(e, n).healthy ==> byte == 0)
  {
    CycleFollowsCalls(e, n);
    WireSafety(e, n);
    ProcessIsControlRun(e, n);
    OutputsAreSafe(ScenarioOf(e), n);
    assert Encode(ALL_LOW) == 0;
    hide Stepped, Cycled, Sampled, Encode, LastAccepted, SafeByte;
    CycleCases(e, n);
  }

  /** Nothing is sent once the master has been suspended for Ethernet mode. */
  lemma {:induction false} NothingSentAfterSuspend(e: Life, m: nat, n: nat)
    requires m <= n && After(e, m).sys.calls != []
    ensures After(e, n).sys.calls != []
    ensures After(e, n).sys.bus.sends == After(e, m).sys.bus.sends
    decreases n
  {
    hide Stepped, Cycled, Sampled;
    if m == n {
    } else {
      NothingSentAfterSuspend(e, m, n - 1);
      if !After(e, n - 1).exited {
        CycleSends(e, n - 1);
        CycleFollowsCalls(e, n - 1);
        CycleCases(e, n - 1);
      }
    }
  }

  // ---- The modes shown to the panel ------------------------------------------------------------

  /** The mode that cycle n publishes, if it publishes. */
  function Shown(e: Life, n: nat): Mode {
    Snapshot(After(e, n + 1).sys.ctl).mode
  }

  ghost predicate MayFollow(before: Mode, after: Mode) {
    match before
    case Initializing => after != Fault
    case Operational => after != Initializing
    case Fault => after != Initializing
    case Ethernet => after == Ethernet
  }

  lemma ModeStep(e: Life, n: nat)
    requires !After(e, n + 1).exited
    ensures MayFollow(After(e, n).sys.ctl.machine.mode, Shown(e, n))
  {
    hide Stepped, Cycled, Sampled;
    assert !After(e, n).exited;
    RunningSwitchedAtMostOnce(e, n);
    RunningSwitchedAtMostOnce(e, n + 1);
    CycleCases(e, n);
    PollFollowsCalls(e, n);
    StepFollowsCalls(Entering(e, n), InputsOf(e, n), e.cycles(n).cmds, e.answers);
  }

  /** The modes of the first n cycles read Initializing*, then nothing or Operational followed by
      Operational and Fault in any order, then Ethernet*; a and b are where the parts begin. */
  ghost predicate ModeWord(e: Life, a: nat, b: nat, n: nat) {
    && a <= b <= n
    && (forall k: nat :: k < a ==> Shown(e, k) == Initializing)
    && (a < b ==> Shown(e, a) == Operational)
    && (forall k: nat :: a <= k < b ==> Shown(e, k) == Operational || Shown(e, k) == Fault)
    && (forall k: nat :: b <= k < n ==> Shown(e, k) == Ethernet)
  }

  lemma {:induction false} ModesFormWord(e: Life, n: nat) returns (a: nat, b: nat)
    requires !After(e, n).exited
    ensures ModeWord(e, a, b, n)
  {
    hide Cycled;
    if n == 0 {
      a, b := 0, 0;
    } else {
      assert !After(e, n - 1).exited;
      a, b := ModesFormWord(e, n - 1);
      ModeStep(e, n - 1);
      hide Shown;
      assert n > 1 ==> After(e, n - 1).sys.ctl.machine.mode == Shown(e, n - 2);
      match Shown(e, n - 1) {
        case Initializing => a, b := n, n;
        case Ethernet =>
        case _ => b := n;
      }
    }
  }

  // ---- Leaving the process ---------------------------------------------------------------------

  /** The two backstop flags remember a healthy poll and an Ethernet cycle. */
  lemma {:induction false} BackstopFlags(e: Life, n: nat)
    requires !After(e, n).exited
    ensures After(e, n).everUp <==> exists k: nat :: k < n && InputsOf(e, k).healthy
    ensures After(e, n).maintenance <==> exists k: nat :: k < n && Shown(e, k) == Ethernet
  {
    hide Stepped, Cycled, Sampled, InputsOf;
    if n == 0 {
    } else {
      assert !After(e, n - 1).exited;
      BackstopFlags(e, n - 1);
      CycleCases(e, n - 1);
      var last: nat := n - 1;
      assert InputsOf(e, last).healthy || !InputsOf(e, last).healthy;
      assert Shown(e, last) == Ethernet || Shown(e, last) != Ethernet;
    }
  }

  lemma SampledFlags(p: Proc, c: CycleIn)
    ensures var (q, inputs) := Sampled(p, c);
            q.everUp == (p.everUp || inputs.healthy) && q.maintenance == p.maintenance
  {
  }

  /** The bring-up deadline ends the process in cycle n exactly if 12 s are over and no poll up to and
      including this one was healthy and no earlier cycle ended in Ethernet mode. */
  lemma DeadlineExit(e: Life, n: nat)
    requires !After(e, n).exited
    ensures LeavesByDeadline(e, n)
       <==> && e.cycles(n).elapsedMs >= 12_000
            && (forall k: nat :: k <= n ==> !InputsOf(e, k).healthy)
            && (forall k: nat :: k < n ==> Shown(e, k) != Ethernet)
  {
    SampledFlags(After(e, n), e.cycles(n));
    hide Stepped, Cycled, Sampled, Shown, After;
    assert LeavesByDeadline(e, n)
      <==> && e.cycles(n).elapsedMs >= 12_000
           && !After(e, n).everUp && !InputsOf(e, n).healthy && !After(e, n).maintenance;
    hide *;
    BackstopFlags(e, n);
  }

  lemma RestartIsFourthCall(count: nat, answers: Answers)
    ensures Restart in PlannedCalls(count, answers) <==> count >= 4
  {
    var calls := PlannedCalls(count, answers);
    if count >= 4 {
      assert calls[3] == Restart;
    }
  }

  /** A cycle ends the process exactly by the deadline or by serving a return to EtherCAT. */
  lemma ExitReasons(e: Life, n: nat)
    requires !After(e, n).exited
    ensures After(e, n + 1).exited <==> LeavesByDeadline(e, n) || Restart in StepOf(e, n).0.calls
  {
    hide Stepped, Cycled, Sampled;
    CycleCases(e, n);
    CycleFollowsCalls(e, n);
    RestartIsFourthCall(|StepOf(e, n).0.calls|, e.answers);
  }

  lemma LogStep(e: Life, n: nat)
    requires !After(e, n).exited
    ensures After(e, n + 1).log
         == After(e, n).log
            + if After(e, n + 1).exited then []
              else [WriteOutputs(StepOf(e, n).1), Pet, Publish(Snapshot(After(e, n + 1).sys.ctl))]
  {
    hide Stepped, Cycled, Sampled, Snapshot;
    CycleCases(e, n);
  }

  /** Every completed cycle writes once, then pets once, then publishes; a cycle that ends the process
      does none of these. */
  lemma {:induction false} LogIsComplete(e: Life, n: nat)
    ensures !After(e, n).exited ==> |After(e, n).log| == 3 * n
    ensures forall k: nat :: k < n && !After(e, k + 1).exited ==>
      && 3 * k + 3 <= |After(e, n).log|
      && After(e, n).log[3 * k..3 * k + 3]
         == [WriteOutputs(StepOf(e, k).1), Pet, Publish(Snapshot(After(e, k + 1).sys.ctl))]
    ensures forall k: nat :: k < n && !After(e, k).exited && After(e, k + 1).exited ==> |After(e, n).log| == 3 * k
  {
    hide Stepped, Cycled, Sampled, Snapshot, StepOf;
    if n == 0 {
    } else {
      LogIsComplete(e, n - 1);
      if !After(e, n - 1).exited {
        LogStep(e, n - 1);
      }
    }
  }

  // ---- The idle gate in a process --------------------------------------------------------------

  lemma NormalStepIntoEthernet(r: Runs.Scenario, n: nat)
    requires Runs.At(r, n + 1).ctl.manual.left == 0 && Runs.At(r, n + 1).ctl.machine.mode == Ethernet
    requires r.steps(n).inputs.healthy ==> Runs.At(r, n).ctl.machine.mode != Ethernet
    ensures !Runs.At(r, n + 1).ctl.pulses.AnyActive()
  {
    var s, cmds := Runs.Sensing(r, n), r.steps(n).cmds;
    if r.steps(n).inputs.healthy {
      assert QuietUnlessOperational(s.ctl);
      hide Dispatched, Sensed;
      CommandsKeepQuiet(s, cmds, r.answers, |cmds|);
    }
    hide Dispatched, Sensed, Commanded;
    assert Runs.At(r, n + 1).ctl == Driven(Runs.Served(r, n).ctl, HasManual(cmds), r.steps(n).inputs.healthy).0;
  }

  lemma HealthyIsNotAway(e: Life, n: nat)
    requires !After(e, n).exited && InputsOf(e, n).healthy
    ensures After(e, n).sys.ctl.machine.mode != Ethernet
  {
    hide Stepped, Cycled, Sampled, InputsOf, After;
    RunningSwitchedAtMostOnce(e, n);
    PollFollowsCalls(e, n);
  }

  /** A step of a process that ends in Ethernet mode outside the IO test mode ends with all pulses idle: a
      healthy step has come through the idle gate, any other aborts what was running. */
  lemma EthernetIsIdle(e: Life, n: nat)
    requires !After(e, n).exited && After(e, n).sys.ctl.machine.mode == Ethernet
    requires After(e, n).sys.ctl.manual.left == 0
    ensures !After(e, n).sys.ctl.pulses.AnyActive()
  {
    hide Stepped, Cycled, InputsOf, StepOf, Runs.At, Runs.OutputsOf;
    if n == 0 {
    } else {
      assert !After(e, n - 1).exited;
      hide After;
      ProcessIsControlRun(e, n);
      ProcessIsControlRun(e, n - 1);
      if InputsOf(e, n - 1).healthy {
        HealthyIsNotAway(e, n - 1);
      }
      NormalStepIntoEthernet(ScenarioOf(e), n - 1);
    }
  }

  /** In a hardware process the switch passes a running pulse only in the one way: the bus is down in the
      cycle, a pulse was in flight, the mode was not Ethernet yet, and the batch asks for the switch. */
  lemma ProcessSwitchedMidPulseIff(e: Life, n: nat)
    requires !After(e, n).exited
    ensures SwitchedMidPulse(ScenarioOf(e), n)
       <==> var c := After(e, n).sys.ctl;
            && c.manual.left == 0 && c.pulses.AnyActive()
            && c.machine.mode != Ethernet && !InputsOf(e, n).healthy
            && SwitchAsked(e.cycles(n).cmds, 0)
  {
    SwitchedMidPulseIff(ScenarioOf(e), n);
    ProcessIsControlRun(e, n);
    hide Stepped, Cycled, Sampled;
    if After(e, n).sys.ctl.machine.mode == Ethernet && After(e, n).sys.ctl.manual.left == 0 {
      EthernetIsIdle(e, n);
    }
  }
}
