/**
 One hardware process: the 10 ms item that polls the coupler, runs the control cycle, writes the
 outputs, pets the watchdog and publishes, until it asks the executor to stop.
*/
module Process {
  import opened Ipc
  import opened Ports
  import opened Wago
  import opened Control
  import L = Ledger

  const BRINGUP_DEADLINE_MS := 12_000

  /** What the outside world contributes to one cycle. */
  datatype CycleIn = CycleIn(elapsedMs: nat, arrivals: seq<Received>, health: Health, cmds: seq<Command>)

  datatype ProcEvent = WriteOutputs(out: Outputs) | Pet | Publish(seen: StateSnapshot)

  datatype Proc = Proc(sys: Sys, everUp: bool, maintenance: bool, exited: bool, log: seq<ProcEvent>)

  function Delivered(b: BusState, c: CycleIn): BusState {
    b.(queue := b.queue + c.arrivals, health := c.health)
  }

  function Sampled(p: Proc, c: CycleIn): (Proc, Inputs) {
    var (bus, inputs) := Polled(Delivered(p.sys.bus, c));
    (p.(sys := p.sys.(bus := bus), everUp := p.everUp || inputs.healthy), inputs)
  }

  /** The bus has never been up, nobody asked for maintenance mode, and the time for bring-up is over. */
  predicate DeadlineLapsed(p: Proc, c: CycleIn) {
    !p.everUp && !p.maintenance && c.elapsedMs >= BRINGUP_DEADLINE_MS
  }

  function Controlled(p: Proc, inputs: Inputs, cmds: seq<Command>, answers: Answers): (Proc, Outputs) {
    var (sys, out) := Stepped(p.sys, inputs, cmds, answers);
    (p.(sys := sys, maintenance := p.maintenance || sys.ctl.machine.mode == Ethernet), out)
  }

  /** The end of a cycle: leave on a pending restart request, otherwise write, pet and publish. */
  function Finished(p: Proc, out: Outputs, sendOk: nat -> bool): Proc {
    if p.sys.bus.restartRequested then
      p.(sys := p.sys.(bus := p.sys.bus.(restartRequested := false)), exited := true)
    else
      p.(sys := p.sys.(bus := Written(p.sys.bus, out, sendOk)),
         log := p.log + [WriteOutputs(out), Pet, Publish(Snapshot(p.sys.ctl))])
  }

  /** What one cycle of a running process books in the counters. */
  function CycleEntries(p: Proc, c: CycleIn): seq<L.Entry> {
    var (polled, inputs) := Sampled(p, c);
    if DeadlineLapsed(polled, c) then [] else Bookings(polled.sys.ctl, inputs, c.cmds)
  }

  /** One cycle of a running process. */
  function Cycled(p: Proc, c: CycleIn, answers: Answers, sendOk: nat -> bool): Proc {
    var (polled, inputs) := Sampled(p, c);
    if DeadlineLapsed(polled, c) then
      polled.(exited := true)
    else
      var (q, out) := Controlled(polled, inputs, c.cmds, answers);
      Finished(q, out, sendOk)
  }

  lemma SnapshotShowsMode(c: ControlState)
    ensures Snapshot(c).mode == c.machine.mode
  {
  }

  /** The executor item with everything it owns. */
  class ControlItem {
    const control: Control
    const bus: WagoBus
    const net: NetworkController
    var everUp: bool
    var maintenance: bool
    var exitFlag: bool
    /** The writes, pets and publications so far. */
    ghost var log: seq<ProcEvent>

    ghost predicate Valid()
      reads this, control, control.Parts()
    {
      control.Valid() && net.log == bus.log
    }

    ghost function View(): Proc
      reads this, control, control.Parts(), net, net.log, bus, bus.reader
    {
      Proc(control.System(net, bus), everUp, maintenance, exitFlag, log)
    }

    constructor (control: Control, bus: WagoBus, net: NetworkController)
      requires control.Valid() && net.log == bus.log
      ensures Valid()
      ensures View() == Proc(control.System(net, bus), false, false, false, [])
      ensures this.control == control && this.bus == bus && this.net == net
    {
      this.control, this.bus, this.net := control, bus, net;
      everUp, maintenance, exitFlag, log := false, false, false, [];
    }

    method PollBus(c: CycleIn) returns (inputs: Inputs)
      requires Valid()
      modifies `everUp, bus, bus.reader
      ensures Valid()
      ensures (View(), inputs) == Sampled(old(View()), c)
    {
      bus.Deliver(c.arrivals, c.health);
      inputs := bus.Poll();
      if inputs.healthy {
        everUp := true;
      }
    }

    method RunControl(inputs: Inputs, cmds: seq<Command>) returns (outputs: Outputs, snapshot: StateSnapshot)
      requires Valid()
      modifies `maintenance, control, control.Parts(), net, net.log, bus
      ensures Valid()
      ensures (control.System(net, bus), outputs) == Stepped(old(control.System(net, bus)), inputs, cmds, net.answers)
      ensures snapshot == Snapshot(control.System(net, bus).ctl)
      ensures maintenance == (old(maintenance) || control.System(net, bus).ctl.machine.mode == Ethernet)
      ensures control.counters.entries
           == old(control.counters.entries) + Bookings(old(control.System(net, bus)).ctl, inputs, cmds)
    {
      assert this !in control.Parts();
      hide *;
      outputs, snapshot := control.Step(inputs, cmds, net, bus);
      SnapshotShowsMode(control.System(net, bus).ctl);
      if snapshot.mode == Ethernet {
        maintenance := true;
      }
    }

    method Finish(outputs: Outputs, snapshot: StateSnapshot)
      requires Valid() && snapshot == Snapshot(View().sys.ctl)
      modifies `exitFlag, `log, bus
      ensures Valid()
      ensures View() == Finished(old(View()), outputs, bus.sendOk)
    {
      hide Written, Snapshot;
      var restart := bus.TakeRestartRequest();
      if restart {
        exitFlag := true;
        return;
      }
      bus.Write(outputs);
      log := log + [WriteOutputs(outputs), Pet, Publish(snapshot)];
    }

    method Cycle(c: CycleIn)
      requires Valid()
      modifies this, control, control.Parts(), net, net.log, bus, bus.reader
      ensures Valid()
      ensures View() == Cycled(old(View()), c, net.answers, bus.sendOk)
      ensures control.counters.entries == old(control.counters.entries) + CycleEntries(old(View()), c)
    {
      hide Sampled, Stepped, Finished, Snapshot, Bookings, Control.System, Control.Valid;
      var inputs := PollBus(c);
      if !everUp && !maintenance && c.elapsedMs >= BRINGUP_DEADLINE_MS {
        exitFlag := true;
        return;
      }
      var outputs, snapshot := RunControl(inputs, c.cmds);
      Finish(outputs, snapshot);
    }
  }
}
