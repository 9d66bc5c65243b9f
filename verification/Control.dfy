/**
 The 10 ms control cycle.

 `ControlState` is everything a `Control` object remembers between cycles; `Sys` adds the ports it
 drives, with the ordered list of calls made on them. `Stepped` is the effect of one cycle, built from
 the same three phases as the code: sense the inputs, work through the commands, drive the outputs.
*/
module Control {
  import opened Prelude
  import opened Ipc
  import opened Machine
  import opened Ports
  import opened Wago
  import IC = InputConditioner
  import P = Pulse
  import L = Ledger
  import Counter
  import Disk

  const SCAN: P.Duration := P.FromMillis(10)
  const PULSE: P.Duration := P.FromMillis(5_000)
  const DEBOUNCE: U8 := 3
  const FULL_LATCH_CYCLES: U32 := 2000
  const MANUAL_IO_WATCHDOG: U32 := 30

  datatype Senses = Senses(
    fullDb: IC.Conditioned, knifeDb: IC.Conditioned, openDb: IC.Conditioned,
    lastOpenLevel: bool, di1: bool, di2: bool, di3: bool)

  datatype Pulses = Pulses(wrap: P.PulseState, knivesIn: P.PulseState, knivesOut: P.PulseState) {
    predicate KnifeActive() {
      knivesIn.active || knivesOut.active
    }

    predicate AnyActive() {
      wrap.active || KnifeActive()
    }

    function Levels(): Outputs {
      Outputs(wrap.active, knivesIn.active, knivesOut.active)
    }
  }

  datatype Manual = Manual(left: U32, bits: Outputs)

  datatype ControlState = ControlState(
    counters: L.Counters, machine: MachineState, pulses: Pulses, senses: Senses,
    lastIp: Option<Ip>, fullLatch: U32, manual: Manual)

  datatype Sys = Sys(ctl: ControlState, calls: seq<PortCall>, asked: nat, bus: BusState)

  function Boot(counters: L.Counters): ControlState {
    ControlState(
      counters, BOOT, Pulses(P.Idle(PULSE), P.Idle(PULSE), P.Idle(PULSE)),
      Senses(IC.Fresh(DEBOUNCE, false), IC.Fresh(DEBOUNCE, false), IC.Fresh(DEBOUNCE, false),
             false, false, false, false),
      None, 0, Manual(0, ALL_LOW))
  }

  // ---- Phase 1: inputs -------------------------------------------------------------------------

  function SensesAfter(n: Senses, inputs: Inputs): Senses {
    var openDb := IC.Sample(n.openDb, inputs.baleOpen).0;
    Senses(IC.Sample(n.fullDb, inputs.baleFull).0, IC.Sample(n.knifeDb, inputs.knifeIn).0, openDb,
           openDb.level, inputs.baleFull, inputs.knifeIn, inputs.baleOpen)
  }

  function Sensed(c: ControlState, inputs: Inputs): ControlState {
    var senses := SensesAfter(c.senses, inputs);
    var machine := WithHealth(c.machine, inputs.healthy);
    c.(senses := senses,
       machine := if inputs.healthy then WithInputs(machine, senses.fullDb.level, senses.knifeDb.level) else machine,
       counters := if inputs.healthy && senses.openDb.level && !c.senses.lastOpenLevel
                   then L.Book(c.counters, L.Bale) else c.counters,
       fullLatch := if inputs.healthy && senses.fullDb.level then FULL_LATCH_CYCLES
                    else if c.fullLatch > 0 then c.fullLatch - 1 else 0)
  }

  // ---- Phase 2: commands -----------------------------------------------------------------------

  function KnifeFired(p: Pulses, inward: bool): Pulses {
    if p.KnifeActive() then p
    else if inward then p.(knivesIn := P.Triggered(p.knivesIn).0)
    else p.(knivesOut := P.Triggered(p.knivesOut).0)
  }

  /** Carry out an action the mode machine has granted; its own state is already updated. */
  function Acted(s: Sys, action: Action, answers: Answers): Sys {
    var c := s.ctl;
    match action
    case FireWrap =>
      s.(ctl := c.(pulses := c.pulses.(wrap := P.Triggered(c.pulses.wrap).0), fullLatch := 0))
    case FireKnife =>
      s.(ctl := c.(pulses := KnifeFired(c.pulses, c.senses.knifeDb.level)))
    case ClearSession => s.(ctl := c.(counters := L.Book(c.counters, L.ClearSession)))
    case CorrectSession(delta) => s.(ctl := c.(counters := L.Book(c.counters, L.Adjust(delta))))
    case ClearTotal => s.(ctl := c.(counters := L.Book(c.counters, L.ClearTotal)))
    case SwitchToEthernet =>
      var ip := answers(s.asked).ip;
      Sys(c.(lastIp := ip), s.calls + [Suspend, EnterEthernetCall(ip)], s.asked + 1, Suspended(s.bus))
    case SwitchToEthercat =>
      var ok := answers(s.asked).ok;
      Sys(c.(lastIp := None), s.calls + [EnterEthercatCall(ok), Restart], s.asked + 1, RestartFlagged(s.bus))
  }

  function Dispatched(s: Sys, cmd: Command, answers: Answers): Sys {
    var c := s.ctl;
    if cmd.ManualIo? then s.(ctl := c.(manual := c.manual.(bits := cmd.bits)))
    else if c.manual.left > 0 then s
    else
      var (machine, verdict) := Handled(c.machine, cmd, c.pulses.AnyActive());
      var t := s.(ctl := c.(machine := machine));
      match verdict
      case Ok(action) => Acted(t, action, answers)
      case Err(_) => t
  }

  /** The system after the first i commands of a batch. */
  function Commanded(s: Sys, cmds: seq<Command>, answers: Answers, i: nat): Sys
    requires i <= |cmds|
  {
    if i == 0 then s else Dispatched(Commanded(s, cmds, answers, i - 1), cmds[i - 1], answers)
  }

  predicate HasManual(cmds: seq<Command>) {
    exists i :: 0 <= i < |cmds| && cmds[i].ManualIo?
  }

  // ---- What a cycle books in the counters --------------------------------------------------------

  /** The counter entry an action stands for. */
  function ActionEntries(action: Action): seq<L.Entry> {
    match action
    case ClearSession => [L.ClearSession]
    case CorrectSession(delta) => [L.Adjust(delta)]
    case ClearTotal => [L.ClearTotal]
    case _ => []
  }

  /** The counter entry a served command books; counter commands are granted in every mode. */
  function CommandEntries(cmd: Command): seq<L.Entry> {
    match cmd
    case ResetSession => [L.ClearSession]
    case AdjustSession(delta) => [L.Adjust(delta)]
    case ResetTotal => [L.ClearTotal]
    case _ => []
  }

  lemma VerdictBooks(m: MachineState, cmd: Command, anyPulseActive: bool)
    requires !cmd.ManualIo?
    ensures var verdict := Handled(m, cmd, anyPulseActive).1;
            CommandEntries(cmd) == if verdict.Ok? then ActionEntries(verdict.value) else []
  {
  }

  /** The entries of the first i commands of a batch that is served, in order. */
  function BatchEntries(cmds: seq<Command>, i: nat): seq<L.Entry>
    requires i <= |cmds|
  {
    if i == 0 then [] else BatchEntries(cmds, i - 1) + CommandEntries(cmds[i - 1])
  }

  /** The bale, if the debounced baler-open input rises on a healthy bus. */
  function BaleEntries(c: ControlState, inputs: Inputs): seq<L.Entry> {
    if inputs.healthy && SensesAfter(c.senses, inputs).openDb.level && !c.senses.lastOpenLevel then [L.Bale] else []
  }

  /** Everything one cycle books: at most one bale, then its commands unless they are ignored. */
  function Bookings(c: ControlState, inputs: Inputs, cmds: seq<Command>): seq<L.Entry> {
    BaleEntries(c, inputs) + (if c.manual.left > 0 then [] else BatchEntries(cmds, |cmds|))
  }

  // ---- Phase 3: outputs ------------------------------------------------------------------------

  function Rearmed(left: U32, gotManual: bool): U32 {
    if gotManual then MANUAL_IO_WATCHDOG else if left > 0 then left - 1 else 0
  }

  function ManualLevels(bits: Outputs, healthy: bool): Outputs {
    Outputs(healthy && bits.wrap, healthy && bits.knivesIn, healthy && bits.knivesOut && !bits.knivesIn)
  }

  function PulsesTicked(p: Pulses, healthy: bool): Pulses {
    Pulses(P.Ticked(p.wrap, SCAN, healthy).0, P.Ticked(p.knivesIn, SCAN, healthy).0,
           P.Ticked(p.knivesOut, SCAN, healthy).0)
  }

  function Driven(c: ControlState, gotManual: bool, healthy: bool): (ControlState, Outputs) {
    var left := Rearmed(c.manual.left, gotManual);
    var d := c.(manual := c.manual.(left := left));
    if left > 0 then (d, ManualLevels(c.manual.bits, healthy))
    else
      var pulses := PulsesTicked(c.pulses, healthy);
      (d.(pulses := pulses), pulses.Levels())
  }

  /** One control cycle. */
  function Stepped(s: Sys, inputs: Inputs, cmds: seq<Command>, answers: Answers): (Sys, Outputs) {
    var t := Commanded(s.(ctl := Sensed(s.ctl, inputs)), cmds, answers, |cmds|);
    var (c, out) := Driven(t.ctl, HasManual(cmds), inputs.healthy);
    (t.(ctl := c), out)
  }

  function Snapshot(c: ControlState): StateSnapshot {
    StateSnapshot(
      c.machine.mode,
      c.machine.baleFull,
      match c.machine.knifeIn { case None => Unknown case Some(inward) => if inward then In else Out },
      c.machine.mode == Operational && c.machine.baleFull,
      c.fullLatch > 0,
      c.pulses.wrap.active,
      c.pulses.KnifeActive(),
      c.counters.session, c.counters.total,
      c.senses.di1, c.senses.di2, c.senses.di3,
      if c.lastIp.Some? then c.lastIp.value else Ip(0, 0, 0, 0),
      c.lastIp.Some?)
  }

  // ---- The object ------------------------------------------------------------------------------

  class Control {
    const counters: Counter.CounterStore
    const state: BalerState
    const wrap: P.PulseEngine
    const knivesIn: P.PulseEngine
    const knivesOut: P.PulseEngine
    const fullDb: IC.Debouncer
    const knifeDb: IC.Debouncer
    const openDb: IC.Debouncer
    var lastOpenLevel: bool
    var lastIp: Option<Ip>
    var fullLatchRemaining: U32
    var lastDi1: bool
    var lastDi2: bool
    var lastDi3: bool
    var manualIoRemaining: U32
    var manualBits: Outputs

    ghost function Parts(): set<object> {
      {counters, counters.volume, state, wrap, knivesIn, knivesOut, fullDb, knifeDb, openDb}
    }

    ghost predicate Valid()
      reads this, Parts()
    {
      && counters.Valid()
      && wrap != knivesIn && wrap != knivesOut && knivesIn != knivesOut
      && fullDb != knifeDb && fullDb != openDb && knifeDb != openDb
    }

    function View(): ControlState
      reads this, Parts()
    {
      ControlState(
        counters.counters, state.View(), Pulses(wrap.View(), knivesIn.View(), knivesOut.View()),
        Senses(fullDb.View(), knifeDb.View(), openDb.View(), lastOpenLevel, lastDi1, lastDi2, lastDi3),
        lastIp, fullLatchRemaining, Manual(manualIoRemaining, manualBits))
    }

    ghost function System(net: NetworkController, bus: WagoBus): Sys
      reads this, Parts(), net, net.log, bus, bus.reader
    {
      Sys(View(), net.log.calls, net.asked, bus.View())
    }

    constructor (counters: Counter.CounterStore)
      requires counters.Valid()
      ensures Valid() && fresh(Parts() - {counters, counters.volume})
      ensures this.counters == counters && View() == Boot(counters.counters)
      ensures counters.entries == old(counters.entries)
    {
      hide Counter.CounterStore.Valid;
      this.counters := counters;
      state := new BalerState();
      wrap := new P.PulseEngine(PULSE);
      knivesIn := new P.PulseEngine(PULSE);
      knivesOut := new P.PulseEngine(PULSE);
      fullDb := new IC.Debouncer(DEBOUNCE, false);
      knifeDb := new IC.Debouncer(DEBOUNCE, false);
      openDb := new IC.Debouncer(DEBOUNCE, false);
      lastOpenLevel, lastIp, fullLatchRemaining := false, None, 0;
      lastDi1, lastDi2, lastDi3 := false, false, false;
      manualIoRemaining, manualBits := 0, ALL_LOW;
    }

    /** Load the counters and build the cycle on them; it fails exactly when loading fails. */
    static method New(path: Disk.Path, volume: Counter.Volume) returns (r: Result<Control, Counter.IoError>)
      modifies volume
      ensures volume.files == old(volume.files)
      ensures r.Ok? <==> volume.outcome(old(volume.calls)).ok && Disk.Readable(volume.files, path.name)
      ensures r.Ok? ==>
        && fresh(r.value) && r.value.Valid() && fresh(r.value.Parts() - {volume})
        && r.value.counters.path == path && r.value.counters.volume == volume
        && r.value.counters.origin == volume.files && r.value.counters.entries == []
        && r.value.View() == Boot(Counter.Loaded(volume.files, path))
    {
      hide Counter.CounterStore.Valid, Counter.Means, Counter.Loaded, Boot;
      var store := Counter.CounterStore.Load(path, volume);
      match store {
        case Err(e) =>
          return Err(e);
        case Ok(counters) =>
          var control := new Control(counters);
          return Ok(control);
      }
    }

    /** A failed persist is logged and otherwise ignored: the cycle must go on. */
    method Book(entry: L.Entry)
      requires Valid()
      modifies counters, counters.volume
      ensures Valid()
      ensures counters.counters == L.Book(old(counters.counters), entry)
      ensures counters.entries == old(counters.entries) + [entry]
    {
      match entry {
        case Bale => var _ := counters.IncrementBale();
        case Adjust(delta) => var _ := counters.AdjustSession(delta);
        case ClearSession => var _ := counters.ResetSession();
        case ClearTotal => var _ := counters.ResetTotal();
      }
    }

    method UpdateDebouncers(inputs: Inputs)
      requires Valid()
      modifies `lastDi1, `lastDi2, `lastDi3, fullDb, knifeDb, openDb
      ensures Valid()
      ensures View().senses == SensesAfter(old(View().senses), inputs).(lastOpenLevel := lastOpenLevel)
    {
      lastDi1 := inputs.baleFull;
      lastDi2 := inputs.knifeIn;
      lastDi3 := inputs.baleOpen;
      var _ := fullDb.Update(inputs.baleFull);
      var _ := knifeDb.Update(inputs.knifeIn);
      var _ := openDb.Update(inputs.baleOpen);
    }

    method Condition(inputs: Inputs)
      requires Valid()
      modifies `lastDi1, `lastDi2, `lastDi3, state, fullDb, knifeDb, openDb
      ensures Valid()
      ensures
        var c := old(View()); var senses := SensesAfter(c.senses, inputs);
        var machine := WithHealth(c.machine, inputs.healthy);
        View() == c.(
          senses := senses.(lastOpenLevel := c.senses.lastOpenLevel),
          machine := if inputs.healthy then WithInputs(machine, senses.fullDb.level, senses.knifeDb.level) else machine)
    {
      hide Counter.CounterStore.Valid, IC.Sample;
      state.OnBusHealth(inputs.healthy);
      UpdateDebouncers(inputs);
      if inputs.healthy {
        state.OnInputs(fullDb.level, knifeDb.level);
      }
    }

    method CountBale(healthy: bool)
      requires Valid()
      modifies `lastOpenLevel, counters, counters.volume
      ensures Valid()
      ensures View() == old(View()).(
        counters := if healthy && openDb.level && !old(lastOpenLevel)
                    then L.Book(old(View().counters), L.Bale) else old(View().counters),
        senses := old(View().senses).(lastOpenLevel := openDb.level))
      ensures counters.entries
           == old(counters.entries) + if healthy && openDb.level && !old(lastOpenLevel) then [L.Bale] else []
    {
      var openLevel := openDb.level;
      if healthy && openLevel && !lastOpenLevel {
        Book(L.Bale);
      }
      lastOpenLevel := openLevel;
    }

    method HoldFullLatch(healthy: bool)
      modifies `fullLatchRemaining
      ensures fullLatchRemaining
           == if healthy && fullDb.level then FULL_LATCH_CYCLES
              else if old(fullLatchRemaining) > 0 then old(fullLatchRemaining) - 1 else 0
    {
      if healthy && fullDb.level {
        fullLatchRemaining := FULL_LATCH_CYCLES;
      } else if fullLatchRemaining > 0 {
        fullLatchRemaining := fullLatchRemaining - 1;
      }
    }

    method Sense(inputs: Inputs)
      requires Valid()
      modifies this, counters, counters.volume, state, fullDb, knifeDb, openDb
      ensures Valid() && manualIoRemaining == old(manualIoRemaining)
      ensures View() == Sensed(old(View()), inputs)
      ensures counters.entries == old(counters.entries) + BaleEntries(old(View()), inputs)
    {
      hide Counter.CounterStore.Valid;
      Condition(inputs);
      CountBale(inputs.healthy);
      HoldFullLatch(inputs.healthy);
    }

    method SenseSystem(inputs: Inputs, net: NetworkController, bus: WagoBus)
      requires Valid()
      modifies this, counters, counters.volume, state, fullDb, knifeDb, openDb
      ensures Valid() && manualIoRemaining == old(View()).manual.left
      ensures System(net, bus) == old(System(net, bus)).(ctl := Sensed(old(System(net, bus)).ctl, inputs))
      ensures counters.entries == old(counters.entries) + BaleEntries(old(View()), inputs)
    {
      assert View().manual.left == manualIoRemaining;
      hide Sensed, BaleEntries, Control.Valid, Control.View;
      Sense(inputs);
    }

    method FireKnifePulse()
      requires Valid()
      modifies knivesIn, knivesOut
      ensures Valid()
      ensures View() == old(View()).(pulses := KnifeFired(old(View()).pulses, knifeDb.level))
    {
      var knifeActive := knivesIn.active || knivesOut.active;
      if !knifeActive {
        if knifeDb.level {
          var _ := knivesIn.Trigger();
        } else {
          var _ := knivesOut.Trigger();
        }
      }
    }

    method LeaveBus(net: NetworkController, bus: WagoBus)
      requires Valid() && net.log == bus.log
      modifies `lastIp, net, net.log, bus
      ensures Valid()
      ensures System(net, bus) == Acted(old(System(net, bus)), SwitchToEthernet, net.answers)
    {
      hide Counter.CounterStore.Valid;
      bus.Suspend();
      lastIp := net.EnterEthernet();
    }

    method RejoinBus(net: NetworkController, bus: WagoBus)
      requires Valid() && net.log == bus.log
      modifies `lastIp, net, net.log, bus
      ensures Valid()
      ensures System(net, bus) == Acted(old(System(net, bus)), SwitchToEthercat, net.answers)
    {
      hide Counter.CounterStore.Valid;
      var _ := net.EnterEthercat();
      bus.Restart();
      lastIp := None;
    }

    method Act(action: Action, net: NetworkController, bus: WagoBus)
      requires Valid() && net.log == bus.log
      modifies this, Parts(), net, net.log, bus
      ensures Valid()
      ensures System(net, bus) == Acted(old(System(net, bus)), action, net.answers)
      ensures manualIoRemaining == old(manualIoRemaining)
      ensures counters.entries == old(counters.entries) + ActionEntries(action)
    {
      hide L.Book, P.Triggered, KnifeFired, Suspended, RestartFlagged, Counter.CounterStore.Valid;
      match action {
        case FireWrap =>
          var _ := wrap.Trigger();
          fullLatchRemaining := 0;
        case FireKnife =>
          FireKnifePulse();
        case ClearSession =>
          Book(L.ClearSession);
        case CorrectSession(delta) =>
          Book(L.Adjust(delta));
        case ClearTotal =>
          Book(L.ClearTotal);
        case SwitchToEthernet =>
          LeaveBus(net, bus);
        case SwitchToEthercat =>
          RejoinBus(net, bus);
      }
    }

    /** The mode machine's verdict on a command; only its own state changes. */
    method Resolve(cmd: Command, net: NetworkController, bus: WagoBus) returns (verdict: Result<Action, Reject>)
      requires Valid()
      modifies state
      ensures Valid()
      ensures var s := old(System(net, bus)); var c := s.ctl;
              var (machine, answer) := Handled(c.machine, cmd, c.pulses.AnyActive());
              verdict == answer && System(net, bus) == s.(ctl := c.(machine := machine))
    {
      hide Handled;
      var knifeActive := knivesIn.active || knivesOut.active;
      var anyActive := wrap.active || knifeActive;
      verdict := state.Handle(cmd, anyActive);
    }

    method Dispatch(cmd: Command, net: NetworkController, bus: WagoBus)
      requires Valid() && net.log == bus.log
      modifies this, Parts(), net, net.log, bus
      ensures Valid()
      ensures System(net, bus) == Dispatched(old(System(net, bus)), cmd, net.answers)
      ensures manualIoRemaining == old(manualIoRemaining)
      ensures counters.entries
           == old(counters.entries) + if manualIoRemaining > 0 then [] else CommandEntries(cmd)
    {
      if cmd.ManualIo? {
        manualBits := cmd.bits;
        return;
      }
      if manualIoRemaining > 0 {
        return;
      }
      hide Acted, ActionEntries, CommandEntries, Control.System, Control.Valid;
      VerdictBooks(state.View(), cmd, View().pulses.AnyActive());
      var verdict := Resolve(cmd, net, bus);
      if verdict.Ok? {
        Act(verdict.value, net, bus);
      }
    }

    /** Work through a batch; the result says whether it held a ManualIo. */
    method Serve(commands: seq<Command>, net: NetworkController, bus: WagoBus) returns (gotManual: bool)
      requires Valid() && net.log == bus.log
      modifies this, Parts(), net, net.log, bus
      ensures Valid() && manualIoRemaining == old(manualIoRemaining)
      ensures System(net, bus) == Commanded(old(System(net, bus)), commands, net.answers, |commands|)
      ensures gotManual == HasManual(commands)
      ensures counters.entries
           == old(counters.entries) + if manualIoRemaining > 0 then [] else BatchEntries(commands, |commands|)
    {
      hide Dispatched, CommandEntries, Control.Valid, Control.System;
      gotManual := false;
      for i := 0 to |commands|
        invariant Valid() && manualIoRemaining == old(manualIoRemaining)
        invariant System(net, bus) == Commanded(old(System(net, bus)), commands, net.answers, i)
        invariant gotManual <==> exists j :: 0 <= j < i && commands[j].ManualIo?
        invariant counters.entries
               == old(counters.entries) + if manualIoRemaining > 0 then [] else BatchEntries(commands, i)
      {
        if commands[i].ManualIo? {
          gotManual := true;
        }
        Dispatch(commands[i], net, bus);
      }
    }

    method Drive(gotManual: bool, healthy: bool) returns (outputs: Outputs)
      requires Valid()
      modifies this, wrap, knivesIn, knivesOut
      ensures Valid()
      ensures (View(), outputs) == Driven(old(View()), gotManual, healthy)
    {
      if gotManual {
        manualIoRemaining := MANUAL_IO_WATCHDOG;
      } else if manualIoRemaining > 0 {
        manualIoRemaining := manualIoRemaining - 1;
      }
      if manualIoRemaining > 0 {
        var inward := healthy && manualBits.knivesIn;
        outputs := Outputs(healthy && manualBits.wrap, inward, healthy && manualBits.knivesOut && !inward);
      } else {
        var _ := wrap.Tick(SCAN, healthy);
        var _ := knivesIn.Tick(SCAN, healthy);
        var _ := knivesOut.Tick(SCAN, healthy);
        outputs := Outputs(wrap.active, knivesIn.active, knivesOut.active);
      }
    }

    method DriveSystem(gotManual: bool, healthy: bool, net: NetworkController, bus: WagoBus) returns (outputs: Outputs)
      requires Valid()
      modifies this, wrap, knivesIn, knivesOut
      ensures Valid() && counters.entries == old(counters.entries)
      ensures var s := old(System(net, bus)); var (c, out) := Driven(s.ctl, gotManual, healthy);
              outputs == out && System(net, bus) == s.(ctl := c)
    {
      hide Driven, Control.Valid, Control.View;
      outputs := Drive(gotManual, healthy);
    }

    method Step(inputs: Inputs, commands: seq<Command>, net: NetworkController, bus: WagoBus)
      returns (outputs: Outputs, snapshot: StateSnapshot)
      requires Valid() && net.log == bus.log
      modifies this, Parts(), net, net.log, bus
      ensures Valid()
      ensures (System(net, bus), outputs) == Stepped(old(System(net, bus)), inputs, commands, net.answers)
      ensures snapshot == Snapshot(View())
      ensures counters.entries == old(counters.entries) + Bookings(old(View()), inputs, commands)
    {
      hide Sensed, Commanded, Driven, Snapshot, BaleEntries, BatchEntries, HasManual;
      hide Control.Valid, Control.View, Control.System;
      SenseSystem(inputs, net, bus);
      var gotManual := Serve(commands, net, bus);
      outputs := DriveSystem(gotManual, inputs.healthy, net, bus);
      snapshot := Snapshot(View());
    }
  }
}
