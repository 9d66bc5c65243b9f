/** The mode machine: bus health, status inputs and the gating of operator commands. */
module Machine {
  import opened Prelude
  import opened Ipc

  datatype Action =
    | FireWrap
    | FireKnife
    | ClearSession
    | CorrectSession(delta: I8)
    | ClearTotal
    | SwitchToEthernet
    | SwitchToEthercat

  datatype Reject = NotReady | NotIdle | AlreadyEthernet | NotInEthernet

  datatype MachineState = MachineState(mode: Mode, baleFull: bool, knifeIn: Option<bool>)

  const BOOT := MachineState(Initializing, false, None)

  function Unknowns(m: MachineState): MachineState {
    m.(baleFull := false, knifeIn := None)
  }

  function WithHealth(m: MachineState, healthy: bool): MachineState {
    if m.mode == Ethernet then m
    else if healthy then m.(mode := Operational)
    else Unknowns(m).(mode := if m.mode == Operational || m.mode == Fault then Fault else Initializing)
  }

  function WithInputs(m: MachineState, baleFull: bool, knifeIn: bool): MachineState {
    if m.mode == Operational then m.(baleFull := baleFull, knifeIn := Some(knifeIn)) else m
  }

  function Handled(m: MachineState, cmd: Command, anyPulseActive: bool): (MachineState, Result<Action, Reject>) {
    match cmd
    case Wrap => (m, if m.mode == Operational then Ok(FireWrap) else Err(NotReady))
    case ToggleKnife => (m, if m.mode == Operational then Ok(FireKnife) else Err(NotReady))
    case ResetSession => (m, Ok(ClearSession))
    case AdjustSession(delta) => (m, Ok(CorrectSession(delta)))
    case ResetTotal => (m, Ok(ClearTotal))
    case EnterEthernet =>
      if m.mode == Ethernet then (m, Err(AlreadyEthernet))
      else if m.mode == Operational && anyPulseActive then (m, Err(NotIdle))
      else (Unknowns(m).(mode := Ethernet), Ok(SwitchToEthernet))
    case ReturnToEthercat =>
      if m.mode == Ethernet then (m.(mode := Initializing), Ok(SwitchToEthercat))
      else (m, Err(NotInEthernet))
    case ManualIo(_) => (m, Err(NotReady))
  }

  /** Why a command is refused, and that a refusal changes nothing: an idle Operational machine, like a faulted or
      booting one, accepts the switch to Ethernet. */
  lemma RefusalReasons(m: MachineState, cmd: Command, anyPulseActive: bool)
    ensures var (after, verdict) := Handled(m, cmd, anyPulseActive);
            && (verdict == Err(AlreadyEthernet) <==> cmd == EnterEthernet && m.mode == Ethernet)
            && (verdict == Err(NotIdle) <==> cmd == EnterEthernet && m.mode == Operational && anyPulseActive)
            && (verdict == Err(NotInEthernet) <==> cmd == ReturnToEthercat && m.mode != Ethernet)
            && (verdict == Err(NotReady) <==>
                cmd.ManualIo? || ((cmd == Wrap || cmd == ToggleKnife) && m.mode != Operational))
            && (verdict == Ok(SwitchToEthernet) <==>
                cmd == EnterEthernet && m.mode != Ethernet && !(m.mode == Operational && anyPulseActive))
            && (after != m ==> verdict == Ok(SwitchToEthernet) || verdict == Ok(SwitchToEthercat))
  {
  }

  class BalerState {
    var mode: Mode
    var baleFull: bool
    var knifeIn: Option<bool>

    function View(): MachineState
      reads this
    {
      MachineState(mode, baleFull, knifeIn)
    }

    constructor ()
      ensures View() == BOOT
    {
      mode, baleFull, knifeIn := Initializing, false, None;
    }

    method MarkInputsUnknown()
      modifies this
      ensures View() == Unknowns(old(View()))
    {
      baleFull := false;
      knifeIn := None;
    }

    method RequireOperational(action: Action) returns (r: Result<Action, Reject>)
      ensures r == if mode == Operational then Ok(action) else Err(NotReady)
    {
      r := if mode == Operational then Ok(action) else Err(NotReady);
    }

    method OnBusHealth(healthy: bool)
      modifies this
      ensures View() == WithHealth(old(View()), healthy)
    {
      if mode == Ethernet {
        return;
      }
      if healthy {
        mode := Operational;
      } else {
        MarkInputsUnknown();
        mode := if mode == Operational || mode == Fault then Fault else Initializing;
      }
    }

    method OnInputs(full: bool, knife: bool)
      modifies this
      ensures View() == WithInputs(old(View()), full, knife)
    {
      if mode == Operational {
        baleFull := full;
        knifeIn := Some(knife);
      }
    }

    method Handle(cmd: Command, anyPulseActive: bool) returns (r: Result<Action, Reject>)
      modifies this
      ensures (View(), r) == Handled(old(View()), cmd, anyPulseActive)
    {
      match cmd {
        case Wrap =>
          r := RequireOperational(FireWrap);
        case ToggleKnife =>
          r := RequireOperational(FireKnife);
        case ResetSession =>
          r := Ok(ClearSession);
        case AdjustSession(delta) =>
          r := Ok(CorrectSession(delta));
        case ResetTotal =>
          r := Ok(ClearTotal);
        case EnterEthernet =>
          if mode == Ethernet {
            r := Err(AlreadyEthernet);
          } else if mode == Operational && anyPulseActive {
            r := Err(NotIdle);
          } else {
            mode := Ethernet;
            MarkInputsUnknown();
            r := Ok(SwitchToEthernet);
          }
        case ReturnToEthercat =>
          if mode == Ethernet {
            mode := Initializing;
            r := Ok(SwitchToEthercat);
          } else {
            r := Err(NotInEthernet);
          }
        case ManualIo(_) =>
          r := Err(NotReady);
      }
    }
  }
}
