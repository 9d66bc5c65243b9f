/** The messages between daemon and panel, and the per-cycle IO values. */
module Ipc {
  import opened Prelude

  datatype Mode = Initializing | Operational | Fault | Ethernet

  datatype Outputs = Outputs(wrap: bool, knivesIn: bool, knivesOut: bool)

  datatype Command =
    | Wrap
    | ToggleKnife
    | ResetSession
    | ResetTotal
    | EnterEthernet
    | ReturnToEthercat
    | ManualIo(bits: Outputs)
    | AdjustSession(delta: I8)

  datatype KnifePos = Unknown | In | Out

  datatype Ip = Ip(a: U8, b: U8, c: U8, d: U8)

  datatype StateSnapshot = StateSnapshot(
    mode: Mode, baleFull: bool, knife: KnifePos, wrapArmed: bool, fullLatched: bool,
    wrapActive: bool, knifeActive: bool, session: U64, total: U64,
    di1: bool, di2: bool, di3: bool, ip: Ip, ipValid: bool)

  datatype Inputs = Inputs(baleFull: bool, knifeIn: bool, baleOpen: bool, healthy: bool)

  const ALL_LOW := Outputs(false, false, false)
}
