/**
 The ports that a mode switch calls: the network switch here, the bus master in `Wago`. Both write the
 calls made on them into one log, so that the order of calls across the two ports is on record.
*/
module Ports {
  import opened Prelude
  import opened Ipc

  /** The calls on the network and bus-master ports, with the network's answers. */
  datatype PortCall =
    | Suspend
    | EnterEthernetCall(ip: Option<Ip>)
    | EnterEthercatCall(ok: bool)
    | Restart

  datatype NetAnswer = NetAnswer(ip: Option<Ip>, ok: bool)

  /** The network's answer to the k-th call made on it. */
  type Answers = nat -> NetAnswer

  class PortLog {
    ghost var calls: seq<PortCall>

    constructor ()
      ensures calls == []
    {
      calls := [];
    }
  }

  /** The NIC switch; `asked` counts the calls made on it. */
  class NetworkController {
    const answers: Answers
    const log: PortLog
    var asked: nat

    constructor (answers: Answers, log: PortLog)
      ensures this.answers == answers && this.log == log && asked == 0
    {
      this.answers, this.log, asked := answers, log, 0;
    }

    method EnterEthernet() returns (ip: Option<Ip>)
      modifies this, log
      ensures ip == answers(old(asked)).ip && asked == old(asked) + 1
      ensures log.calls == old(log.calls) + [EnterEthernetCall(ip)]
    {
      ip := answers(asked).ip;
      asked := asked + 1;
      log.calls := log.calls + [EnterEthernetCall(ip)];
    }

    method EnterEthercat() returns (ok: bool)
      modifies this, log
      ensures ok == answers(old(asked)).ok && asked == old(asked) + 1
      ensures log.calls == old(log.calls) + [EnterEthercatCall(ok)]
    {
      ok := answers(asked).ok;
      asked := asked + 1;
      log.calls := log.calls + [EnterEthercatCall(ok)];
    }
  }
}
