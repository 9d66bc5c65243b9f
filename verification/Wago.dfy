/**
 The coupler's process image: one input byte, one output byte, the master's lifecycle.

 The receive queue, the connector's health and the outcome of each send belong to the outside
 world. A bus object is given the outcomes of all its sends in advance (`sendOk(k)` is the outcome
 of the k-th one) and keeps the list of what it sent.
*/
module Wago {
  import opened Prelude
  import opened Ipc
  import opened Ports

  const BIT_BALE_FULL: bv8 := 0
  const BIT_KNIFE_IN: bv8 := 1
  const BIT_BALE_OPEN: bv8 := 2
  const BIT_WRAP: bv8 := 0
  const BIT_KNIVES_IN: bv8 := 1
  const BIT_KNIVES_OUT: bv8 := 2

  predicate Bit(byte: bv8, idx: bv8)
    requires idx < 8
  {
    (byte >> idx) & 1 == 1
  }

  function SetBit(byte: bv8, idx: bv8, on: bool): bv8
    requires idx < 8
  {
    if on then byte | (1 << idx) else byte & !(1 << idx)
  }

  function Encode(out: Outputs): bv8 {
    SetBit(SetBit(SetBit(0, BIT_WRAP, out.wrap), BIT_KNIVES_IN, out.knivesIn), BIT_KNIVES_OUT, out.knivesOut)
  }

  function Decode(byte: bv8, healthy: bool): Inputs {
    Inputs(Bit(byte, BIT_BALE_FULL), Bit(byte, BIT_KNIFE_IN), Bit(byte, BIT_BALE_OPEN), healthy)
  }

  /** On the wire bale-full is bit 0, knife-in bit 1 and bale-open bit 2; the upper bits mean nothing. */
  lemma DecodeBits(byte: bv8, healthy: bool)
    ensures Decode(byte, healthy) == Inputs(byte & 1 != 0, byte & 2 != 0, byte & 4 != 0, healthy)
  {
  }

  /** On the wire the wrap is bit 0, knives-in bit 1 and knives-out bit 2, and the upper bits are always low. */
  lemma EncodeReadsBack(out: Outputs)
    ensures Encode(out) & 1 != 0 <==> out.wrap
    ensures Encode(out) & 2 != 0 <==> out.knivesIn
    ensures Encode(out) & 4 != 0 <==> out.knivesOut
    ensures Encode(out) & 0xF8 == 0
  {
    assert Encode(out)
        == (if out.wrap then 1 else 0) | (if out.knivesIn then 2 else 0) | (if out.knivesOut then 4 else 0);
  }

  datatype Health = Up | Connecting | Degraded | Down

  datatype Received = Message(byte: bv8) | ReceiveError

  datatype Send = Send(byte: bv8, ok: bool)

  datatype BusState = BusState(
    connected: bool, queue: seq<Received>, health: Health,
    lastInput: bv8, lastOutput: Option<bv8>, restartRequested: bool, sends: seq<Send>)

  /** What one drain of the receive queue leaves: the queue and the newest byte. A receive error
      ends the drain early. */
  function Drained(queue: seq<Received>, last: bv8): (seq<Received>, bv8) {
    if queue == [] then (queue, last)
    else if queue[0].ReceiveError? then (queue[1..], last)
    else Drained(queue[1..], queue[0].byte)
  }

  /** The byte of the newest message, or `last` if there is none. */
  function Newest(queue: seq<Received>, last: bv8): bv8 {
    if queue == [] then last
    else if queue[|queue| - 1].Message? then queue[|queue| - 1].byte
    else Newest(queue[..|queue| - 1], last)
  }

  lemma {:induction false} NewestOfTail(queue: seq<Received>, last: bv8)
    requires queue != [] && queue[0].Message?
    ensures Newest(queue, last) == Newest(queue[1..], queue[0].byte)
  {
    if |queue| == 1 {
    } else {
      var front := queue[..|queue| - 1];
      assert queue[1..][..|queue[1..]| - 1] == front[1..];
      NewestOfTail(front, last);
    }
  }

  /** A drain reads everything up to the first receive error, keeps the newest byte, and leaves what
      stands behind the error for the next cycle. */
  lemma {:induction false} DrainReadsUpToError(good: seq<Received>, rest: seq<Received>, last: bv8)
    requires ReceiveError !in good
    ensures Drained(good, last) == ([], Newest(good, last))
    ensures Drained(good + [ReceiveError] + rest, last) == (rest, Newest(good, last))
    decreases |good|
  {
    if good == [] {
      assert (good + [ReceiveError] + rest)[1..] == rest;
    } else {
      assert good[0].Message?;
      assert (good + [ReceiveError] + rest)[1..] == good[1..] + [ReceiveError] + rest;
      DrainReadsUpToError(good[1..], rest, good[0].byte);
      NewestOfTail(good, last);
    }
  }

  function Polled(b: BusState): (BusState, Inputs) {
    if !b.connected then (b, Inputs(false, false, false, false))
    else
      var (queue, last) := Drained(b.queue, b.lastInput);
      (b.(queue := queue, lastInput := last), Decode(last, b.health == Up))
  }

  function Written(b: BusState, out: Outputs, sendOk: nat -> bool): BusState {
    var byte := Encode(out);
    if !b.connected || b.lastOutput == Some(byte) then b
    else
      var ok := sendOk(|b.sends|);
      b.(sends := b.sends + [Send(byte, ok)], lastOutput := if ok then Some(byte) else b.lastOutput)
  }

  function Suspended(b: BusState): BusState {
    b.(connected := false)
  }

  function RestartFlagged(b: BusState): BusState {
    b.(restartRequested := true)
  }

  /** The input channel: messages the connector has delivered and nobody has read yet. */
  class ChannelReader {
    var queue: seq<Received>

    constructor (queue: seq<Received>)
      ensures this.queue == queue
    {
      this.queue := queue;
    }

    /** Ok(None) when the queue is empty. */
    method TryRecv() returns (r: Result<Option<bv8>, ()>)
      modifies this
      ensures old(queue) == [] ==> r == Ok(None) && queue == []
      ensures old(queue) != [] ==>
        && queue == old(queue)[1..]
        && r == if old(queue)[0].Message? then Ok(Some(old(queue)[0].byte)) else Err(())
    {
      if queue == [] {
        return Ok(None);
      }
      r := if queue[0].Message? then Ok(Some(queue[0].byte)) else Err(());
      queue := queue[1..];
    }
  }

  class WagoBus {
    var connected: bool
    const reader: ChannelReader
    var health: Health
    var lastInput: bv8
    var lastOutput: Option<bv8>
    var restartRequested: bool
    var sends: seq<Send>
    const sendOk: nat -> bool
    const log: PortLog

    function View(): BusState
      reads this, reader
    {
      BusState(connected, reader.queue, health, lastInput, lastOutput, restartRequested, sends)
    }

    /** A freshly registered bus. */
    constructor (reader: ChannelReader, health: Health, sendOk: nat -> bool, log: PortLog)
      ensures this.reader == reader && this.sendOk == sendOk && this.log == log
      ensures View() == BusState(true, reader.queue, health, 0, None, false, [])
    {
      this.reader, this.sendOk, this.log := reader, sendOk, log;
      connected, this.health, lastInput := true, health, 0;
      lastOutput, restartRequested, sends := None, false, [];
    }

    /** The part played by the executor between two cycles: new messages and the latest health. */
    method Deliver(arrivals: seq<Received>, health: Health)
      modifies this, reader
      ensures View() == old(View()).(queue := old(View()).queue + arrivals, health := health)
    {
      reader.queue := reader.queue + arrivals;
      this.health := health;
    }

    method Poll() returns (inputs: Inputs)
      modifies this, reader
      ensures (View(), inputs) == Polled(old(View()))
    {
      if !connected {
        return Inputs(false, false, false, false);
      }
      while true
        invariant View() == old(View()).(queue := reader.queue, lastInput := lastInput)
        invariant Drained(reader.queue, lastInput) == Drained(old(reader.queue), old(lastInput))
        decreases |reader.queue|
      {
        ghost var before := reader.queue;
        var r := reader.TryRecv();
        match r {
          case Ok(Some(byte)) => lastInput := byte;
          case Ok(None) => break;
          case Err(_) => break;
        }
      }
      inputs := Decode(lastInput, health == Up);
    }

    method Write(out: Outputs)
      modifies this
      ensures View() == Written(old(View()), out, sendOk)
    {
      if !connected {
        return;
      }
      var byte: bv8 := 0;
      byte := SetBit(byte, BIT_WRAP, out.wrap);
      byte := SetBit(byte, BIT_KNIVES_IN, out.knivesIn);
      byte := SetBit(byte, BIT_KNIVES_OUT, out.knivesOut);
      if lastOutput != Some(byte) {
        var ok := sendOk(|sends|);
        sends := sends + [Send(byte, ok)];
        if ok {
          lastOutput := Some(byte);
        }
      }
    }

    method TakeRestartRequest() returns (r: bool)
      modifies this
      ensures r == old(restartRequested)
      ensures View() == old(View()).(restartRequested := false)
    {
      r := restartRequested;
      restartRequested := false;
    }

    method Suspend()
      modifies this, log
      ensures View() == Suspended(old(View()))
      ensures log.calls == old(log.calls) + [PortCall.Suspend]
    {
      log.calls := log.calls + [PortCall.Suspend];
      if connected {
        connected := false;
      }
    }

    method Restart()
      modifies this, log
      ensures View() == RestartFlagged(old(View()))
      ensures log.calls == old(log.calls) + [PortCall.Restart]
    {
      log.calls := log.calls + [PortCall.Restart];
      restartRequested := true;
    }
  }
}
