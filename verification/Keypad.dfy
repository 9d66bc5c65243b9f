/** The panel's key loop, as the source of the operator's commands: PIN gating and the IO test page. */
module Keypad {
  import opened Prelude
  import opened Ipc
  import M = Machine

  datatype Button = F1 | F2 | F3 | F4 | F5 | F6 | Up | Down | Left | Right | Enter

  datatype ButtonEvent = Pressed(button: Button) | Released(button: Button)

  /** The function keys sit as F6, F4, F2, F1, F3, F5 on the device; labels count from the left. */
  function Remap(b: Button): Button {
    match b
    case F1 => F4
    case F2 => F3
    case F3 => F5
    case F4 => F2
    case F5 => F6
    case F6 => F1
    case _ => b
  }

  datatype Nav = MainPage | ServicePage | EthernetPage | FaultPage | IoTestPage

  function NextNav(current: Nav, mode: Mode): Nav {
    match mode
    case Fault => if current == ServicePage then ServicePage else FaultPage
    case Ethernet => EthernetPage
    case _ => if current == FaultPage || current == EthernetPage then MainPage else current
  }

  type Pin = s: seq<nat> | |s| == 4 witness [0, 0, 0, 0]

  const SERVICE_PIN: Pin := [1, 2, 3, 4]
  const NO_PIN: Pin := [0, 0, 0, 0]

  datatype PanelState = PanelState(nav: Nav, pin: Pin, cursor: nat, ethernetSelected: bool, held: Outputs) {
    predicate Unlocked() {
      pin == SERVICE_PIN
    }
  }

  const POWER_ON := PanelState(MainPage, NO_PIN, 0, false, ALL_LOW)

  function OnIoTest(p: PanelState, ev: ButtonEvent): PanelState {
    match ev
    case Pressed(b) => (
      match Remap(b)
      case F1 => p.(held := p.held.(wrap := true))
      case F2 => p.(held := p.held.(knivesIn := true))
      case F3 => p.(held := p.held.(knivesOut := true))
      case F6 => p.(held := ALL_LOW, nav := MainPage)
      case _ => p)
    case Released(b) => (
      match Remap(b)
      case F1 => p.(held := p.held.(wrap := false))
      case F2 => p.(held := p.held.(knivesIn := false))
      case F3 => p.(held := p.held.(knivesOut := false))
      case _ => p)
  }

  function OnMain(p: PanelState, softkey: Button): (PanelState, seq<Command>) {
    match softkey
    case F1 => (p, [Wrap])
    case F2 => (p, [ToggleKnife])
    case F3 => (p, [ResetSession])
    case F4 => (p, [AdjustSession(1)])
    case F5 => (p, [AdjustSession(-1)])
    case F6 => (p.(pin := NO_PIN, cursor := 0, nav := ServicePage), [])
    case _ => (p, [])
  }

  function Dialled(p: PanelState, step: nat): PanelState
    requires p.cursor < 4
  {
    p.(pin := p.pin[p.cursor := (p.pin[p.cursor] + step) % 10])
  }

  function OnService(p: PanelState, softkey: Button): (PanelState, seq<Command>)
    requires p.cursor < 4
  {
    match softkey
    case Up => (Dialled(p, 1), [])
    case Down => (Dialled(p, 9), [])
    case Left => (p.(cursor := if p.cursor > 0 then p.cursor - 1 else 0), [])
    case Right => (p.(cursor := if p.cursor < 3 then p.cursor + 1 else p.cursor), [])
    case F1 => (p, if p.Unlocked() then [ResetTotal] else [])
    case F2 =>
      if p.Unlocked() then
        (p.(ethernetSelected := !p.ethernetSelected), [if !p.ethernetSelected then EnterEthernet else ReturnToEthercat])
      else (p, [])
    case F3 => (if p.Unlocked() then p.(held := ALL_LOW, nav := IoTestPage) else p, [])
    case F6 => (p.(pin := NO_PIN, cursor := 0, nav := MainPage), [])
    case _ => (p, [])
  }

  /** One key event: the new panel and the commands it sends. */
  function OnKey(p: PanelState, ev: ButtonEvent): (PanelState, seq<Command>)
    requires p.cursor < 4
  {
    if p.nav == IoTestPage then (OnIoTest(p, ev), [])
    else if ev.Released? then (p, [])
    else
      var softkey := Remap(ev.button);
      match p.nav
      case MainPage => OnMain(p, softkey)
      case ServicePage => OnService(p, softkey)
      case EthernetPage =>
        if softkey == F1 then (p.(ethernetSelected := false), [ReturnToEthercat]) else (p, [])
      case FaultPage =>
        if softkey == F6 then (p.(pin := NO_PIN, cursor := 0, nav := ServicePage), []) else (p, [])
      case IoTestPage => (p, [])
  }

  /** The end of a frame streams the held keys while the IO test page is open. */
  function FrameTail(p: PanelState): seq<Command> {
    if p.nav == IoTestPage then [ManualIo(p.held)] else []
  }

  lemma OnKeyKeepsCursor(p: PanelState, ev: ButtonEvent)
    requires p.cursor < 4
    ensures OnKey(p, ev).0.cursor < 4
  {
  }

  /** The panel and the commands after the first i key events of a frame. */
  function KeysHandled(p: PanelState, events: seq<ButtonEvent>, i: nat): (r: (PanelState, seq<Command>))
    requires p.cursor < 4 && i <= |events|
    ensures r.0.cursor < 4
  {
    if i == 0 then (p, [])
    else
      var (q, sent) := KeysHandled(p, events, i - 1);
      OnKeyKeepsCursor(q, events[i - 1]);
      var (q', more) := OnKey(q, events[i - 1]);
      (q', sent + more)
  }

  /** What one pass of the frame loop sees. */
  datatype FrameIn = FrameIn(mode: Mode, events: seq<ButtonEvent>)

  /** One pass of the frame loop: the new panel and everything it sends. */
  function FrameDone(p: PanelState, f: FrameIn): (PanelState, seq<Command>)
    requires p.cursor < 4
  {
    var (q, keys) := KeysHandled(p.(nav := NextNav(p.nav, f.mode)), f.events, |f.events|);
    (q, keys + FrameTail(q))
  }

  function FramesDone(p: PanelState, frames: seq<FrameIn>): (r: (PanelState, seq<Command>))
    requires p.cursor < 4
    ensures r.0.cursor < 4
  {
    if frames == [] then (p, [])
    else
      var (q, sent) := FramesDone(p, frames[..|frames| - 1]);
      var (q', more) := FrameDone(q, frames[|frames| - 1]);
      (q', sent + more)
  }

  class Panel {
    var nav: Nav
    var pin: Pin
    var cursor: nat
    var ethernetSelected: bool
    var held: Outputs

    function View(): PanelState
      reads this
    {
      PanelState(nav, pin, cursor, ethernetSelected, held)
    }

    constructor ()
      ensures View() == POWER_ON
    {
      nav, pin, cursor, ethernetSelected, held := MainPage, NO_PIN, 0, false, ALL_LOW;
    }

    method ResetPin()
      modifies `pin, `cursor
      ensures pin == NO_PIN && cursor == 0
    {
      pin := NO_PIN;
      cursor := 0;
    }

    method HandleIoTestKey(ev: ButtonEvent)
      modifies this
      ensures View() == OnIoTest(old(View()), ev)
    {
      match ev {
        case Pressed(b) =>
          match Remap(b) {
            case F1 => held := held.(wrap := true);
            case F2 => held := held.(knivesIn := true);
            case F3 => held := held.(knivesOut := true);
            case F6 =>
              held := ALL_LOW;
              nav := MainPage;
            case _ =>
          }
        case Released(b) =>
          match Remap(b) {
            case F1 => held := held.(wrap := false);
            case F2 => held := held.(knivesIn := false);
            case F3 => held := held.(knivesOut := false);
            case _ =>
          }
      }
    }

    method HandleServiceKey(softkey: Button) returns (sent: seq<Command>)
      requires cursor < 4
      modifies this
      ensures cursor < 4
      ensures (View(), sent) == OnService(old(View()), softkey)
    {
      sent := [];
      match softkey {
        case Up => pin := pin[cursor := (pin[cursor] + 1) % 10];
        case Down => pin := pin[cursor := (pin[cursor] + 9) % 10];
        case Left => cursor := if cursor > 0 then cursor - 1 else 0;
        case Right =>
          if cursor < 3 {
            cursor := cursor + 1;
          }
        case F1 =>
          if pin == SERVICE_PIN {
            sent := [ResetTotal];
          }
        case F2 =>
          if pin == SERVICE_PIN {
            ethernetSelected := !ethernetSelected;
            sent := [if ethernetSelected then EnterEthernet else ReturnToEthercat];
          }
        case F3 =>
          if pin == SERVICE_PIN {
            held := ALL_LOW;
            nav := IoTestPage;
          }
        case F6 =>
          ResetPin();
          nav := MainPage;
        case _ =>
      }
    }

    method HandleKey(ev: ButtonEvent) returns (sent: seq<Command>)
      requires cursor < 4
      modifies this
      ensures cursor < 4
      ensures (View(), sent) == OnKey(old(View()), ev)
    {
      sent := [];
      if nav == IoTestPage {
        HandleIoTestKey(ev);
        return;
      }
      if ev.Released? {
        return;
      }
      var softkey := Remap(ev.button);
      match nav {
        case MainPage =>
          match softkey {
            case F1 => sent := [Wrap];
            case F2 => sent := [ToggleKnife];
            case F3 => sent := [ResetSession];
            case F4 => sent := [AdjustSession(1)];
            case F5 => sent := [AdjustSession(-1)];
            case F6 =>
              ResetPin();
              nav := ServicePage;
            case _ =>
          }
        case ServicePage =>
          sent := HandleServiceKey(softkey);
        case EthernetPage =>
          if softkey == F1 {
            sent := [ReturnToEthercat];
            ethernetSelected := false;
          }
        case FaultPage =>
          if softkey == F6 {
            ResetPin();
            nav := ServicePage;
          }
      }
    }

    /** One pass of the frame loop: follow the mode, drain the keys, stream the held bits. */
    method Frame(f: FrameIn) returns (sent: seq<Command>)
      requires cursor < 4
      modifies this
      ensures cursor < 4
      ensures (View(), sent) == FrameDone(old(View()), f)
    {
      var mode, events := f.mode, f.events;
      nav := NextNav(nav, mode);
      ghost var begun := View();
      sent := [];
      for i := 0 to |events|
        invariant cursor < 4
        invariant (View(), sent) == KeysHandled(begun, events, i)
      {
        var more := HandleKey(events[i]);
        sent := sent + more;
      }
      assert begun == old(View()).(nav := NextNav(old(View()).nav, mode));
      ghost var keys := sent;
      if nav == IoTestPage {
        sent := sent + [ManualIo(held)];
      }
      assert sent == keys + FrameTail(View());
    }

    /** The frame loop over any number of frames. */
    method Run(frames: seq<FrameIn>) returns (sent: seq<Command>)
      requires View() == POWER_ON
      modifies this
      ensures (View(), sent) == FramesDone(POWER_ON, frames)
    {
      hide FrameDone;
      sent := [];
      for i := 0 to |frames|
        invariant cursor < 4 && (View(), sent) == FramesDone(POWER_ON, frames[..i])
      {
        assert frames[..i + 1][..i] == frames[..i];
        var more := Frame(frames[i]);
        sent := sent + more;
      }
      assert frames[..|frames|] == frames;
    }
  }

  // ---- Whole runs of the loop --------------------------------------------------------------------

  /** What happens to the panel, one thing at a time: a frame begins with the mode it sees, a key event
      is handled, a frame ends. A run of frames is such a sequence (LoopIsMoments). */
  datatype Moment = FrameBegins(mode: Mode) | Key(ev: ButtonEvent) | FrameEnds

  function At(h: nat -> Moment, n: nat): (p: PanelState)
    ensures p.cursor < 4
  {
    if n == 0 then POWER_ON
    else
      var p := At(h, n - 1);
      match h(n - 1)
      case FrameBegins(mode) => p.(nav := NextNav(p.nav, mode))
      case Key(ev) => OnKeyKeepsCursor(p, ev); OnKey(p, ev).0
      case FrameEnds => p
  }

  /** The commands sent at moment n. */
  function Sent(h: nat -> Moment, n: nat): seq<Command> {
    match h(n)
    case FrameBegins(_) => []
    case Key(ev) => OnKey(At(h, n), ev).1
    case FrameEnds => FrameTail(At(h, n))
  }

  /** The commands sent at the moments from m up to but not including n. */
  function SentBetween(h: nat -> Moment, m: nat, n: nat): seq<Command>
    requires m <= n
  {
    if m == n then [] else SentBetween(h, m, n - 1) + Sent(h, n - 1)
  }

  /** The moments of one frame stand at position m. */
  ghost predicate FrameAt(h: nat -> Moment, m: nat, f: FrameIn) {
    && h(m) == FrameBegins(f.mode)
    && (forall i: nat :: i < |f.events| ==> h(m + 1 + i) == Key(f.events[i]))
    && h(m + 1 + |f.events|) == FrameEnds
  }

  lemma {:induction false} KeysAreMoments(h: nat -> Moment, m: nat, f: FrameIn, i: nat)
    requires FrameAt(h, m, f) && i <= |f.events|
    ensures var begun := At(h, m).(nav := NextNav(At(h, m).nav, f.mode));
            && At(h, m + 1 + i) == KeysHandled(begun, f.events, i).0
            && SentBetween(h, m, m + 1 + i) == KeysHandled(begun, f.events, i).1
  {
    hide OnKey, NextNav;
    if i == 0 {
      assert SentBetween(h, m, m) == [] && Sent(h, m) == [];
    } else {
      var last: nat := i - 1;
      KeysAreMoments(h, m, f, last);
      assert h(m + 1 + last) == Key(f.events[last]);
    }
  }

  /** One pass of the frame loop is exactly its moments: same panel, same commands in the same order. */
  lemma FrameIsMoments(h: nat -> Moment, m: nat, f: FrameIn)
    requires FrameAt(h, m, f)
    ensures var end, (p, sent) := m + |f.events| + 2, FrameDone(At(h, m), f);
            At(h, end) == p && SentBetween(h, m, end) == sent
  {
    hide OnKey, NextNav, KeysHandled;
    KeysAreMoments(h, m, f, |f.events|);
    assert h(m + 1 + |f.events|) == FrameEnds;
  }

  lemma {:induction false} SentSplits(h: nat -> Moment, l: nat, m: nat, n: nat)
    requires l <= m <= n
    ensures SentBetween(h, l, n) == SentBetween(h, l, m) + SentBetween(h, m, n)
    decreases n
  {
    hide Sent;
    if m == n {
    } else {
      SentSplits(h, l, m, n - 1);
    }
  }

  function KeyMoments(events: seq<ButtonEvent>): seq<Moment> {
    seq(|events|, i requires 0 <= i < |events| => Key(events[i]))
  }

  /** The moments of a run of frames, from power-on. */
  function MomentsOf(frames: seq<FrameIn>): seq<Moment> {
    if frames == [] then []
    else
      var f := frames[|frames| - 1];
      MomentsOf(frames[..|frames| - 1])
      + [FrameBegins(f.mode)] + KeyMoments(f.events) + [FrameEnds]
  }

  /** h begins with the given moments. */
  ghost predicate StartsWith(h: nat -> Moment, moments: seq<Moment>) {
    forall i: nat :: i < |moments| ==> h(i) == moments[i]
  }

  lemma FrameStandsAfter(h: nat -> Moment, early: seq<Moment>, f: FrameIn, all: seq<Moment>)
    requires all == early + [FrameBegins(f.mode)] + KeyMoments(f.events) + [FrameEnds] && StartsWith(h, all)
    ensures StartsWith(h, early) && FrameAt(h, |early|, f) && |all| == |early| + |f.events| + 2
  {
    var keys, m := KeyMoments(f.events), |early|;
    assert forall i: nat :: i < |early| ==> all[i] == early[i];
    assert h(m) == all[m] == FrameBegins(f.mode);
    assert h(m + 1 + |keys|) == all[m + 1 + |keys|] == FrameEnds;
    forall i: nat | i < |f.events|
      ensures h(m + 1 + i) == Key(f.events[i])
    {
      var j: nat := m + 1 + i;
      assert h(j) == all[j] == keys[i];
    }
  }

  lemma FrameStands(h: nat -> Moment, frames: seq<FrameIn>)
    requires frames != [] && StartsWith(h, MomentsOf(frames))
    ensures var front, f := frames[..|frames| - 1], frames[|frames| - 1];
            && StartsWith(h, MomentsOf(front)) && FrameAt(h, |MomentsOf(front)|, f)
            && |MomentsOf(frames)| == |MomentsOf(front)| + |f.events| + 2
  {
    FrameStandsAfter(h, MomentsOf(frames[..|frames| - 1]), frames[|frames| - 1], MomentsOf(frames));
  }

  lemma LoopStep(h: nat -> Moment, frames: seq<FrameIn>)
    requires frames != [] && StartsWith(h, MomentsOf(frames))
    requires var front := frames[..|frames| - 1]; var m := |MomentsOf(front)|;
             (At(h, m), SentBetween(h, 0, m)) == FramesDone(POWER_ON, front)
    ensures var n := |MomentsOf(frames)|;
            (At(h, n), SentBetween(h, 0, n)) == FramesDone(POWER_ON, frames)
  {
    hide FrameDone, SentBetween, At, MomentsOf, StartsWith, FrameAt;
    var front, f := frames[..|frames| - 1], frames[|frames| - 1];
    var m, n := |MomentsOf(front)|, |MomentsOf(frames)|;
    FrameStands(h, frames);
    FrameIsMoments(h, m, f);
    SentSplits(h, 0, m, n);
  }

  /** Every run of the frame loop is a sequence of moments: after any frames the panel and the commands
      sent are those of the moments, so what holds at every moment of every sequence holds in the loop. */
  lemma {:induction false} LoopIsMoments(h: nat -> Moment, frames: seq<FrameIn>)
    requires StartsWith(h, MomentsOf(frames))
    ensures var n := |MomentsOf(frames)|;
            (At(h, n), SentBetween(h, 0, n)) == FramesDone(POWER_ON, frames)
  {
    if frames == [] {
      assert MomentsOf(frames) == [];
    } else {
      hide *;
      FrameStands(h, frames);
      LoopIsMoments(h, frames[..|frames| - 1]);
      LoopStep(h, frames);
    }
  }

  lemma {:induction false} IoTestNeedsPin(h: nat -> Moment, n: nat)
    ensures At(h, n).nav == IoTestPage ==> At(h, n).Unlocked()
  {
    if n == 0 {
    } else {
      IoTestNeedsPin(h, n - 1);
    }
  }

  /** No run sends a manual output, a reset of the total, or a switch to Ethernet unless the digits in the
      PIN buffer at that moment are the service PIN. */
  lemma GatedByPin(h: nat -> Moment, n: nat, cmd: Command)
    requires cmd in Sent(h, n)
    requires cmd.ManualIo? || cmd == ResetTotal || cmd == EnterEthernet
    ensures At(h, n).Unlocked()
  {
    IoTestNeedsPin(h, n);
  }

  lemma {:induction false} SentAtSomeMoment(h: nat -> Moment, n: nat, cmd: Command) returns (m: nat)
    requires cmd in SentBetween(h, 0, n)
    ensures m < n && cmd in Sent(h, m)
  {
    hide Sent;
    if cmd in Sent(h, n - 1) {
      m := n - 1;
    } else {
      m := SentAtSomeMoment(h, n - 1, cmd);
    }
  }

  /** The same of the frame loop itself: whatever frames it ran, a gated command among those it sent was
      sent at a moment at which the PIN buffer held the service PIN. */
  lemma LoopIsGatedByPin(frames: seq<FrameIn>, cmd: Command) returns (h: nat -> Moment, m: nat)
    requires cmd in FramesDone(POWER_ON, frames).1
    requires cmd.ManualIo? || cmd == ResetTotal || cmd == EnterEthernet
    ensures StartsWith(h, MomentsOf(frames)) && m < |MomentsOf(frames)|
    ensures cmd in Sent(h, m) && At(h, m).Unlocked()
  {
    var moments := MomentsOf(frames);
    h := (i: nat) => if i < |moments| then moments[i] else FrameEnds;
    LoopIsMoments(h, frames);
    m := SentAtSomeMoment(h, |moments|, cmd);
    GatedByPin(h, m, cmd);
  }

  predicate Presses(h: nat -> Moment, n: nat, softkey: Button) {
    h(n).Key? && h(n).ev.Pressed? && Remap(h(n).ev.button) == softkey
  }

  predicate Releases(h: nat -> Moment, n: nat, softkey: Button) {
    h(n).Key? && h(n).ev.Released? && Remap(h(n).ev.button) == softkey
  }

  /** The key was pressed after moment o and before moment n, and not released since. */
  ghost predicate HeldSince(h: nat -> Moment, o: nat, n: nat, softkey: Button) {
    exists p: nat :: o < p < n && Presses(h, p, softkey) && forall q: nat :: p < q < n ==> !Releases(h, q, softkey)
  }

  /** The IO test page was opened at moment o and has been open ever since. */
  ghost predicate OpenSince(h: nat -> Moment, o: nat, n: nat) {
    && o < n && At(h, o).nav != IoTestPage
    && forall k: nat :: o < k <= n ==> At(h, k).nav == IoTestPage
  }

  lemma HeldStep(h: nat -> Moment, o: nat, n: nat, softkey: Button)
    requires o < n
    ensures HeldSince(h, o, n + 1, softkey)
       <==> Presses(h, n, softkey) || (HeldSince(h, o, n, softkey) && !Releases(h, n, softkey))
  {
    if HeldSince(h, o, n, softkey) && !Releases(h, n, softkey) {
      var p: nat :| o < p < n && Presses(h, p, softkey) && forall q: nat :: p < q < n ==> !Releases(h, q, softkey);
      assert forall q: nat :: p < q < n + 1 ==> !Releases(h, q, softkey);
    }
    if HeldSince(h, o, n + 1, softkey) && !Presses(h, n, softkey) {
      var p: nat :|
        o < p < n + 1 && Presses(h, p, softkey) && forall q: nat :: p < q < n + 1 ==> !Releases(h, q, softkey);
      assert p < n && !Releases(h, n, softkey);
    }
  }

  /** Opening the page takes F3 on the unlocked service page, and starts with no key held. */
  lemma OpeningStep(h: nat -> Moment, n: nat)
    requires At(h, n).nav != IoTestPage && At(h, n + 1).nav == IoTestPage
    ensures Presses(h, n, F3) && At(h, n).Unlocked() && At(h, n + 1).held == ALL_LOW
  {
  }

  /** What one moment does to the bits while the page stays open. */
  lemma StayingStep(h: nat -> Moment, n: nat)
    requires At(h, n).nav == IoTestPage && At(h, n + 1).nav == IoTestPage
    ensures At(h, n + 1).held
         == Outputs(Presses(h, n, F1) || (At(h, n).held.wrap && !Releases(h, n, F1)),
                    Presses(h, n, F2) || (At(h, n).held.knivesIn && !Releases(h, n, F2)),
                    Presses(h, n, F3) || (At(h, n).held.knivesOut && !Releases(h, n, F3)))
  {
  }

  /** On the IO test page each bit tells exactly whether its key has been pressed since the page was
      opened and not been released since that press. */
  lemma {:induction false} BitsAreHeldKeys(h: nat -> Moment, n: nat) returns (o: nat)
    requires At(h, n).nav == IoTestPage
    ensures OpenSince(h, o, n)
    ensures At(h, n).held
         == Outputs(HeldSince(h, o, n, F1), HeldSince(h, o, n, F2), HeldSince(h, o, n, F3))
  {
    assert n > 0;
    hide OnKey, NextNav, Presses, Releases;
    if At(h, n - 1).nav != IoTestPage {
      o := n - 1;
      OpeningStep(h, n - 1);
    } else {
      hide HeldSince, At;
      o := BitsAreHeldKeys(h, n - 1);
      StayingStep(h, n - 1);
      HeldStep(h, o, n - 1, F1);
      HeldStep(h, o, n - 1, F2);
      HeldStep(h, o, n - 1, F3);
    }
  }

  /** Every streamed ManualIo carries exactly the keys held on the page that the service PIN opened. */
  lemma StreamIsHeldKeys(h: nat -> Moment, n: nat, bits: Outputs) returns (o: nat)
    requires ManualIo(bits) in Sent(h, n)
    ensures At(h, n).Unlocked() && OpenSince(h, o, n) && Presses(h, o, F3) && At(h, o).Unlocked()
    ensures bits == Outputs(HeldSince(h, o, n, F1), HeldSince(h, o, n, F2), HeldSince(h, o, n, F3))
  {
    GatedByPin(h, n, ManualIo(bits));
    o := BitsAreHeldKeys(h, n);
    OpeningStep(h, o);
  }

  // ---- The toggle on the service page ---------------------------------------------------------------

  /** The mode the panel has last seen. */
  function SeenMode(h: nat -> Moment, n: nat): Mode {
    if n == 0 then Initializing
    else if h(n - 1).FrameBegins? then h(n - 1).mode
    else SeenMode(h, n - 1)
  }

  /** F2 is pressed on the unlocked service page. */
  predicate Toggles(h: nat -> Moment, n: nat) {
    At(h, n).nav == ServicePage && At(h, n).Unlocked() && Presses(h, n, F2)
  }

  /** F1 is pressed on the Ethernet page. */
  predicate Returns(h: nat -> Moment, n: nat) {
    At(h, n).nav == EthernetPage && Presses(h, n, F1)
  }

  /** The toggles since the last return from the Ethernet page, or since power-on. */
  function TogglesSinceReturn(h: nat -> Moment, n: nat): nat {
    if n == 0 || Returns(h, n - 1) then 0
    else TogglesSinceReturn(h, n - 1) + Unit(Toggles(h, n - 1))
  }

  lemma ToggleStep(h: nat -> Moment, n: nat)
    ensures At(h, n + 1).ethernetSelected
         == if Returns(h, n) then false
            else if Toggles(h, n) then !At(h, n).ethernetSelected
            else At(h, n).ethernetSelected
  {
  }

  /** The panel's idea of the Ethernet mode is the parity of its own key presses, whatever the daemon does. */
  lemma {:induction false} SelectedIsParity(h: nat -> Moment, n: nat)
    ensures At(h, n).ethernetSelected <==> TogglesSinceReturn(h, n) % 2 == 1
  {
    hide OnKey, NextNav, Returns, Toggles;
    if n == 0 {
    } else {
      SelectedIsParity(h, n - 1);
      ToggleStep(h, n - 1);
    }
  }

  /** A panel that has seen Ethernet mode is on the Ethernet page, so the service page is only ever used
      in another mode. */
  lemma {:induction false} EthernetShowsItsPage(h: nat -> Moment, n: nat)
    ensures SeenMode(h, n) == Ethernet ==> At(h, n).nav == EthernetPage
  {
    if n == 0 {
    } else {
      EthernetShowsItsPage(h, n - 1);
    }
  }

  /** F2 at moment n does what its caption says: it asks for the switch exactly if the panel has not
      seen the daemon in Ethernet mode. */
  ghost predicate AsksAsCaptioned(h: nat -> Moment, n: nat) {
    Sent(h, n) == [EnterEthernet] <==> SeenMode(h, n) != Ethernet
  }

  /** That fails for every second press: F2 asks for the switch exactly if an even number of toggles went
      before it since the last return. The other presses ask for a return that nobody is away from. */
  lemma AsksAsCaptionedIff(h: nat -> Moment, n: nat)
    requires Toggles(h, n)
    ensures AsksAsCaptioned(h, n) <==> TogglesSinceReturn(h, n) % 2 == 0
    ensures !AsksAsCaptioned(h, n) ==> Sent(h, n) == [ReturnToEthercat]
  {
    hide NextNav, At, SeenMode, TogglesSinceReturn;
    SelectedIsParity(h, n);
    EthernetShowsItsPage(h, n);
  }

  /** The service page with the PIN dialled in, and three presses of F2 there. */
  ghost predicate ThreeToggles(h: nat -> Moment, n: nat) {
    && At(h, n).nav == ServicePage && At(h, n).Unlocked() && TogglesSinceReturn(h, n) % 2 == 0
    && Presses(h, n, F2) && Presses(h, n + 1, F2) && Presses(h, n + 2, F2)
  }

  lemma ToggleStays(h: nat -> Moment, n: nat)
    requires Toggles(h, n)
    ensures At(h, n + 1).nav == ServicePage && At(h, n + 1).Unlocked()
    ensures TogglesSinceReturn(h, n + 1) == TogglesSinceReturn(h, n) + 1
  {
  }

  /** A refused switch costs a press: while a pulse runs, the daemon refuses the first press as not idle and
      the second as nothing to return from; only the third asks for the switch again. */
  lemma RefusedSwitchCostsAPress(h: nat -> Moment, n: nat, m: M.MachineState, active: bool)
    requires ThreeToggles(h, n) && m.mode == Operational
    ensures Sent(h, n) == Sent(h, n + 2) == [EnterEthernet] && Sent(h, n + 1) == [ReturnToEthercat]
    ensures M.Handled(m, EnterEthernet, true) == (m, Err(M.NotIdle))
    ensures M.Handled(m, ReturnToEthercat, active) == (m, Err(M.NotInEthernet))
  {
    hide OnKey, NextNav, At, SeenMode, TogglesSinceReturn, Sent, Presses;
    ToggleStays(h, n);
    ToggleStays(h, n + 1);
    EthernetShowsItsPage(h, n);
    EthernetShowsItsPage(h, n + 1);
    EthernetShowsItsPage(h, n + 2);
    AsksAsCaptionedIff(h, n);
    AsksAsCaptionedIff(h, n + 1);
    AsksAsCaptionedIff(h, n + 2);
  }

  lemma OnePress(h: nat -> Moment, n: nat, button: Button)
    requires h(n) == Key(Pressed(button))
    ensures At(h, n + 1) == OnKey(At(h, n), Pressed(button)).0
  {
    hide OnKey;
  }

  /** Pressing Up k times on the service page dials the digit under the cursor up by k. */
  lemma {:induction false} DialUp(h: nat -> Moment, n: nat, k: nat)
    requires At(h, n).nav == ServicePage && At(h, n).pin[At(h, n).cursor] + k < 10
    requires forall i: nat :: n <= i < n + k ==> h(i) == Key(Pressed(Up))
    ensures var p := At(h, n);
            At(h, n + k) == p.(pin := p.pin[p.cursor := p.pin[p.cursor] + k])
  {
    var p := At(h, n);
    hide At;
    if k == 0 {
      assert p.pin[p.cursor := p.pin[p.cursor]] == p.pin;
    } else {
      DialUp(h, n, k - 1);
      OnePress(h, n + k - 1, Up);
      var q := p.pin[p.cursor := p.pin[p.cursor] + (k - 1)];
      assert q[p.cursor := p.pin[p.cursor] + k] == p.pin[p.cursor := p.pin[p.cursor] + k];
    }
  }

  /** Dialling a digit up by k and moving on to the next one. */
  lemma DialDigit(h: nat -> Moment, n: nat, k: nat)
    requires var p := At(h, n); p.nav == ServicePage && p.cursor < 3 && p.pin[p.cursor] + k < 10
    requires forall i: nat :: n <= i < n + k ==> h(i) == Key(Pressed(Up))
    requires h(n + k) == Key(Pressed(Right))
    ensures var p := At(h, n);
            At(h, n + k + 1) == p.(pin := p.pin[p.cursor := p.pin[p.cursor] + k], cursor := p.cursor + 1)
  {
    hide At;
    DialUp(h, n, k);
    OnePress(h, n + k, Right);
  }

  /** The keys that open the service page and dial 1, 2, 3, 4. */
  const DIAL: seq<Button> := [F5, Up, Right, Up, Up, Right, Up, Up, Up, Right, Up, Up, Up, Up]

  lemma DialOpens(h: nat -> Moment)
    requires forall i: nat :: i < |DIAL| ==> h(i) == Key(Pressed(DIAL[i]))
    ensures At(h, 14) == PanelState(ServicePage, SERVICE_PIN, 3, false, ALL_LOW)
  {
    OnePress(h, 0, F5);
    assert At(h, 1) == PanelState(ServicePage, NO_PIN, 0, false, ALL_LOW);
    hide At;
    DialDigit(h, 1, 1);
    DialDigit(h, 3, 2);
    DialDigit(h, 6, 3);
    DialUp(h, 10, 4);
    assert At(h, 14).pin == SERVICE_PIN;
  }

  /** Such presses exist: from power-on, dial the PIN on the service page, and press F2 three times. */
  lemma DialThenThreeToggles(h: nat -> Moment)
    requires forall i: nat :: i < |DIAL| ==> h(i) == Key(Pressed(DIAL[i]))
    requires h(14) == h(15) == h(16) == Key(Pressed(F4))
    ensures ThreeToggles(h, 14)
  {
    hide At, TogglesSinceReturn;
    DialOpens(h);
    SelectedIsParity(h, 14);
  }

  // ---- Which key sends what ---------------------------------------------------------------------------

  /** The source of every command, at every moment of every sequence: the softkey, the page and, for the gated
      ones, the PIN. One moment sends at most one command. */
  lemma CommandSources(h: nat -> Moment, n: nat)
    ensures var sent, p := Sent(h, n), At(h, n);
            var main, service := p.nav == MainPage, p.nav == ServicePage && p.Unlocked();
            && (Wrap in sent <==> main && Presses(h, n, F1))
            && (ToggleKnife in sent <==> main && Presses(h, n, F2))
            && (ResetSession in sent <==> main && Presses(h, n, F3))
            && (AdjustSession(1) in sent <==> main && Presses(h, n, F4))
            && (AdjustSession(-1) in sent <==> main && Presses(h, n, F5))
            && (forall delta: I8 :: AdjustSession(delta) in sent ==> delta == 1 || delta == -1)
            && (ResetTotal in sent <==> service && Presses(h, n, F1))
            && (EnterEthernet in sent <==> Toggles(h, n) && TogglesSinceReturn(h, n) % 2 == 0)
            && (ReturnToEthercat in sent <==> Returns(h, n) || (Toggles(h, n) && TogglesSinceReturn(h, n) % 2 == 1))
            && (forall bits: Outputs :: ManualIo(bits) in sent <==>
                 h(n) == FrameEnds && p.nav == IoTestPage && bits == p.held)
            && |sent| <= 1
  {
    hide At, TogglesSinceReturn;
    SelectedIsParity(h, n);
  }

  /** The same by the keys as they sit on the device: the main page's commands, and the key to the service page. */
  lemma DeviceKeys(h: nat -> Moment, n: nat, key: Button)
    requires At(h, n).nav == MainPage && h(n) == Key(Pressed(key))
    ensures Sent(h, n) == match key
                          case F6 => [Wrap]
                          case F4 => [ToggleKnife]
                          case F2 => [ResetSession]
                          case F1 => [AdjustSession(1)]
                          case F3 => [AdjustSession(-1)]
                          case _ => []
    ensures At(h, n + 1).nav == if key == F5 then ServicePage else MainPage
  {
    hide At;
    OnePress(h, n, key);
  }

  // ---- Pages and the PIN --------------------------------------------------------------------------------

  /** How the page changes: keys lead from the main or fault page to the service page, from there with the PIN
      to the IO test page, and back to the main page; a frame's mode leads to the Ethernet or fault page and away. */
  lemma PagesMove(h: nat -> Moment, n: nat)
    ensures var p, q := At(h, n).nav, At(h, n + 1).nav;
            match h(n)
            case FrameBegins(mode) =>
              && (q == EthernetPage <==> mode == Ethernet)
              && (q == FaultPage <==> mode == Fault && p != ServicePage)
              && (q == ServicePage <==> p == ServicePage && mode != Ethernet)
              && (q == IoTestPage <==> p == IoTestPage && mode != Ethernet && mode != Fault)
            case FrameEnds => q == p
            case Key(_) =>
              && (q == ServicePage <==>
                  if p == ServicePage then !Presses(h, n, F6) && !(Presses(h, n, F3) && At(h, n).Unlocked())
                  else (p == MainPage || p == FaultPage) && Presses(h, n, F6))
              && (q == IoTestPage <==>
                  if p == IoTestPage then !Presses(h, n, F6)
                  else p == ServicePage && Presses(h, n, F3) && At(h, n).Unlocked())
              && (q == EthernetPage <==> p == EthernetPage)
              && (q == FaultPage <==> p == FaultPage && !Presses(h, n, F6))
  {
  }

  predicate InService(p: PanelState) {
    p.nav == ServicePage || p.nav == IoTestPage
  }

  /** The service page was opened at moment o and the panel has been there, or on the IO test page, ever since. */
  ghost predicate ServiceSince(h: nat -> Moment, o: nat, n: nat) {
    && o < n && (At(h, o).nav == MainPage || At(h, o).nav == FaultPage) && Presses(h, o, F6)
    && forall k: nat :: o < k <= n ==> InService(At(h, k))
  }

  /** Where the arrows have moved the cursor since moment o, within the four digits. */
  function CursorWalk(h: nat -> Moment, o: nat, n: nat): int
    requires o < n
  {
    if n == o + 1 then 0
    else
      var c := CursorWalk(h, o, n - 1);
      if At(h, n - 1).nav != ServicePage then c
      else if Presses(h, n - 1, Left) then Max(0, c - 1)
      else if Presses(h, n - 1, Right) then Min(c + 1, 3)
      else c
  }

  /** The presses of Up since moment o, less those of Down, that met the cursor on digit d. */
  function Dials(h: nat -> Moment, o: nat, n: nat, d: nat): int
    requires o < n
  {
    if n == o + 1 then 0
    else
      var here := At(h, n - 1).nav == ServicePage && CursorWalk(h, o, n - 1) == d;
      Dials(h, o, n - 1, d) + Unit(here && Presses(h, n - 1, Up)) - Unit(here && Presses(h, n - 1, Down))
  }

  /** What one moment inside the service pages does to the PIN and the cursor. */
  lemma ServiceStep(h: nat -> Moment, n: nat)
    requires InService(At(h, n)) && InService(At(h, n + 1))
    ensures var p, q := At(h, n), At(h, n + 1); var here := p.nav == ServicePage;
            && q.cursor == (if here && Presses(h, n, Left) then Max(0, p.cursor - 1)
                            else if here && Presses(h, n, Right) then Min(p.cursor + 1, 3) else p.cursor)
            && q.pin == if here && Presses(h, n, Up) then p.pin[p.cursor := (p.pin[p.cursor] + 1) % 10]
                        else if here && Presses(h, n, Down) then p.pin[p.cursor := (p.pin[p.cursor] + 9) % 10]
                        else p.pin
  {
  }

  lemma OpensBlank(h: nat -> Moment, n: nat)
    requires !InService(At(h, n)) && InService(At(h, n + 1))
    ensures (At(h, n).nav == MainPage || At(h, n).nav == FaultPage) && Presses(h, n, F6)
    ensures At(h, n + 1).pin == NO_PIN && At(h, n + 1).cursor == 0
  {
  }

  lemma DigitStep(dials: int)
    ensures (dials % 10 + 1) % 10 == (dials + 1) % 10
    ensures (dials % 10 + 9) % 10 == (dials - 1) % 10
  {
  }

  predicate DigitFollows(h: nat -> Moment, o: nat, n: nat, d: nat)
    requires o < n && d < 4
  {
    At(h, n).pin[d] == Dials(h, o, n, d) % 10
  }

  /** The PIN and the cursor are what the arrows since moment o have made of zeros. */
  ghost predicate PinFollows(h: nat -> Moment, o: nat, n: nat) {
    && o < n && At(h, n).cursor == CursorWalk(h, o, n)
    && forall d: nat :: d < 4 ==> DigitFollows(h, o, n, d)
  }

  lemma DialStep(h: nat -> Moment, o: nat, n: nat, d: nat)
    requires PinFollows(h, o, n) && d < 4 && InService(At(h, n)) && InService(At(h, n + 1))
    ensures DigitFollows(h, o, n + 1, d)
  {
    hide At, CursorWalk, InService;
    assert DigitFollows(h, o, n, d);
    ServiceStep(h, n);
    DigitStep(Dials(h, o, n, d));
  }

  lemma PinFollowsOn(h: nat -> Moment, o: nat, n: nat)
    requires PinFollows(h, o, n) && InService(At(h, n)) && InService(At(h, n + 1))
    ensures PinFollows(h, o, n + 1)
  {
    hide At, InService, Dials, Presses, DigitFollows;
    ServiceStep(h, n);
    var next := n + 1;
    forall d: nat | d < 4
      ensures DigitFollows(h, o, next, d)
    {
      DialStep(h, o, n, d);
    }
  }

  lemma PinStarts(h: nat -> Moment, o: nat)
    requires At(h, o + 1).pin == NO_PIN && At(h, o + 1).cursor == 0
    ensures PinFollows(h, o, o + 1)
  {
    hide At;
  }

  /** The PIN buffer holds what has been dialled since the service page was last opened, and nothing older. */
  lemma {:induction false} PinIsDialled(h: nat -> Moment, n: nat) returns (o: nat)
    requires InService(At(h, n))
    ensures ServiceSince(h, o, n) && PinFollows(h, o, n)
  {
    assert n > 0;
    hide PinFollows, At, InService, Presses;
    if !InService(At(h, n - 1)) {
      o := n - 1;
      OpensBlank(h, o);
      PinStarts(h, o);
    } else {
      o := PinIsDialled(h, n - 1);
      PinFollowsOn(h, o, n - 1);
    }
  }

  /** A gated command takes the PIN: since the service page was opened, the four digits have been dialled to
      1, 2, 3 and 4. */
  lemma GatedCommandWasDialled(h: nat -> Moment, n: nat, cmd: Command) returns (o: nat)
    requires cmd in Sent(h, n)
    requires cmd.ManualIo? || cmd == ResetTotal || cmd == EnterEthernet
    ensures ServiceSince(h, o, n)
    ensures Dials(h, o, n, 0) % 10 == 1 && Dials(h, o, n, 1) % 10 == 2
    ensures Dials(h, o, n, 2) % 10 == 3 && Dials(h, o, n, 3) % 10 == 4
  {
    GatedByPin(h, n, cmd);
    o := PinIsDialled(h, n);
    hide At, Dials;
    assert DigitFollows(h, o, n, 0) && DigitFollows(h, o, n, 1);
    assert DigitFollows(h, o, n, 2) && DigitFollows(h, o, n, 3);
  }
}
