/**
 From the control cycle to the counter file and back: what a reload finds if the machine stops at any
 instant of a run, whatever had become of the persists before.
*/
module Reload {
  import opened Prelude
  import opened Disk
  import opened Counter
  import opened Ports
  import opened Control
  import opened Process
  import opened BaleLedger
  import PR = ProcessRuns
  import L = Ledger
  import Wago
  import Runs

  /** A prefix of what a run has booked reaches into exactly one step: it is the counters with which
      that step begins, plus some of the step's own entries. */
  lemma {:induction false} PrefixReachesStep(r: Runs.Scenario, n: nat, k: nat) returns (m: nat)
    requires 0 < n && k <= |Between(r, 0, n)|
    ensures m < n && |Between(r, 0, m)| <= k <= |Between(r, 0, m + 1)|
    ensures L.Replay(r.loaded, Between(r, 0, n)[..k])
         == L.Replay(Runs.At(r, m).ctl.counters, StepEntries(r, m)[..k - |Between(r, 0, m)|])
  {
    hide StepEntries, Stepped, L.Replay;
    var booked, before, own := Between(r, 0, n), Between(r, 0, n - 1), StepEntries(r, n - 1);
    if k < |before| {
      m := PrefixReachesStep(r, n - 1, k);
      assert booked[..k] == before[..k];
    } else {
      m := n - 1;
      assert booked[..k] == before + own[..k - |before|];
      CountersAreReplay(r, 0, m);
      L.ReplayConcat(r.loaded, before, own[..k - |before|]);
    }
  }

  /**
   Crash at any instant of a control run. The run starts on the counters loaded from the disk and has
   booked i entries of its first n steps when it stops; dones[j] says how far the j-th persist got,
   the last one included. A reload finds the counters with which some step m begins, plus some of the
   entries that step m itself books; it finds all i entries if the last persist was completed.
  */
  lemma ReloadDuringRun(r: Runs.Scenario, d: Files, path: Path, n: nat, i: nat, dones: seq<nat>)
    returns (k: nat, m: nat)
    requires r.loaded == Loaded(d, path) && Extension(path.name) != Some("tmp")
    requires 0 < n && i <= |Between(r, 0, n)| && |dones| == i
    requires WellFormed(path, Journal(r.loaded, Between(r, 0, n)[..i], dones))
    ensures var attempts := Journal(r.loaded, Between(r, 0, n)[..i], dones);
            && k <= i && m < n && |Between(r, 0, m)| <= k <= |Between(r, 0, m + 1)|
            && (i > 0 && |attempts| == i && Complete(path, attempts[i - 1]) ==> k == i)
            && Loaded(DiskAfter(d, path, attempts), path)
               == L.Replay(Runs.At(r, m).ctl.counters, StepEntries(r, m)[..k - |Between(r, 0, m)|])
  {
    hide StepEntries, Loaded, DiskAfter, Journal, Complete;
    var booked := Between(r, 0, n);
    k := Covered(path, Journal(r.loaded, booked[..i], dones));
    ReloadAfterCrash(d, path, booked[..i], dones);
    JournalLength(r.loaded, booked[..i], dones);
    assert booked[..i][..k] == booked[..k];
    m := PrefixReachesStep(r, n, k);
  }

  // ---- The process ---------------------------------------------------------------------------------

  /** What a process has booked in its first n cycles. */
  function BookedBy(e: PR.Life, n: nat): seq<L.Entry> {
    if n == 0 then []
    else
      BookedBy(e, n - 1)
      + if PR.After(e, n - 1).exited then [] else CycleEntries(PR.After(e, n - 1), e.cycles(n - 1))
  }

  lemma CycleBooks(e: PR.Life, n: nat)
    requires !PR.After(e, n).exited
    ensures CycleEntries(PR.After(e, n), e.cycles(n))
         == if PR.LeavesByDeadline(e, n) then [] else StepEntries(PR.ScenarioOf(e), n)
  {
    hide Stepped, Cycled, Sampled, StepEntries, Bookings;
    PR.ProcessIsControlRun(e, n);
    PR.CycleCases(e, n);
    CycleBooksStepEntries(PR.ScenarioOf(e), n);
  }

  /** What a process has booked is what its control run books in the first j steps: all n of them
      while it runs, those before its end afterwards. */
  lemma {:induction false} BookedIsRun(e: PR.Life, n: nat) returns (j: nat)
    ensures j <= n && (!PR.After(e, n).exited ==> j == n)
    ensures BookedBy(e, n) == Between(PR.ScenarioOf(e), 0, j)
  {
    hide Stepped, Cycled, Sampled, StepEntries, CycleEntries;
    if n == 0 {
      j := 0;
    } else {
      j := BookedIsRun(e, n - 1);
      if !PR.After(e, n - 1).exited {
        CycleBooks(e, n - 1);
        PR.CycleCases(e, n - 1);
        j := if PR.LeavesByDeadline(e, n - 1) then n - 1 else n;
      }
    }
  }

  /** A stopped process stays as it is. */
  lemma {:induction false} StoppedStays(e: PR.Life, i: nat, n: nat)
    requires i <= n && PR.After(e, i).exited
    ensures PR.After(e, n) == PR.After(e, i) && BookedBy(e, n) == BookedBy(e, i)
    decreases n
  {
    hide Cycled, CycleEntries;
    if i == n {
    } else {
      StoppedStays(e, i, n - 1);
    }
  }

  /** The reload theorem of the store inside a control object. */
  lemma StoreReloads(control: Control, net: NetworkController, bus: Wago.WagoBus)
    requires control.Valid()
    ensures var store := control.counters; var start := Loaded(store.origin, store.path);
            Extension(store.path.name) != Some("tmp") ==>
              && (exists k: nat :: k <= |store.entries|
                    && Loaded(store.volume.files, store.path) == L.Replay(start, store.entries[..k]))
              && Readable(store.volume.files, store.path.name)
              && (store.volume.Works() ==>
                    Loaded(store.volume.files, store.path) == control.System(net, bus).ctl.counters)
  {
    hide Loaded;
    var store := control.counters;
    if Extension(store.path.name) != Some("tmp") {
      store.Reload();
    }
  }

  /**
   The executor's main loop on a freshly built item: it runs the item once per interval until the item
   asks to stop. The object's state is the process of the run theorems, its store has booked exactly
   that process's entries, and at the end a reload of its file finds a prefix of them; on a disk whose
   calls all work it finds the counters that the process shows.
  */
  method RunItem(item: ControlItem, e: PR.Life, n: nat)
    requires item.Valid() && item.View() == PR.Start(e)
    requires item.net.answers == e.answers && item.bus.sendOk == e.sendOk
    requires item.control.counters.entries == []
    requires Loaded(item.control.counters.origin, item.control.counters.path) == e.loaded
    modifies item, item.control, item.control.Parts(), item.net, item.net.log, item.bus, item.bus.reader
    ensures item.Valid() && item.View() == PR.After(e, n)
    ensures item.control.counters.entries == BookedBy(e, n)
    ensures var store := item.control.counters;
            Extension(store.path.name) != Some("tmp") ==>
              && (exists k: nat :: k <= |BookedBy(e, n)|
                    && Loaded(store.volume.files, store.path) == L.Replay(e.loaded, BookedBy(e, n)[..k]))
              && Readable(store.volume.files, store.path.name)
              && (store.volume.Works() ==>
                    Loaded(store.volume.files, store.path) == PR.After(e, n).sys.ctl.counters)
  {
    hide Loaded, Cycled, CycleEntries, PR.Start, Control.Valid, Control.View, Control.System;
    var i := 0;
    while i < n && !item.exitFlag
      invariant i <= n
      invariant item.Valid() && item.View() == PR.After(e, i)
      invariant item.control.counters.entries == BookedBy(e, i)
    {
      item.Cycle(e.cycles(i));
      i := i + 1;
    }
    if i < n {
      StoppedStays(e, i, n);
    }
    StoreReloads(item.control, item.net, item.bus);
  }

  /**
   The whole hardware path: load the counters, build the cycle, the ports and the item, and run it for up
   to n cycles. It gives up exactly when the counters cannot be loaded; otherwise the process is the life
   that starts from the loaded counters, and its file reloads as a prefix of what it booked, on a working
   disk as the counters it shows.
  */
  method RunEthercat(
    path: Path, volume: Volume, health: Wago.Health, cycles: nat -> CycleIn, answers: Answers, sendOk: nat -> bool,
    n: nat)
    returns (r: Result<ControlItem, IoError>)
    modifies volume
    ensures r.Ok? <==> volume.outcome(old(volume.calls)).ok && Readable(old(volume.files), path.name)
    ensures r.Ok? ==>
      var e := PR.Life(Loaded(old(volume.files), path), health, cycles, answers, sendOk);
      && r.value.Valid() && r.value.View() == PR.After(e, n)
      && r.value.control.counters.entries == BookedBy(e, n)
      && (Extension(path.name) != Some("tmp") ==>
            && (exists k: nat :: k <= |BookedBy(e, n)|
                  && Loaded(volume.files, path) == L.Replay(e.loaded, BookedBy(e, n)[..k]))
            && Readable(volume.files, path.name)
            && (volume.Works() ==> Loaded(volume.files, path) == PR.After(e, n).sys.ctl.counters))
  {
    hide Loaded, PR.After;
    var e := PR.Life(Loaded(volume.files, path), health, cycles, answers, sendOk);
    var built := Control.New(path, volume);
    match built {
      case Err(error) =>
        return Err(error);
      case Ok(control) =>
        var log := new PortLog();
        var net := new NetworkController(answers, log);
        var reader := new Wago.ChannelReader([]);
        var bus := new Wago.WagoBus(reader, health, sendOk, log);
        var item := new ControlItem(control, bus, net);
        RunItem(item, e, n);
        return Ok(item);
    }
  }
}
