/** The bale counters over whole runs: which inputs and commands they add up. */
module BaleLedger {
  import opened Prelude
  import opened Ipc
  import opened Ports
  import opened Control
  import opened Runs
  import IC = InputConditioner
  import L = Ledger

  /** Step n saw the baler-open input, debounced over three samples, rise on a healthy bus. */
  predicate BaleCounted(r: Scenario, n: nat) {
    r.steps(n).inputs.healthy && IC.EdgeAt(3, false, OpenBits(r), n) == IC.Rising
  }

  /** What step n books: at most one bale, then the commands of its batch unless they are ignored. */
  function StepEntries(r: Scenario, n: nat): seq<L.Entry> {
    (if BaleCounted(r, n) then [L.Bale] else [])
    + (if At(r, n).ctl.manual.left > 0 then [] else BatchEntries(r.steps(n).cmds, |r.steps(n).cmds|))
  }

  /** Everything booked by the steps from k up to but not including n. */
  function Between(r: Scenario, k: nat, n: nat): seq<L.Entry>
    requires k <= n
  {
    if k == n then [] else Between(r, k, n - 1) + StepEntries(r, n - 1)
  }

  lemma DispatchBooks(s: Sys, cmd: Command, answers: Answers)
    requires s.ctl.manual.left == 0
    ensures Dispatched(s, cmd, answers).ctl.counters == L.Replay(s.ctl.counters, CommandEntries(cmd))
  {
    var entries := CommandEntries(cmd);
    assert entries != [] ==> entries[..|entries| - 1] == [];
  }

  /** The counters before and after one command. */
  ghost predicate MovedBy(cmd: Command, served: bool, c: L.Counters, d: L.Counters) {
    && d.session == (match cmd
                     case AdjustSession(delta) => if served then Max(0, Min(c.session + delta, U64_MAX)) else c.session
                     case ResetSession => if served then 0 else c.session
                     case _ => c.session)
    && d.total == if cmd == ResetTotal && served then 0 else c.total
  }

  lemma DispatchMoves(s: Sys, cmd: Command, answers: Answers)
    ensures MovedBy(cmd, s.ctl.manual.left == 0, s.ctl.counters, Dispatched(s, cmd, answers).ctl.counters)
  {
  }

  lemma {:induction false} BatchBooks(s: Sys, cmds: seq<Command>, answers: Answers, i: nat)
    requires i <= |cmds| && s.ctl.manual.left == 0
    ensures Commanded(s, cmds, answers, i).ctl.counters == L.Replay(s.ctl.counters, BatchEntries(cmds, i))
  {
    hide Dispatched, CommandEntries;
    if i == 0 {
    } else {
      BatchBooks(s, cmds, answers, i - 1);
      CommandsKeepSenses(s, cmds, answers, i - 1);
      DispatchBooks(Commanded(s, cmds, answers, i - 1), cmds[i - 1], answers);
      L.ReplayConcat(s.ctl.counters, BatchEntries(cmds, i - 1), CommandEntries(cmds[i - 1]));
    }
  }

  lemma SensingBooks(r: Scenario, n: nat)
    ensures Sensing(r, n).ctl.counters
         == L.Replay(At(r, n).ctl.counters, if BaleCounted(r, n) then [L.Bale] else [])
  {
    SensesFollowInputs(r, n);
    IC.EdgeIsLevelChange(DEBOUNCE, false, OpenBits(r), n);
    assert [L.Bale][..0] == [];
  }

  lemma ServedBooks(r: Scenario, n: nat)
    ensures var cmds := r.steps(n).cmds;
            Served(r, n).ctl.counters
            == L.Replay(Sensing(r, n).ctl.counters,
                        if At(r, n).ctl.manual.left > 0 then [] else BatchEntries(cmds, |cmds|))
  {
    var s, cmds := Sensing(r, n), r.steps(n).cmds;
    assert s.ctl.manual == At(r, n).ctl.manual;
    hide Stepped, Sensed, Dispatched;
    if s.ctl.manual.left > 0 {
      CommandsIgnored(s, cmds, r.answers, |cmds|);
    } else {
      BatchBooks(s, cmds, r.answers, |cmds|);
    }
  }

  /** What a step does to the shown counters, in plain numbers: a counted bale adds one to both before the batch,
      and each served command moves or clears one of them; both stop at 0 and at the 64-bit maximum. */
  lemma CounterMoves(r: Scenario, n: nat)
    ensures var c, d := At(r, n).ctl.counters, Sensing(r, n).ctl.counters; var one := Unit(BaleCounted(r, n));
            d.session == Min(c.session + one, U64_MAX) && d.total == Min(c.total + one, U64_MAX)
    ensures forall i: nat :: i < |r.steps(n).cmds| ==>
              MovedBy(r.steps(n).cmds[i], At(r, n).ctl.manual.left == 0,
                      Mid(r, n, i).ctl.counters, Mid(r, n, i + 1).ctl.counters)
    ensures var shown := Snapshot(At(r, n + 1).ctl);
            shown.session == Served(r, n).ctl.counters.session && shown.total == Served(r, n).ctl.counters.total
  {
    SensingBooks(r, n);
    DriveKeeps(r, n);
    assert [L.Bale][..0] == [];
    assert Sensing(r, n).ctl.manual == At(r, n).ctl.manual;
    hide Stepped, Sensed, BaleCounted;
    forall i: nat | i < |r.steps(n).cmds|
      ensures MovedBy(r.steps(n).cmds[i], At(r, n).ctl.manual.left == 0,
                      Mid(r, n, i).ctl.counters, Mid(r, n, i + 1).ctl.counters)
    {
      CommandsKeepSenses(Sensing(r, n), r.steps(n).cmds, r.answers, i);
      DispatchMoves(Mid(r, n, i), r.steps(n).cmds[i], r.answers);
    }
  }

  lemma StepBooks(r: Scenario, n: nat)
    ensures At(r, n + 1).ctl.counters == L.Replay(At(r, n).ctl.counters, StepEntries(r, n))
  {
    var cmds := r.steps(n).cmds;
    SensingBooks(r, n);
    ServedBooks(r, n);
    assert At(r, n + 1).ctl.counters == Served(r, n).ctl.counters;
    hide Stepped, Sensed, Dispatched;
    L.ReplayConcat(
      At(r, n).ctl.counters,
      if BaleCounted(r, n) then [L.Bale] else [],
      if At(r, n).ctl.manual.left > 0 then [] else BatchEntries(cmds, |cmds|));
  }

  /** The entries a control cycle hands to the counter store are the ones counted here: the rise of the
      debounced input in the raw history is the rise that the cycle sees. */
  lemma CycleBooksStepEntries(r: Scenario, n: nat)
    ensures Bookings(At(r, n).ctl, r.steps(n).inputs, r.steps(n).cmds) == StepEntries(r, n)
  {
    hide Stepped;
    SensesFollowInputs(r, n);
    IC.EdgeIsLevelChange(DEBOUNCE, false, OpenBits(r), n);
  }

  /** The counters are always the replay of what the steps have booked. */
  lemma {:induction false} CountersAreReplay(r: Scenario, k: nat, n: nat)
    requires k <= n
    ensures At(r, n).ctl.counters == L.Replay(At(r, k).ctl.counters, Between(r, k, n))
    decreases n
  {
    hide Stepped, StepEntries;
    if k == n {
    } else {
      CountersAreReplay(r, k, n - 1);
      StepBooks(r, n - 1);
      L.ReplayConcat(At(r, k).ctl.counters, Between(r, k, n - 1), StepEntries(r, n - 1));
    }
  }

  // ---- The total -------------------------------------------------------------------------------

  /** Step n served a reset of the total. */
  predicate TotalReset(r: Scenario, n: nat) {
    At(r, n).ctl.manual.left == 0 && ResetTotal in r.steps(n).cmds
  }

  /** The steps from k up to but not including n that counted a bale. */
  function BaleCount(r: Scenario, k: nat, n: nat): nat
    requires k <= n
  {
    if k == n then 0 else BaleCount(r, k, n - 1) + Unit(BaleCounted(r, n - 1))
  }

  lemma CommandHasNoBale(cmd: Command)
    ensures L.Bale !in CommandEntries(cmd)
    ensures L.ClearTotal in CommandEntries(cmd) <==> cmd == ResetTotal
    ensures L.ClearSession in CommandEntries(cmd) <==> cmd == ResetSession
  {
  }

  lemma {:induction false} BatchHasNoBale(cmds: seq<Command>, i: nat)
    requires i <= |cmds|
    ensures L.Bale !in BatchEntries(cmds, i)
    ensures L.ClearTotal in BatchEntries(cmds, i) <==> ResetTotal in cmds[..i]
    ensures L.ClearSession in BatchEntries(cmds, i) <==> ResetSession in cmds[..i]
  {
    hide CommandEntries;
    if i == 0 {
    } else {
      BatchHasNoBale(cmds, i - 1);
      CommandHasNoBale(cmds[i - 1]);
      assert cmds[..i] == cmds[..i - 1] + [cmds[i - 1]];
    }
  }

  lemma {:induction false} NoBaleCount(entries: seq<L.Entry>)
    requires L.Bale !in entries
    ensures L.Bales(entries) == 0
  {
    if entries == [] {
    } else {
      assert L.Bale !in entries[..|entries| - 1];
      NoBaleCount(entries[..|entries| - 1]);
    }
  }

  lemma StepEntriesBales(r: Scenario, n: nat)
    ensures L.Bales(StepEntries(r, n)) == Unit(BaleCounted(r, n))
  {
    hide Stepped, BaleCounted;
    var cmds := r.steps(n).cmds;
    var bale := if BaleCounted(r, n) then [L.Bale] else [];
    var rest := if At(r, n).ctl.manual.left > 0 then [] else BatchEntries(cmds, |cmds|);
    assert bale != [] ==> bale[..|bale| - 1] == [];
    assert L.Bales(bale) == |bale|;
    BatchHasNoBale(cmds, |cmds|);
    hide L.Bales;
    L.BalesConcat(bale, rest);
    NoBaleCount(rest);
  }

  /** The bales among the entries booked are exactly the steps that counted one. */
  lemma {:induction false} BalesAreCountedSteps(r: Scenario, k: nat, n: nat)
    requires k <= n
    ensures L.Bales(Between(r, k, n)) == BaleCount(r, k, n)
    decreases n
  {
    hide Stepped, StepEntries, BaleCounted, L.Bales;
    if k < n {
      BalesAreCountedSteps(r, k, n - 1);
      StepEntriesBales(r, n - 1);
      L.BalesConcat(Between(r, k, n - 1), StepEntries(r, n - 1));
    } else {
      NoBaleCount([]);
    }
  }

  lemma {:induction false} TotalIsClearedBy(c: L.Counters, entries: seq<L.Entry>)
    requires L.ClearTotal in entries && L.Bale !in entries
    ensures L.Replay(c, entries).total == 0
  {
    var front := entries[..|entries| - 1];
    assert L.Bale !in front;
    if entries[|entries| - 1] == L.ClearTotal {
    } else {
      assert L.ClearTotal in front;
      TotalIsClearedBy(c, front);
    }
  }

  lemma BaleOnTotal(c: L.Counters, counted: bool)
    ensures L.Replay(c, if counted then [L.Bale] else []).total == Min(c.total + Unit(counted), U64_MAX)
  {
    assert [L.Bale][..0] == [];
  }

  lemma BatchOnTotal(c: L.Counters, cmds: seq<Command>)
    ensures L.Replay(c, BatchEntries(cmds, |cmds|)).total == if ResetTotal in cmds then 0 else c.total
  {
    hide L.Replay, BatchEntries;
    var entries := BatchEntries(cmds, |cmds|);
    BatchHasNoBale(cmds, |cmds|);
    assert cmds[..|cmds|] == cmds;
    if ResetTotal in cmds {
      TotalIsClearedBy(c, entries);
    } else {
      L.TotalIsBaleCount(c, entries);
      NoBaleCount(entries);
    }
  }

  /** One step's effect on the total: a bale first, then a reset if the batch holds one. */
  lemma StepOnTotal(r: Scenario, n: nat)
    ensures At(r, n + 1).ctl.counters.total
         == if TotalReset(r, n) then 0
            else Min(At(r, n).ctl.counters.total + Unit(BaleCounted(r, n)), U64_MAX)
  {
    hide At, BaleCounted, BatchEntries, Unit;
    var c, cmds := At(r, n).ctl.counters, r.steps(n).cmds;
    var bale := if BaleCounted(r, n) then [L.Bale] else [];
    var rest := if At(r, n).ctl.manual.left > 0 then [] else BatchEntries(cmds, |cmds|);
    StepBooks(r, n);
    L.ReplayConcat(c, bale, rest);
    BaleOnTotal(c, BaleCounted(r, n));
    if rest != [] {
      BatchOnTotal(L.Replay(c, bale), cmds);
    } else if At(r, n).ctl.manual.left == 0 {
      BatchOnTotal(L.Replay(c, bale), cmds);
    }
  }

  /**
   The total after n steps: the loaded value, or 0 after the last served reset, plus the steps since
   then that saw the debounced baler-open input rise on a healthy bus, held at the 64-bit maximum.
   Edges that fall into a fault are in no such step, so recovery does not count them.
  */
  lemma {:induction false} TotalIsBalesSinceReset(r: Scenario, k: nat, n: nat)
    requires k <= n && (k > 0 ==> TotalReset(r, k - 1))
    requires forall j: nat :: k <= j < n ==> !TotalReset(r, j)
    ensures Snapshot(At(r, n).ctl).total
         == Min((if k == 0 then r.loaded.total else 0) + BaleCount(r, k, n), U64_MAX)
    decreases n
  {
    hide Stepped;
    if n == k {
      if k > 0 {
        StepOnTotal(r, k - 1);
      }
    } else {
      TotalIsBalesSinceReset(r, k, n - 1);
      StepOnTotal(r, n - 1);
    }
  }

  lemma {:induction false} BalesAreRisings(r: Scenario, n: nat)
    ensures BaleCount(r, 0, n) <= IC.RisingCount(DEBOUNCE, false, OpenBits(r), n)
  {
    if n == 0 {
    } else {
      BalesAreRisings(r, n - 1);
    }
  }

  /** Debouncing bounds the rate: n steps count at most (n/3 + 1)/2 bales, whatever the input does. */
  lemma BaleRate(r: Scenario, n: nat)
    ensures BaleCount(r, 0, n) <= (n / 3 + 1) / 2
  {
    BalesAreRisings(r, n);
    IC.EdgeBudget(DEBOUNCE, false, OpenBits(r), n);
    IC.RisingShare(DEBOUNCE, false, OpenBits(r), n);
  }

  // ---- The session -----------------------------------------------------------------------------

  /** Step n served a reset of the session. */
  predicate SessionReset(r: Scenario, n: nat) {
    At(r, n).ctl.manual.left == 0 && ResetSession in r.steps(n).cmds
  }

  lemma StepResets(r: Scenario, n: nat)
    ensures L.ClearSession in StepEntries(r, n) <==> SessionReset(r, n)
  {
    hide Stepped, BaleCounted;
    var cmds := r.steps(n).cmds;
    BatchHasNoBale(cmds, |cmds|);
    assert cmds[..|cmds|] == cmds;
  }

  /** A session reset is among the entries of steps k to n exactly if one of these steps served one. */
  lemma {:induction false} BetweenResets(r: Scenario, k: nat, n: nat)
    requires k <= n
    ensures L.ClearSession in Between(r, k, n) <==> exists j: nat :: k <= j < n && SessionReset(r, j)
    decreases n
  {
    hide Stepped, StepEntries, SessionReset;
    if k == n {
    } else {
      var last: nat := n - 1;
      BetweenResets(r, k, last);
      StepResets(r, last);
      assert SessionReset(r, last) || !SessionReset(r, last);
    }
  }

  /**
   Below the 64-bit ceiling the session is the walk of bales (+1) and served corrections (their delta)
   since its last reset, reflected at zero. It starts from 0 if one of the steps from k on served a
   reset, wherever in its batch that reset stood, and from the session at step k otherwise.
  */
  lemma SessionIsReflectedWalk(r: Scenario, k: nat, n: nat)
    requires k <= n
    requires var booked := Between(r, k, n);
             L.BelowCap(L.SessionStart(At(r, k).ctl.counters, booked), L.SinceReset(booked))
    ensures var start := if exists j: nat :: k <= j < n && SessionReset(r, j) then 0 else At(r, k).ctl.counters.session;
            var rest := L.SinceReset(Between(r, k, n));
            Snapshot(At(r, n).ctl).session == L.Walk(start, rest) - L.LowWater(start, rest)
  {
    hide Stepped, SessionReset, L.Walk, L.LowWater, L.SinceReset, L.BelowCap, L.Replay;
    CountersAreReplay(r, k, n);
    BetweenResets(r, k, n);
    L.SessionIsReflectedSinceReset(At(r, k).ctl.counters, Between(r, k, n));
  }
}
