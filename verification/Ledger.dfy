/** The arithmetic of the two bale counters, and what a sequence of updates adds up to. */
module Ledger {
  import opened Prelude

  datatype Counters = Counters(session: U64, total: U64)

  const ZERO := Counters(0, 0)

  datatype Entry = Bale | Adjust(delta: I64) | ClearSession | ClearTotal

  function SaturatingInc(x: U64): U64 {
    if x == U64_MAX then x else x + 1
  }

  function SaturatingAddSigned(x: U64, delta: I64): U64 {
    Max(0, Min(x + delta, U64_MAX))
  }

  function Book(c: Counters, entry: Entry): Counters {
    match entry
    case Bale => Counters(SaturatingInc(c.session), SaturatingInc(c.total))
    case Adjust(delta) => c.(session := SaturatingAddSigned(c.session, delta))
    case ClearSession => c.(session := 0)
    case ClearTotal => c.(total := 0)
  }

  function Replay(c: Counters, entries: seq<Entry>): Counters {
    if entries == [] then c else Book(Replay(c, entries[..|entries| - 1]), entries[|entries| - 1])
  }

  lemma {:induction false} ReplayConcat(c: Counters, a: seq<Entry>, b: seq<Entry>)
    ensures Replay(c, a + b) == Replay(Replay(c, a), b)
  {
    if b == [] {
      assert a + b == a;
    } else {
      assert (a + b)[..|a + b| - 1] == a + b[..|b| - 1];
      ReplayConcat(c, a, b[..|b| - 1]);
    }
  }

  // ---- The total counter -----------------------------------------------------------------------

  function Bales(entries: seq<Entry>): nat {
    if entries == [] then 0 else Bales(entries[..|entries| - 1]) + Unit(entries[|entries| - 1] == Bale)
  }

  lemma {:induction false} BalesConcat(a: seq<Entry>, b: seq<Entry>)
    ensures Bales(a + b) == Bales(a) + Bales(b)
  {
    if b == [] {
      assert a + b == a;
    } else {
      assert (a + b)[..|a + b| - 1] == a + b[..|b| - 1];
      BalesConcat(a, b[..|b| - 1]);
    }
  }

  /** Between resets the total is the number of bales, held at the 64-bit maximum. */
  lemma {:induction false} TotalIsBaleCount(c: Counters, entries: seq<Entry>)
    requires ClearTotal !in entries
    ensures Replay(c, entries).total == Min(c.total + Bales(entries), U64_MAX)
  {
    if entries == [] {
    } else {
      assert ClearTotal !in entries[..|entries| - 1];
      TotalIsBaleCount(c, entries[..|entries| - 1]);
    }
  }

  predicate SessionOnly(entry: Entry) {
    entry.Adjust? || entry.ClearSession?
  }

  function WithoutSessionEntries(entries: seq<Entry>): seq<Entry> {
    if entries == [] then []
    else
      var front := WithoutSessionEntries(entries[..|entries| - 1]);
      if SessionOnly(entries[|entries| - 1]) then front else front + [entries[|entries| - 1]]
  }

  /** Corrections and resets of the session leave no trace in the total. */
  lemma {:induction false} TotalIgnoresSessionEntries(c: Counters, entries: seq<Entry>)
    ensures Replay(c, WithoutSessionEntries(entries)).total == Replay(c, entries).total
  {
    if entries == [] {
    } else {
      var front, last := entries[..|entries| - 1], entries[|entries| - 1];
      TotalIgnoresSessionEntries(c, front);
      if !SessionOnly(last) {
        var kept := WithoutSessionEntries(front);
        assert (kept + [last])[..|kept|] == kept;
      }
    }
  }

  // ---- The session counter ---------------------------------------------------------------------

  function Delta(entry: Entry): int {
    match entry
    case Bale => 1
    case Adjust(delta) => delta
    case _ => 0
  }

  /** The unbounded walk the session entries describe, started from `start`. */
  function Walk(start: int, entries: seq<Entry>): int {
    if entries == [] then start else Walk(start, entries[..|entries| - 1]) + Delta(entries[|entries| - 1])
  }

  /** The lowest point the walk has reached, or 0 if it never went below. */
  function LowWater(start: int, entries: seq<Entry>): int {
    if entries == [] then Min(0, start)
    else Min(LowWater(start, entries[..|entries| - 1]), Walk(start, entries))
  }

  /** LowWater is a lower bound of 0 and of the walk, and one of them attains it. */
  lemma {:induction false} LowWaterIsMinimum(start: int, entries: seq<Entry>)
    ensures LowWater(start, entries) <= 0
    ensures forall k :: 0 <= k <= |entries| ==> LowWater(start, entries) <= Walk(start, entries[..k])
    ensures LowWater(start, entries) == 0
         || exists k :: 0 <= k <= |entries| && LowWater(start, entries) == Walk(start, entries[..k])
  {
    assert entries[..|entries|] == entries;
    if entries == [] {
    } else {
      var front := entries[..|entries| - 1];
      LowWaterIsMinimum(start, front);
      assert forall k :: 0 <= k <= |front| ==> front[..k] == entries[..k];
    }
  }

  /** No update so far has run into the 64-bit ceiling. */
  ghost predicate BelowCap(c: Counters, entries: seq<Entry>) {
    forall k :: 0 <= k < |entries| ==> Replay(c, entries[..k]).session + Delta(entries[k]) <= U64_MAX
  }

  /** Below the ceiling the session counter is the walk reflected at zero. */
  lemma {:induction false} SessionIsReflectedWalk(c: Counters, entries: seq<Entry>)
    requires ClearSession !in entries
    requires BelowCap(c, entries)
    ensures Replay(c, entries).session == Walk(c.session, entries) - LowWater(c.session, entries)
  {
    if entries == [] {
    } else {
      var front := entries[..|entries| - 1];
      var last := |entries| - 1;
      assert entries[..last] == front && entries[last] != ClearSession;
      assert BelowCap(c, front) by {
        hide Replay;
        assert forall k :: 0 <= k < |front| ==> front[..k] == entries[..k] && front[k] == entries[k];
      }
      assert ClearSession !in front;
      SessionIsReflectedWalk(c, front);
    }
  }

  /** Every prefix of the entries satisfies the reflected-walk equation. */
  ghost predicate ReflectedThroughout(c: Counters, entries: seq<Entry>) {
    forall k :: 0 <= k <= |entries| ==>
      Replay(c, entries[..k]).session == Walk(c.session, entries[..k]) - LowWater(c.session, entries[..k])
  }

  /** The first update that runs into the ceiling leaves the counter short of the reflected walk. */
  lemma FirstCappedFallsShort(c: Counters, entries: seq<Entry>, entry: Entry)
    requires ClearSession !in entries && BelowCap(c, entries) && entry != ClearSession
    requires Replay(c, entries).session + Delta(entry) > U64_MAX
    ensures var longer := entries + [entry];
            && Replay(c, longer).session == U64_MAX
            && Replay(c, longer).session < Walk(c.session, longer) - LowWater(c.session, longer)
  {
    assert (entries + [entry])[..|entries|] == entries;
    SessionIsReflectedWalk(c, entries);
  }

  /** The session counter is the reflected walk all along exactly if no update runs into the ceiling. */
  lemma {:induction false} ReflectedThroughoutIff(c: Counters, entries: seq<Entry>)
    requires ClearSession !in entries
    ensures ReflectedThroughout(c, entries) <==> BelowCap(c, entries)
  {
    hide Replay, Walk, LowWater;
    assert entries[..|entries|] == entries;
    if entries == [] {
      SessionIsReflectedWalk(c, []);
      assert entries[..0] == [];
    } else {
      var n := |entries| - 1;
      var front, last := entries[..n], entries[n];
      assert forall k :: 0 <= k <= n ==> front[..k] == entries[..k];
      assert forall k :: 0 <= k < n ==> front[k] == entries[k];
      assert last != ClearSession && front + [last] == entries;
      ReflectedThroughoutIff(c, front);
      if BelowCap(c, entries) {
        assert BelowCap(c, front);
        SessionIsReflectedWalk(c, entries);
      } else if BelowCap(c, front) {
        FirstCappedFallsShort(c, front, last);
      }
    }
  }

  /** The entries after the last reset of the session. */
  function SinceReset(entries: seq<Entry>): seq<Entry> {
    if entries == [] || entries[|entries| - 1] == ClearSession then []
    else SinceReset(entries[..|entries| - 1]) + [entries[|entries| - 1]]
  }

  /** Where the session counts from: 0 after a reset, else the start value. */
  function SessionStart(c: Counters, entries: seq<Entry>): Counters {
    if ClearSession in entries then c.(session := 0) else c
  }

  lemma {:induction false} SinceResetHasNone(entries: seq<Entry>)
    ensures ClearSession !in SinceReset(entries)
    ensures ClearSession !in entries ==> SinceReset(entries) == entries
  {
    if entries == [] {
    } else {
      SinceResetHasNone(entries[..|entries| - 1]);
      assert entries == entries[..|entries| - 1] + [entries[|entries| - 1]];
    }
  }

  /** The session depends on the entries since its last reset only. */
  lemma {:induction false} SessionForgets(c: Counters, entries: seq<Entry>)
    ensures Replay(c, entries).session == Replay(SessionStart(c, entries), SinceReset(entries)).session
  {
    if entries == [] {
    } else {
      var front, last := entries[..|entries| - 1], entries[|entries| - 1];
      assert entries == front + [last];
      SessionForgets(c, front);
      if last != ClearSession {
        var kept := SinceReset(front);
        assert (kept + [last])[..|kept|] == kept;
      }
    }
  }

  /** With resets anywhere: below the ceiling the session is the reflected walk of the entries since
      its last reset, from 0 if there was one and from the start value otherwise. */
  lemma SessionIsReflectedSinceReset(c: Counters, entries: seq<Entry>)
    requires BelowCap(SessionStart(c, entries), SinceReset(entries))
    ensures var start, rest := SessionStart(c, entries).session, SinceReset(entries);
            Replay(c, entries).session == Walk(start, rest) - LowWater(start, rest)
  {
    hide Replay, Walk, LowWater;
    SessionForgets(c, entries);
    SinceResetHasNone(entries);
    SessionIsReflectedWalk(SessionStart(c, entries), SinceReset(entries));
  }
}
