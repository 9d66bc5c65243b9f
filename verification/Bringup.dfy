/**
 Opening a transport channel with retries.

 `opens(k)` is the outcome of the (k+1)-st call of the open hook; the trace records the calls of the
 three hooks in order.
*/
module Bringup {
  import opened Prelude

  datatype Event = Open | Cleanup | Backoff(attempt: U32)

  /** One call of the open hook and the cleanup it causes. */
  function AttemptEvents<T, E>(outcome: Result<T, E>, isCorrupted: E -> bool): seq<Event> {
    [Open] + if outcome.Err? && isCorrupted(outcome.error) then [Cleanup] else []
  }

  /** m attempts with a back-off between any two, numbered by the attempt that failed. */
  function Attempts<T, E>(opens: nat -> Result<T, E>, isCorrupted: E -> bool, m: nat): seq<Event>
    requires m <= U32_MAX
  {
    if m == 0 then []
    else if m == 1 then AttemptEvents(opens(0), isCorrupted)
    else
      Attempts(opens, isCorrupted, m - 1) + [Backoff(m - 1)] + AttemptEvents(opens(m - 1), isCorrupted)
  }

  /** m is the number of the first success, or the last permitted attempt (at least one) if none succeeds. */
  ghost predicate EndsAt<T, E>(maxAttempts: U32, opens: nat -> Result<T, E>, m: nat) {
    && 1 <= m <= Max(1, maxAttempts)
    && (forall k: nat :: k < m - 1 ==> opens(k).Err?)
    && (opens(m - 1).Ok? || m == Max(1, maxAttempts))
  }

  lemma NextAttempt<T, E>(opens: nat -> Result<T, E>, isCorrupted: E -> bool, m: nat)
    requires 1 <= m <= U32_MAX
    ensures Attempts(opens, isCorrupted, m)
         == (if m == 1 then [] else Attempts(opens, isCorrupted, m - 1) + [Backoff(m - 1)])
            + AttemptEvents(opens(m - 1), isCorrupted)
  {
  }

  /** The end is determined by the outcomes. */
  lemma EndIsUnique<T, E>(maxAttempts: U32, opens: nat -> Result<T, E>, a: nat, b: nat)
    requires EndsAt(maxAttempts, opens, a) && EndsAt(maxAttempts, opens, b)
    ensures a == b
  {
    var first: nat := Min(a, b) - 1;
    assert a != b ==> opens(first).Err?;
  }

  /** The number of attempts made from attempt k on, when all before have failed. */
  function EndFrom<T, E>(maxAttempts: U32, opens: nat -> Result<T, E>, k: nat): (m: nat)
    requires 1 <= k <= Max(1, maxAttempts) && forall j: nat :: j < k - 1 ==> opens(j).Err?
    ensures EndsAt(maxAttempts, opens, m)
    decreases Max(1, maxAttempts) - k
  {
    if opens(k - 1).Ok? || k == Max(1, maxAttempts) then k else EndFrom(maxAttempts, opens, k + 1)
  }

  /** The number of attempts, as a function of the limit and the outcomes. */
  function EndOf<T, E>(maxAttempts: U32, opens: nat -> Result<T, E>): (m: nat)
    ensures EndsAt(maxAttempts, opens, m)
  {
    EndFrom(maxAttempts, opens, 1)
  }

  method RetryOpen<T, E>(maxAttempts: U32, opens: nat -> Result<T, E>, isCorrupted: E -> bool)
    returns (r: Result<T, E>, trace: seq<Event>)
    ensures var m := EndOf(maxAttempts, opens);
            r == opens(m - 1) && trace == Attempts(opens, isCorrupted, m)
  {
    var attempt: U32 := 1;
    trace := [];
    while true
      invariant 1 <= attempt <= Max(1, maxAttempts)
      invariant forall k: nat :: k < attempt - 1 ==> opens(k).Err?
      invariant trace == if attempt == 1 then [] else Attempts(opens, isCorrupted, attempt - 1) + [Backoff(attempt - 1)]
      decreases U32_MAX - attempt
    {
      hide Attempts, EndOf;
      NextAttempt(opens, isCorrupted, attempt);
      r := opens(attempt - 1);
      trace := trace + [Open];
      if r.Ok? {
        assert trace == Attempts(opens, isCorrupted, attempt);
        EndIsUnique(maxAttempts, opens, attempt, EndOf(maxAttempts, opens));
        return;
      }
      if isCorrupted(r.error) {
        trace := trace + [Cleanup];
      }
      assert trace == Attempts(opens, isCorrupted, attempt);
      if attempt >= maxAttempts {
        EndIsUnique(maxAttempts, opens, attempt, EndOf(maxAttempts, opens));
        return;
      }
      trace := trace + [Backoff(attempt)];
      attempt := attempt + 1;
    }
  }

  // ---- What the trace contains -------------------------------------------------------------------

  function Count(trace: seq<Event>, event: Event): nat {
    if trace == [] then 0 else Count(trace[..|trace| - 1], event) + Unit(trace[|trace| - 1] == event)
  }

  function Backoffs(trace: seq<Event>): seq<U32> {
    if trace == [] then []
    else
      var last := trace[|trace| - 1];
      Backoffs(trace[..|trace| - 1]) + if last.Backoff? then [last.attempt] else []
  }

  /** The corrupted errors among the first m outcomes. */
  function Corruptions<T, E>(opens: nat -> Result<T, E>, isCorrupted: E -> bool, m: nat): nat {
    if m == 0 then 0
    else Corruptions(opens, isCorrupted, m - 1) + Unit(opens(m - 1).Err? && isCorrupted(opens(m - 1).error))
  }

  lemma {:induction false} TraceConcat(a: seq<Event>, b: seq<Event>, event: Event)
    ensures Count(a + b, event) == Count(a, event) + Count(b, event)
    ensures Backoffs(a + b) == Backoffs(a) + Backoffs(b)
  {
    if b == [] {
      assert a + b == a;
    } else {
      assert (a + b)[..|a + b| - 1] == a + b[..|b| - 1];
      TraceConcat(a, b[..|b| - 1], event);
    }
  }

  lemma AttemptContents<T, E>(outcome: Result<T, E>, isCorrupted: E -> bool)
    ensures var trace := AttemptEvents(outcome, isCorrupted);
            && Count(trace, Open) == 1
            && Count(trace, Cleanup) == Unit(outcome.Err? && isCorrupted(outcome.error))
            && Backoffs(trace) == []
  {
    assert [Open][..0] == [];
    assert [Open, Cleanup][..1] == [Open];
    assert Backoffs([Open]) == [];
  }

  lemma BackoffContents(attempt: U32)
    ensures Count([Backoff(attempt)], Open) == Count([Backoff(attempt)], Cleanup) == 0
    ensures Backoffs([Backoff(attempt)]) == [attempt]
  {
    assert [Backoff(attempt)][..0] == [];
  }

  /** m attempts open m times, clean once per corrupted error, and back off with 1, 2, .., m - 1. */
  lemma {:induction false} AttemptsContents<T, E>(opens: nat -> Result<T, E>, isCorrupted: E -> bool, m: nat)
    requires 1 <= m <= U32_MAX
    ensures var trace := Attempts(opens, isCorrupted, m);
            && Count(trace, Open) == m
            && Count(trace, Cleanup) == Corruptions(opens, isCorrupted, m)
            && Backoffs(trace) == seq(m - 1, i requires 0 <= i < m - 1 => i + 1)
  {
    hide Count, Backoffs, AttemptEvents;
    var last := AttemptEvents(opens(m - 1), isCorrupted);
    AttemptContents(opens(m - 1), isCorrupted);
    if m == 1 {
      assert Corruptions(opens, isCorrupted, 0) == 0;
    } else {
      var front := Attempts(opens, isCorrupted, m - 1);
      AttemptsContents(opens, isCorrupted, m - 1);
      BackoffContents(m - 1);
      TraceConcat(front, [Backoff(m - 1)], Open);
      TraceConcat(front, [Backoff(m - 1)], Cleanup);
      TraceConcat(front + [Backoff(m - 1)], last, Open);
      TraceConcat(front + [Backoff(m - 1)], last, Cleanup);
    }
  }

  /** What may come next in a trace: an open comes first or after a back-off, a cleanup directly after an open
      that failed as corrupted, and a back-off, numbered by the opens so far, after an open that failed otherwise
      or after the cleanup of a corrupted one. */
  ghost predicate Fits<T, E>(before: seq<Event>, event: Event, opens: nat -> Result<T, E>, isCorrupted: E -> bool) {
    var made := Count(before, Open);
    if before == [] then event == Open
    else
      var last := before[|before| - 1];
      match event
      case Open => last.Backoff?
      case Cleanup => made > 0 && last == Open && opens(made - 1).Err? && isCorrupted(opens(made - 1).error)
      case Backoff(attempt) =>
        && made > 0 && attempt == made && opens(made - 1).Err?
        && last == if isCorrupted(opens(made - 1).error) then Cleanup else Open
  }

  ghost predicate InOrder<T, E>(trace: seq<Event>, opens: nat -> Result<T, E>, isCorrupted: E -> bool) {
    forall i: nat :: i < |trace| ==> Fits(trace[..i], trace[i], opens, isCorrupted)
  }

  lemma NothingInOrder<T, E>(opens: nat -> Result<T, E>, isCorrupted: E -> bool)
    ensures InOrder([], opens, isCorrupted) && Count([], Open) == 0
  {
  }

  lemma NextInOrder<T, E>(trace: seq<Event>, event: Event, opens: nat -> Result<T, E>, isCorrupted: E -> bool)
    requires InOrder(trace, opens, isCorrupted) && Fits(trace, event, opens, isCorrupted)
    ensures InOrder(trace + [event], opens, isCorrupted)
    ensures Count(trace + [event], Open) == Count(trace, Open) + Unit(event == Open)
  {
    var more := trace + [event];
    assert more[..|trace|] == trace;
    hide Fits;
    forall i: nat | i < |more|
      ensures Fits(more[..i], more[i], opens, isCorrupted)
    {
      assert i < |trace| ==> more[..i] == trace[..i];
    }
  }

  /** One attempt, at the start or after a back-off. */
  lemma AttemptInOrder<T, E>(before: seq<Event>, opens: nat -> Result<T, E>, isCorrupted: E -> bool, m: nat)
    requires InOrder(before, opens, isCorrupted) && Count(before, Open) == m
    requires before != [] ==> before[|before| - 1].Backoff?
    ensures var trace := before + AttemptEvents(opens(m), isCorrupted);
            && InOrder(trace, opens, isCorrupted) && Count(trace, Open) == m + 1 && trace != []
            && trace[|trace| - 1] == if opens(m).Err? && isCorrupted(opens(m).error) then Cleanup else Open
  {
    hide InOrder, Count;
    NextInOrder(before, Open, opens, isCorrupted);
    var grown := before + [Open];
    if opens(m).Err? && isCorrupted(opens(m).error) {
      NextInOrder(grown, Cleanup, opens, isCorrupted);
      assert before + AttemptEvents(opens(m), isCorrupted) == grown + [Cleanup];
    } else {
      assert before + AttemptEvents(opens(m), isCorrupted) == grown;
    }
  }

  /** A failed attempt may be followed by its back-off. */
  lemma FailedFits<T, E>(trace: seq<Event>, opens: nat -> Result<T, E>, isCorrupted: E -> bool, m: nat)
    requires 1 <= m <= U32_MAX && Count(trace, Open) == m && trace != [] && opens(m - 1).Err?
    requires trace[|trace| - 1] == if isCorrupted(opens(m - 1).error) then Cleanup else Open
    ensures Fits(trace, Backoff(m), opens, isCorrupted)
  {
    hide Count;
  }

  /** What the trace of m attempts that has not succeeded before the last one looks like. */
  ghost predicate OrderedUpTo<T, E>(trace: seq<Event>, opens: nat -> Result<T, E>, isCorrupted: E -> bool, m: nat) {
    && InOrder(trace, opens, isCorrupted) && Count(trace, Open) == m && m > 0 && trace != []
    && trace[|trace| - 1] == if opens(m - 1).Err? && isCorrupted(opens(m - 1).error) then Cleanup else Open
  }

  lemma OneMoreInOrder<T, E>(trace: seq<Event>, opens: nat -> Result<T, E>, isCorrupted: E -> bool, m: nat)
    requires OrderedUpTo(trace, opens, isCorrupted, m) && m <= U32_MAX && opens(m - 1).Err?
    ensures OrderedUpTo(trace + [Backoff(m)] + AttemptEvents(opens(m), isCorrupted), opens, isCorrupted, m + 1)
  {
    hide InOrder, Count, AttemptEvents;
    FailedFits(trace, opens, isCorrupted, m);
    NextInOrder(trace, Backoff(m), opens, isCorrupted);
    AttemptInOrder(trace + [Backoff(m)], opens, isCorrupted, m);
  }

  lemma FirstInOrder<T, E>(opens: nat -> Result<T, E>, isCorrupted: E -> bool)
    ensures OrderedUpTo(AttemptEvents(opens(0), isCorrupted), opens, isCorrupted, 1)
  {
    NothingInOrder(opens, isCorrupted);
    hide InOrder, Count;
    AttemptInOrder([], opens, isCorrupted, 0);
    assert [] + AttemptEvents(opens(0), isCorrupted) == AttemptEvents(opens(0), isCorrupted);
  }

  /** Every event of m attempts, all but the last one failed, fits what stands before it; there are m opens, and
      the trace ends with the last one, or with the cleanup that a corrupted one gets as well. */
  lemma {:induction false} EventsInOrder<T, E>(opens: nat -> Result<T, E>, isCorrupted: E -> bool, m: nat)
    requires 1 <= m <= U32_MAX && forall k: nat :: k < m - 1 ==> opens(k).Err?
    ensures OrderedUpTo(Attempts(opens, isCorrupted, m), opens, isCorrupted, m)
  {
    hide OrderedUpTo, AttemptEvents;
    if m == 1 {
      FirstInOrder(opens, isCorrupted);
    } else {
      EventsInOrder(opens, isCorrupted, m - 1);
      OneMoreInOrder(Attempts(opens, isCorrupted, m - 1), opens, isCorrupted, m - 1);
    }
  }

  // ---- The schedule of the daemon link -----------------------------------------------------------

  const OPEN_ATTEMPTS: U32 := 10

  /** Milliseconds to wait after the given failed attempt; the product fits a 64-bit integer. */
  function BackoffFor(attempt: U32): (ms: U64) {
    Min(attempt * 50, 500)
  }

  function Delay(backoffs: seq<U32>): nat {
    if backoffs == [] then 0 else Delay(backoffs[..|backoffs| - 1]) + BackoffFor(backoffs[|backoffs| - 1])
  }

  lemma NextTriangle(m: nat)
    requires m > 0
    ensures 25 * m * (m + 1) == 25 * (m - 1) * m + 50 * m
  {
  }

  /** The total wait over m back-offs: quadratic up to the tenth, then 500 ms each. */
  lemma {:induction false} DelayClosedForm(m: nat)
    requires m < U32_MAX
    ensures Delay(seq(m, i requires 0 <= i < m => i + 1))
         == if m <= 10 then 25 * m * (m + 1) else 2750 + 500 * (m - 10)
  {
    if m == 0 {
    } else {
      var all := seq(m, i requires 0 <= i < m => i + 1);
      assert all[..m - 1] == seq(m - 1, i requires 0 <= i < m - 1 => i + 1);
      DelayClosedForm(m - 1);
      NextTriangle(m);
    }
  }

  lemma DelayBound(m: nat)
    requires 1 <= m <= 10
    ensures 25 * (m - 1) * m <= 2250
    ensures 25 * (m - 1) * m == 2250 <==> m == 10
  {
    assert m == 1 || m == 2 || m == 3 || m == 4 || m == 5 || m == 6 || m == 7 || m == 8 || m == 9 || m == 10;
  }

  lemma TenthAttempt<T, E>(opens: nat -> Result<T, E>)
    ensures EndOf(OPEN_ATTEMPTS, opens) == 10 <==> forall k: nat :: k < 9 ==> opens(k).Err?
  {
    var m := EndOf(OPEN_ATTEMPTS, opens);
    if m < 10 {
      var last: nat := m - 1;
      assert opens(last).Ok?;
    }
  }

  /** Opening one channel never waits longer than 2.25 s in all, and so long only if the first nine opens fail. */
  lemma OpenWithRecoveryWaits<T, E>(opens: nat -> Result<T, E>, isCorrupted: E -> bool)
    ensures var m := EndOf(OPEN_ATTEMPTS, opens); var wait := Delay(Backoffs(Attempts(opens, isCorrupted, m)));
            && wait == 25 * (m - 1) * m <= 2250
            && (wait == 2250 <==> forall k: nat :: k < 9 ==> opens(k).Err?)
  {
    hide Attempts, Backoffs, Delay, Count, Corruptions, EndOf;
    var m := EndOf(OPEN_ATTEMPTS, opens);
    AttemptsContents(opens, isCorrupted, m);
    DelayClosedForm(m - 1);
    DelayBound(m);
    TenthAttempt(opens);
  }
}
