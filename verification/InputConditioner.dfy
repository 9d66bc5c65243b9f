/**
 Debouncing of one digital input.

 `Conditioned` is the value a `Debouncer` object holds, `Sample` what one raw sample does to it.
 The lemmas replace the counting machine by statements about the whole sample history `h`, where
 `h(i)` is the i-th raw sample and `At(.., n)` the state after the first n samples.
*/
module InputConditioner {
  import opened Prelude

  datatype Edge = NoEdge | Rising | Falling

  datatype Conditioned = Conditioned(threshold: U8, level: bool, candidate: bool, count: U8)

  function Fresh(threshold: U8, initial: bool): Conditioned {
    Conditioned(Max(threshold, 1), initial, initial, 0)
  }

  function SaturatingInc(x: U8): U8 {
    if x == U8_MAX then U8_MAX else x + 1
  }

  function Sample(d: Conditioned, raw: bool): (Conditioned, Edge) {
    if raw == d.level then
      (d.(candidate := raw, count := 0), NoEdge)
    else
      var count := if raw == d.candidate then SaturatingInc(d.count) else 1;
      if count >= d.threshold then
        (Conditioned(d.threshold, raw, raw, 0), if raw then Rising else Falling)
      else
        (d.(candidate := raw, count := count), NoEdge)
  }

  class Debouncer {
    const threshold: U8
    var level: bool
    var candidate: bool
    var count: U8

    function View(): Conditioned
      reads this
    {
      Conditioned(threshold, level, candidate, count)
    }

    constructor (threshold: U8, initial: bool)
      ensures View() == Fresh(threshold, initial)
    {
      this.threshold := Max(threshold, 1);
      level, candidate, count := initial, initial, 0;
    }

    method Update(raw: bool) returns (edge: Edge)
      modifies this
      ensures (View(), edge) == Sample(old(View()), raw)
    {
      if raw == level {
        candidate := raw;
        count := 0;
        return NoEdge;
      }
      if raw == candidate {
        count := SaturatingInc(count);
      } else {
        candidate := raw;
        count := 1;
      }
      if count >= threshold {
        level := raw;
        count := 0;
        return if raw then Rising else Falling;
      }
      return NoEdge;
    }
  }

  // ---- The machine over a whole sample history -----------------------------------------------

  function At(t: U8, initial: bool, h: nat -> bool, n: nat): Conditioned {
    if n == 0 then Fresh(t, initial) else Sample(At(t, initial, h, n - 1), h(n - 1)).0
  }

  /** The edge reported for sample n. */
  function EdgeAt(t: U8, initial: bool, h: nat -> bool, n: nat): Edge {
    Sample(At(t, initial, h, n), h(n)).1
  }

  /** The `width` samples just before index `end` all equal v. */
  ghost predicate Window(h: nat -> bool, end: nat, width: nat, v: bool) {
    width <= end && forall i: nat :: end - width <= i < end ==> h(i) == v
  }

  /** The value of the most recent window of `width` equal samples, or `initial` if there is none. */
  ghost function LatestWindow(h: nat -> bool, width: nat, initial: bool, n: nat): bool {
    if Window(h, n, width, true) then true
    else if Window(h, n, width, false) then false
    else if n == 0 then initial
    else LatestWindow(h, width, initial, n - 1)
  }

  /** The length of the run of samples equal to v that ends just before index n. */
  function TrailingRun(h: nat -> bool, n: nat, v: bool): nat {
    if n == 0 || h(n - 1) != v then 0 else 1 + TrailingRun(h, n - 1, v)
  }

  lemma {:induction false} TrailingRunIsWindow(h: nat -> bool, n: nat, v: bool, width: nat)
    ensures Window(h, n, width, v) <==> width <= TrailingRun(h, n, v)
  {
    if n > 0 && h(n - 1) == v && width > 0 {
      TrailingRunIsWindow(h, n - 1, v, width - 1);
    } else if width > 0 && n > 0 {
      var last: nat := n - 1;
      assert h(last) != v;
    }
  }

  /** The pending count is the trailing run of samples that disagree with the level, and it stays
      below the threshold: the saturating 8-bit addition is always an exact one. */
  lemma {:induction false} CountIsTrailingRun(t: U8, initial: bool, h: nat -> bool, n: nat)
    ensures var d := At(t, initial, h, n);
            && d.threshold == Max(t, 1)
            && d.count == TrailingRun(h, n, !d.level) < d.threshold
            && (d.candidate == d.level <==> d.count == 0)
  {
    if n == 0 {
    } else {
      CountIsTrailingRun(t, initial, h, n - 1);
    }
  }

  /** Every decision to keep or change the level agrees with the most recent full window. */
  lemma {:induction false} LevelIsLatestWindow(t: U8, initial: bool, h: nat -> bool, n: nat)
    ensures At(t, initial, h, n).level == LatestWindow(h, Max(t, 1), initial, n)
  {
    var width: nat := Max(t, 1);
    var d := At(t, initial, h, n);
    CountIsTrailingRun(t, initial, h, n);
    TrailingRunIsWindow(h, n, !d.level, width);
    if n == 0 {
    } else {
      LevelIsLatestWindow(t, initial, h, n - 1);
      var before := At(t, initial, h, n - 1);
      CountIsTrailingRun(t, initial, h, n - 1);
      if d.level != before.level {
        TrailingRunIsWindow(h, n, d.level, width);
      }
    }
  }

  /** An edge is reported exactly when the level changes, in the direction of the new sample. */
  lemma EdgeIsLevelChange(t: U8, initial: bool, h: nat -> bool, n: nat)
    ensures var d := At(t, initial, h, n); var e := At(t, initial, h, n + 1);
            && (EdgeAt(t, initial, h, n) == NoEdge <==> d.level == e.level)
            && (EdgeAt(t, initial, h, n) == Rising <==> !d.level && e.level)
            && (EdgeAt(t, initial, h, n) == Falling <==> d.level && !e.level)
            && (EdgeAt(t, initial, h, n) != NoEdge ==> e.level == h(n))
  {
  }

  /** A level change between two instants happens at some sample in between. */
  lemma {:induction false} ChangeBetween(t: U8, initial: bool, h: nat -> bool, a: nat, b: nat) returns (p: nat)
    requires a < b
    requires At(t, initial, h, a).level != At(t, initial, h, b).level
    ensures a <= p < b && EdgeAt(t, initial, h, p) != NoEdge && h(p) == At(t, initial, h, b).level
    decreases b
  {
    if At(t, initial, h, b - 1).level != At(t, initial, h, b).level {
      p := b - 1;
    } else {
      p := ChangeBetween(t, initial, h, a, b - 1);
    }
  }

  /** Two edges are never closer than the threshold. */
  lemma {:induction false} EdgesApart(t: U8, initial: bool, h: nat -> bool, m: nat, n: nat)
    requires m < n
    requires EdgeAt(t, initial, h, m) != NoEdge && EdgeAt(t, initial, h, n) != NoEdge
    ensures n - m >= Max(t, 1)
  {
    var width: nat := Max(t, 1);
    CountIsTrailingRun(t, initial, h, n);
    assert TrailingRun(h, n + 1, h(n)) >= width;
    TrailingRunIsWindow(h, n + 1, h(n), width);
    if h(m) == h(n) {
      var p := ChangeBetween(t, initial, h, m + 1, n);
      assert h(p) != h(n);
    }
  }

  /** Of two edges in the same direction, one in the other direction lies between them. */
  lemma EdgesAlternate(t: U8, initial: bool, h: nat -> bool, m: nat, n: nat) returns (p: nat)
    requires m < n
    requires EdgeAt(t, initial, h, m) == EdgeAt(t, initial, h, n) != NoEdge
    ensures m < p < n && EdgeAt(t, initial, h, p) != NoEdge
    ensures EdgeAt(t, initial, h, p) != EdgeAt(t, initial, h, m)
  {
    p := ChangeBetween(t, initial, h, m + 1, n);
  }

  function EdgeCount(t: U8, initial: bool, h: nat -> bool, n: nat): nat {
    if n == 0 then 0
    else EdgeCount(t, initial, h, n - 1) + Unit(EdgeAt(t, initial, h, n - 1) != NoEdge)
  }

  function RisingCount(t: U8, initial: bool, h: nat -> bool, n: nat): nat {
    if n == 0 then 0
    else RisingCount(t, initial, h, n - 1) + Unit(EdgeAt(t, initial, h, n - 1) == Rising)
  }

  lemma OneMore(width: nat, edges: nat)
    ensures width * (edges + 1) == width * edges + width
  {
  }

  /** Every edge spends a threshold's worth of samples of its own. */
  lemma {:induction false} EdgeBudget(t: U8, initial: bool, h: nat -> bool, n: nat)
    ensures Max(t, 1) * EdgeCount(t, initial, h, n) + At(t, initial, h, n).count <= n
  {
    if n == 0 {
    } else {
      EdgeBudget(t, initial, h, n - 1);
      CountIsTrailingRun(t, initial, h, n - 1);
      OneMore(Max(t, 1), EdgeCount(t, initial, h, n - 1));
    }
  }

  /** Rising and falling edges alternate, so twice the risings is the edges corrected by the levels. */
  lemma {:induction false} RisingShare(t: U8, initial: bool, h: nat -> bool, n: nat)
    ensures 2 * RisingCount(t, initial, h, n) + Unit(initial)
         == EdgeCount(t, initial, h, n) + Unit(At(t, initial, h, n).level)
  {
    if n == 0 {
    } else {
      RisingShare(t, initial, h, n - 1);
    }
  }
}
