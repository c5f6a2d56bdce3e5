/**
 * Date-indexed money columns: sums, running totals (`cumsum`) and
 * bucket sums (the arithmetic behind `groupby(...).sum()` and
 * `resample(...).sum()`).
 */
module Series {

  /** One row of a date-indexed money column; dates are day numbers. */
  datatype Point = Point(date: int, amount: real)

  /** The money column of a series. */
  function Amounts(ps: seq<Point>): seq<real>
  {
    seq(|ps|, i requires 0 <= i < |ps| => ps[i].amount)
  }

  /** Sum of a column, as `Series.sum()` (the empty sum is 0). */
  function Sum(xs: seq<real>): real
  {
    if xs == [] then 0.0 else Sum(xs[..|xs| - 1]) + xs[|xs| - 1]
  }

  /** Sum of the money column of a series. */
  function Total(ps: seq<Point>): real
  {
    Sum(Amounts(ps))
  }

  lemma {:induction false} SumAppend(a: seq<real>, b: seq<real>)
    ensures Sum(a + b) == Sum(a) + Sum(b)
  {
    if b == [] {
      assert a + b == a;
    } else {
      assert (a + b)[..|a + b| - 1] == a + b[..|b| - 1];
      SumAppend(a, b[..|b| - 1]);
    }
  }

  lemma SumCons(x: real, ys: seq<real>)
    ensures Sum([x] + ys) == x + Sum(ys)
  {
    SumAppend([x], ys);
    assert [x][..0] == [];
  }

  lemma {:induction false} SumNonNegative(xs: seq<real>)
    requires forall i :: 0 <= i < |xs| ==> xs[i] >= 0.0
    ensures Sum(xs) >= 0.0
  {
    if xs != [] {
      SumNonNegative(xs[..|xs| - 1]);
    }
  }

  lemma AmountsAppend(a: seq<Point>, b: seq<Point>)
    ensures Amounts(a + b) == Amounts(a) + Amounts(b)
  {
  }

  lemma TotalAppend(a: seq<Point>, b: seq<Point>)
    ensures Total(a + b) == Total(a) + Total(b)
  {
    AmountsAppend(a, b);
    SumAppend(Amounts(a), Amounts(b));
  }

  lemma TotalCons(p: Point, ps: seq<Point>)
    ensures Total([p] + ps) == p.amount + Total(ps)
  {
    AmountsAppend([p], ps);
    assert Amounts([p]) == [p.amount];
    SumCons(p.amount, Amounts(ps));
  }

  // ---------------------------------------------------------------------
  // Running totals

  /**
   * `cumsum` as pandas computes it: each element adds the next amount to
   * the total carried so far, starting from `acc`.
   */
  function RunningTotals(acc: real, xs: seq<real>): (r: seq<real>)
    ensures |r| == |xs|
    decreases xs
  {
    if xs == [] then [] else [acc + xs[0]] + RunningTotals(acc + xs[0], xs[1..])
  }

  /** `Series.cumsum()`. */
  function CumSum(xs: seq<real>): seq<real>
  {
    RunningTotals(0.0, xs)
  }

  lemma {:induction false} RunningTotalsAt(acc: real, xs: seq<real>, i: int)
    requires 0 <= i < |xs|
    ensures RunningTotals(acc, xs)[i] == acc + Sum(xs[..i + 1])
    decreases xs
  {
    if i == 0 {
      assert xs[..1] == [xs[0]];
      SumCons(xs[0], []);
      assert [xs[0]] + [] == [xs[0]];
    } else {
      RunningTotalsAt(acc + xs[0], xs[1..], i - 1);
      assert xs[..i + 1] == [xs[0]] + xs[1..][..i];
      SumCons(xs[0], xs[1..][..i]);
    }
  }

  /** Element i of a running total is the sum of elements 0..i. */
  lemma CumSumAt(xs: seq<real>, i: int)
    requires 0 <= i < |xs|
    ensures |CumSum(xs)| == |xs|
    ensures CumSum(xs)[i] == Sum(xs[..i + 1])
  {
    RunningTotalsAt(0.0, xs, i);
  }

  /** The last running total is the sum of the whole column. */
  lemma CumSumLast(xs: seq<real>)
    requires xs != []
    ensures CumSum(xs)[|xs| - 1] == Sum(xs)
  {
    CumSumAt(xs, |xs| - 1);
    assert xs[..|xs|] == xs;
  }

  /** With no negative amounts the running total never decreases. */
  lemma CumSumMonotone(xs: seq<real>, i: int, j: int)
    requires forall k :: 0 <= k < |xs| ==> xs[k] >= 0.0
    requires 0 <= i <= j < |xs|
    ensures CumSum(xs)[i] <= CumSum(xs)[j]
  {
    CumSumAt(xs, i);
    CumSumAt(xs, j);
    assert xs[..j + 1] == xs[..i + 1] + xs[i + 1..j + 1];
    SumAppend(xs[..i + 1], xs[i + 1..j + 1]);
    SumNonNegative(xs[i + 1..j + 1]);
  }

  // ---------------------------------------------------------------------
  // Bucket sums: `key` maps a date to its bucket number.

  /** The day itself: the bucket of a `groupby` on the date. */
  function Day(d: int): int
  {
    d
  }

  /** Total of the amounts whose date falls in bucket k. */
  function SumWhere(ps: seq<Point>, key: int -> int, k: int): real
  {
    if ps == [] then 0.0
    else SumWhere(ps[..|ps| - 1], key, k)
         + (if key(ps[|ps| - 1].date) == k then ps[|ps| - 1].amount else 0.0)
  }

  /** Total of the amounts whose date falls in a bucket of lo..hi-1. */
  function SumIn(ps: seq<Point>, key: int -> int, lo: int, hi: int): real
  {
    if ps == [] then 0.0
    else SumIn(ps[..|ps| - 1], key, lo, hi)
         + (if lo <= key(ps[|ps| - 1].date) < hi then ps[|ps| - 1].amount else 0.0)
  }

  /** A bucket no date falls in has total 0. */
  lemma {:induction false} SumWhereEmpty(ps: seq<Point>, key: int -> int, k: int)
    requires forall i :: 0 <= i < |ps| ==> key(ps[i].date) != k
    ensures SumWhere(ps, key, k) == 0.0
  {
    if ps != [] {
      SumWhereEmpty(ps[..|ps| - 1], key, k);
    }
  }

  lemma {:induction false} SumWhereNonNegative(ps: seq<Point>, key: int -> int, k: int)
    requires forall i :: 0 <= i < |ps| ==> ps[i].amount >= 0.0
    ensures SumWhere(ps, key, k) >= 0.0
  {
    if ps != [] {
      SumWhereNonNegative(ps[..|ps| - 1], key, k);
    }
  }

  /** Peeling the lowest bucket off a range of buckets. */
  lemma {:induction false} SumInSplit(ps: seq<Point>, key: int -> int, lo: int, hi: int)
    requires lo < hi
    ensures SumIn(ps, key, lo, hi) == SumWhere(ps, key, lo) + SumIn(ps, key, lo + 1, hi)
  {
    if ps != [] {
      SumInSplit(ps[..|ps| - 1], key, lo, hi);
    }
  }

  /** An empty range of buckets has total 0. */
  lemma {:induction false} SumInEmptyRange(ps: seq<Point>, key: int -> int, lo: int, hi: int)
    requires hi <= lo
    ensures SumIn(ps, key, lo, hi) == 0.0
  {
    if ps != [] {
      SumInEmptyRange(ps[..|ps| - 1], key, lo, hi);
    }
  }

  /** When every date falls in the range, the range holds the whole total. */
  lemma {:induction false} SumInAll(ps: seq<Point>, key: int -> int, lo: int, hi: int)
    requires forall i :: 0 <= i < |ps| ==> lo <= key(ps[i].date) < hi
    ensures SumIn(ps, key, lo, hi) == Total(ps)
  {
    if ps != [] {
      var init := ps[..|ps| - 1];
      SumInAll(init, key, lo, hi);
      assert ps == init + [ps[|ps| - 1]];
      TotalAppend(init, [ps[|ps| - 1]]);
      TotalCons(ps[|ps| - 1], []);
      assert [ps[|ps| - 1]] + [] == [ps[|ps| - 1]];
    }
  }

  /** When no date falls in the range, the range's total is 0. */
  lemma {:induction false} SumInNone(ps: seq<Point>, key: int -> int, lo: int, hi: int)
    requires forall i :: 0 <= i < |ps| ==> !(lo <= key(ps[i].date) < hi)
    ensures SumIn(ps, key, lo, hi) == 0.0
  {
    if ps != [] {
      SumInNone(ps[..|ps| - 1], key, lo, hi);
    }
  }

  lemma {:induction false} SumInAppend(a: seq<Point>, b: seq<Point>, key: int -> int, lo: int, hi: int)
    ensures SumIn(a + b, key, lo, hi) == SumIn(a, key, lo, hi) + SumIn(b, key, lo, hi)
  {
    if b == [] {
      assert a + b == a;
    } else {
      assert (a + b)[..|a + b| - 1] == a + b[..|b| - 1];
      SumInAppend(a, b[..|b| - 1], key, lo, hi);
    }
  }

  /**
   * When exactly the first m points fall in the range, the range's total is
   * the total of those m points.
   */
  lemma SumInPrefix(ps: seq<Point>, key: int -> int, lo: int, hi: int, m: int)
    requires 0 <= m <= |ps|
    requires forall i :: 0 <= i < m ==> lo <= key(ps[i].date) < hi
    requires forall i :: m <= i < |ps| ==> !(lo <= key(ps[i].date) < hi)
    ensures SumIn(ps, key, lo, hi) == Total(ps[..m])
  {
    var before, after := ps[..m], ps[m..];
    assert ps == before + after;
    SumInAppend(before, after, key, lo, hi);
    SumInAll(before, key, lo, hi);
    assert forall i :: 0 <= i < |after| ==> after[i] == ps[m + i];
    SumInNone(after, key, lo, hi);
  }
}
