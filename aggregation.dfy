/**
 * Aggregation of the daily entries: `groupby("Fecha").sum().sort_index()`
 * and `resample("W").sum()`.
 */
module Aggregation {
  import opened Series
  import opened Calendar

  /** The earliest date of a non-empty series (`index.min()`). */
  function MinDate(ps: seq<Point>): (d: int)
    requires ps != []
    ensures exists i :: 0 <= i < |ps| && ps[i].date == d
    ensures forall i :: 0 <= i < |ps| ==> d <= ps[i].date
  {
    if |ps| == 1 then ps[0].date
    else
      var m := MinDate(ps[..|ps| - 1]);
      assert forall i :: 0 <= i < |ps| - 1 ==> ps[..|ps| - 1][i] == ps[i];
      if ps[|ps| - 1].date < m then ps[|ps| - 1].date else m
  }

  /** The latest date of a non-empty series (`index.max()`). */
  function MaxDate(ps: seq<Point>): (d: int)
    requires ps != []
    ensures exists i :: 0 <= i < |ps| && ps[i].date == d
    ensures forall i :: 0 <= i < |ps| ==> ps[i].date <= d
  {
    if |ps| == 1 then ps[0].date
    else
      var m := MaxDate(ps[..|ps| - 1]);
      assert forall i :: 0 <= i < |ps| - 1 ==> ps[..|ps| - 1][i] == ps[i];
      if ps[|ps| - 1].date > m then ps[|ps| - 1].date else m
  }

  predicate HasDate(ps: seq<Point>, d: int)
  {
    exists i :: 0 <= i < |ps| && ps[i].date == d
  }

  predicate StrictlyAscending(ps: seq<Point>)
  {
    forall i, j :: 0 <= i < j < |ps| ==> ps[i].date < ps[j].date
  }

  // ---------------------------------------------------------------------
  // Daily totals

  /** One row per day of lo .. hi-1 that some entry has, holding that day's sum. */
  function Collect(es: seq<Point>, lo: int, hi: int): seq<Point>
    decreases hi - lo
  {
    if lo >= hi then []
    else (if HasDate(es, lo) then [Point(lo, SumWhere(es, Day, lo))] else [])
         + Collect(es, lo + 1, hi)
  }

  /** `groupby("Fecha").sum().sort_index()` on the daily entries. */
  function DailyTotals(es: seq<Point>): seq<Point>
  {
    if es == [] then [] else Collect(es, MinDate(es), MaxDate(es) + 1)
  }

  lemma {:induction false} CollectShape(es: seq<Point>, lo: int, hi: int)
    ensures var c := Collect(es, lo, hi);
            StrictlyAscending(c)
            && (forall i :: 0 <= i < |c| ==> lo <= c[i].date < hi && HasDate(es, c[i].date)
                                              && c[i].amount == SumWhere(es, Day, c[i].date))
            && (forall d :: lo <= d < hi && HasDate(es, d) ==> HasDate(c, d))
    decreases hi - lo
  {
    if lo < hi {
      CollectShape(es, lo + 1, hi);
      var rest := Collect(es, lo + 1, hi);
      var head := if HasDate(es, lo) then [Point(lo, SumWhere(es, Day, lo))] else [];
      var c := head + rest;
      forall d | lo <= d < hi && HasDate(es, d) ensures HasDate(c, d) {
        if d == lo {
          assert c[0].date == d;
        } else {
          var i :| 0 <= i < |rest| && rest[i].date == d;
          assert c[|head| + i].date == d;
        }
      }
    }
  }

  lemma {:induction false} CollectTotal(es: seq<Point>, lo: int, hi: int)
    ensures Total(Collect(es, lo, hi)) == SumIn(es, Day, lo, hi)
    decreases hi - lo
  {
    if lo >= hi {
      SumInEmptyRange(es, Day, lo, hi);
    } else {
      CollectTotal(es, lo + 1, hi);
      SumInSplit(es, Day, lo, hi);
      var rest := Collect(es, lo + 1, hi);
      if HasDate(es, lo) {
        TotalCons(Point(lo, SumWhere(es, Day, lo)), rest);
      } else {
        SumWhereEmpty(es, Day, lo);
        assert Collect(es, lo, hi) == rest;
      }
    }
  }

  /**
   * The daily series lists each entry date exactly once, in strictly
   * ascending order, with the sum of every entry on that date.
   */
  lemma DailyTotalsShape(es: seq<Point>)
    ensures var daily := DailyTotals(es);
            StrictlyAscending(daily)
            && (forall i :: 0 <= i < |daily| ==> HasDate(es, daily[i].date)
                                                  && daily[i].amount == SumWhere(es, Day, daily[i].date))
            && (forall i :: 0 <= i < |es| ==> HasDate(daily, es[i].date))
  {
    if es != [] {
      CollectShape(es, MinDate(es), MaxDate(es) + 1);
      forall i | 0 <= i < |es| ensures HasDate(DailyTotals(es), es[i].date) {
        assert HasDate(es, es[i].date);
      }
    }
  }

  /** Grouping by date neither loses nor adds cost. */
  lemma DailyTotalsTotal(es: seq<Point>)
    ensures Total(DailyTotals(es)) == Total(es)
  {
    if es != [] {
      CollectTotal(es, MinDate(es), MaxDate(es) + 1);
      SumInAll(es, Day, MinDate(es), MaxDate(es) + 1);
    }
  }

  /** There is a daily row exactly when there is an entry. */
  lemma DailyTotalsEmpty(es: seq<Point>)
    ensures DailyTotals(es) == [] <==> es == []
  {
    if es != [] {
      DailyTotalsShape(es);
      assert HasDate(DailyTotals(es), es[0].date);
    }
  }

  /** With no negative entries, no daily total is negative. */
  lemma DailyTotalsNonNegative(es: seq<Point>)
    requires forall i :: 0 <= i < |es| ==> es[i].amount >= 0.0
    ensures forall i :: 0 <= i < |DailyTotals(es)| ==> DailyTotals(es)[i].amount >= 0.0
  {
    DailyTotalsShape(es);
    forall i | 0 <= i < |DailyTotals(es)| ensures DailyTotals(es)[i].amount >= 0.0 {
      SumWhereNonNegative(es, Day, DailyTotals(es)[i].date);
    }
  }

  // ---------------------------------------------------------------------
  // Weekly totals

  /** One row per week number lo .. hi-1, labelled with its Sunday, holding the week's sum. */
  function WeeksFrom(daily: seq<Point>, lo: int, hi: int): (w: seq<Point>)
    ensures |w| == if lo < hi then hi - lo else 0
    decreases hi - lo
  {
    if lo >= hi then []
    else [Point(WeekEndOfIndex(lo), SumWhere(daily, WeekIndex, lo))] + WeeksFrom(daily, lo + 1, hi)
  }

  /** `resample("W").sum()`: every week from the first date's to the last date's. */
  function Weekly(daily: seq<Point>): seq<Point>
  {
    if daily == [] then []
    else WeeksFrom(daily, WeekIndex(MinDate(daily)), WeekIndex(MaxDate(daily)) + 1)
  }

  lemma {:induction false} WeeksFromAt(daily: seq<Point>, lo: int, hi: int, i: int)
    requires 0 <= i < hi - lo
    ensures WeeksFrom(daily, lo, hi)[i] == Point(WeekEndOfIndex(lo + i), SumWhere(daily, WeekIndex, lo + i))
    decreases hi - lo
  {
    if i > 0 {
      WeeksFromAt(daily, lo + 1, hi, i - 1);
    }
  }

  lemma {:induction false} WeeksFromTotal(daily: seq<Point>, lo: int, hi: int)
    ensures Total(WeeksFrom(daily, lo, hi)) == SumIn(daily, WeekIndex, lo, hi)
    decreases hi - lo
  {
    if lo >= hi {
      SumInEmptyRange(daily, WeekIndex, lo, hi);
    } else {
      WeeksFromTotal(daily, lo + 1, hi);
      SumInSplit(daily, WeekIndex, lo, hi);
      TotalCons(Point(WeekEndOfIndex(lo), SumWhere(daily, WeekIndex, lo)), WeeksFrom(daily, lo + 1, hi));
    }
  }

  lemma {:induction false} WeeksFromPrefix(daily: seq<Point>, lo: int, hi: int, n: int)
    requires 0 <= n <= hi - lo
    ensures WeeksFrom(daily, lo, hi)[..n] == WeeksFrom(daily, lo, lo + n)
  {
    forall i | 0 <= i < n ensures WeeksFrom(daily, lo, hi)[i] == WeeksFrom(daily, lo, lo + n)[i] {
      WeeksFromAt(daily, lo, hi, i);
      WeeksFromAt(daily, lo, lo + n, i);
    }
  }

  lemma WeeklyUnfold(daily: seq<Point>)
    requires daily != []
    ensures Weekly(daily) == WeeksFrom(daily, WeekIndex(MinDate(daily)), WeekIndex(MaxDate(daily)) + 1)
  {
  }

  /** Row i of the weekly series: the week lo + i after the first date's week lo. */
  lemma WeeklyAt(daily: seq<Point>, i: int)
    requires daily != []
    requires 0 <= i < |Weekly(daily)|
    ensures Weekly(daily)[i] == Point(WeekEndOfIndex(WeekIndex(MinDate(daily)) + i),
                                      SumWhere(daily, WeekIndex, WeekIndex(MinDate(daily)) + i))
  {
    WeeklyUnfold(daily);
    WeeksFromAt(daily, WeekIndex(MinDate(daily)), WeekIndex(MaxDate(daily)) + 1, i);
  }

  lemma WeeklyLength(daily: seq<Point>)
    requires daily != []
    ensures |Weekly(daily)| == WeekIndex(MaxDate(daily)) - WeekIndex(MinDate(daily)) + 1
  {
    WeekIndexMonotone(MinDate(daily), MaxDate(daily));
  }

  lemma WeeklyFirst(daily: seq<Point>)
    requires daily != []
    ensures Weekly(daily)[0].date == WeekEnd(MinDate(daily))
  {
    WeeklyLength(daily);
    WeeklyAt(daily, 0);
  }

  lemma WeeklyLast(daily: seq<Point>)
    requires daily != []
    ensures Weekly(daily)[|Weekly(daily)| - 1].date == WeekEnd(MaxDate(daily))
  {
    var w := Weekly(daily);
    var lo, top := WeekIndex(MinDate(daily)), WeekIndex(MaxDate(daily));
    WeeklyLength(daily);
    var n := |w| - 1;
    assert lo + n == top;
    WeeklyAt(daily, n);
    assert w[n].date == WeekEndOfIndex(top);
  }

  lemma WeeklySundays(daily: seq<Point>)
    requires daily != []
    ensures forall i :: 0 <= i < |Weekly(daily)| ==> IsSunday(Weekly(daily)[i].date)
  {
    WeeklyUnfold(daily);
    WeeksFromSundays(daily, WeekIndex(MinDate(daily)), WeekIndex(MaxDate(daily)) + 1);
  }

  lemma WeeksFromSundays(daily: seq<Point>, lo: int, hi: int)
    ensures forall i :: 0 <= i < |WeeksFrom(daily, lo, hi)| ==> IsSunday(WeeksFrom(daily, lo, hi)[i].date)
  {
    forall i | 0 <= i < |WeeksFrom(daily, lo, hi)| ensures IsSunday(WeeksFrom(daily, lo, hi)[i].date) {
      WeeksFromAt(daily, lo, hi, i);
    }
  }

  lemma WeeklyConsecutive(daily: seq<Point>)
    requires daily != []
    ensures forall i :: 0 <= i < |Weekly(daily)| - 1 ==> Weekly(daily)[i + 1].date == Weekly(daily)[i].date + 7
  {
    WeeklySteps(daily);
  }

  /** Row i of the weekly series is dated i weeks after the first row. */
  lemma WeeklySteps(daily: seq<Point>)
    requires daily != []
    ensures forall i :: 0 <= i < |Weekly(daily)| ==> Weekly(daily)[i].date == Weekly(daily)[0].date + 7 * i
  {
    var lo, hi := WeekIndex(MinDate(daily)), WeekIndex(MaxDate(daily)) + 1;
    WeeklyUnfold(daily);
    WeeksFromSteps(daily, lo, hi);
  }

  lemma WeeksFromSteps(daily: seq<Point>, lo: int, hi: int)
    requires lo < hi
    ensures forall i :: 0 <= i < hi - lo ==> WeeksFrom(daily, lo, hi)[i].date == WeeksFrom(daily, lo, hi)[0].date + 7 * i
  {
    forall i | 0 <= i < hi - lo ensures WeeksFrom(daily, lo, hi)[i].date == WeeksFrom(daily, lo, hi)[0].date + 7 * i {
      WeeksFromAt(daily, lo, hi, 0);
      WeeksFromAt(daily, lo, hi, i);
    }
  }

  /**
   * The weekly buckets are consecutive Sunday-ending weeks, from the week
   * of the first daily date to the week of the last.
   */
  lemma WeeklyDates(daily: seq<Point>)
    requires daily != []
    ensures var w := Weekly(daily);
            |w| == WeekIndex(MaxDate(daily)) - WeekIndex(MinDate(daily)) + 1
            && w[0].date == WeekEnd(MinDate(daily))
            && w[|w| - 1].date == WeekEnd(MaxDate(daily))
            && (forall i :: 0 <= i < |w| ==> IsSunday(w[i].date))
            && (forall i :: 0 <= i < |w| - 1 ==> w[i + 1].date == w[i].date + 7)
  {
    WeeklyLength(daily);
    WeeklyFirst(daily);
    WeeklyLast(daily);
    WeeklySundays(daily);
    WeeklyConsecutive(daily);
  }

  /**
   * Each weekly bucket holds the sum of the daily amounts dated in its
   * week, so a week with no daily row holds 0.
   */
  lemma WeeklyAmounts(daily: seq<Point>, i: int)
    requires daily != []
    requires 0 <= i < |Weekly(daily)|
    ensures Weekly(daily)[i].amount == SumWhere(daily, WeekIndex, WeekIndex(Weekly(daily)[i].date))
    ensures (forall j :: 0 <= j < |daily| ==> WeekEnd(daily[j].date) != Weekly(daily)[i].date)
            ==> Weekly(daily)[i].amount == 0.0
  {
    WeeklyUnfold(daily);
    WeeksFromAmount(daily, WeekIndex(MinDate(daily)), WeekIndex(MaxDate(daily)) + 1, i);
  }

  lemma WeeksFromAmount(daily: seq<Point>, lo: int, hi: int, i: int)
    requires 0 <= i < hi - lo
    ensures var p := WeeksFrom(daily, lo, hi)[i];
            p.amount == SumWhere(daily, WeekIndex, WeekIndex(p.date))
            && ((forall j :: 0 <= j < |daily| ==> WeekEnd(daily[j].date) != p.date) ==> p.amount == 0.0)
  {
    WeeksFromAt(daily, lo, hi, i);
    WeekOfWeekEnd(lo + i);
    EmptyWeekZero(daily, lo + i, WeekEndOfIndex(lo + i));
  }

  lemma EmptyWeekZero(daily: seq<Point>, k: int, s: int)
    requires s == WeekEndOfIndex(k)
    ensures (forall j :: 0 <= j < |daily| ==> WeekEnd(daily[j].date) != s) ==> SumWhere(daily, WeekIndex, k) == 0.0
  {
    if forall j :: 0 <= j < |daily| ==> WeekEnd(daily[j].date) != s {
      EmptyWeek(daily, k);
    }
  }

  /** A week whose Sunday closes no daily date has a zero sum. */
  lemma EmptyWeek(daily: seq<Point>, k: int)
    requires forall j :: 0 <= j < |daily| ==> WeekEnd(daily[j].date) != WeekEndOfIndex(k)
    ensures SumWhere(daily, WeekIndex, k) == 0.0
  {
    forall j | 0 <= j < |daily| ensures WeekIndex(daily[j].date) != k {
      WeekOfWeekEnd(k);
      SameWeek(daily[j].date, WeekEndOfIndex(k));
    }
    SumWhereEmpty(daily, WeekIndex, k);
  }

  /** Resampling neither loses nor adds cost. */
  lemma WeeklyTotal(daily: seq<Point>)
    ensures Total(Weekly(daily)) == Total(daily)
  {
    if daily != [] {
      var lo, hi := WeekIndex(MinDate(daily)), WeekIndex(MaxDate(daily)) + 1;
      WeeksFromTotal(daily, lo, hi);
      forall i | 0 <= i < |daily| ensures lo <= WeekIndex(daily[i].date) < hi {
        WeekIndexMonotone(MinDate(daily), daily[i].date);
        WeekIndexMonotone(daily[i].date, MaxDate(daily));
      }
      SumInAll(daily, WeekIndex, lo, hi);
    }
  }

  /** With no negative daily totals, no weekly total is negative. */
  lemma WeeklyNonNegative(daily: seq<Point>)
    requires forall i :: 0 <= i < |daily| ==> daily[i].amount >= 0.0
    ensures forall i :: 0 <= i < |Weekly(daily)| ==> Weekly(daily)[i].amount >= 0.0
  {
    if daily != [] {
      WeeklyUnfold(daily);
      WeeksFromNonNegative(daily, WeekIndex(MinDate(daily)), WeekIndex(MaxDate(daily)) + 1);
    }
  }

  lemma WeeksFromNonNegative(daily: seq<Point>, lo: int, hi: int)
    requires forall i :: 0 <= i < |daily| ==> daily[i].amount >= 0.0
    ensures forall i :: 0 <= i < |WeeksFrom(daily, lo, hi)| ==> WeeksFrom(daily, lo, hi)[i].amount >= 0.0
  {
    forall i | 0 <= i < |WeeksFrom(daily, lo, hi)| ensures WeeksFrom(daily, lo, hi)[i].amount >= 0.0 {
      WeeksFromAt(daily, lo, hi, i);
      SumWhereNonNegative(daily, WeekIndex, lo + i);
    }
  }

  /** The weekly running total at row j covers the daily amounts of weeks lo .. lo + j. */
  lemma WeeklyCumulativeAt(daily: seq<Point>, j: int)
    requires daily != []
    requires 0 <= j < |Weekly(daily)|
    ensures CumSum(Amounts(Weekly(daily)))[j]
            == SumIn(daily, WeekIndex, WeekIndex(MinDate(daily)), WeekIndex(MinDate(daily)) + j + 1)
  {
    WeeklyUnfold(daily);
    WeeksFromCumulative(daily, WeekIndex(MinDate(daily)), WeekIndex(MaxDate(daily)) + 1, j);
  }

  lemma WeeksFromCumulative(daily: seq<Point>, lo: int, hi: int, j: int)
    requires 0 <= j < hi - lo
    ensures CumSum(Amounts(WeeksFrom(daily, lo, hi)))[j] == SumIn(daily, WeekIndex, lo, lo + j + 1)
  {
    var w := WeeksFrom(daily, lo, hi);
    CumSumAt(Amounts(w), j);
    assert Amounts(w)[..j + 1] == Amounts(w[..j + 1]);
    WeeksFromPrefix(daily, lo, hi, j + 1);
    WeeksFromTotal(daily, lo, lo + j + 1);
  }

  /** Rows 0 .. m of a date-ordered series all fall in weeks lo .. k. */
  lemma PrefixInWeeks(daily: seq<Point>, k: int, m: int)
    requires StrictlyAscending(daily)
    requires 0 <= m < |daily|
    requires daily[m].date <= WeekEndOfIndex(k)
    ensures forall i :: 0 <= i <= m ==> WeekIndex(MinDate(daily)) <= WeekIndex(daily[i].date) <= k
  {
    forall i | 0 <= i <= m ensures WeekIndex(MinDate(daily)) <= WeekIndex(daily[i].date) <= k {
      WeekIndexMonotone(MinDate(daily), daily[i].date);
      assert daily[i].date <= daily[m].date;
      WeekIndexAtMost(daily[i].date, k);
    }
  }

  /** Rows after m of a date-ordered series all fall after week k. */
  lemma SuffixAfterWeeks(daily: seq<Point>, k: int, m: int)
    requires StrictlyAscending(daily)
    requires 0 <= m < |daily|
    requires m == |daily| - 1 || daily[m + 1].date > WeekEndOfIndex(k)
    ensures forall i :: m < i < |daily| ==> k < WeekIndex(daily[i].date)
  {
    forall i | m < i < |daily| ensures k < WeekIndex(daily[i].date) {
      assert daily[m + 1].date <= daily[i].date;
      WeekIndexAtMost(daily[i].date, k);
    }
  }

  /** When rows 0 .. m are those in weeks lo .. k, the running total at m covers those weeks. */
  lemma CumulativeOverWeeks(daily: seq<Point>, k: int, m: int)
    requires 0 <= m < |daily|
    requires forall i :: 0 <= i <= m ==> WeekIndex(MinDate(daily)) <= WeekIndex(daily[i].date) <= k
    requires forall i :: m < i < |daily| ==> k < WeekIndex(daily[i].date)
    ensures CumSum(Amounts(daily))[m] == SumIn(daily, WeekIndex, WeekIndex(MinDate(daily)), k + 1)
  {
    CumSumAt(Amounts(daily), m);
    assert Amounts(daily)[..m + 1] == Amounts(daily[..m + 1]);
    SumInPrefix(daily, WeekIndex, WeekIndex(MinDate(daily)), k + 1, m + 1);
  }

  /**
   * On a date-ordered series, the rows dated on or before the Sunday of
   * week k are exactly rows 0 .. m, so their sum is the running total at m.
   */
  lemma DailyCumulativeUpTo(daily: seq<Point>, k: int, m: int)
    requires StrictlyAscending(daily)
    requires 0 <= m < |daily|
    requires daily[m].date <= WeekEndOfIndex(k)
    requires m == |daily| - 1 || daily[m + 1].date > WeekEndOfIndex(k)
    ensures CumSum(Amounts(daily))[m] == SumIn(daily, WeekIndex, WeekIndex(MinDate(daily)), k + 1)
  {
    PrefixInWeeks(daily, k, m);
    SuffixAfterWeeks(daily, k, m);
    CumulativeOverWeeks(daily, k, m);
  }

  /**
   * On a date-ordered daily series, the weekly running total at a week
   * equals the daily running total at the last daily row on or before
   * that week's Sunday.
   */
  lemma WeeklyCumulativeMatchesDaily(daily: seq<Point>, j: int, m: int)
    requires StrictlyAscending(daily)
    requires 0 <= j < |Weekly(daily)| && 0 <= m < |daily|
    requires daily[m].date <= Weekly(daily)[j].date
    requires m == |daily| - 1 || daily[m + 1].date > Weekly(daily)[j].date
    ensures CumSum(Amounts(Weekly(daily)))[j] == CumSum(Amounts(daily))[m]
  {
    var k := WeekIndex(MinDate(daily)) + j;
    WeeklyAt(daily, j);
    WeeklyCumulativeAt(daily, j);
    DailyCumulativeUpTo(daily, k, m);
  }
}
