/**
 * The whole cost-curve computation: expansion, daily and weekly series,
 * projected income and the optional progress merge, and the one failure
 * the run can end in.
 */
module Pipeline {
  import opened Wrappers
  import opened Series
  import opened Calendar
  import opened Schedule
  import opened Aggregation
  import opened Income
  import opened Progress

  /**
   * The run's failure: with no daily entry the entry table has no "Fecha"
   * column, so grouping by it fails and the error is reported instead of
   * the chart.
   */
  datatype Failure = NoDateColumn

  /** The weekly table: week, "Costo Diario", "Costo Acumulado", "Ingreso Acumulado". */
  function WeekRows(weekly: seq<Point>, total: real): (rows: seq<WeekRow>)
    ensures |rows| == |weekly|
  {
    var cumulative := CumSum(Amounts(weekly));
    var income := Projection(weekly, total);
    seq(|weekly|, i requires 0 <= i < |weekly| =>
      WeekRow(weekly[i].date, weekly[i].amount, cumulative[i], income[i]))
  }

  /** The weekly series computed from the schedule rows. */
  function WeeklySeries(tasks: seq<Task>): seq<Point>
  {
    Weekly(DailyTotals(Expansion(tasks)))
  }

  /** The weekly table computed from the schedule rows. */
  function WeeklyTable(tasks: seq<Task>): seq<WeekRow>
  {
    WeekRows(WeeklySeries(tasks), TotalIncome(tasks))
  }

  /** The comparison table of a run, or its failure. */
  function Report(tasks: seq<Task>, progress: Option<seq<ProgressRow>>): Result<seq<CompareRow>, Failure>
  {
    if Expansion(tasks) == [] then Err(NoDateColumn)
    else Ok(Compare(WeeklyTable(tasks), progress, TotalIncome(tasks)))
  }

  /** The run: the expansion loop, then the column computations of the report. */
  method Process(tasks: seq<Task>, progress: Option<seq<ProgressRow>>)
    returns (r: Result<seq<CompareRow>, Failure>)
    ensures r == Report(tasks, progress)
  {
    var entries := ExpandDaily(tasks);
    if entries == [] {
      r := Err(NoDateColumn);
    } else {
      var total := TotalIncome(tasks);
      var weekly := Weekly(DailyTotals(entries));
      r := Ok(Compare(WeekRows(weekly, total), progress, total));
    }
  }

  /** The "Costo Diario" column of the weekly table. */
  function Costs(rows: seq<WeekRow>): seq<real>
  {
    seq(|rows|, i requires 0 <= i < |rows| => rows[i].cost)
  }

  // ---------------------------------------------------------------------
  // Properties of a run

  /** The run fails exactly when no schedule row yields a daily entry. */
  lemma ReportFails(tasks: seq<Task>, progress: Option<seq<ProgressRow>>)
    ensures Report(tasks, progress).Err?
            <==> forall k :: 0 <= k < |tasks| ==> TaskEntries(tasks[k]) == []
  {
    ExpansionEmpty(tasks);
  }

  /** Two series listing the same dates have the same first and last date. */
  lemma SameDates(a: seq<Point>, b: seq<Point>)
    requires a != [] && b != []
    requires forall i :: 0 <= i < |a| ==> HasDate(b, a[i].date)
    requires forall i :: 0 <= i < |b| ==> HasDate(a, b[i].date)
    ensures MinDate(a) == MinDate(b) && MaxDate(a) == MaxDate(b)
  {
    var i :| 0 <= i < |a| && a[i].date == MinDate(a);
    var j :| 0 <= j < |b| && b[j].date == MinDate(b);
    assert HasDate(b, a[i].date);
    assert HasDate(a, b[j].date);
    var k :| 0 <= k < |a| && a[k].date == MaxDate(a);
    var l :| 0 <= l < |b| && b[l].date == MaxDate(b);
    assert HasDate(b, a[k].date);
    assert HasDate(a, b[l].date);
  }

  /** The daily series spans the same first and last date as the entries. */
  lemma DailySpan(es: seq<Point>)
    requires es != []
    ensures DailyTotals(es) != []
    ensures MinDate(DailyTotals(es)) == MinDate(es) && MaxDate(DailyTotals(es)) == MaxDate(es)
  {
    DailyTotalsEmpty(es);
    DailyTotalsShape(es);
    SameDates(es, DailyTotals(es));
  }

  /**
   * The weekly table has one row per Sunday-ending week, consecutive, from
   * the week of the earliest entry to the week of the latest.
   */
  lemma TableWeeks(tasks: seq<Task>)
    requires Expansion(tasks) != []
    ensures var es, t := Expansion(tasks), WeeklyTable(tasks);
            |t| == WeekIndex(MaxDate(es)) - WeekIndex(MinDate(es)) + 1
            && t[0].week == WeekEnd(MinDate(es))
            && t[|t| - 1].week == WeekEnd(MaxDate(es))
            && (forall i :: 0 <= i < |t| ==> IsSunday(t[i].week))
            && (forall i :: 0 <= i < |t| - 1 ==> t[i + 1].week == t[i].week + 7)
  {
    var es := Expansion(tasks);
    DailySpan(es);
    WeeklyDates(DailyTotals(es));
  }

  lemma CostsOfTable(tasks: seq<Task>)
    ensures Costs(WeeklyTable(tasks)) == Amounts(WeeklySeries(tasks))
  {
  }

  /**
   * "Costo Acumulado" of each week is the sum of the weekly costs so far;
   * on the last week it is the sum of all daily entries.
   */
  lemma TableCumulative(tasks: seq<Task>)
    requires Expansion(tasks) != []
    ensures var t := WeeklyTable(tasks);
            (forall i :: 0 <= i < |t| ==> t[i].cumulative == Sum(Costs(t)[..i + 1]))
            && t[|t| - 1].cumulative == Total(Expansion(tasks))
  {
    var es := Expansion(tasks);
    var w := WeeklySeries(tasks);
    var t := WeeklyTable(tasks);
    DailySpan(es);
    CostsOfTable(tasks);
    forall i | 0 <= i < |t| ensures t[i].cumulative == Sum(Costs(t)[..i + 1]) {
      CumSumAt(Amounts(w), i);
    }
    CumSumLast(Amounts(w));
    WeeklyTotal(DailyTotals(es));
    DailyTotalsTotal(es);
  }

  /** With no negative task cost, "Costo Acumulado" never decreases. */
  lemma TableCumulativeMonotone(tasks: seq<Task>, i: int, j: int)
    requires forall k :: 0 <= k < |tasks| && tasks[k].cost.Some? ==> tasks[k].cost.value >= 0.0
    requires 0 <= i <= j < |WeeklyTable(tasks)|
    ensures WeeklyTable(tasks)[i].cumulative <= WeeklyTable(tasks)[j].cumulative
  {
    var es := Expansion(tasks);
    var w := WeeklySeries(tasks);
    ExpansionNonNegative(tasks);
    DailyTotalsNonNegative(es);
    WeeklyNonNegative(DailyTotals(es));
    CumSumMonotone(Amounts(w), i, j);
  }

  /** The "Ingreso Acumulado" column of the weekly table is the projection. */
  lemma IncomeColumn(w: seq<Point>, total: real)
    ensures forall i :: 0 <= i < |w| ==> WeekRows(w, total)[i].income == Projection(w, total)[i]
  {
  }

  /** On a single week "Ingreso Acumulado" is undefined (0 / 0). */
  lemma WeekRowsIncomeUndefined(w: seq<Point>, total: real)
    requires |w| == 1
    ensures WeekRows(w, total)[0].income == None
  {
    IncomeColumn(w, total);
    ProjectionUndefined(w, total);
  }

  /** Over several weeks "Ingreso Acumulado" runs from 0 on the first week to the total on the last. */
  lemma WeekRowsIncomeEnds(w: seq<Point>, total: real)
    requires |w| > 1
    requires forall i :: 0 <= i < |w| ==> w[i].date == w[0].date + 7 * i
    ensures WeekRows(w, total)[0].income == Some(0.0)
    ensures WeekRows(w, total)[|w| - 1].income == Some(total)
  {
    IncomeColumn(w, total);
    ProjectionEnds(w, total);
  }

  /** Over several weeks "Ingreso Acumulado" on week i is total × i / (number of weeks - 1). */
  lemma WeekRowsIncomeLinear(w: seq<Point>, total: real)
    requires |w| > 1
    requires forall i :: 0 <= i < |w| ==> w[i].date == w[0].date + 7 * i
    ensures forall i :: 0 <= i < |w| ==>
              WeekRows(w, total)[i].income == Some(total * (i as real / (|w| - 1) as real))
  {
    IncomeColumn(w, total);
    ProjectionWeekly(w, total);
  }

  /**
   * The weekly series of a run with entries is a non-empty run of
   * consecutive weeks, so the income lemmas on weekly rows apply to it.
   */
  lemma SeriesWeeks(tasks: seq<Task>)
    requires Expansion(tasks) != []
    ensures var w := WeeklySeries(tasks);
            w != [] && |WeeklyTable(tasks)| == |w|
            && forall i :: 0 <= i < |w| ==> w[i].date == w[0].date + 7 * i
  {
    var daily := DailyTotals(Expansion(tasks));
    DailyTotalsEmpty(Expansion(tasks));
    WeeklyLength(daily);
    WeeklySteps(daily);
  }

  /**
   * "Ingreso Acumulado" of a run: undefined with a single week; otherwise
   * week i holds total income × i / (number of weeks - 1), so it starts at
   * 0 and ends at the total income.
   */
  lemma TableIncome(tasks: seq<Task>)
    requires Expansion(tasks) != []
    ensures var t, total := WeeklyTable(tasks), TotalIncome(tasks);
            (|t| == 1 ==> t[0].income == None)
            && (|t| > 1 ==> t[0].income == Some(0.0) && t[|t| - 1].income == Some(total))
  {
    SeriesWeeks(tasks);
    var w := WeeklySeries(tasks);
    if |w| == 1 {
      WeekRowsIncomeUndefined(w, TotalIncome(tasks));
    } else {
      WeekRowsIncomeEnds(w, TotalIncome(tasks));
    }
  }

  /**
   * The comparison table keeps the weekly table row for row. Without a
   * progress report every "Avance Real ($)" is missing; with one whose
   * dates are unique, a week gets percentage × total income / 100 from the
   * report row dated on its Sunday, and a missing value when there is none.
   */
  lemma ReportTable(tasks: seq<Task>, progress: Option<seq<ProgressRow>>)
    requires Expansion(tasks) != []
    requires progress.Some? ==> UniqueDates(progress.value)
    ensures Report(tasks, progress).Ok?
    ensures var c, t, total := Report(tasks, progress).value, WeeklyTable(tasks), TotalIncome(tasks);
            |c| == |t|
            && (forall i :: 0 <= i < |t| ==> c[i].row == t[i])
            && (progress.None? ==> forall i :: 0 <= i < |t| ==> c[i].percent == None && c[i].realProgress == None)
            && (progress.Some? ==>
                  (forall i, j :: 0 <= i < |t| && 0 <= j < |progress.value|
                                  && progress.value[j].date == Some(t[i].week)
                     ==> c[i].percent == progress.value[j].percent
                         && c[i].realProgress == RealProgress(progress.value[j].percent, total))
                  && (forall i :: 0 <= i < |t| && Unreported(progress.value, t[i].week) ==> c[i].percent == None && c[i].realProgress == None))
  {
    if progress.Some? {
      MergeKeepsWeeks(WeeklyTable(tasks), progress.value, TotalIncome(tasks));
    }
  }
}
