/**
 * A worked run: one task of 300 over the three days 2 .. 4 (1970-01-03 to
 * 1970-01-05, a Saturday to a Monday), which straddle the weeks ending on
 * Sunday 3 and Sunday 10; then a second task of 100 over days 3 .. 4,
 * overlapping the first, whose entries add up with it on the shared days.
 */
module Scenario {
  import opened Wrappers
  import opened Series
  import opened Calendar
  import opened Schedule
  import opened Aggregation
  import opened Income
  import opened Progress
  import opened Pipeline

  /** The task yields 100 on each of its three days. */
  lemma OneTaskEntries()
    ensures Expansion([Task(Some(2), Some(3.0), Some(300.0))]) == [Point(2, 100.0), Point(3, 100.0), Point(4, 100.0)]
  {
    var tasks := [Task(Some(2), Some(3.0), Some(300.0))];
    assert tasks[..0] == [];
    assert TaskEntries(tasks[0]) == [Point(2, 100.0), Point(3, 100.0), Point(4, 100.0)];
  }

  /** The three days are distinct, so the daily series is the entries themselves. */
  lemma OneTaskDaily(es: seq<Point>)
    requires es == [Point(2, 100.0), Point(3, 100.0), Point(4, 100.0)]
    ensures DailyTotals(es) == es
  {
    assert es[..2] == [Point(2, 100.0), Point(3, 100.0)];
    assert es[..2][..1] == [Point(2, 100.0)] && es[..2][..1][..0] == [];
    assert SumWhere([Point(2, 100.0)], Day, 2) == 100.0;
    assert SumWhere([Point(2, 100.0)], Day, 3) == 0.0;
    assert SumWhere([Point(2, 100.0)], Day, 4) == 0.0;
    assert SumWhere(es[..2], Day, 2) == 100.0;
    assert SumWhere(es[..2], Day, 3) == 100.0;
    assert SumWhere(es[..2], Day, 4) == 0.0;
    assert SumWhere(es, Day, 2) == 100.0;
    assert SumWhere(es, Day, 3) == 100.0;
    assert SumWhere(es, Day, 4) == 100.0;
    assert HasDate(es, 2) && HasDate(es, 3) && HasDate(es, 4);
    assert MinDate(es) == 2 && MaxDate(es) == 4;
    assert Collect(es, 5, 5) == [];
    assert Collect(es, 4, 5) == [Point(4, 100.0)];
    assert Collect(es, 3, 5) == [Point(3, 100.0), Point(4, 100.0)];
  }

  /** Saturday and Sunday fall in the week ending on day 3, Monday in the week ending on day 10. */
  lemma OneTaskWeekly(daily: seq<Point>)
    requires daily == [Point(2, 100.0), Point(3, 100.0), Point(4, 100.0)]
    ensures Weekly(daily) == [Point(3, 200.0), Point(10, 100.0)]
  {
    assert MinDate(daily) == 2 && MaxDate(daily) == 4;
    assert WeekIndex(2) == -1 && WeekIndex(3) == -1 && WeekIndex(4) == 0;
    assert daily[..2] == [Point(2, 100.0), Point(3, 100.0)];
    assert daily[..2][..1] == [Point(2, 100.0)] && daily[..2][..1][..0] == [];
    assert SumWhere([], WeekIndex, -1) == 0.0;
    assert SumWhere([Point(2, 100.0)], WeekIndex, -1) == 100.0;
    assert SumWhere(daily[..2], WeekIndex, -1) == 200.0;
    assert SumWhere(daily, WeekIndex, -1) == 200.0;
    assert SumWhere([Point(2, 100.0)], WeekIndex, 0) == 0.0;
    assert SumWhere(daily[..2], WeekIndex, 0) == 0.0;
    assert SumWhere(daily, WeekIndex, 0) == 100.0;
    assert WeeksFrom(daily, 1, 1) == [];
    assert WeeksFrom(daily, 0, 1) == [Point(10, 100.0)];
  }

  /** The weekly table: running cost 200 then 300, projected income 0 then 300. */
  lemma OneTaskTable()
    ensures WeekRows([Point(3, 200.0), Point(10, 100.0)], 300.0)
            == [WeekRow(3, 200.0, 200.0, Some(0.0)), WeekRow(10, 100.0, 300.0, Some(300.0))]
  {
    var w := [Point(3, 200.0), Point(10, 100.0)];
    assert Amounts(w) == [200.0, 100.0];
    assert [200.0, 100.0][1..] == [100.0] && [100.0][1..] == [];
    assert CumSum(Amounts(w)) == [200.0, 300.0];
    assert Projection(w, 300.0) == [Some(0.0), Some(300.0)];
  }

  /** The stages of the run, chained. */
  lemma OneTaskRun(tasks: seq<Task>, table: seq<WeekRow>)
    requires tasks == [Task(Some(2), Some(3.0), Some(300.0))]
    requires table == [WeekRow(3, 200.0, 200.0, Some(0.0)), WeekRow(10, 100.0, 300.0, Some(300.0))]
    ensures Expansion(tasks) != [] && TotalIncome(tasks) == 300.0 && WeeklyTable(tasks) == table
  {
    var w := [Point(3, 200.0), Point(10, 100.0)];
    OneTaskEntries();
    OneTaskDaily([Point(2, 100.0), Point(3, 100.0), Point(4, 100.0)]);
    OneTaskWeekly([Point(2, 100.0), Point(3, 100.0), Point(4, 100.0)]);
    OneTaskTable();
    assert tasks[..0] == [];
    assert WeeklySeries(tasks) == w;
  }

  /** Without a progress report, "Avance Real ($)" is missing on both weeks. */
  lemma OneTaskReport(tasks: seq<Task>)
    requires tasks == [Task(Some(2), Some(3.0), Some(300.0))]
    ensures Report(tasks, None)
            == Ok([CompareRow(WeekRow(3, 200.0, 200.0, Some(0.0)), None, None),
                   CompareRow(WeekRow(10, 100.0, 300.0, Some(300.0)), None, None)])
  {
    var table := [WeekRow(3, 200.0, 200.0, Some(0.0)), WeekRow(10, 100.0, 300.0, Some(300.0))];
    OneTaskRun(tasks, table);
    assert Report(tasks, None) == Ok(Unmerged(table));
    assert Unmerged(table) == [CompareRow(table[0], None, None), CompareRow(table[1], None, None)];
  }

  /** A report of 50 % dated on the second Sunday merges onto that week only. */
  lemma OneTaskMerge()
    ensures var table := [WeekRow(3, 200.0, 200.0, Some(0.0)), WeekRow(10, 100.0, 300.0, Some(300.0))];
            Merge(table, [ProgressRow(Some(10), Some(50.0))], 300.0)
            == [CompareRow(table[0], None, None), CompareRow(table[1], Some(50.0), Some(150.0))]
  {
    var progress := [ProgressRow(Some(10), Some(50.0))];
    var table := [WeekRow(3, 200.0, 200.0, Some(0.0)), WeekRow(10, 100.0, 300.0, Some(300.0))];
    assert progress[..0] == [];
    assert Matching(progress, 3) == [];
    assert Matching(progress, 10) == progress;
    assert table[..1] == [table[0]] && table[..1][..0] == [];
    assert Merge(table[..1], progress, 300.0) == [CompareRow(table[0], None, None)];
    assert JoinRow(table[1], progress, 300.0) == [CompareRow(table[1], Some(50.0), Some(150.0))];
  }

  /** With that report the second week gets 50 % of 300, i.e. 150. */
  lemma OneTaskReportWithProgress(tasks: seq<Task>, progress: seq<ProgressRow>)
    requires tasks == [Task(Some(2), Some(3.0), Some(300.0))]
    requires progress == [ProgressRow(Some(10), Some(50.0))]
    ensures Report(tasks, Some(progress))
            == Ok([CompareRow(WeekRow(3, 200.0, 200.0, Some(0.0)), None, None),
                   CompareRow(WeekRow(10, 100.0, 300.0, Some(300.0)), Some(50.0), Some(150.0))])
  {
    var table := [WeekRow(3, 200.0, 200.0, Some(0.0)), WeekRow(10, 100.0, 300.0, Some(300.0))];
    OneTaskRun(tasks, table);
    assert Report(tasks, Some(progress)) == Ok(Merge(table, progress, 300.0));
    OneTaskMerge();
  }

  /** The second task yields 50 on days 3 and 4, after the first task's entries. */
  lemma TwoTaskEntries(tasks: seq<Task>)
    requires tasks == [Task(Some(2), Some(3.0), Some(300.0)), Task(Some(3), Some(2.0), Some(100.0))]
    ensures Expansion(tasks)
            == [Point(2, 100.0), Point(3, 100.0), Point(4, 100.0), Point(3, 50.0), Point(4, 50.0)]
  {
    OneTaskEntries();
    assert tasks[..1] == [Task(Some(2), Some(3.0), Some(300.0))];
    assert TaskEntries(tasks[1]) == [Point(3, 50.0), Point(4, 50.0)];
  }

  /** The day sums of the growing prefixes of the two-task entries. */
  lemma TwoTaskDaySums(es: seq<Point>)
    requires es == [Point(2, 100.0), Point(3, 100.0), Point(4, 100.0), Point(3, 50.0), Point(4, 50.0)]
    ensures SumWhere(es, Day, 2) == 100.0 && SumWhere(es, Day, 3) == 150.0 && SumWhere(es, Day, 4) == 150.0
  {
    var e1, e2, e3, e4 := es[..1], es[..2], es[..3], es[..4];
    assert es[..4] == e4 && e4[..3] == e3 && e3[..2] == e2 && e2[..1] == e1 && e1[..0] == [];
    assert SumWhere(e1, Day, 2) == 100.0 && SumWhere(e1, Day, 3) == 0.0 && SumWhere(e1, Day, 4) == 0.0;
    assert SumWhere(e2, Day, 2) == 100.0 && SumWhere(e2, Day, 3) == 100.0 && SumWhere(e2, Day, 4) == 0.0;
    assert SumWhere(e3, Day, 2) == 100.0 && SumWhere(e3, Day, 3) == 100.0 && SumWhere(e3, Day, 4) == 100.0;
    assert SumWhere(e4, Day, 2) == 100.0 && SumWhere(e4, Day, 3) == 150.0 && SumWhere(e4, Day, 4) == 100.0;
  }

  /** The two-task entries span days 2 .. 4. */
  lemma TwoTaskSpan(es: seq<Point>)
    requires es == [Point(2, 100.0), Point(3, 100.0), Point(4, 100.0), Point(3, 50.0), Point(4, 50.0)]
    ensures MinDate(es) == 2 && MaxDate(es) == 4
  {
    var e1, e2, e3, e4 := es[..1], es[..2], es[..3], es[..4];
    assert es[..4] == e4 && e4[..3] == e3 && e3[..2] == e2 && e2[..1] == e1;
    assert MinDate(e1) == 2 && MaxDate(e1) == 2;
    assert MinDate(e2) == 2 && MaxDate(e2) == 3;
    assert MinDate(e3) == 2 && MaxDate(e3) == 4;
    assert MinDate(e4) == 2 && MaxDate(e4) == 4;
  }

  /** Grouping by date adds the overlapping entries: 100, then 150 on each shared day. */
  lemma TwoTaskDaily(es: seq<Point>)
    requires es == [Point(2, 100.0), Point(3, 100.0), Point(4, 100.0), Point(3, 50.0), Point(4, 50.0)]
    ensures DailyTotals(es) == [Point(2, 100.0), Point(3, 150.0), Point(4, 150.0)]
  {
    TwoTaskDaySums(es);
    TwoTaskSpan(es);
    assert es[0].date == 2 && es[1].date == 3 && es[2].date == 4;
    assert HasDate(es, 2) && HasDate(es, 3) && HasDate(es, 4);
    assert Collect(es, 5, 5) == [];
    assert Collect(es, 4, 5) == [Point(4, 150.0)];
    assert Collect(es, 3, 5) == [Point(3, 150.0), Point(4, 150.0)];
  }

  /** The weekly rows of the two-task run: 250 for the week ending on day 3, 150 for the next. */
  lemma TwoTaskWeekly(daily: seq<Point>)
    requires daily == [Point(2, 100.0), Point(3, 150.0), Point(4, 150.0)]
    ensures Weekly(daily) == [Point(3, 250.0), Point(10, 150.0)]
  {
    assert MinDate(daily) == 2 && MaxDate(daily) == 4;
    assert WeekIndex(2) == -1 && WeekIndex(3) == -1 && WeekIndex(4) == 0;
    assert daily[..2] == [Point(2, 100.0), Point(3, 150.0)];
    assert daily[..2][..1] == [Point(2, 100.0)] && daily[..2][..1][..0] == [];
    assert SumWhere([], WeekIndex, -1) == 0.0;
    assert SumWhere([Point(2, 100.0)], WeekIndex, -1) == 100.0;
    assert SumWhere(daily[..2], WeekIndex, -1) == 250.0;
    assert SumWhere(daily, WeekIndex, -1) == 250.0;
    assert SumWhere([Point(2, 100.0)], WeekIndex, 0) == 0.0;
    assert SumWhere(daily[..2], WeekIndex, 0) == 0.0;
    assert SumWhere(daily, WeekIndex, 0) == 150.0;
    assert WeeksFrom(daily, 1, 1) == [];
    assert WeeksFrom(daily, 0, 1) == [Point(10, 150.0)];
  }
}
