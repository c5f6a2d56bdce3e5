# Cost curve of a construction schedule

This project models the computation at the core of a small profitability
dashboard for a building project (the "Chicalá" schedule). The computation
reads a schedule of tasks, each with a start date, a duration in days and a
cost, and builds a weekly cost curve. It does this in six steps:

1. It divides each task's cost by its duration ("Costo por día").
2. A nested loop spreads that cost over the task's days, one entry per day.
3. The entries are summed per date, and a running total is taken.
4. The daily totals are bucketed into weeks ending on Sunday, and a running
   total is taken again ("Costo Acumulado").
5. A projected income curve ("Ingreso Acumulado") is drawn linearly from 0 on
   the first week to the total of all task costs on the last week.
6. An optional progress report (percent complete per date) is left-joined on
   the week's date and converted into money ("Avance Real ($)").

When no task yields a daily entry, the run fails with a single error.

Representation:

- Dates are integer day numbers: day 0 is 1970-01-01, a Thursday, so Sundays
  are the days `d % 7 == 3`.
- Money and durations are `real`.
- A missing value (NaN / NaT) is `Option.None`.
- A cost per day is `Ratio`, either a finite number or the infinity of `c / 0`
  (`c != 0`). The infinity is not missing, so it passes the loop's guard.

Modules, in pipeline order:

| module | models |
|---|---|
| `Wrappers` | `Option`, `Result` |
| `Series` | dated amounts, sums, `cumsum`, sums by bucket |
| `Calendar` | Sunday-ending weeks (`resample("W")` labels) |
| `Schedule` | tasks, cost per day, the imperative daily expansion loop, total income |
| `Aggregation` | `groupby("Fecha").sum().sort_index()` and `resample("W").sum()` |
| `Income` | the projected-income column |
| `Progress` | the left join with the progress report and the money conversion |
| `Pipeline` | the whole run and its failure |
| `Scenario` | a run worked through concretely, with a second, overlapping task |

The daily expansion is the source's one loop. It is modelled by the method
`Schedule.ExpandDaily`, which has nested `while` loops and is proved equal to
the function `Schedule.Expansion`. Every other step assigns whole DataFrame
columns, and no other name shares those frames. Each such step is modelled as
a function that returns the new column or table, with lemmas about it.

## Model

| member | source | states |
|---|---|---|
| Schedule.CostPerDay | app_rentabilidad_chicala.py:27 | the quotient is missing exactly when cost or duration is missing or both are 0; it is infinite exactly for a nonzero cost over a zero duration; a finite quotient times the duration gives back the cost |
| Schedule.Trunc | app_rentabilidad_chicala.py:36 | `int()` truncates toward zero: for x >= 0 it gives the largest integer at most x, and for x < 0 the smallest integer at least x |
| Schedule.DayCount | app_rentabilidad_chicala.py:36 | `range(int(d))` runs over no day when d < 1, and otherwise over the whole number of days n with n <= d < n + 1 |
| Schedule.TaskEntries | app_rentabilidad_chicala.py:35-41 | the entries one schedule row contributes: nothing when the guard fails, otherwise one entry per day of `range(int(duration))`, dated start + day and worth the cost per day (described by `Schedule.TaskEntriesShape`) |
| Schedule.Expansion | app_rentabilidad_chicala.py:33-41 | the list the loop builds: every row's entries, row after row in schedule order (the specification of `Schedule.ExpandDaily`) |
| Schedule.TotalIncome | app_rentabilidad_chicala.py:49 | "ingreso_total": the sum of every present cost, skipping missing ones, including rows that yield no daily entry (see `Schedule.IncomeNeedNotMatchCost`) |
| Schedule.ExpandDaily | app_rentabilidad_chicala.py:33-41 | the nested loop builds exactly the expansion: for each row in order, one entry per day when the guard holds |
| Schedule.TaskEntriesShape | app_rentabilidad_chicala.py:35-41 | a row yields int(duration) entries when start, duration and cost per day are present, and none otherwise; entry i is dated start + i and is worth cost / duration |
| Schedule.MissingFieldGivesNothing | app_rentabilidad_chicala.py:35 | a row with a missing start, duration or cost yields no entry |
| Schedule.ShortDurationGivesNothing | app_rentabilidad_chicala.py:27-36 | a duration below one day, zero or negative included, yields no entry; with a zero duration and a nonzero cost the cost per day is infinite, so the guard passes, yet no entry and no error follow |
| Schedule.TaskEntriesConserveCost | app_rentabilidad_chicala.py:27-41 | for a whole, positive number of days a row's entries add back up to its cost |
| Schedule.TaskEntriesNonNegative | app_rentabilidad_chicala.py:27-41 | a row with no negative cost yields no negative entry |
| Schedule.ExpansionTotal | app_rentabilidad_chicala.py:33-41 | the entries' total is the sum of what each row contributes |
| Schedule.ExpansionEmpty | app_rentabilidad_chicala.py:33-41 | the entry list is empty exactly when no row yields an entry |
| Schedule.ExpansionFrom | app_rentabilidad_chicala.py:33-41 | every entry in the list is an entry of some row |
| Schedule.ExpansionNonNegative | app_rentabilidad_chicala.py:33-41 | with no negative task cost, no entry is negative |
| Schedule.ScheduledCostIsIncome | app_rentabilidad_chicala.py:33-49 | when every costed row has a start and a whole, positive duration, the entries add up to the total income |
| Schedule.IncomeNeedNotMatchCost | app_rentabilidad_chicala.py:49 | the total income counts rows that yield no entry: a row costing 100 with a zero duration yields no entry, yet the total income is 100 |
| Aggregation.MinDate | app_rentabilidad_chicala.py:44 | the first date of the sorted daily index: a date of the entries that no entry date precedes |
| Aggregation.MaxDate | app_rentabilidad_chicala.py:44 | the last date of the sorted daily index: a date of the entries that no entry date follows |
| Aggregation.DailyTotals | app_rentabilidad_chicala.py:43-44 | the daily series: for each date from the earliest to the latest entry that some entry carries, in ascending order, the sum of the entries on it (described by `Aggregation.DailyTotalsShape`) |
| Aggregation.CollectShape | app_rentabilidad_chicala.py:44 | the daily rows built over a range of days are ascending, lie in that range, hold each day's sum, and include every entry day of the range |
| Aggregation.CollectTotal | app_rentabilidad_chicala.py:44 | the daily rows built over a range of days total the entries dated in that range |
| Aggregation.DailyTotalsShape | app_rentabilidad_chicala.py:44 | the daily series is strictly ascending by date; each of its dates is an entry date and holds the sum of every entry on that date; every entry date appears in it |
| Aggregation.DailyTotalsTotal | app_rentabilidad_chicala.py:44 | grouping by date neither loses nor adds cost |
| Aggregation.DailyTotalsEmpty | app_rentabilidad_chicala.py:43-44 | the daily series is empty exactly when there is no entry |
| Aggregation.DailyTotalsNonNegative | app_rentabilidad_chicala.py:44 | with no negative entry, no daily total is negative |
| Aggregation.Weekly | app_rentabilidad_chicala.py:46 | the weekly series: one row per week from the week of the first daily date to the week of the last, labelled with the week's Sunday and holding the sum of the daily amounts in that week, 0 when none (described by `Aggregation.WeeklyAt`) |
| Aggregation.WeeklyAt | app_rentabilidad_chicala.py:46 | weekly row i is the Sunday closing the i-th week after the first date's week, holding the sum of the daily amounts in that week |
| Aggregation.WeeklyLength | app_rentabilidad_chicala.py:46 | there is one weekly row per week, from the first date's week to the last date's week |
| Aggregation.WeeklyDates | app_rentabilidad_chicala.py:46 | the weekly rows are Sundays, each 7 days after the previous one, from the Sunday closing the first daily date to the Sunday closing the last |
| Aggregation.WeeklySteps | app_rentabilidad_chicala.py:46 | weekly row i is dated exactly i weeks after the first weekly row |
| Aggregation.WeeklyAmounts | app_rentabilidad_chicala.py:46 | each weekly row holds the sum of the daily amounts in its week; a week with no daily date holds 0 |
| Aggregation.WeeklyTotal | app_rentabilidad_chicala.py:46 | resampling neither loses nor adds cost |
| Aggregation.WeeklyNonNegative | app_rentabilidad_chicala.py:46 | with no negative daily total, no weekly total is negative |
| Aggregation.WeeklyCumulativeAt | app_rentabilidad_chicala.py:46-47 | the weekly running total at row j is the sum of the daily amounts in the first j + 1 weeks |
| Aggregation.DailyCumulativeUpTo | app_rentabilidad_chicala.py:45 | on an ascending daily series, the daily running total at the last row of a week is the sum of the daily amounts up to that week |
| Aggregation.WeeklyCumulativeMatchesDaily | app_rentabilidad_chicala.py:45-47 | on an ascending daily series, the weekly running total of a week equals the daily running total at the last daily date on or before that week's Sunday |
| Series.CumSum | app_rentabilidad_chicala.py:45-47 | `cumsum`: the running totals of a column, each adding the next amount to the total so far (described by `Series.CumSumAt`) |
| Series.CumSumAt | app_rentabilidad_chicala.py:45 | element i of a running total is the sum of elements 0 .. i |
| Series.CumSumLast | app_rentabilidad_chicala.py:45 | the last running total is the sum of the whole column |
| Series.CumSumMonotone | app_rentabilidad_chicala.py:45 | with no negative element the running total never decreases |
| Calendar.WeekEnd | app_rentabilidad_chicala.py:46 | the weekly label of a day is a Sunday, at most six days after the day |
| Calendar.WeekEndUnique | app_rentabilidad_chicala.py:46 | that label is the only Sunday among the day and the six days that follow it |
| Calendar.SameWeek | app_rentabilidad_chicala.py:46 | two days fall in the same weekly bucket exactly when they have the same week number |
| Income.Projection | app_rentabilidad_chicala.py:50-53 | "Ingreso Acumulado": on each weekly row, total × (date − first) / (last − first), missing when first = last (described by `Income.ProjectionAt`) |
| Income.ProjectionAt | app_rentabilidad_chicala.py:50-53 | row i holds total × (date − first) / (last − first), or is missing when first = last |
| Income.ProjectionUndefined | app_rentabilidad_chicala.py:50-53 | with a single date, 0 / 0 leaves every row missing |
| Income.ProjectionEndpoints | app_rentabilidad_chicala.py:50-53 | over a span of more than one date, every row is defined; it is 0 on the first date and the whole total on the last |
| Income.ProjectionLinear | app_rentabilidad_chicala.py:50-53 | the difference between two rows is total × (difference of their dates) / (last − first) |
| Income.ProjectionMonotone | app_rentabilidad_chicala.py:50-53 | with a non-negative total, the projection grows with the date and stays between 0 and the total |
| Income.ProjectionWeekly | app_rentabilidad_chicala.py:50-53 | on rows one week apart, row i holds total × i / (rows − 1) |
| Progress.RealProgress | app_rentabilidad_chicala.py:62 | "Avance Real ($)" is present exactly when the percent is, and then 100 times it equals percent × total |
| Progress.Matching | app_rentabilidad_chicala.py:58-60 | the report rows a date joins with all carry that date |
| Progress.MatchingUnique | app_rentabilidad_chicala.py:58-60 | with unique report dates a date joins with at most one row: the one carrying it, or none |
| Progress.Merge | app_rentabilidad_chicala.py:58-60 | the left join on the date: for each weekly row in order, one row per report row with that date, or one row with nothing merged when there is none |
| Progress.Compare | app_rentabilidad_chicala.py:55-66 | the comparison table: the left join when a report is given, otherwise the weekly rows with "Avance Real ($)" missing |
| Progress.MergeKeepsWeeks | app_rentabilidad_chicala.py:58-62 | with unique report dates, the left join keeps every weekly row, once and in order; a week gets the percent and percent × total / 100 of the report row dated on its Sunday, and a missing percent and a missing "Avance Real ($)" when no row is |
| Progress.NoOverlapGivesMissing | app_rentabilidad_chicala.py:58-62 | a report sharing no date with the weekly rows leaves every weekly row unmatched |
| Progress.NoReportGivesMissing | app_rentabilidad_chicala.py:64-66 | without a progress report the table is the weekly rows, with no percent and "Avance Real ($)" missing throughout |
| Pipeline.Process | app_rentabilidad_chicala.py:33-66 | the run, built on the expansion loop, produces the same table or the same failure as the report function |
| Pipeline.ReportFails | app_rentabilidad_chicala.py:43-44 | the run fails (no "Fecha" column to group by) exactly when no task yields a daily entry |
| Pipeline.WeekRows | app_rentabilidad_chicala.py:47-53 | the weekly table: each weekly row with its Sunday, its cost, the running cost and the projected income, one per weekly row |
| Pipeline.Report | app_rentabilidad_chicala.py:43-66 | the whole run: a failure when the expansion is empty, otherwise the comparison table built from the weekly table and the total income |
| Pipeline.DailySpan | app_rentabilidad_chicala.py:44 | the daily series has the same first and last dates as the entries |
| Pipeline.TableWeeks | app_rentabilidad_chicala.py:44-47 | the weekly table has one row per Sunday-ending week, consecutive, from the week of the earliest entry to the week of the latest |
| Pipeline.TableCumulative | app_rentabilidad_chicala.py:44-47 | each week's "Costo Acumulado" is the sum of the weekly costs so far; on the last week it is the total of all daily entries |
| Pipeline.TableCumulativeMonotone | app_rentabilidad_chicala.py:44-47 | with no negative task cost, "Costo Acumulado" never decreases |
| Pipeline.WeekRowsIncomeUndefined | app_rentabilidad_chicala.py:50-53 | on a single week "Ingreso Acumulado" is missing (0 / 0) |
| Pipeline.WeekRowsIncomeEnds | app_rentabilidad_chicala.py:50-53 | over several weeks "Ingreso Acumulado" is 0 on the first week and the total on the last |
| Pipeline.WeekRowsIncomeLinear | app_rentabilidad_chicala.py:50-53 | over several weeks, week i of n holds total × i / (n − 1) |
| Pipeline.SeriesWeeks | app_rentabilidad_chicala.py:46 | a run with entries has a non-empty weekly series of rows one week apart |
| Pipeline.TableIncome | app_rentabilidad_chicala.py:49-53 | for a run: with one week the income is missing; with more it starts at 0 and ends at the total income |
| Pipeline.ReportTable | app_rentabilidad_chicala.py:55-66 | a run with entries succeeds and keeps the weekly table row for row; without a report the percent and "Avance Real ($)" are missing; with one whose dates are unique, each week gets the percent and percent × total income / 100 of the row on its Sunday, or missing values when there is none |
| Scenario.OneTaskEntries | app_rentabilidad_chicala.py:33-41 | a task of 300 over 3 days from day 2 yields 100 on days 2, 3 and 4 |
| Scenario.OneTaskDaily | app_rentabilidad_chicala.py:44 | three entries on distinct days form the daily series as they stand |
| Scenario.OneTaskWeekly | app_rentabilidad_chicala.py:46 | Saturday and Sunday fall in the week ending on day 3, and Monday in the week ending on day 10: the weekly rows are 200 and 100 |
| Scenario.OneTaskTable | app_rentabilidad_chicala.py:47-53 | the weekly table has running costs 200 then 300 and projected income 0 then 300 |
| Scenario.OneTaskRun | app_rentabilidad_chicala.py:33-53 | the run on that task has entries, total income 300 and that weekly table |
| Scenario.OneTaskReport | app_rentabilidad_chicala.py:64-66 | without a progress report the run yields both weeks with "Avance Real ($)" missing |
| Scenario.OneTaskMerge | app_rentabilidad_chicala.py:58-62 | a report of 50 % dated on Sunday day 10 joins the second week only, as 150 |
| Scenario.OneTaskReportWithProgress | app_rentabilidad_chicala.py:55-62 | with that report the run yields the first week unmatched and the second week with 50 % and 150 |
| Scenario.TwoTaskEntries | app_rentabilidad_chicala.py:33-41 | adding a task of 100 over 2 days from day 3 appends 50 on days 3 and 4 after the first task's entries |
| Scenario.TwoTaskDaySums | app_rentabilidad_chicala.py:44 | the entries of the two tasks sum to 100 on day 2 and 150 on each of days 3 and 4 |
| Scenario.TwoTaskSpan | app_rentabilidad_chicala.py:44 | the entries of the two tasks span days 2 to 4 |
| Scenario.TwoTaskDaily | app_rentabilidad_chicala.py:44 | grouping by date adds the overlapping entries: the daily series is 100, 150, 150 on days 2, 3, 4 |
| Scenario.TwoTaskWeekly | app_rentabilidad_chicala.py:46 | the two-task daily series resamples to 250 for the week ending on day 3 and 150 for the week ending on day 10 |

## Left out

- The Streamlit page is not modelled: uploaders, messages, the data-frame preview and the error banner. The failure is returned as `Err(NoDateColumn)` in place of the banner.
- Reading the Excel files and slicing off the header rows are not modelled. Each schedule row is taken as already parsed into optional values.
- The `to_datetime` / `to_numeric` coercions are not modelled. A value they would coerce to NaN or NaT is the `None` it would become.
- Matplotlib plotting and its formatting are not modelled.
- IEEE floating point is not modelled. Amounts are exact reals, so there is no rounding, no `inf` or NaN duration or cost, and no `OverflowError` from `int(inf)`. The only infinity modelled is the cost per day of a zero duration, which is all the loop's guard needs.
- Time of day is not modelled. Dates are whole days, so a progress date with a time of day, which would match no weekly label, is not modelled.
- Calendar arithmetic beyond day numbers is not modelled. `Timedelta` steps are `+ i` on day numbers, and the Sunday anchor of `resample("W")` is `Calendar.WeekEnd`.
- The daily "Costo Acumulado" column (line 45) is not in the output. Line 46 sums it into the weekly rows and line 47 overwrites it there. The model states its value as `CumSum` of the daily amounts and relates it to the weekly running total instead.
- Progress reports with repeated dates are defined: `Progress.Merge` yields one row per match. No lemma describes them, because every lemma about the join assumes unique report dates.
- Columns of the progress report other than "Fecha" and "Avance Físico (%)" are not modelled. A report missing either column, or with a date `to_datetime` cannot parse, raises an error that is not modelled. The only failure modelled is the empty expansion.
- `Income.Projection` reads `index.min()` and `index.max()` as the first and last labels of the weekly series. The two coincide because the weekly labels ascend (`Aggregation.WeeklySteps`).
- Pipeline.TableIncome: over several weeks it states only the endpoints for a run. The linear form, week i of n holding total × i / (n − 1), is proved for weekly rows one week apart (`Pipeline.WeekRowsIncomeLinear`), and `Pipeline.SeriesWeeks` shows that every run's weekly series has that form.
