/**
 * The physical-progress report and its left join onto the weekly series
 * (`merge(how="left", on="Fecha")`), turned into money ("Avance Real ($)").
 */
module Progress {
  import opened Wrappers

  /** One row of the progress report: "Fecha" and "Avance Físico (%)", each possibly missing. */
  datatype ProgressRow = ProgressRow(date: Option<int>, percent: Option<real>)

  /** One weekly row: its Sunday, the week's cost, the running cost and the projected income. */
  datatype WeekRow = WeekRow(week: int, cost: real, cumulative: real, income: Option<real>)

  /** A weekly row after the merge, with the merged percentage and "Avance Real ($)". */
  datatype CompareRow = CompareRow(row: WeekRow, percent: Option<real>, realProgress: Option<real>)

  /** "Avance Real ($)" = percentage × total income / 100; missing stays missing. */
  function RealProgress(percent: Option<real>, total: real): (r: Option<real>)
    ensures r.Some? <==> percent.Some?
    ensures r.Some? ==> 100.0 * r.value == percent.value * total
  {
    match percent
    case Some(p) => Some(p * total / 100.0)
    case None => None
  }

  /** The report rows whose date equals d, in report order. */
  function Matching(progress: seq<ProgressRow>, d: int): (ms: seq<ProgressRow>)
    ensures forall k :: 0 <= k < |ms| ==> ms[k].date == Some(d)
  {
    if progress == [] then []
    else Matching(progress[..|progress| - 1], d)
         + (if progress[|progress| - 1].date == Some(d) then [progress[|progress| - 1]] else [])
  }

  /** The rows a left join yields for one weekly row: one per match, or one with nothing merged. */
  function JoinRow(row: WeekRow, ms: seq<ProgressRow>, total: real): seq<CompareRow>
  {
    if ms == [] then [CompareRow(row, None, None)]
    else seq(|ms|, k requires 0 <= k < |ms| => CompareRow(row, ms[k].percent, RealProgress(ms[k].percent, total)))
  }

  /** The left join of the weekly rows with the report on the date, keeping the weekly order. */
  function Merge(rows: seq<WeekRow>, progress: seq<ProgressRow>, total: real): seq<CompareRow>
  {
    if rows == [] then []
    else Merge(rows[..|rows| - 1], progress, total)
         + JoinRow(rows[|rows| - 1], Matching(progress, rows[|rows| - 1].week), total)
  }

  /** Without a report every "Avance Real ($)" is missing (`None`). */
  function Unmerged(rows: seq<WeekRow>): (r: seq<CompareRow>)
  {
    seq(|rows|, i requires 0 <= i < |rows| => CompareRow(rows[i], None, None))
  }

  /** The comparison table, with or without a progress report. */
  function Compare(rows: seq<WeekRow>, progress: Option<seq<ProgressRow>>, total: real): seq<CompareRow>
  {
    match progress
    case None => Unmerged(rows)
    case Some(p) => Merge(rows, p, total)
  }

  /** No report row carries the date d. */
  predicate Unreported(progress: seq<ProgressRow>, d: int)
  {
    forall j :: 0 <= j < |progress| ==> progress[j].date != Some(d)
  }

  /** No two report rows share a (present) date. */
  predicate UniqueDates(progress: seq<ProgressRow>)
  {
    forall i, j :: 0 <= i < j < |progress| && progress[i].date.Some? ==> progress[i].date != progress[j].date
  }

  /** With unique dates a date matches at most the one row that carries it. */
  lemma {:induction false} MatchingUnique(progress: seq<ProgressRow>, d: int)
    requires UniqueDates(progress)
    ensures |Matching(progress, d)| <= 1
    ensures forall j :: 0 <= j < |progress| && progress[j].date == Some(d)
              ==> Matching(progress, d) == [progress[j]]
    ensures Unreported(progress, d) ==> Matching(progress, d) == []
  {
    if progress != [] {
      var init := progress[..|progress| - 1];
      assert UniqueDates(init);
      MatchingUnique(init, d);
      var last := progress[|progress| - 1];
      if last.date == Some(d) {
        assert forall j :: 0 <= j < |init| ==> init[j].date != Some(d);
      }
    }
  }

  /** The merged rows of weekly rows 0 .. n-1 are the first n merged rows. */
  lemma {:induction false} MergeUnique(rows: seq<WeekRow>, progress: seq<ProgressRow>, total: real)
    requires UniqueDates(progress)
    ensures |Merge(rows, progress, total)| == |rows|
    ensures forall i :: 0 <= i < |rows| ==>
              Merge(rows, progress, total)[i]
              == JoinRow(rows[i], Matching(progress, rows[i].week), total)[0]
  {
    if rows != [] {
      var init := rows[..|rows| - 1];
      MergeUnique(init, progress, total);
      MatchingUnique(progress, rows[|rows| - 1].week);
    }
  }

  /**
   * With unique report dates the merge keeps every weekly row, once and in
   * order; a row gets percentage × total / 100 from the report row with
   * its date, and a missing value when no report row has its date.
   */
  lemma MergeKeepsWeeks(rows: seq<WeekRow>, progress: seq<ProgressRow>, total: real)
    requires UniqueDates(progress)
    ensures var m := Merge(rows, progress, total);
            |m| == |rows|
            && (forall i :: 0 <= i < |rows| ==> m[i].row == rows[i])
            && (forall i, j :: 0 <= i < |rows| && 0 <= j < |progress| && progress[j].date == Some(rows[i].week)
                  ==> m[i].percent == progress[j].percent
                      && m[i].realProgress == RealProgress(progress[j].percent, total))
            && (forall i :: 0 <= i < |rows| && Unreported(progress, rows[i].week) ==> m[i].percent == None && m[i].realProgress == None)
  {
    MergeUnique(rows, progress, total);
    forall i | 0 <= i < |rows| {
      MatchingUnique(progress, rows[i].week);
    }
  }

  /** A report that shares no date with the weekly series leaves every value missing. */
  lemma NoOverlapGivesMissing(rows: seq<WeekRow>, progress: seq<ProgressRow>, total: real)
    requires forall i, j :: 0 <= i < |rows| && 0 <= j < |progress| ==> progress[j].date != Some(rows[i].week)
    ensures Merge(rows, progress, total) == Unmerged(rows)
  {
    if rows != [] {
      var init := rows[..|rows| - 1];
      NoOverlapGivesMissing(init, progress, total);
      var last := rows[|rows| - 1];
      NoMatch(progress, last.week);
    }
  }

  lemma {:induction false} NoMatch(progress: seq<ProgressRow>, d: int)
    requires forall j :: 0 <= j < |progress| ==> progress[j].date != Some(d)
    ensures Matching(progress, d) == []
  {
    if progress != [] {
      NoMatch(progress[..|progress| - 1], d);
    }
  }

  /** Without a report the table is the weekly rows with "Avance Real ($)" missing throughout. */
  lemma NoReportGivesMissing(rows: seq<WeekRow>, total: real)
    ensures var c := Compare(rows, None, total);
            |c| == |rows| && forall i :: 0 <= i < |rows| ==> c[i].row == rows[i] && c[i].percent == None && c[i].realProgress == None
  {
  }
}
