/**
 * Schedule rows and their expansion into daily cost entries: the
 * "Costo por día" column and the nested loop that builds the list of
 * (Fecha, Costo Diario) entries.
 */
module Schedule {
  import opened Wrappers
  import opened Series

  /**
   * One schedule row after coercion: start day ("Inicio"), duration in
   * days ("Duración (días)") and total cost ("Costo ($)"), each possibly
   * missing.
   */
  datatype Task = Task(start: Option<int>, duration: Option<real>, cost: Option<real>)

  /** A non-missing quotient: a number, or the infinity of c / 0 with c != 0. */
  datatype Ratio = Finite(value: real) | Infinite

  /**
   * "Costo por día" = cost / duration. Missing when either operand is
   * missing or for 0 / 0 (NaN); infinite, hence not missing, for c / 0
   * with c != 0.
   */
  function CostPerDay(t: Task): (r: Option<Ratio>)
    ensures r.None? <==> t.cost.None? || t.duration.None?
                         || (t.duration.value == 0.0 && t.cost.value == 0.0)
    ensures r == Some(Infinite) <==> t.cost.Some? && t.duration.Some?
                                     && t.duration.value == 0.0 && t.cost.value != 0.0
    ensures r.Some? && r.value.Finite? ==> r.value.value * t.duration.value == t.cost.value
  {
    match (t.cost, t.duration)
    case (Some(c), Some(d)) =>
      if d != 0.0 then Some(Finite(c / d))
      else if c != 0.0 then Some(Infinite)
      else None
    case _ => None
  }

  /** Python's `int(x)` on a float: truncation toward zero. */
  function Trunc(x: real): (n: int)
    ensures x >= 0.0 ==> 0 <= n && n as real <= x < n as real + 1.0
    ensures x < 0.0 ==> n <= 0 && n as real - 1.0 < x <= n as real
  {
    if x >= 0.0 then x.Floor else -((-x).Floor)
  }

  /** Number of days `range(int(d))` runs over. */
  function DayCount(d: real): (n: nat)
    ensures d < 1.0 ==> n == 0
    ensures d >= 1.0 ==> n as real <= d < n as real + 1.0
  {
    if Trunc(d) > 0 then Trunc(d) else 0
  }

  /** The guard of the expansion loop: start, duration and cost per day all present. */
  predicate Expandable(t: Task)
  {
    t.start.Some? && t.duration.Some? && CostPerDay(t).Some?
  }

  /**
   * The entries one row contributes: for day = 0 .. int(duration) - 1, the
   * entry (start + day, cost per day).
   */
  function TaskEntries(t: Task): seq<Point>
  {
    if !Expandable(t) || DayCount(t.duration.value) == 0 then []
    else
      var rate := CostPerDay(t).value.value;
      seq(DayCount(t.duration.value), i => Point(t.start.value + i, rate))
  }

  /** The whole list the nested loop builds, row after row. */
  function Expansion(tasks: seq<Task>): seq<Point>
  {
    if tasks == [] then []
    else Expansion(tasks[..|tasks| - 1]) + TaskEntries(tasks[|tasks| - 1])
  }

  /** The daily expansion loop: one entry per day of every expandable row. */
  method ExpandDaily(tasks: seq<Task>) returns (entries: seq<Point>)
    ensures entries == Expansion(tasks)
  {
    entries := [];
    var k := 0;
    while k < |tasks|
      invariant 0 <= k <= |tasks|
      invariant entries == Expansion(tasks[..k])
    {
      var t := tasks[k];
      var perDay := CostPerDay(t);
      ghost var before := entries;
      if t.start.Some? && t.duration.Some? && perDay.Some? {
        var n := Trunc(t.duration.value);
        var day := 0;
        while day < n
          invariant 0 <= day <= DayCount(t.duration.value)
          invariant entries == before + TaskEntries(t)[..day]
        {
          entries := entries + [Point(t.start.value + day, perDay.value.value)];
          day := day + 1;
        }
        assert TaskEntries(t)[..day] == TaskEntries(t);
      } else {
        assert TaskEntries(t) == [];
      }
      assert tasks[..k + 1][..k] == tasks[..k];
      k := k + 1;
    }
    assert tasks[..k] == tasks;
  }

  /** "ingreso_total": the sum of the cost column, skipping missing costs. */
  function TotalIncome(tasks: seq<Task>): real
  {
    if tasks == [] then 0.0
    else TotalIncome(tasks[..|tasks| - 1])
         + (match tasks[|tasks| - 1].cost case Some(c) => c case None => 0.0)
  }

  // ---------------------------------------------------------------------
  // Properties of one row's expansion

  /**
   * A row yields int(duration) entries dated start, start + 1, ..., each
   * worth cost / duration, when start, duration and cost per day are all
   * present, and nothing otherwise.
   */
  lemma TaskEntriesShape(t: Task)
    ensures |TaskEntries(t)| == if Expandable(t) then DayCount(t.duration.value) else 0
    ensures forall i :: 0 <= i < |TaskEntries(t)| ==>
              TaskEntries(t)[i].date == t.start.value + i
              && TaskEntries(t)[i].amount * t.duration.value == t.cost.value
  {
  }

  /** A row with a missing start, duration or cost contributes nothing. */
  lemma MissingFieldGivesNothing(t: Task)
    requires t.start.None? || t.duration.None? || t.cost.None?
    ensures TaskEntries(t) == []
  {
  }

  /**
   * A duration below one day (zero or negative included) contributes
   * nothing, and raises nothing: for a zero duration the cost per day is
   * infinite or NaN, and range(int(duration)) is empty either way.
   */
  lemma ShortDurationGivesNothing(t: Task)
    requires t.duration.Some? && t.duration.value < 1.0
    ensures TaskEntries(t) == []
    ensures t.duration.value == 0.0 && t.cost.Some? && t.cost.value != 0.0
            ==> CostPerDay(t) == Some(Infinite)
  {
  }

  /** A series whose amounts are all r totals |ps| * r. */
  lemma {:induction false} TotalOfConstant(ps: seq<Point>, r: real)
    requires forall i :: 0 <= i < |ps| ==> ps[i].amount == r
    ensures Total(ps) == |ps| as real * r
  {
    if ps != [] {
      var init := ps[..|ps| - 1];
      TotalOfConstant(init, r);
      assert Amounts(ps)[..|ps| - 1] == Amounts(init);
    }
  }

  /** For a whole number of days the entries add back up to the row's cost. */
  lemma TaskEntriesConserveCost(t: Task)
    requires Expandable(t) && t.duration.value >= 1.0
    requires t.duration.value == t.duration.value.Floor as real
    ensures Total(TaskEntries(t)) == t.cost.value
  {
    var es := TaskEntries(t);
    assert DayCount(t.duration.value) as real == t.duration.value;
    TotalOfConstant(es, CostPerDay(t).value.value);
  }

  /** With no negative cost, no entry is negative. */
  lemma TaskEntriesNonNegative(t: Task)
    requires t.cost.Some? ==> t.cost.value >= 0.0
    ensures forall i :: 0 <= i < |TaskEntries(t)| ==> TaskEntries(t)[i].amount >= 0.0
  {
    if Expandable(t) && DayCount(t.duration.value) > 0 {
      var r := CostPerDay(t).value.value;
      assert r * t.duration.value == t.cost.value;
      assert t.duration.value > 0.0;
    }
  }

  // ---------------------------------------------------------------------
  // Properties of the whole expansion

  /** The sum, row by row, of what each row contributes. */
  function RowTotals(tasks: seq<Task>): real
  {
    if tasks == [] then 0.0
    else RowTotals(tasks[..|tasks| - 1]) + Total(TaskEntries(tasks[|tasks| - 1]))
  }

  /** The expansion's total is the sum of the rows' contributions. */
  lemma {:induction false} ExpansionTotal(tasks: seq<Task>)
    ensures Total(Expansion(tasks)) == RowTotals(tasks)
  {
    if tasks != [] {
      ExpansionTotal(tasks[..|tasks| - 1]);
      TotalAppend(Expansion(tasks[..|tasks| - 1]), TaskEntries(tasks[|tasks| - 1]));
    }
  }

  /** The expansion is empty exactly when no row yields an entry. */
  lemma {:induction false} ExpansionEmpty(tasks: seq<Task>)
    ensures Expansion(tasks) == [] <==> forall k :: 0 <= k < |tasks| ==> TaskEntries(tasks[k]) == []
  {
    if tasks != [] {
      var init := tasks[..|tasks| - 1];
      ExpansionEmpty(init);
      assert forall k :: 0 <= k < |init| ==> init[k] == tasks[k];
    }
  }

  /** Every entry of the expansion is an entry of some row. */
  lemma {:induction false} ExpansionFrom(tasks: seq<Task>, i: int)
    requires 0 <= i < |Expansion(tasks)|
    ensures exists k, j :: 0 <= k < |tasks| && 0 <= j < |TaskEntries(tasks[k])|
                           && Expansion(tasks)[i] == TaskEntries(tasks[k])[j]
  {
    var init := tasks[..|tasks| - 1];
    var n := |Expansion(init)|;
    if i < n {
      ExpansionFrom(init, i);
      var k, j :| 0 <= k < |init| && 0 <= j < |TaskEntries(init[k])|
                  && Expansion(init)[i] == TaskEntries(init[k])[j];
      assert init[k] == tasks[k];
    } else {
      assert Expansion(tasks)[i] == TaskEntries(tasks[|tasks| - 1])[i - n];
    }
  }

  /** With no negative cost, no entry of the expansion is negative. */
  lemma ExpansionNonNegative(tasks: seq<Task>)
    requires forall k :: 0 <= k < |tasks| && tasks[k].cost.Some? ==> tasks[k].cost.value >= 0.0
    ensures forall i :: 0 <= i < |Expansion(tasks)| ==> Expansion(tasks)[i].amount >= 0.0
  {
    forall i | 0 <= i < |Expansion(tasks)|
      ensures Expansion(tasks)[i].amount >= 0.0
    {
      ExpansionFrom(tasks, i);
      var k, j :| 0 <= k < |tasks| && 0 <= j < |TaskEntries(tasks[k])|
                  && Expansion(tasks)[i] == TaskEntries(tasks[k])[j];
      TaskEntriesNonNegative(tasks[k]);
    }
  }

  /**
   * A row whose cost is fully scheduled: when its cost is present, so are
   * its start and a whole, positive number of days.
   */
  predicate FullyScheduled(t: Task)
  {
    t.cost.Some? ==> t.start.Some? && t.duration.Some? && t.duration.value >= 1.0
                     && t.duration.value == t.duration.value.Floor as real
  }

  /**
   * When every row is fully scheduled, the daily entries add up to the
   * total income: every cost is spread, in full, over its days.
   */
  lemma {:induction false} ScheduledCostIsIncome(tasks: seq<Task>)
    requires forall k :: 0 <= k < |tasks| ==> FullyScheduled(tasks[k])
    ensures Total(Expansion(tasks)) == TotalIncome(tasks)
  {
    if tasks != [] {
      var init := tasks[..|tasks| - 1];
      var t := tasks[|tasks| - 1];
      assert forall k :: 0 <= k < |init| ==> init[k] == tasks[k];
      ScheduledCostIsIncome(init);
      TotalAppend(Expansion(init), TaskEntries(t));
      if t.cost.Some? {
        TaskEntriesConserveCost(t);
      } else {
        assert TaskEntries(t) == [];
      }
    }
  }

  /**
   * The total income counts rows that produce no entries, so it can differ
   * from the expanded total: one row costing 100 with a zero duration.
   */
  lemma IncomeNeedNotMatchCost()
    ensures var tasks := [Task(Some(0), Some(0.0), Some(100.0))];
            Expansion(tasks) == [] && TotalIncome(tasks) == 100.0
  {
    var tasks := [Task(Some(0), Some(0.0), Some(100.0))];
    assert tasks[..0] == [];
  }
}
