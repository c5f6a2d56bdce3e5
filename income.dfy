/**
 * Income figures: the total income ("ingreso_total") and the projected
 * income curve ("Ingreso Acumulado") over the weekly series.
 */
module Income {
  import opened Wrappers
  import opened Series

  /**
   * The projected income at one date, for a span from first to last:
   * total × (date − first) / (last − first), NaN (missing) when the span
   * is 0 / 0.
   */
  function ProjectedAt(date: int, first: int, last: int, total: real): Option<real>
  {
    if first == last then None
    else Some(total * ((date - first) as real / (last - first) as real))
  }

  /** The projected income of each row of ws, for the span first .. last. */
  function ProjectRows(ws: seq<Point>, first: int, last: int, total: real): (r: seq<Option<real>>)
    ensures |r| == |ws|
  {
    if ws == [] then []
    else [ProjectedAt(ws[0].date, first, last, total)] + ProjectRows(ws[1..], first, last, total)
  }

  /** The first and last labels of a series: its `index.min()` and `index.max()` when ascending. */
  function First(ws: seq<Point>): int
    requires ws != []
  {
    ws[0].date
  }

  function Last(ws: seq<Point>): int
    requires ws != []
  {
    ws[|ws| - 1].date
  }

  /**
   * "Ingreso Acumulado": the projected income on each row of the
   * (ascending) weekly series.
   */
  function Projection(weeks: seq<Point>, total: real): (r: seq<Option<real>>)
    ensures |r| == |weeks|
  {
    if weeks == [] then [] else ProjectRows(weeks, First(weeks), Last(weeks), total)
  }

  lemma {:induction false} ProjectRowsAt(ws: seq<Point>, first: int, last: int, total: real, i: int)
    requires 0 <= i < |ws|
    ensures ProjectRows(ws, first, last, total)[i] == ProjectedAt(ws[i].date, first, last, total)
  {
    if i > 0 {
      ProjectRowsAt(ws[1..], first, last, total, i - 1);
    }
  }

  lemma ProjectionAt(weeks: seq<Point>, total: real, i: int)
    requires 0 <= i < |weeks|
    ensures Projection(weeks, total)[i] == ProjectedAt(weeks[i].date, First(weeks), Last(weeks), total)
  {
    ProjectRowsAt(weeks, First(weeks), Last(weeks), total, i);
  }

  /** With a single date the projection is undefined on every row. */
  lemma ProjectionUndefined(weeks: seq<Point>, total: real)
    requires weeks != [] && First(weeks) == Last(weeks)
    ensures forall i :: 0 <= i < |weeks| ==> Projection(weeks, total)[i] == None
  {
    forall i | 0 <= i < |weeks| ensures Projection(weeks, total)[i] == None {
      ProjectionAt(weeks, total, i);
    }
  }

  /**
   * Over a span of more than one date the projection is defined
   * everywhere, 0 on the first date and the whole total on the last.
   */
  lemma ProjectionEndpoints(weeks: seq<Point>, total: real)
    requires weeks != [] && First(weeks) != Last(weeks)
    ensures forall i :: 0 <= i < |weeks| ==> Projection(weeks, total)[i].Some?
    ensures forall i :: 0 <= i < |weeks| && weeks[i].date == First(weeks)
              ==> Projection(weeks, total)[i] == Some(0.0)
    ensures forall i :: 0 <= i < |weeks| && weeks[i].date == Last(weeks)
              ==> Projection(weeks, total)[i] == Some(total)
  {
    forall i | 0 <= i < |weeks|
      ensures Projection(weeks, total)[i].Some?
      ensures weeks[i].date == First(weeks) ==> Projection(weeks, total)[i] == Some(0.0)
      ensures weeks[i].date == Last(weeks) ==> Projection(weeks, total)[i] == Some(total)
    {
      ProjectionAt(weeks, total, i);
      ProjectedEnds(First(weeks), Last(weeks), total);
    }
  }

  lemma ProjectedEnds(first: int, last: int, total: real)
    requires first != last
    ensures ProjectedAt(first, first, last, total) == Some(0.0)
    ensures ProjectedAt(last, first, last, total) == Some(total)
  {
    var span := (last - first) as real;
    assert (first - first) as real / span == 0.0;
    assert (last - first) as real / span == 1.0;
    assert ProjectedAt(first, first, last, total) == Some(total * ((first - first) as real / span));
    assert total * ((first - first) as real / span) == total * 0.0 == 0.0;
    assert ProjectedAt(last, first, last, total) == Some(total * ((last - first) as real / span));
    assert total * ((last - first) as real / span) == total * 1.0 == total;
  }

  lemma ScaledDifference(t: real, a: real, b: real, s: real)
    requires s != 0.0
    ensures t * (a / s) - t * (b / s) == t * (a - b) / s
  {
    var x, y := a / s, b / s;
    assert x * s == a && y * s == b;
    assert (x - y) * s == a - b;
    assert (a - b) / s == x - y;
    assert t * (x - y) == t * x - t * y;
    assert t * (a - b) / s == t * ((a - b) / s);
  }

  /** The projection is linear in the date: differences scale with the span. */
  lemma ProjectionLinear(weeks: seq<Point>, total: real, i: int, j: int)
    requires weeks != [] && First(weeks) != Last(weeks)
    requires 0 <= i < |weeks| && 0 <= j < |weeks|
    ensures Projection(weeks, total)[i].Some? && Projection(weeks, total)[j].Some?
    ensures Projection(weeks, total)[i].value - Projection(weeks, total)[j].value
            == total * (weeks[i].date - weeks[j].date) as real
                     / (Last(weeks) - First(weeks)) as real
  {
    ProjectionAt(weeks, total, i);
    ProjectionAt(weeks, total, j);
    var span := (Last(weeks) - First(weeks)) as real;
    var a := (weeks[i].date - First(weeks)) as real;
    var b := (weeks[j].date - First(weeks)) as real;
    assert a - b == (weeks[i].date - weeks[j].date) as real;
    ScaledDifference(total, a, b, span);
  }

  /**
   * With a non-negative total the projection stays between 0 and the total
   * on the span and grows with the date.
   */
  lemma ProjectionMonotone(weeks: seq<Point>, total: real, i: int, j: int)
    requires weeks != [] && First(weeks) != Last(weeks)
    requires total >= 0.0
    requires 0 <= i < |weeks| && 0 <= j < |weeks|
    requires First(weeks) <= weeks[i].date <= weeks[j].date <= Last(weeks)
    ensures Projection(weeks, total)[i].Some? && Projection(weeks, total)[j].Some?
    ensures 0.0 <= Projection(weeks, total)[i].value <= Projection(weeks, total)[j].value <= total
  {
    var first, last := First(weeks), Last(weeks);
    var span := (last - first) as real;
    var a := (weeks[i].date - first) as real;
    var b := (weeks[j].date - first) as real;
    ProjectionAt(weeks, total, i);
    ProjectionAt(weeks, total, j);
    assert Projection(weeks, total)[i].value == total * (a / span);
    assert Projection(weeks, total)[j].value == total * (b / span);
    ScaledBetween(total, a, b, span);
  }

  /** 0 <= a <= b <= s scales to 0 <= t a / s <= t b / s <= t for t >= 0. */
  lemma ScaledBetween(t: real, a: real, b: real, s: real)
    requires t >= 0.0 && 0.0 <= a <= b <= s && s > 0.0
    ensures 0.0 <= t * (a / s) <= t * (b / s) <= t
  {
    assert 0.0 <= a / s <= b / s <= 1.0;
  }

  /** Scaling by (7a) / (7b) is scaling by a / b. */
  lemma WeeksRatio(t: real, a: int, b: int)
    requires b > 0
    ensures t * ((7 * a) as real / (7 * b) as real) == t * (a as real / b as real)
  {
    var q := a as real / b as real;
    assert a as real == q * b as real;
    assert (7 * a) as real == 7.0 * a as real;
    assert (7 * b) as real == 7.0 * b as real;
    assert (7 * a) as real == q * (7 * b) as real;
    assert (7 * a) as real / (7 * b) as real == q;
  }

  /** On the date i weeks after the first of n weekly dates the projection is total × i / (n - 1). */
  lemma WeeklyRow(first: int, i: int, n: int, total: real)
    requires 0 <= i < n && n > 1
    ensures ProjectedAt(first + 7 * i, first, first + 7 * (n - 1), total)
            == Some(total * (i as real / (n - 1) as real))
  {
    var p := ProjectedAt(first + 7 * i, first, first + 7 * (n - 1), total);
    var scaled := total * ((7 * i) as real / (7 * (n - 1)) as real);
    var reduced := total * (i as real / (n - 1) as real);
    assert p == Some(scaled);
    WeeksRatio(total, i, n - 1);
    assert p.value == reduced;
  }

  /**
   * On rows one week apart the projection on row i is the total times
   * i / (number of rows - 1).
   */
  lemma ProjectionWeekly(weeks: seq<Point>, total: real)
    requires |weeks| > 1
    requires forall i :: 0 <= i < |weeks| ==> weeks[i].date == weeks[0].date + 7 * i
    ensures forall i :: 0 <= i < |weeks| ==>
              Projection(weeks, total)[i] == Some(total * (i as real / (|weeks| - 1) as real))
  {
    assert Last(weeks) == First(weeks) + 7 * (|weeks| - 1);
    forall i | 0 <= i < |weeks|
      ensures Projection(weeks, total)[i] == Some(total * (i as real / (|weeks| - 1) as real))
    {
      ProjectionRow(weeks, total, i);
    }
  }

  lemma ProjectionRow(weeks: seq<Point>, total: real, i: int)
    requires |weeks| > 1 && 0 <= i < |weeks|
    requires weeks[i].date == First(weeks) + 7 * i
    requires Last(weeks) == First(weeks) + 7 * (|weeks| - 1)
    ensures Projection(weeks, total)[i] == Some(total * (i as real / (|weeks| - 1) as real))
  {
    var first, n := First(weeks), |weeks|;
    var p := Projection(weeks, total)[i];
    ProjectionAt(weeks, total, i);
    assert p == ProjectedAt(first + 7 * i, first, first + 7 * (n - 1), total);
    WeeklyRow(first, i, n, total);
    assert p.Some? && p.value == total * (i as real / (n - 1) as real);
  }

  /** On rows one week apart the projection runs from 0 on the first row to the total on the last. */
  lemma ProjectionEnds(weeks: seq<Point>, total: real)
    requires |weeks| > 1
    requires forall i :: 0 <= i < |weeks| ==> weeks[i].date == weeks[0].date + 7 * i
    ensures Projection(weeks, total)[0] == Some(0.0)
    ensures Projection(weeks, total)[|weeks| - 1] == Some(total)
  {
    assert Last(weeks) == First(weeks) + 7 * (|weeks| - 1);
    ProjectionEndpoints(weeks, total);
  }
}
