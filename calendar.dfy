/**
 * Calendar days as integers: day 0 is 1970-01-01 (a Thursday), so day 3
 * (1970-01-04) is a Sunday. Weeks run Monday to Sunday, as the buckets of
 * pandas' weekly frequency "W" (anchored on Sunday, closed and labelled on
 * the right) do.
 */
module Calendar {

  predicate IsSunday(d: int)
  {
    d % 7 == 3
  }

  /** Week number of a day; week 0 is 1970-01-05 .. 1970-01-11. */
  function WeekIndex(d: int): int
  {
    (d - 4) / 7
  }

  /** The Sunday that closes week k. */
  function WeekEndOfIndex(k: int): (s: int)
    ensures IsSunday(s)
  {
    7 * k + 10
  }

  /** The Sunday that closes d's week: the label `resample("W")` gives d. */
  function WeekEnd(d: int): (s: int)
    ensures IsSunday(s) && d <= s < d + 7
  {
    WeekEndOfIndex(WeekIndex(d))
  }

  /** A day is on or before the end of week k exactly when its week is k or earlier. */
  lemma WeekIndexAtMost(d: int, k: int)
    ensures WeekIndex(d) <= k <==> d <= WeekEndOfIndex(k)
  {
  }

  /** The week a Sunday closes is the week that Sunday belongs to. */
  lemma WeekOfWeekEnd(k: int)
    ensures WeekIndex(WeekEndOfIndex(k)) == k
  {
  }

  /** WeekEnd is the only Sunday among d .. d+6. */
  lemma WeekEndUnique(d: int, s: int)
    requires IsSunday(s) && d <= s < d + 7
    ensures s == WeekEnd(d)
  {
  }

  lemma WeekIndexMonotone(d: int, e: int)
    requires d <= e
    ensures WeekIndex(d) <= WeekIndex(e)
  {
  }

  /** Two days share a bucket exactly when they share a week number. */
  lemma SameWeek(d: int, e: int)
    ensures WeekEnd(d) == WeekEnd(e) <==> WeekIndex(d) == WeekIndex(e)
  {
  }
}
