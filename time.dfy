/**
 * Instants and day arithmetic. An instant is a count of seconds; adding a
 * timedelta of n days adds n * 86400 seconds, and the `days` field of the
 * difference of two instants is that difference divided by 86400, rounded
 * toward negative infinity.
 */
module Time {

  type Instant = int

  const SecondsPerDay: int := 86400

  /** Whole days from `earlier` to `later`, rounded down (timedelta.days). */
  function DaysBetween(later: Instant, earlier: Instant): (d: int)
    ensures d * SecondsPerDay <= later - earlier < (d + 1) * SecondsPerDay
  {
    (later - earlier) / SecondsPerDay
  }

  /** The instant `days` whole days after `t` (t + timedelta(days=days)). */
  function AddDays(t: Instant, days: int): Instant
  {
    t + days * SecondsPerDay
  }

  /** The rounded-down day count is the only integer whose day window holds the difference. */
  lemma DaysBetweenUnique(later: Instant, earlier: Instant, d: int)
    requires d * SecondsPerDay <= later - earlier < (d + 1) * SecondsPerDay
    ensures DaysBetween(later, earlier) == d
  {
  }

  /** Adding n days and measuring again gives back n days. */
  lemma DaysBetweenAddDays(t: Instant, n: int)
    ensures DaysBetween(AddDays(t, n), t) == n
  {
    DaysBetweenUnique(AddDays(t, n), t, n);
  }

  /** The day count is at least n exactly when `later` is at least n days after `earlier`. */
  lemma DaysBetweenAtLeast(later: Instant, earlier: Instant, n: int)
    ensures DaysBetween(later, earlier) >= n <==> later >= AddDays(earlier, n)
  {
    var d := DaysBetween(later, earlier);
    if d >= n {
      assert d * SecondsPerDay >= n * SecondsPerDay;
    } else {
      assert (d + 1) * SecondsPerDay <= n * SecondsPerDay;
    }
  }
}
