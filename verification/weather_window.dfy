/**
  The rolling week of day-start timestamps the cache is keyed by, and the
  staleness rule that decides when the remote service must be asked again.
 */
module WeatherWindow {
  import opened Calendar

  /** Number of days in the window (`DataConstants.daysPerWeek`). */
  const DaysPerWeek: int := 7

  /**
    A well-formed window in time zone tz: seven timestamps, the first a
    local midnight, each later one exactly one day after the previous one.
   */
  predicate IsWeekWindow(ts: seq<int>, tz: TimeZone)
  {
    && |ts| == DaysPerWeek
    && IsMidnight(ts[0], tz)
    && forall i :: 0 < i < |ts| ==> ts[i] == ts[i - 1] + SecondsPerDay
  }

  /** The window that starts on the local day of `now` (`generateWeekTimestamps`). */
  function GenerateWeekTimestamps(now: int, tz: TimeZone): (ts: seq<int>)
    ensures IsWeekWindow(ts, tz)
    ensures ts[0] <= now < ts[0] + SecondsPerDay
  {
    var start := MidnightTimestamp(now, tz);
    seq(DaysPerWeek, i => start + i * SecondsPerDay)
  }

  /** Day i of a window lies i whole days after its first day. */
  lemma WindowDay(ts: seq<int>, tz: TimeZone, i: int)
    requires IsWeekWindow(ts, tz)
    requires 0 <= i < |ts|
    ensures ts[i] == ts[0] + i * SecondsPerDay
    decreases i
  {
    if i > 0 {
      WindowDay(ts, tz, i - 1);
    }
  }

  /** Every timestamp of a window is a local midnight, and the window is strictly increasing. */
  lemma WindowOrdered(ts: seq<int>, tz: TimeZone)
    requires IsWeekWindow(ts, tz)
    ensures forall i :: 0 <= i < |ts| ==> IsMidnight(ts[i], tz)
    ensures forall i, j :: 0 <= i < j < |ts| ==> ts[i] < ts[j]
  {
    forall i | 0 <= i < |ts|
      ensures IsMidnight(ts[i], tz)
    {
      WindowDay(ts, tz, i);
      var x := ts[0] + tz.utcOffset;
      assert ts[i] + tz.utcOffset == x + i * SecondsPerDay;
      assert x == (x / SecondsPerDay) * SecondsPerDay;
      assert x + i * SecondsPerDay == (x / SecondsPerDay + i) * SecondsPerDay;
    }
    forall i, j | 0 <= i < j < |ts|
      ensures ts[i] < ts[j]
    {
      WindowDay(ts, tz, i);
      WindowDay(ts, tz, j);
    }
  }

  /** A window is determined by any instant of its first day: it is the one generated from it. */
  lemma WindowDeterminedByFirstDay(ts: seq<int>, tz: TimeZone, now: int)
    requires IsWeekWindow(ts, tz)
    requires ts[0] <= now < ts[0] + SecondsPerDay
    ensures ts == GenerateWeekTimestamps(now, tz)
  {
    MidnightUnique(ts[0], now, tz);
    var g := GenerateWeekTimestamps(now, tz);
    forall i | 0 <= i < |ts|
      ensures ts[i] == g[i]
    {
      WindowDay(ts, tz, i);
    }
  }

  /** Two instants generate the same window exactly when they are on the same calendar day. */
  lemma SameWindowIffSameDate(a: int, b: int, tz: TimeZone)
    ensures GenerateWeekTimestamps(a, tz) == GenerateWeekTimestamps(b, tz) <==> SameDate(a, b, tz)
  {
  }

  /**
    The staleness rule (`needsToRefetchData`): refetch when a whole refresh
    interval has passed since the last fetch, or when the last fetch was on
    another calendar day. Equivalently: when the interval has passed or the
    week window generated at the last fetch is no longer today's.
   */
  predicate NeedsRefetch(now: int, lastFetch: int, tz: TimeZone, fetchInterval: int): (stale: bool)
    ensures stale <==> now - lastFetch >= fetchInterval
                       || GenerateWeekTimestamps(now, tz) != GenerateWeekTimestamps(lastFetch, tz)
  {
    now - lastFetch >= fetchInterval || !SameDate(now, lastFetch, tz)
  }

  /** Right after a fetch (same instant) nothing is stale, so a second fetch is not started. */
  lemma FreshRightAfterFetch(now: int, tz: TimeZone, fetchInterval: int)
    requires fetchInterval > 0
    ensures !NeedsRefetch(now, now, tz, fetchInterval)
  {
  }

  /** The failure back-off (last fetch moved one interval into the past) makes the data stale at once. */
  lemma StaleAfterBackOff(now: int, tz: TimeZone, fetchInterval: int)
    ensures NeedsRefetch(now, now - fetchInterval, tz, fetchInterval)
  {
  }

  /**
    Data that is not stale was fetched less than one interval ago, and on
    the same day, so the window generated then is the window generated now.
   */
  lemma NotStaleMeansCurrentWindow(now: int, lastFetch: int, tz: TimeZone, fetchInterval: int)
    requires !NeedsRefetch(now, lastFetch, tz, fetchInterval)
    ensures now - lastFetch < fetchInterval
    ensures GenerateWeekTimestamps(lastFetch, tz) == GenerateWeekTimestamps(now, tz)
  {
  }

  /** Crossing a local midnight forces a refetch however short the elapsed time. */
  lemma NewDayForcesRefetch(now: int, lastFetch: int, tz: TimeZone, fetchInterval: int)
    requires MidnightTimestamp(now, tz) != MidnightTimestamp(lastFetch, tz)
    ensures NeedsRefetch(now, lastFetch, tz, fetchInterval)
  {
  }
}
