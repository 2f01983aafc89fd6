/**
  Calendar arithmetic used by the weather cache: the start of the local day
  ("midnight timestamp") of an instant and the "same calendar day" relation.

  A time zone is modelled as a fixed offset from UTC in seconds, and instants
  as whole seconds since the epoch. Local day number d covers the instants
  t with (t + offset) in [d * SecondsPerDay, (d + 1) * SecondsPerDay).
 */
module Calendar {

  const SecondsPerDay: int := 86400

  datatype TimeZone = TimeZone(utcOffset: int)

  /** Number of the local calendar day that contains instant t. */
  function LocalDay(t: int, tz: TimeZone): int
  {
    (t + tz.utcOffset) / SecondsPerDay
  }

  /** True when the local time of m is exactly 00:00:00. */
  predicate IsMidnight(m: int, tz: TimeZone)
  {
    (m + tz.utcOffset) % SecondsPerDay == 0
  }

  /** The instant at which the local day containing t starts. */
  function MidnightTimestamp(t: int, tz: TimeZone): (m: int)
    ensures IsMidnight(m, tz)
    ensures m <= t < m + SecondsPerDay
    ensures LocalDay(m, tz) == LocalDay(t, tz)
  {
    t - (t + tz.utcOffset) % SecondsPerDay
  }

  /**
    Whether two instants fall on the same local calendar day (`sameDate`):
    the relation is reflexive, and instants on the same day are less than one
    day apart.
   */
  predicate SameDate(a: int, b: int, tz: TimeZone): (same: bool)
    ensures a == b ==> same
    ensures same ==> -SecondsPerDay < a - b < SecondsPerDay
  {
    LocalDay(a, tz) == LocalDay(b, tz)
  }

  /** A midnight is the midnight of every instant of the day it starts, and of no other. */
  lemma MidnightUnique(m: int, t: int, tz: TimeZone)
    requires IsMidnight(m, tz)
    requires m <= t < m + SecondsPerDay
    ensures m == MidnightTimestamp(t, tz)
  {
  }

  /** Two instants are on the same calendar day exactly when their midnights agree. */
  lemma SameDateIffSameMidnight(a: int, b: int, tz: TimeZone)
    ensures SameDate(a, b, tz) <==> MidnightTimestamp(a, tz) == MidnightTimestamp(b, tz)
  {
  }
}
