/**
 * Time as whole minutes since a fixed Sunday midnight, 1970-01-04T00:00 in the time zone
 * of the database's timestamps. A `dt.date` is the number of the day counted from that
 * same Sunday, so day 0 is a Sunday.
 */
module Clock {
  const MinutesPerHour: int := 60
  const MinutesPerDay: int := 1440

  /** `dt.datetime.combine(d, dt.datetime.min.time())`: midnight at the start of day `d`. */
  function Midnight(day: int): int {
    day * MinutesPerDay
  }

  /** The calendar day an instant falls on (`t.date()`). */
  function DayOf(t: int): int {
    t / MinutesPerDay
  }

  /** SQL `extract('hour', t)`. */
  function HourOf(t: int): (h: int)
    ensures 0 <= h < 24
  {
    (t % MinutesPerDay) / MinutesPerHour
  }

  /** Python's `d.weekday()`: Monday = 0 ... Sunday = 6. */
  function Weekday(day: int): (w: int)
    ensures 0 <= w < 7
  {
    (day + 6) % 7
  }

  /** SQL `extract('dow', t)`: Sunday = 0 ... Saturday = 6. */
  function SqlDow(t: int): (w: int)
    ensures 0 <= w < 7
  {
    DayOf(t) % 7
  }

  /** `t.timestamp()`: seconds since 1970-01-01T00:00, which is three days before the origin. */
  function Timestamp(t: int): int {
    (t + 3 * MinutesPerDay) * 60
  }

  /** The index `(1 + d.weekday()) % 7` that `dow_count` uses is the Sunday-first day of the week. */
  lemma SundayFirstIndex(day: int)
    ensures (1 + Weekday(day)) % 7 == day % 7
    ensures SqlDow(Midnight(day)) == day % 7
  {
    assert DayOf(Midnight(day)) == day;
  }

  /** An instant lies on day `d` exactly when it is between that midnight and the next. */
  lemma DayOfBetweenMidnights(t: int, d: int)
    ensures DayOf(t) == d <==> Midnight(d) <= t < Midnight(d + 1)
  {
  }
}
