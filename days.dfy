/**
 * Calendar arithmetic, reduced to integers. A `Day` is a day number (a date
 * normalised to midnight); an `Instant` is a point in time in seconds since
 * the same reference date. Time zones and daylight-saving shifts are not
 * modelled: every day is `SecondsPerDay` long.
 */
module Days {

  type Day = int

  type Instant = int

  const SecondsPerDay: int := 86400

  /** `Date.startOfDay`: the day that contains the instant `t`. */
  function StartOfDay(t: Instant): (d: Day)
    ensures d * SecondsPerDay <= t < (d + 1) * SecondsPerDay
  {
    t / SecondsPerDay
  }

  /** `Calendar.dateComponents([.day], from:to:).day` on midnight-normalised dates. */
  function DaysBetween(from: Day, to: Day): (n: int)
    ensures from + n == to
    ensures n >= 0 <==> from <= to
  {
    to - from
  }
}
