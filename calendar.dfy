/** Dates are whole seconds since a fixed epoch, read in a single time zone with no daylight-saving
    shifts; a calendar day is a run of 86400 seconds. */
module Calendar {

  const SecondsPerDay := 86400

  /** The index of the day containing instant `t`. */
  function DayOf(t: int): int
  {
    t / SecondsPerDay
  }

  /** `Calendar.startOfDay(for:)`: the first instant of the day containing `t`. */
  function StartOfDay(t: int): (r: int)
    ensures r <= t < r + SecondsPerDay
    ensures r % SecondsPerDay == 0
  {
    DayOf(t) * SecondsPerDay
  }

  /** Two instants share a start of day exactly when they fall on the same day. */
  lemma StartOfDaySameDay(a: int, b: int)
    ensures StartOfDay(a) == StartOfDay(b) <==> DayOf(a) == DayOf(b)
  {
  }

  /** `Calendar.isDateInToday`, relative to the instant `now`. */
  predicate IsSameDay(t: int, now: int)
  {
    DayOf(t) == DayOf(now)
  }
}
