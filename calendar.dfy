/** Dates as the app compares them: a date is the number of its calendar day,
    so `Calendar.isDateInToday` is equality with today's number and
    `dateComponents([.day], from:to:)` is a difference of day numbers. The
    time of day is abstracted away: `dateComponents` counts whole elapsed
    days between two instants, which can be one less than the difference of
    their day numbers, and this model does not capture that rounding. */
module Calendar {
  import opened Wrappers

  predicate IsDateInToday(date: int, today: int)
  {
    date == today
  }

  /** `dateComponents([.day], from: from, to: to).day`. */
  function DaysBetween(from: int, to: int): int
  {
    to - from
  }

  /** A stored once-a-day marker asks for the day's work: either nothing was
      stored yet or what was stored is not today. */
  predicate MarkerDue(marker: Option<int>, today: int)
  {
    marker.None? || !IsDateInToday(marker.value, today)
  }
}
