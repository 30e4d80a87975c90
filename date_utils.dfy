/** Week-of-month bucketing. The week number of a date is date-fns'
    `getWeek(date, { weekStartsOn: 1 })` (locale week numbering with Monday
    as first day, not the ISO 8601 week); it and `startOfMonth` are outside
    the model and enter it as the two functions of a `Calendar`. Dates are
    their `YYYY-MM-DD` strings. */
module DateUtils {

  datatype Calendar = Calendar(getWeek: string -> int, startOfMonth: string -> string)

  /** The raw difference of week numbers plus one, clamped into 1..4. */
  function WeekOfMonth(weekOfYear: int, weekOfMonthStart: int): (w: int)
    ensures 1 <= w <= 4
    ensures var raw := weekOfYear - weekOfMonthStart + 1;
      && (1 <= raw <= 4 ==> w == raw)
      && (raw <= 0 ==> w == 1)
      && (raw > 4 ==> w == 4)
  {
    var weekOfMonth := weekOfYear - weekOfMonthStart + 1;
    if weekOfMonth <= 0 then 1
    else if weekOfMonth > 4 then 4
    else weekOfMonth
  }

  /** `getCurrentWeekOfMonth(date)`: total, and always one of the four
      weekly buckets. */
  function GetCurrentWeekOfMonth(cal: Calendar, date: string): (w: int)
    ensures 1 <= w <= 4
  {
    WeekOfMonth(cal.getWeek(date), cal.getWeek(cal.startOfMonth(date)))
  }

  /** The bucket is the one of 1..4 nearest to the raw difference. */
  lemma WeekOfMonthIsNearestBucket(weekOfYear: int, weekOfMonthStart: int, k: int)
    requires 1 <= k <= 4
    ensures var raw := weekOfYear - weekOfMonthStart + 1;
      var w := WeekOfMonth(weekOfYear, weekOfMonthStart);
      (if w >= raw then w - raw else raw - w) <= (if k >= raw then k - raw else raw - k)
  {
  }

  /** A later week number never gives an earlier bucket. */
  lemma WeekOfMonthMonotone(a: int, b: int, start: int)
    requires a <= b
    ensures WeekOfMonth(a, start) <= WeekOfMonth(b, start)
  {
  }

  /** In late December the date's week number can wrap to 1 while the
      month start's stays high; such a date falls into week 1, although it
      belongs to the last week of the month. */
  lemma WrappedWeekNumberIsWeekOne(cal: Calendar, date: string)
    requires cal.getWeek(date) < cal.getWeek(cal.startOfMonth(date))
    ensures GetCurrentWeekOfMonth(cal, date) == 1
  {
  }

  /** A date in the same week as its month's first day is in week 1; in
      particular the first day itself, whose `startOfMonth` is that day. */
  lemma MonthStartWeekIsWeekOne(cal: Calendar, date: string)
    requires cal.getWeek(date) == cal.getWeek(cal.startOfMonth(date)) || cal.startOfMonth(date) == date
    ensures GetCurrentWeekOfMonth(cal, date) == 1
  {
  }

  /** The fifth and sixth calendar weeks of a month are folded into week 4. */
  lemma LateWeeksFoldIntoWeekFour(cal: Calendar, date: string)
    requires cal.getWeek(date) - cal.getWeek(cal.startOfMonth(date)) >= 4
    ensures GetCurrentWeekOfMonth(cal, date) == 4
  {
  }
}
