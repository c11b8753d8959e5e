/** The wall clock, passed in as a value instead of read with `new Date()`. */
module Clock {
  import Text

  /** `getMonth()`: 0 for January up to 11 for December. */
  type MonthIndex = m: int | 0 <= m < 12

  /** `getDate()`: the day of the month. */
  type DayOfMonth = d: int | 1 <= d <= 31 witness 1

  datatype Clock = Clock(year: nat, monthIndex: MonthIndex, day: DayOfMonth)

  /** `getMonth() + 1`: the calendar month number. */
  function MonthNumber(now: Clock): (m: int)
    ensures 1 <= m <= 12
  {
    now.monthIndex + 1
  }

  /** The `"YYYY-MM"` tag of the clock's month, as the store and the
      expenses page build it. */
  function CurrentMonthTag(now: Clock): string
  {
    Text.MonthTag(now.year, MonthNumber(now))
  }

  predicate IsLeapYear(y: int)
  {
    (y % 4 == 0 && y % 100 != 0) || y % 400 == 0
  }

  /** `new Date(year, monthIndex + 1, 0).getDate()`: the last day of the
      clock's month in the Gregorian calendar. */
  function DaysInMonth(year: int, monthIndex: MonthIndex): (r: int)
    ensures 28 <= r <= 31
    ensures monthIndex == 1 ==> (r == 29 <==> IsLeapYear(year))
  {
    if monthIndex == 1 then (if IsLeapYear(year) then 29 else 28)
    else if monthIndex in {3, 5, 8, 10} then 30
    else 31
  }
}
