/** Calendar dates, abstracted from JavaScript `Date` values: a year, a
    month 1..12, a day of that month and the milliseconds since midnight,
    ordered as the instants they stand for. */
module Calendar {

  datatype Instant = Instant(year: int, month: int, day: int, millis: int)

  /** Proleptic Gregorian leap years, as `Date` computes them. */
  predicate IsLeapYear(y: int) {
    (y % 4 == 0 && y % 100 != 0) || y % 400 == 0
  }

  function DaysInMonth(y: int, m: int): (d: int)
    requires 1 <= m <= 12
    ensures 28 <= d <= 31
  {
    if m == 2 then (if IsLeapYear(y) then 29 else 28)
    else if m == 4 || m == 6 || m == 9 || m == 11 then 30
    else 31
  }

  const MillisPerDay: int := 86_400_000

  predicate IsCalendarInstant(d: Instant) {
    && 1 <= d.month <= 12
    && 1 <= d.day <= DaysInMonth(d.year, d.month)
    && 0 <= d.millis < MillisPerDay
  }

  type Date = d: Instant | IsCalendarInstant(d) witness Instant(1970, 1, 1, 0)

  /** `a <= b` on the instants, i.e. on their (year, month, day, millis). */
  predicate AtOrBefore(a: Instant, b: Instant) {
    || a.year < b.year
    || (a.year == b.year && a.month < b.month)
    || (a.year == b.year && a.month == b.month && a.day < b.day)
    || (a.year == b.year && a.month == b.month && a.day == b.day && a.millis <= b.millis)
  }

  lemma AtOrBeforeTotalOrder(a: Instant, b: Instant, c: Instant)
    ensures AtOrBefore(a, b) || AtOrBefore(b, a)
    ensures AtOrBefore(a, b) && AtOrBefore(b, c) ==> AtOrBefore(a, c)
    ensures AtOrBefore(a, b) && AtOrBefore(b, a) ==> a == b
  {
  }

  /** The first and last millisecond of a calendar month:
      `new Date(y, m - 1, 1)` and `new Date(y, m, 0, 23, 59, 59, 999)`. */
  function StartOfMonth(y: int, m: int): (d: Date)
    requires 1 <= m <= 12
  {
    Instant(y, m, 1, 0)
  }

  function EndOfMonth(y: int, m: int): (d: Date)
    requires 1 <= m <= 12
  {
    Instant(y, m, DaysInMonth(y, m), MillisPerDay - 1)
  }

  /** The range `[StartOfMonth, EndOfMonth]` holds exactly the dates of that
      calendar month. */
  lemma MonthRange(d: Date, y: int, m: int)
    requires 1 <= m <= 12
    ensures AtOrBefore(StartOfMonth(y, m), d) && AtOrBefore(d, EndOfMonth(y, m))
            <==> d.year == y && d.month == m
  {
  }

  /** The calendar month `new Date(year, monthNum - 1, 1)` falls in: a year
      0..99 means 1900..1999, and a month number outside 1..12 carries into
      the neighbouring years (month 0 is December of the year before,
      month 13 January of the year after). `new Date(year, monthNum, 0)`
      is the last day of that same month. */
  function DateMonth(year: int, monthNum: int): (ym: (int, int))
    ensures 1 <= ym.1 <= 12
    ensures 100 <= year && 1 <= monthNum <= 12 ==> ym == (year, monthNum)
  {
    var y := if 0 <= year <= 99 then 1900 + year else year;
    (y + (monthNum - 1) / 12, (monthNum - 1) % 12 + 1)
  }

  /** Month 13 and month 0 roll over; two-digit years are read as 19xx. */
  lemma DateMonthRollsOver()
    ensures DateMonth(2025, 13) == (2026, 1)
    ensures DateMonth(2025, 0) == (2024, 12)
    ensures DateMonth(25, 3) == (1925, 3)
  {
  }
}
