/** Calendar dates as the application uses them: the expense date, the budget month and
    "now" are compared only by year, month and day, and budgets and charts compare by
    (month, year) alone. JavaScript's `getMonth()` is 0-based; here months are 1..12. */
module Calendar {

  datatype Date = Date(year: int, month: int, day: int)

  /** A calendar month, the key of the monthly trends grouping and of the budget match. */
  datatype YearMonth = YearMonth(year: int, month: int)

  function MonthOf(d: Date): YearMonth
  {
    YearMonth(d.year, d.month)
  }

  /** Gregorian leap year (JavaScript dates use the proleptic Gregorian calendar). */
  predicate IsLeapYear(y: int)
  {
    y % 4 == 0 && (y % 100 != 0 || y % 400 == 0)
  }

  /** Number of days in a month: the day-of-month of `new Date(year, month, 0)`, the day
      before the first day of the following month. */
  function DaysInMonth(year: int, month: int): (n: int)
    requires 1 <= month <= 12
    ensures 28 <= n <= 31
  {
    if month == 2 then (if IsLeapYear(year) then 29 else 28)
    else if month == 4 || month == 6 || month == 9 || month == 11 then 30
    else 31
  }

  predicate ValidDate(d: Date)
  {
    1 <= d.month <= 12 && 1 <= d.day <= DaysInMonth(d.year, d.month)
  }

  /** Days of the year that precede the first day of `month`, from the cumulative table
      of the Gregorian calendar (month 13 stands for the first day of the next year). */
  function DaysBeforeMonth(year: int, month: int): int
    requires 1 <= month <= 13
  {
    var common := [0, 31, 59, 90, 120, 151, 181, 212, 243, 273, 304, 334, 365][month - 1];
    if month > 2 && IsLeapYear(year) then common + 1 else common
  }

  /** `DaysInMonth` is the distance from the first day of the month to the first day of the
      next one, which is what "day 0 of the next month" computes. */
  lemma DaysInMonthIsGapToNextMonth(year: int, month: int)
    requires 1 <= month <= 12
    ensures DaysInMonth(year, month) == DaysBeforeMonth(year, month + 1) - DaysBeforeMonth(year, month)
  {
  }

  /** The twelve months add up to the length of the year. */
  lemma MonthsFillTheYear(year: int)
    ensures DaysBeforeMonth(year, 13) == (if IsLeapYear(year) then 366 else 365)
    ensures DaysInMonth(year, 1) + DaysInMonth(year, 2) + DaysInMonth(year, 3) + DaysInMonth(year, 4)
          + DaysInMonth(year, 5) + DaysInMonth(year, 6) + DaysInMonth(year, 7) + DaysInMonth(year, 8)
          + DaysInMonth(year, 9) + DaysInMonth(year, 10) + DaysInMonth(year, 11) + DaysInMonth(year, 12)
          == DaysBeforeMonth(year, 13)
  {
  }

  /** Months counted from year 0, so that later months have larger indexes. */
  function MonthIndex(ym: YearMonth): int
  {
    ym.year * 12 + (ym.month - 1)
  }

  /** A number that orders dates as their timestamps do (`getTime()`), at day granularity. */
  function DateOrdinal(d: Date): int
  {
    d.year * 372 + (d.month - 1) * 31 + (d.day - 1)
  }

  /** Chronological (lexicographic) order on dates. */
  predicate Before(a: Date, b: Date)
  {
    a.year < b.year
    || (a.year == b.year && a.month < b.month)
    || (a.year == b.year && a.month == b.month && a.day < b.day)
  }

  /** For calendar dates, comparing ordinals is comparing dates. */
  lemma DateOrdinalOrdersDates(a: Date, b: Date)
    requires ValidDate(a) && ValidDate(b)
    ensures DateOrdinal(a) < DateOrdinal(b) <==> Before(a, b)
    ensures DateOrdinal(a) == DateOrdinal(b) <==> a == b
  {
  }

  /** Month indexes identify months, and order them chronologically. */
  lemma MonthIndexOrdersMonths(a: YearMonth, b: YearMonth)
    requires 1 <= a.month <= 12 && 1 <= b.month <= 12
    ensures MonthIndex(a) == MonthIndex(b) <==> a == b
    ensures MonthIndex(a) < MonthIndex(b) <==> a.year < b.year || (a.year == b.year && a.month < b.month)
  {
  }
}
