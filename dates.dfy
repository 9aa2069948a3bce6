/**
 * The calendar arithmetic the views get from `Date`: month lengths
 * (`new Date(y, m + 1, 0).getDate()`) and month stepping with roll-over
 * (`new Date(y, m + offset, 1)`). Months are 0-based, as in `Date`.
 */
module Dates {

  /** Gregorian leap years. */
  predicate IsLeapYear(y: int) {
    y % 4 == 0 && (y % 100 != 0 || y % 400 == 0)
  }

  /** The number of days in month `m` (0 = January) of year `y`. */
  function DaysInMonth(y: int, m: int): (n: int)
    requires 0 <= m < 12
    ensures 28 <= n <= 31
    ensures n == 31 <==> m in {0, 2, 4, 6, 7, 9, 11}
    ensures n == 29 <==> m == 1 && IsLeapYear(y)
  {
    if m == 1 then (if IsLeapYear(y) then 29 else 28)
    else if m == 3 || m == 5 || m == 8 || m == 10 then 30
    else 31
  }

  /** A day of the month that exists. */
  predicate ValidDay(y: int, m: int, d: int) {
    0 <= m < 12 && 1 <= d <= DaysInMonth(y, m)
  }

  /**
   * The days left until the end of the month: the last day of the month
   * minus today's day of the month. It is never negative, and zero exactly
   * on the last day.
   */
  function DaysLeftInMonth(y: int, m: int, d: int): (left: int)
    requires ValidDay(y, m, d)
    ensures 0 <= left <= 30
    ensures left == 0 <==> d == DaysInMonth(y, m)
  {
    DaysInMonth(y, m) - d
  }

  /** A year and a 0-based month. */
  datatype YearMonth = YearMonth(year: int, month: int)

  predicate ValidMonth(ym: YearMonth) {
    0 <= ym.month < 12
  }

  /** Months counted from January of year 0. */
  function MonthNumber(ym: YearMonth): int {
    ym.year * 12 + ym.month
  }

  /**
   * `new Date(y, m + offset, 1)`: the month `offset` months away, with the
   * month overflowing into the year in either direction.
   */
  function ChangeMonth(ym: YearMonth, offset: int): (r: YearMonth)
    ensures ValidMonth(r)
    ensures MonthNumber(r) == MonthNumber(ym) + offset
  {
    var total := MonthNumber(ym) + offset;
    YearMonth(total / 12, total % 12)
  }

  /** A valid month is determined by its month number. */
  lemma MonthNumberInjective(a: YearMonth, b: YearMonth)
    requires ValidMonth(a) && ValidMonth(b)
    requires MonthNumber(a) == MonthNumber(b)
    ensures a == b
  {
  }

  /** Stepping twice is stepping by the sum, and stepping back undoes a step. */
  lemma ChangeMonthComposes(ym: YearMonth, a: int, b: int)
    requires ValidMonth(ym)
    ensures ChangeMonth(ChangeMonth(ym, a), b) == ChangeMonth(ym, a + b)
    ensures ChangeMonth(ChangeMonth(ym, a), -a) == ym
  {
    MonthNumberInjective(ChangeMonth(ChangeMonth(ym, a), b), ChangeMonth(ym, a + b));
    MonthNumberInjective(ChangeMonth(ChangeMonth(ym, a), -a), ym);
  }

  /** The "next month" button after December goes to January of the next year. */
  lemma DecemberRollsOver(y: int)
    ensures ChangeMonth(YearMonth(y, 11), 1) == YearMonth(y + 1, 0)
    ensures ChangeMonth(YearMonth(y, 0), -1) == YearMonth(y - 1, 11)
  {
    MonthNumberInjective(ChangeMonth(YearMonth(y, 11), 1), YearMonth(y + 1, 0));
    MonthNumberInjective(ChangeMonth(YearMonth(y, 0), -1), YearMonth(y - 1, 11));
  }
}
