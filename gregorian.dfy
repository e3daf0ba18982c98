/**
 * Proleptic Gregorian calendar arithmetic, as the ECMAScript Date object defines it
 * (section 21.4.1 of ECMA-262, "Time Values and Time Range" through "Week Day").
 * Months are numbered 0 (January) to 11 (December), as Date.prototype.getMonth
 * returns them; weekdays 0 (Sunday) to 6 (Saturday), as Date.prototype.getDay does.
 * Day numbers count days from 1970-01-01 (day 0), which was a Thursday.
 */
module Gregorian {

  /** A local calendar date: what getFullYear, getMonth and getDate return. */
  datatype Date = Date(year: int, month: int, day: int)

  predicate IsLeapYear(y: int) {
    y % 4 == 0 && (y % 100 != 0 || y % 400 == 0)
  }

  /** ECMA-262 DaysInYear. */
  function DaysInYear(y: int): (n: int)
    ensures n == 365 || n == 366
    ensures n == 366 <==> IsLeapYear(y)
  {
    if IsLeapYear(y) then 366 else 365
  }

  /** Length of month m (0-based) of year y; what `new Date(y, m + 1, 0).getDate()` returns. */
  function DaysInMonth(y: int, m: int): (n: int)
    requires 0 <= m < 12
    ensures 28 <= n <= 31
    ensures n == 28 <==> m == 1 && !IsLeapYear(y)
    ensures n == 29 <==> m == 1 && IsLeapYear(y)
  {
    if m == 1 then (if IsLeapYear(y) then 29 else 28)
    else if m == 3 || m == 5 || m == 8 || m == 10 then 30
    else 31
  }

  predicate ValidDate(d: Date) {
    0 <= d.month < 12 && 1 <= d.day <= DaysInMonth(d.year, d.month)
  }

  /** Days of year y that come before month m: the lengths of months 0 .. m - 1 added up. */
  function DaysBeforeMonth(y: int, m: int): (n: int)
    requires 0 <= m <= 12
    ensures m == 0 ==> n == 0
    ensures 28 * m <= n <= 31 * m
  {
    if m == 0 then 0 else DaysBeforeMonth(y, m - 1) + DaysInMonth(y, m - 1)
  }

  /**
   * The sums are ECMA-262 MonthFromTime's month boundaries: 31, 59, 90, ...,
   * one day later from March on in a leap year.
   */
  lemma {:induction false} MonthBoundaries(y: int, m: int)
    requires 0 <= m <= 12
    ensures DaysBeforeMonth(y, m) ==
      [0, 31, 59, 90, 120, 151, 181, 212, 243, 273, 304, 334, 365][m] + (if 2 <= m && IsLeapYear(y) then 1 else 0)
  {
    if m > 0 {
      MonthBoundaries(y, m - 1);
    }
  }

  /** ECMA-262 DayFromYear: the day number of January 1st of year y (floor division). */
  function DayFromYear(y: int): int {
    365 * (y - 1970) + (y - 1969) / 4 - (y - 1901) / 100 + (y - 1601) / 400
  }

  /** ECMA-262 MakeDay for an in-range month: the day number of (y, m, d). */
  function DayNumber(y: int, m: int, d: int): int
    requires 0 <= m < 12
  {
    DayFromYear(y) + DaysBeforeMonth(y, m) + d - 1
  }

  /** ECMA-262 WeekDay: (Day(t) + 4) modulo 7, 0 being Sunday. */
  function WeekDay(y: int, m: int, d: int): (w: int)
    requires 0 <= m < 12
    ensures 0 <= w < 7
  {
    (DayNumber(y, m, d) + 4) % 7
  }

  /**
   * The year the Date constructor actually uses for `new Date(y, m, d)`:
   * a year from 0 to 99 is read as 1900 + y (ECMA-262, section 21.4.2.1, MakeFullYear step).
   */
  function ConstructorYear(y: int): (fy: int)
    ensures 0 <= y <= 99 ==> fy == 1900 + y
    ensures (y < 0 || 99 < y) ==> fy == y
  {
    if 0 <= y <= 99 then 1900 + y else y
  }

  /** The month after month m of year y. */
  function NextMonth(y: int, m: int): (r: (int, int))
    requires 0 <= m < 12
    ensures 0 <= r.1 < 12
    ensures 12 * r.0 + r.1 == 12 * y + m + 1
  {
    if m == 11 then (y + 1, 0) else (y, m + 1)
  }

  /** A year's months fill it exactly. */
  lemma MonthsFillYear(y: int)
    ensures DaysBeforeMonth(y, 12) == DaysInYear(y)
  {
    MonthBoundaries(y, 12);
  }

  /** ECMA-262's DayFromYear advances by DaysInYear from one year to the next. */
  lemma YearLength(y: int)
    ensures DayFromYear(y + 1) == DayFromYear(y) + DaysInYear(y)
  {
    QuadrennialStep(y);
    CenturyStep(y);
    QuadricentennialStep(y);
    CenturyIsQuadrennial(y);
    QuadricentennialIsCentury(y);
  }

  /** The floor terms of DayFromYear grow by one exactly when y is a multiple of 4, 100 or 400. */
  lemma QuadrennialStep(y: int)
    ensures (y + 1 - 1969) / 4 == (y - 1969) / 4 + (if y % 4 == 0 then 1 else 0)
  {
  }

  lemma CenturyStep(y: int)
    ensures (y + 1 - 1901) / 100 == (y - 1901) / 100 + (if y % 100 == 0 then 1 else 0)
  {
  }

  lemma QuadricentennialStep(y: int)
    ensures (y + 1 - 1601) / 400 == (y - 1601) / 400 + (if y % 400 == 0 then 1 else 0)
  {
  }

  lemma CenturyIsQuadrennial(y: int)
    ensures y % 100 == 0 ==> y % 4 == 0
  {
  }

  lemma QuadricentennialIsCentury(y: int)
    ensures y % 400 == 0 ==> y % 100 == 0
  {
  }

  /**
   * Consecutive months are contiguous: the day after the last day of (y, m) is
   * the 1st of the next month. This is why `new Date(y, m + 1, 0)` is the last
   * day of month m, and what makes day numbers a bijection onto the calendar.
   */
  lemma {:induction false} MonthsAreContiguous(y: int, m: int)
    requires 0 <= m < 12
    ensures DayNumber(NextMonth(y, m).0, NextMonth(y, m).1, 1) == DayNumber(y, m, DaysInMonth(y, m)) + 1
  {
    if m == 11 {
      MonthsFillYear(y);
      YearLength(y);
    }
  }

  /** A day d past the end of month m is day d - DaysInMonth(y, m) of the next month, d - 1 days after the 1st of m. */
  lemma RollOver(y: int, m: int, d: int)
    requires 0 <= m < 12 && d > DaysInMonth(y, m)
    ensures var next := NextMonth(y, m);
      DayNumber(next.0, next.1, d - DaysInMonth(y, m)) == DayNumber(y, m, 1) + d - 1
  {
    MonthsAreContiguous(y, m);
  }

  /** Days within one month are numbered consecutively, so weekdays advance by one per day. */
  lemma WeekDayAdvance(y: int, m: int, d: int, k: int)
    requires 0 <= m < 12
    ensures WeekDay(y, m, d + k) == (WeekDay(y, m, d) + k) % 7
  {
    var n := DayNumber(y, m, d) + 4;
    assert DayNumber(y, m, d + k) + 4 == n + k;
    ModSevenShift(n, k);
  }

  /** Adding k before or after reducing modulo 7 gives the same remainder. */
  lemma ModSevenShift(n: int, k: int)
    ensures (n + k) % 7 == (n % 7 + k) % 7
  {
    var q := n / 7;
    assert n == 7 * q + n % 7;
    assert n + k == 7 * q + (n % 7 + k);
  }

  /** Anchor: 1970-01-01 is a Thursday, 2025-07-13 a Sunday and 2025-07-16 a Wednesday. */
  lemma KnownWeekDays()
    ensures WeekDay(1970, 0, 1) == 4
    ensures WeekDay(2025, 6, 13) == 0
    ensures WeekDay(2025, 6, 16) == 3
  {
    assert DayFromYear(2025) == 20089;
    assert DaysBeforeMonth(2025, 6) == 181;
    assert DayNumber(2025, 6, 13) == 20282;
  }
}
