/**
 * Month navigation. The scheduler's previous/next buttons run
 * `currentDate.setMonth(currentDate.getMonth() ∓ 1)` on a full date, and
 * Date.prototype.setMonth keeps the day of the month (ECMA-262 MakeDay), so a
 * day that the target month lacks rolls over into the month after it.
 * SetMonth models that as written; ShiftCursor is the (year, month) cursor the
 * buttons evidently mean to move, and the one the scheduler model uses.
 */
module Navigation {
  import opened Gregorian

  /** The month on display. */
  datatype Cursor = Cursor(year: int, month: int)

  predicate ValidCursor(c: Cursor) {
    0 <= c.month < 12
  }

  /** Moves the displayed month by `delta` months, crossing year boundaries as needed. */
  function ShiftCursor(c: Cursor, delta: int): (r: Cursor)
    requires ValidCursor(c)
    ensures ValidCursor(r)
    ensures 12 * r.year + r.month == 12 * c.year + c.month + delta
  {
    var index := 12 * c.year + c.month + delta;
    Cursor(index / 12, index % 12)
  }

  /** A valid cursor is determined by its month index 12 * year + month. */
  lemma CursorIndexDetermines(a: Cursor, b: Cursor)
    requires ValidCursor(a) && ValidCursor(b)
    requires 12 * a.year + a.month == 12 * b.year + b.month
    ensures a == b
  {
  }

  /** Moving by a and then by b is moving by a + b; in particular next then previous returns to the start. */
  lemma ShiftCompose(c: Cursor, a: int, b: int)
    requires ValidCursor(c)
    ensures ShiftCursor(ShiftCursor(c, a), b) == ShiftCursor(c, a + b)
    ensures ShiftCursor(ShiftCursor(c, 1), -1) == c
  {
    CursorIndexDetermines(ShiftCursor(ShiftCursor(c, a), b), ShiftCursor(c, a + b));
    CursorIndexDetermines(ShiftCursor(ShiftCursor(c, 1), -1), c);
  }

  /** The next button from December moves to January of the following year. */
  lemma NextFromDecember(y: int)
    ensures ShiftCursor(Cursor(y, 11), 1) == Cursor(y + 1, 0)
  {
    CursorIndexDetermines(ShiftCursor(Cursor(y, 11), 1), Cursor(y + 1, 0));
  }

  /**
   * Date.prototype.setMonth(m) on the local date `date`, as written: the year
   * and month are normalised from m (ECMA-262 MakeDay), and the day of the
   * month is kept even when the target month is shorter.
   */
  function SetMonth(date: Date, m: int): (r: Date)
    requires ValidDate(date)
    ensures ValidDate(r)
  {
    RollDay(date.year + m / 12, m % 12, date.day)
  }

  /** Day d of month m of year y, carried into the next month when month m has fewer than d days. */
  function RollDay(y: int, m: int, d: int): (r: Date)
    requires 0 <= m < 12 && 1 <= d <= 31
    ensures ValidDate(r)
  {
    var length := DaysInMonth(y, m);
    if d <= length then Date(y, m, d)
    else
      var next := NextMonth(y, m);
      Date(next.0, next.1, d - length)
  }

  /** `setMonth` keeps the day of the month: the result lies date.day - 1 days after the 1st of the target month. */
  lemma SetMonthKeepsDay(date: Date, m: int)
    requires ValidDate(date)
    ensures var r := SetMonth(date, m);
      DayNumber(r.year, r.month, r.day) == DayNumber(date.year + m / 12, m % 12, 1) + date.day - 1
  {
    var r := SetMonth(date, m);
    assert r == RollDay(date.year + m / 12, m % 12, date.day);
    RollDayKeepsDay(date.year + m / 12, m % 12, date.day);
  }

  /** The rolled date lies d - 1 days after the 1st of month m. */
  lemma RollDayKeepsDay(y: int, m: int, d: int)
    requires 0 <= m < 12 && 1 <= d <= 31
    ensures var r := RollDay(y, m, d);
      DayNumber(r.year, r.month, r.day) == DayNumber(y, m, 1) + d - 1
  {
    if d > DaysInMonth(y, m) {
      RollOver(y, m, d);
    }
  }

  /** The navigation handlers as written: setMonth(getMonth() + delta) on the current date. */
  function NavigateAsWritten(date: Date, delta: int): (r: Date)
    requires ValidDate(date)
    ensures ValidDate(r)
  {
    SetMonth(date, date.month + delta)
  }

  function CursorOf(date: Date): Cursor {
    Cursor(date.year, date.month)
  }

  /**
   * The written navigation lands on the intended month exactly when the
   * current day of the month exists in that month; in particular always from days 1 to 28.
   */
  lemma AsWrittenLandsOnTarget(date: Date, delta: int)
    requires ValidDate(date)
    ensures var target := ShiftCursor(CursorOf(date), delta);
      (CursorOf(NavigateAsWritten(date, delta)) == target
       <==> date.day <= DaysInMonth(target.year, target.month))
  {
    var m := date.month + delta;
    var target := ShiftCursor(CursorOf(date), delta);
    var landed := CursorOf(NavigateAsWritten(date, delta));
    CursorIndexDetermines(target, Cursor(date.year + m / 12, m % 12));
    if date.day > DaysInMonth(target.year, target.month) {
      assert 12 * landed.year + landed.month == 12 * target.year + target.month + 1;
    }
  }

  /** From 31 March 2025 the previous button shows March again (setMonth(1) yields 3 March). */
  lemma PreviousFromMarch31StaysInMarch()
    ensures NavigateAsWritten(Date(2025, 2, 31), -1) == Date(2025, 2, 3)
    ensures ShiftCursor(Cursor(2025, 2), -1) == Cursor(2025, 1)
  {
  }

  /** From 31 January 2025 the next button skips February and shows March. */
  lemma NextFromJanuary31SkipsFebruary()
    ensures NavigateAsWritten(Date(2025, 0, 31), 1) == Date(2025, 2, 3)
    ensures ShiftCursor(Cursor(2025, 0), 1) == Cursor(2025, 1)
  {
  }
}
