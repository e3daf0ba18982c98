/**
 * The month grid the scheduler draws for a (year, month) cursor: one empty
 * cell per weekday before the 1st, then one cell per day, each with its date
 * key and its class. A day is `past` when it falls strictly before today's
 * midnight, otherwise `unavailable` when it is a Sunday, otherwise clickable;
 * the availability table is not consulted (it is checked only once the day is clicked).
 */
module CalendarGrid {
  import opened Gregorian
  import opened DateKeys
  import opened Sequences

  datatype DayStatus = Past | Unavailable | Clickable

  datatype Cell = Empty | Day(day: int, key: string, status: DayStatus)

  /** How many empty cells lead the grid: getDay() of `new Date(year, month, 1)`. */
  function LeadingBlanks(year: int, month: int): (n: int)
    requires 0 <= month < 12
    ensures 0 <= n < 7
  {
    WeekDay(ConstructorYear(year), month, 1)
  }

  /** How many day cells follow: getDate() of `new Date(year, month + 1, 0)`. */
  function MonthLength(year: int, month: int): (n: int)
    requires 0 <= month < 12
    ensures 28 <= n <= 31
  {
    DaysInMonth(ConstructorYear(year), month)
  }

  /** `new Date(year, month, day) < today.setHours(0, 0, 0, 0)`: the day ends before today begins. */
  predicate IsBeforeToday(year: int, month: int, day: int, today: Date)
    requires 0 <= month < 12 && ValidDate(today)
  {
    DayNumber(ConstructorYear(year), month, day) < DayNumber(today.year, today.month, today.day)
  }

  /** The class of one day, in the grid's priority order. */
  function Classify(year: int, month: int, day: int, today: Date): DayStatus
    requires 0 <= month < 12 && ValidDate(today)
  {
    if IsBeforeToday(year, month, day, today) then Past
    else if WeekDay(ConstructorYear(year), month, day) == 0 then Unavailable
    else Clickable
  }

  function DayCell(year: int, month: int, day: nat, today: Date): Cell
    requires 0 <= month < 12 && ValidDate(today)
  {
    Day(day, DateKey(year, month, day), Classify(year, month, day, today))
  }

  /** The cell at offset i of the days: the cell of day i + 1. */
  function DayAtOffset(year: int, month: int, today: Date): int --> Cell
    requires 0 <= month < 12 && ValidDate(today)
  {
    i requires 0 <= i => DayCell(year, month, i + 1, today)
  }

  /**
   * `new Date(y, m, d)` reads a year 0 .. 99 as 1900 + y, so such a year is
   * drawn with the layout of year 1900 + y.
   */
  lemma TwoDigitYearLayout(year: int, month: int)
    requires 0 <= year <= 99 && 0 <= month < 12
    ensures LeadingBlanks(year, month) == LeadingBlanks(1900 + year, month)
    ensures MonthLength(year, month) == MonthLength(1900 + year, month)
  {
  }

  /** The cells of days 1 .. n, in order. */
  function DaysUpTo(year: int, month: int, today: Date, n: nat): seq<Cell>
    requires 0 <= month < 12 && ValidDate(today)
  {
    seq(n, DayAtOffset(year, month, today))
  }

  /** The grid as a whole: the leading blanks, then days 1 .. MonthLength in order. */
  function MonthGrid(year: int, month: int, today: Date): seq<Cell>
    requires 0 <= month < 12 && ValidDate(today)
  {
    seq(LeadingBlanks(year, month), _ => Empty) + DaysUpTo(year, month, today, MonthLength(year, month))
  }

  /** renderCalendar's two counting loops, appending one cell at a time. */
  method BuildMonthGrid(year: int, month: int, today: Date) returns (cells: seq<Cell>)
    requires 0 <= month < 12 && ValidDate(today)
    ensures cells == MonthGrid(year, month, today)
  {
    var fullYear := ConstructorYear(year);
    var daysInMonth := DaysInMonth(fullYear, month);
    var startingDayOfWeek := WeekDay(fullYear, month, 1);
    var todayNumber := DayNumber(today.year, today.month, today.day);
    cells := [];
    var i := 0;
    while i < startingDayOfWeek
      invariant 0 <= i <= startingDayOfWeek
      invariant cells == seq(i, _ => Empty)
    {
      cells := cells + [Empty];
      i := i + 1;
    }
    var day := 1;
    while day <= daysInMonth
      invariant 1 <= day <= daysInMonth + 1
      invariant cells == seq(startingDayOfWeek, _ => Empty) + DaysUpTo(year, month, today, day - 1)
    {
      var key := DateKey(year, month, day);
      var status;
      if DayNumber(fullYear, month, day) < todayNumber {
        status := Past;
      } else if WeekDay(fullYear, month, day) == 0 {
        status := Unavailable;
      } else {
        status := Clickable;
      }
      assert status == Classify(year, month, day, today);
      GridGrows(year, month, today, startingDayOfWeek, day, Day(day, key, status));
      cells := cells + [Day(day, key, status)];
      day := day + 1;
    }
  }

  /** Appending the cell of day `day` to the blanks and the days before it. */
  lemma GridGrows(year: int, month: int, today: Date, blanks: nat, day: nat, c: Cell)
    requires 0 <= month < 12 && ValidDate(today) && 1 <= day
    requires c == DayCell(year, month, day, today)
    ensures seq(blanks, _ => Empty) + DaysUpTo(year, month, today, day - 1) + [c]
      == seq(blanks, _ => Empty) + DaysUpTo(year, month, today, day)
  {
    CreateSnoc(day - 1, DayAtOffset(year, month, today));
    AppendSnoc(seq(blanks, _ => Empty), DaysUpTo(year, month, today, day - 1), c);
  }

  /**
   * The grid holds exactly LeadingBlanks empty cells, then one cell per day of
   * the month numbered 1, 2, ... in order; at most six rows of seven.
   */
  lemma GridShape(year: int, month: int, today: Date)
    requires 0 <= month < 12 && ValidDate(today)
    ensures var g := MonthGrid(year, month, today);
      && |g| == LeadingBlanks(year, month) + MonthLength(year, month)
      && |g| <= 42
      && (forall i :: 0 <= i < LeadingBlanks(year, month) ==> g[i] == Empty)
      && (forall i :: LeadingBlanks(year, month) <= i < |g| ==>
            g[i].Day? && g[i].day == i - LeadingBlanks(year, month) + 1
            && g[i].key == DateKey(year, month, g[i].day))
  {
    var g := MonthGrid(year, month, today);
    forall i | LeadingBlanks(year, month) <= i < |g|
      ensures g[i].Day? && g[i].day == i - LeadingBlanks(year, month) + 1
        && g[i].key == DateKey(year, month, g[i].day)
    {
      GridDayAt(year, month, today, i);
    }
  }

  /** The cell at index i after the blanks is day i - LeadingBlanks + 1 with that day's key. */
  lemma GridDayAt(year: int, month: int, today: Date, i: int)
    requires 0 <= month < 12 && ValidDate(today)
    requires LeadingBlanks(year, month) <= i < |MonthGrid(year, month, today)|
    ensures var g := MonthGrid(year, month, today);
      g[i].Day? && g[i].day == i - LeadingBlanks(year, month) + 1
      && g[i].key == DateKey(year, month, g[i].day)
  {
    GridCellAt(year, month, today, i);
  }

  /** Column alignment: the cell at index i falls on weekday i mod 7 (column 0 is Sunday). */
  lemma GridColumnIsWeekDay(year: int, month: int, today: Date, i: int)
    requires 0 <= month < 12 && ValidDate(today)
    requires LeadingBlanks(year, month) <= i < |MonthGrid(year, month, today)|
    ensures var g := MonthGrid(year, month, today);
      g[i].Day? && WeekDay(ConstructorYear(year), month, g[i].day) == i % 7
  {
    GridDayAt(year, month, today, i);
    DayColumn(year, month, i - LeadingBlanks(year, month) + 1);
  }

  /** Day d of the month sits in column (LeadingBlanks + d - 1) mod 7 of its week. */
  lemma DayColumn(year: int, month: int, d: int)
    requires 0 <= month < 12
    ensures WeekDay(ConstructorYear(year), month, d) == (LeadingBlanks(year, month) + d - 1) % 7
  {
    WeekDayAdvance(ConstructorYear(year), month, 1, d - 1);
    assert 1 + (d - 1) == d;
  }

  /**
   * Classification of a day cell in terms of its place: past days are those
   * before today; of the others, exactly the Sunday column is unavailable and
   * every other column is clickable, whatever the availability table says.
   */
  lemma ClassificationByColumn(year: int, month: int, today: Date, i: int)
    requires 0 <= month < 12 && ValidDate(today)
    requires LeadingBlanks(year, month) <= i < |MonthGrid(year, month, today)|
    ensures var g := MonthGrid(year, month, today);
      && g[i].Day?
      && (g[i].status == Past <==> IsBeforeToday(year, month, g[i].day, today))
      && (g[i].status == Unavailable <==> !IsBeforeToday(year, month, g[i].day, today) && i % 7 == 0)
      && (g[i].status == Clickable <==> !IsBeforeToday(year, month, g[i].day, today) && i % 7 != 0)
  {
    var c := MonthGrid(year, month, today)[i];
    var d := i - LeadingBlanks(year, month) + 1;
    GridCellAt(year, month, today, i);
    GridColumnIsWeekDay(year, month, today, i);
    assert c.day == d && c.status == Classify(year, month, d, today);
    assert WeekDay(ConstructorYear(year), month, d) == i % 7;
  }

  /** Past days form a prefix of the month's days. */
  lemma PastDaysArePrefix(year: int, month: int, today: Date, i: int, j: int)
    requires 0 <= month < 12 && ValidDate(today)
    requires LeadingBlanks(year, month) <= i < j < |MonthGrid(year, month, today)|
    requires MonthGrid(year, month, today)[j].Day? && MonthGrid(year, month, today)[j].status == Past
    ensures MonthGrid(year, month, today)[i].Day? && MonthGrid(year, month, today)[i].status == Past
  {
    var lead := LeadingBlanks(year, month);
    GridStatusAt(year, month, today, i);
    GridStatusAt(year, month, today, j);
    EarlierDayIsPast(year, month, today, i - lead + 1, j - lead + 1);
  }

  /** A day before a past day of the same month is past too. */
  lemma EarlierDayIsPast(year: int, month: int, today: Date, di: int, dj: int)
    requires 0 <= month < 12 && ValidDate(today)
    requires di < dj && IsBeforeToday(year, month, dj, today)
    ensures IsBeforeToday(year, month, di, today)
  {
  }

  /** In the month that contains today, a day is past exactly when it comes before today's day. */
  lemma CurrentMonthPastDays(today: Date, i: int)
    requires ValidDate(today) && 100 <= today.year
    requires LeadingBlanks(today.year, today.month) <= i < |MonthGrid(today.year, today.month, today)|
    ensures var g := MonthGrid(today.year, today.month, today);
      g[i].Day? && (g[i].status == Past <==> g[i].day < today.day)
  {
    var d := i - LeadingBlanks(today.year, today.month) + 1;
    GridCellAt(today.year, today.month, today, i);
    assert IsBeforeToday(today.year, today.month, d, today) <==> d < today.day;
  }

  /** Different day cells of a month of a four-digit year carry different keys. */
  lemma GridKeysDistinct(year: int, month: int, today: Date, i: int, j: int)
    requires 0 <= month < 12 && ValidDate(today) && 1000 <= year <= 9999
    requires LeadingBlanks(year, month) <= i < j < |MonthGrid(year, month, today)|
    ensures MonthGrid(year, month, today)[i].Day? && MonthGrid(year, month, today)[j].Day?
    ensures MonthGrid(year, month, today)[i].key != MonthGrid(year, month, today)[j].key
  {
    var lead := LeadingBlanks(year, month);
    var di, dj := i - lead + 1, j - lead + 1;
    GridCellAt(year, month, today, i);
    GridCellAt(year, month, today, j);
    if DateKey(year, month, di) == DateKey(year, month, dj) {
      DateKeyInjective(year, month, di, year, month, dj);
    }
  }

  /** The cell after the blanks at index i is day i - LeadingBlanks + 1, between 1 and 31. */
  lemma GridCellAt(year: int, month: int, today: Date, i: int)
    requires 0 <= month < 12 && ValidDate(today)
    requires LeadingBlanks(year, month) <= i < |MonthGrid(year, month, today)|
    ensures var d := i - LeadingBlanks(year, month) + 1;
      1 <= d <= 31 && MonthGrid(year, month, today)[i] == DayCell(year, month, d, today)
  {
  }

  /** The status of the cell at index i after the blanks is the class of its day. */
  lemma GridStatusAt(year: int, month: int, today: Date, i: int)
    requires 0 <= month < 12 && ValidDate(today)
    requires LeadingBlanks(year, month) <= i < |MonthGrid(year, month, today)|
    ensures var d := i - LeadingBlanks(year, month) + 1; var c := MonthGrid(year, month, today)[i];
      c.Day? && c.status == Classify(year, month, d, today)
  {
    GridCellAt(year, month, today, i);
  }

  /** July 2025 starts on a Tuesday, so its grid opens with two empty cells and has 33 cells. */
  lemma July2025(today: Date)
    requires ValidDate(today)
    ensures LeadingBlanks(2025, 6) == 2 && |MonthGrid(2025, 6, today)| == 33
  {
    assert DayFromYear(2025) == 20089;
  }
}
