/**
 * The scheduler's availability table: a fixed, ordered list of records
 * {date: "YYYY-MM-DD", availableTimes: [...]}, in which the time label
 * DIA_FREELANCER stands for the whole day booked as one unit. It answers
 * whether a date is listed (Array.prototype.some) and which times a date has
 * (Array.prototype.find, falling back to the empty list).
 */
module Availability {
  import opened Wrappers

  /** The whole-day sentinel among the time labels. */
  const FreelancerDay: string := "DIA_FREELANCER"

  datatype Record = Record(date: string, availableTimes: seq<string>)

  /** The table the scheduler's constructor installs; it is never changed afterwards. */
  const Table: seq<Record> := [
    Record("2025-07-08", ["09:00", "10:00", "11:00", "14:00", "15:00", "16:00"]),
    Record("2025-07-09", ["09:00", "10:00", "11:00", "13:00", "14:00", "15:00"]),
    Record("2025-07-10", [FreelancerDay]),
    Record("2025-07-11", ["09:00", "10:00", "11:00", "14:00", "15:00", "16:00"]),
    Record("2025-07-12", ["09:00", "10:00", "11:00", "14:00", "15:00", "16:00"]),
    Record("2025-07-15", [FreelancerDay]),
    Record("2025-07-16", ["08:00", "09:00", "10:00", "11:00", "12:00", "13:00", "14:00", "15:00", "16:00", "17:00"])
  ]

  /** isDateAvailable: some record carries this date. */
  function IsDateAvailable(table: seq<Record>, date: string): (r: bool)
    ensures r <==> exists i :: 0 <= i < |table| && table[i].date == date
  {
    if |table| == 0 then false
    else if table[0].date == date then true
    else
      var rest := IsDateAvailable(table[1..], date);
      assert rest ==> exists i :: 0 <= i < |table| - 1 && table[1..][i].date == date;
      rest
  }

  /** Array.prototype.find on the date: the index of the first record with this date. */
  function FindRecord(table: seq<Record>, date: string): (r: Option<nat>)
    ensures r.Some? ==> r.value < |table| && table[r.value].date == date
    ensures r.Some? ==> forall j :: 0 <= j < r.value ==> table[j].date != date
    ensures r.None? ==> forall j :: 0 <= j < |table| ==> table[j].date != date
  {
    if |table| == 0 then None
    else if table[0].date == date then Some(0)
    else match FindRecord(table[1..], date)
      case Some(i) => Some(i + 1)
      case None => None
  }

  /** getAvailableTimesForDate: the times of the first record with this date, or [] when none has it. */
  function GetAvailableTimesForDate(table: seq<Record>, date: string): (r: seq<string>)
  {
    match FindRecord(table, date)
    case Some(i) => table[i].availableTimes
    case None => []
  }

  /**
   * The times returned are those of the first record with the date, and the
   * empty list when no record has it.
   */
  lemma FirstRecordTimes(table: seq<Record>, date: string)
    ensures var r := GetAvailableTimesForDate(table, date);
      && ((exists i :: 0 <= i < |table| && table[i].date == date) ==>
            exists i :: 0 <= i < |table| && table[i].date == date && r == table[i].availableTimes
                        && forall j :: 0 <= j < i ==> table[j].date != date)
      && ((forall i :: 0 <= i < |table| ==> table[i].date != date) ==> r == [])
  {
    match FindRecord(table, date)
    case Some(i) =>
      assert table[i].date == date;
    case None =>
  }

  /** A date without a record has no times: "not available" implies "empty slot list". */
  lemma UnavailableHasNoTimes(table: seq<Record>, date: string)
    requires !IsDateAvailable(table, date)
    ensures GetAvailableTimesForDate(table, date) == []
  {
    FirstRecordTimes(table, date);
  }

  /** The two lookups agree: a date is available exactly when find locates a record for it. */
  lemma AvailableIffFound(table: seq<Record>, date: string)
    ensures IsDateAvailable(table, date) <==> FindRecord(table, date).Some?
  {
  }

  /** When dates are unique, the times returned are those of the one record with that date. */
  lemma UniqueDateTimes(table: seq<Record>, i: int)
    requires 0 <= i < |table|
    requires forall j, k :: 0 <= j < k < |table| ==> table[j].date != table[k].date
    ensures GetAvailableTimesForDate(table, table[i].date) == table[i].availableTimes
  {
    FirstRecordTimes(table, table[i].date);
  }

  /** The installed table lists each date once. */
  lemma TableDatesDistinct()
    ensures forall j, k :: 0 <= j < k < |Table| ==> Table[j].date != Table[k].date
  {
  }

  /** 2025-07-10 and 2025-07-15 are whole-day (freelancer) bookings in the installed table. */
  lemma WholeDayDates()
    ensures GetAvailableTimesForDate(Table, "2025-07-10") == [FreelancerDay]
    ensures GetAvailableTimesForDate(Table, "2025-07-15") == [FreelancerDay]
  {
    TableDatesDistinct();
    UniqueDateTimes(Table, 2);
    UniqueDateTimes(Table, 5);
  }

  /** 2025-07-16 offers ten hourly times. */
  lemma SixteenthHasTenTimes()
    ensures |GetAvailableTimesForDate(Table, "2025-07-16")| == 10
  {
    TableDatesDistinct();
    UniqueDateTimes(Table, 6);
  }

  /** 2025-07-13, a Sunday between listed days, is not available. */
  lemma ThirteenthNotListed()
    ensures !IsDateAvailable(Table, "2025-07-13")
    ensures GetAvailableTimesForDate(Table, "2025-07-13") == []
  {
    UnavailableHasNoTimes(Table, "2025-07-13");
  }
}
