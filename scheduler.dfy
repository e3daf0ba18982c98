/**
 * The booking scheduler (class CalendarScheduler): the month on display and
 * its grid, the selected date and time, the time panel, whether the booking
 * form is shown, the form's service select and whether its pet-name field is
 * required. The clock is the `today` parameter of the methods that read it;
 * the locale date formatter and encodeURIComponent are function parameters of
 * SubmitBooking. Month navigation moves a (year, month) cursor (see Navigation
 * for what the written setMonth call does instead).
 */
module Scheduler {
  import opened Wrappers
  import opened Gregorian
  import opened Availability
  import opened CalendarGrid
  import opened Navigation
  import opened TimeSlots
  import opened Messages
  import opened BookingMessages

  /** What the time panel shows for the current selection. */
  function PanelFor(availability: seq<Record>, selectedDate: Option<string>): (v: SlotView)
    ensures selectedDate.None? <==> v == SelectDatePrompt
  {
    if selectedDate.None? then SelectDatePrompt
    else SlotsFor(GetAvailableTimesForDate(availability, selectedDate.value))
  }

  class CalendarScheduler {
    /** The availability table; the code never changes it after construction. */
    const availability: seq<Record>
    /** The month on display (currentDate's year and month). */
    var cursor: Cursor
    /** The cells of #calendarDays, and the day they were classified against. */
    var days: seq<Cell>
    var renderedOn: Date
    var selectedDate: Option<string>
    var selectedTime: Option<string>
    /** The contents of #timeSelection. */
    var slots: SlotView
    /** Whether #bookingForm is displayed. */
    var formShown: bool
    /** The value of the #serviceType select. */
    var service: string
    /** The `required` flag of the #petName field. */
    var petNameRequired: bool
    /** Whether updateFormForServiceType has installed its change listener. */
    var serviceListener: bool

    /** The grid on display is the grid of the displayed month, classified against `renderedOn`. */
    ghost predicate GridDrawn()
      reads this`cursor, this`days, this`renderedOn
    {
      && ValidCursor(cursor)
      && ValidDate(renderedOn)
      && days == MonthGrid(cursor.year, cursor.month, renderedOn)
    }

    /** The time panel shows the times of the selected date. */
    ghost predicate PanelShown()
      reads this`slots, this`selectedDate
    {
      slots == PanelFor(availability, selectedDate)
    }

    /** A time is only ever selected on a selected date, and the form is shown exactly while one is. */
    ghost predicate SelectionConsistent()
      reads this`selectedDate, this`selectedTime, this`formShown
    {
      && (selectedTime.Some? ==> selectedDate.Some?)
      && (formShown <==> selectedTime.Some?)
    }

    ghost predicate Valid()
      reads this
    {
      GridDrawn() && PanelShown() && SelectionConsistent()
    }

    /** `new CalendarScheduler()` followed by init(): the current month is drawn, nothing is selected. */
    constructor(today: Date)
      requires ValidDate(today)
      ensures Valid()
      ensures availability == Table
      ensures cursor == CursorOf(today) && renderedOn == today
      ensures selectedDate.None? && selectedTime.None? && slots == SelectDatePrompt && !formShown
      ensures service == "" && petNameRequired && !serviceListener
    {
      availability := Table;
      cursor := CursorOf(today);
      selectedDate := None;
      selectedTime := None;
      slots := SelectDatePrompt;
      formShown := false;
      service := "";
      petNameRequired := true;
      serviceListener := false;
      new;
      RenderCalendar(today);
    }

    /** renderCalendar: redraws the grid of the displayed month against today's date. */
    method RenderCalendar(today: Date)
      requires ValidCursor(cursor) && ValidDate(today)
      modifies this`days, this`renderedOn
      ensures days == MonthGrid(cursor.year, cursor.month, today) && renderedOn == today
    {
      days := BuildMonthGrid(cursor.year, cursor.month, today);
      renderedOn := today;
    }

    /** showAvailableTimes: fills the time panel from the times stored for `date`. */
    method ShowAvailableTimes(date: string)
      modifies this`slots
      ensures slots == SlotsFor(GetAvailableTimesForDate(availability, date))
    {
      var times := GetAvailableTimesForDate(availability, date);
      if |times| == 0 {
        slots := NoTimesMessage;
      } else if FreelancerDay in times {
        slots := WholeDaySlot;
      } else {
        slots := TimeButtons(times);
      }
    }

    /** selectDate: selects the date, always clears the time, shows its times and hides the form. */
    method SelectDate(date: string)
      requires Valid()
      modifies this`selectedDate, this`selectedTime, this`slots, this`formShown
      ensures Valid()
      ensures selectedDate == Some(date) && selectedTime.None? && !formShown
      ensures slots == SlotsFor(GetAvailableTimesForDate(availability, date))
    {
      selectedDate := Some(date);
      selectedTime := None;
      ShowAvailableTimes(date);
      formShown := false;
    }

    /** A click on the grid cell at `index`: only a clickable day has a handler, and it selects that day. */
    method ClickDay(index: int)
      requires Valid() && 0 <= index < |days|
      modifies this`selectedDate, this`selectedTime, this`slots, this`formShown
      ensures Valid()
      ensures old(days[index]).Day? && old(days[index]).status == Clickable ==>
        selectedDate == Some(old(days[index]).key) && selectedTime.None?
      ensures !(old(days[index]).Day? && old(days[index]).status == Clickable) ==>
        selectedDate == old(selectedDate) && selectedTime == old(selectedTime)
        && slots == old(slots) && formShown == old(formShown)
    {
      var cell := days[index];
      if cell.Day? && cell.status == Clickable {
        SelectDate(cell.key);
      }
    }

    /** updateFormForServiceType: installs the change listener on the service select. */
    method UpdateFormForServiceType()
      modifies this`serviceListener
      ensures serviceListener
    {
      serviceListener := true;
    }

    /**
     * selectTime: records the time and shows the form; the whole-day time
     * presets the service to dia-freelancer and makes the pet field optional,
     * any other time clears the service and makes the pet field required.
     */
    method SelectTime(time: string)
      requires Valid() && selectedDate.Some?
      modifies this`selectedTime, this`formShown, this`service, this`petNameRequired, this`serviceListener
      ensures Valid()
      ensures selectedTime == Some(time) && formShown && serviceListener
      ensures service == (if time == FreelancerDay then FreelancerService else "")
      ensures petNameRequired <==> time != FreelancerDay
    {
      selectedTime := Some(time);
      formShown := true;
      if time == FreelancerDay {
        service := FreelancerService;
        petNameRequired := false;
      } else {
        service := "";
        petNameRequired := true;
      }
      UpdateFormForServiceType();
    }

    /** A click on the `index`-th button of the time panel selects that button's time. */
    method ClickSlot(index: int)
      requires Valid() && 0 <= index < |SlotButtons(slots)|
      modifies this`selectedTime, this`formShown, this`service, this`petNameRequired, this`serviceListener
      ensures Valid() && selectedDate == old(selectedDate)
      ensures selectedTime == Some(SlotButtons(slots)[index])
      ensures selectedTime.value in GetAvailableTimesForDate(availability, selectedDate.value)
      ensures formShown && serviceListener
      ensures service == (if selectedTime.value == FreelancerDay then FreelancerService else "")
      ensures petNameRequired <==> selectedTime.value != FreelancerDay
    {
      SlotButtonsFor(GetAvailableTimesForDate(availability, selectedDate.value));
      SelectTime(SlotButtons(slots)[index]);
    }

    /**
     * A change of the service select. Once a time has been selected the
     * listener is installed and sets the pet field's flag from the new value;
     * before that nothing listens.
     */
    method ChangeService(value: string)
      requires Valid()
      modifies this`service, this`petNameRequired
      ensures Valid() && service == value
      ensures serviceListener ==> (petNameRequired <==> value != FreelancerService)
      ensures !serviceListener ==> petNameRequired == old(petNameRequired)
    {
      service := value;
      if serviceListener {
        petNameRequired := value != FreelancerService;
      }
    }

    /**
     * The cancel button: hides the form, resets it (the service select goes
     * back to its empty option) and clears the time; the date stays selected
     * and its times stay on display.
     */
    method Cancel()
      requires Valid()
      modifies this`formShown, this`service, this`selectedTime
      ensures Valid()
      ensures !formShown && service == "" && selectedTime.None?
    {
      formShown := false;
      service := "";
      selectedTime := None;
    }

    /** The previous-month button: shows the month before and redraws; the selection is untouched. */
    method PreviousMonth(today: Date)
      requires Valid() && ValidDate(today)
      modifies this`cursor, this`days, this`renderedOn
      ensures Valid()
      ensures 12 * cursor.year + cursor.month == 12 * old(cursor.year) + old(cursor.month) - 1
      ensures renderedOn == today
    {
      cursor := ShiftCursor(cursor, -1);
      RenderCalendar(today);
    }

    /** The next-month button: shows the month after and redraws; the selection is untouched. */
    method NextMonth(today: Date)
      requires Valid() && ValidDate(today)
      modifies this`cursor, this`days, this`renderedOn
      ensures Valid()
      ensures 12 * cursor.year + cursor.month == 12 * old(cursor.year) + old(cursor.month) + 1
      ensures renderedOn == today
    {
      cursor := ShiftCursor(cursor, 1);
      RenderCalendar(today);
    }

    /**
     * submitBooking: the wa.me link for the message built from the form's
     * fields, the selected date as `formatDate` renders it, and the selected
     * time. Nothing is validated and no state changes.
     */
    method SubmitBooking(name: string, phone: string, petName: string, observations: string,
                         formatDate: string -> string, encode: string -> string)
      returns (url: string)
      requires Valid() && formShown
      ensures var form := BookingForm(name, phone, petName, service, observations);
        url == HandoffUrl(ComposeBooking(form, formatDate(selectedDate.value), selectedTime.value), encode)
    {
      var form := BookingForm(name, phone, petName, service, observations);
      var message := ComposeBooking(form, formatDate(selectedDate.value), selectedTime.value);
      url := WhatsAppPrefix + encode(message);
    }
  }
}
