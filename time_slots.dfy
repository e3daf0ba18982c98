/**
 * What the time panel shows for a selected date (showAvailableTimes): a prompt
 * before any date is chosen, a "no times" message for an empty list, a single
 * whole-day button when the list holds the DIA_FREELANCER sentinel, and
 * otherwise one button per time in the stored order.
 */
module TimeSlots {
  import opened Availability

  datatype SlotView =
    | SelectDatePrompt                 // "Selecione uma data para ver os horários disponíveis"
    | NoTimesMessage                   // "Nenhum horário disponível para esta data."
    | WholeDaySlot                     // one button "Dia Completo de Freelancer"
    | TimeButtons(times: seq<string>)  // one button per time

  /** The panel for a date whose time list is `times`. */
  function SlotsFor(times: seq<string>): (v: SlotView)
    ensures !v.SelectDatePrompt?
    ensures v.NoTimesMessage? <==> |times| == 0
    ensures v.WholeDaySlot? <==> |times| > 0 && FreelancerDay in times
    ensures v.TimeButtons? ==> v.times == times && FreelancerDay !in times
  {
    if |times| == 0 then NoTimesMessage
    else if FreelancerDay in times then WholeDaySlot
    else TimeButtons(times)
  }

  /** The data-time value of each button the panel offers, in order. */
  function SlotButtons(v: SlotView): seq<string> {
    match v
    case SelectDatePrompt => []
    case NoTimesMessage => []
    case WholeDaySlot => [FreelancerDay]
    case TimeButtons(times) => times
  }

  /**
   * The buttons offered for a time list: none for an empty list, exactly the
   * whole-day button when the sentinel is present, otherwise the stored times
   * in their order; every button's time comes from the list.
   */
  lemma SlotButtonsFor(times: seq<string>)
    ensures |times| == 0 ==> SlotButtons(SlotsFor(times)) == []
    ensures FreelancerDay in times ==> SlotButtons(SlotsFor(times)) == [FreelancerDay]
    ensures FreelancerDay !in times ==> SlotButtons(SlotsFor(times)) == times
    ensures forall b :: b in SlotButtons(SlotsFor(times)) ==> b in times
  {
  }

  /** A date missing from the table is offered no time, only the "no times" message. */
  lemma UnlistedDateShowsMessage(table: seq<Record>, date: string)
    requires !IsDateAvailable(table, date)
    ensures SlotsFor(GetAvailableTimesForDate(table, date)) == NoTimesMessage
  {
    UnavailableHasNoTimes(table, date);
  }
}
