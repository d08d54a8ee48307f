/** The nurse's own portal: their appointment lists, the per-day slot counts and the slot
    editor for the selected day. `today` is the current date key, a parameter. */
module NursePortal {
  import SeqUtil
  import opened Types
  import Slots
  import AdminCalendar

  /** `nurseAppts`: this nurse's appointments. */
  function NurseAppointments(appts: seq<Appointment>, nurseId: string): (r: seq<Appointment>)
    ensures forall i :: 0 <= i < |r| ==> r[i] in appts && r[i].nurseId == nurseId
    ensures forall a :: a in appts && a.nurseId == nurseId ==> a in r
  {
    SeqUtil.Filter(appts, (a: Appointment) => a.nurseId == nurseId)
  }

  /** `todayAppts`: the nurse's appointments dated today. */
  function TodayAppointments(appts: seq<Appointment>, nurseId: string, today: string): (r: seq<Appointment>)
    ensures forall i :: 0 <= i < |r| ==> r[i] in NurseAppointments(appts, nurseId) && r[i].date == today
    ensures |r| <= |NurseAppointments(appts, nurseId)|
  {
    SeqUtil.Filter(NurseAppointments(appts, nurseId), (a: Appointment) => a.date == today)
  }

  /** Both lists keep the original order: they split over a concatenation. */
  lemma ListsInOrder(a: seq<Appointment>, b: seq<Appointment>, nurseId: string, today: string)
    ensures NurseAppointments(a + b, nurseId) == NurseAppointments(a, nurseId) + NurseAppointments(b, nurseId)
    ensures TodayAppointments(a + b, nurseId, today)
         == TodayAppointments(a, nurseId, today) + TodayAppointments(b, nurseId, today)
  {
    SeqUtil.FilterAppend(a, b, (x: Appointment) => x.nurseId == nurseId);
    SeqUtil.FilterAppend(NurseAppointments(a, nurseId), NurseAppointments(b, nurseId),
                         (x: Appointment) => x.date == today);
  }

  /** Today's list is the same as the calendar's list for this nurse and today's key. */
  lemma TodayIsCalendarDay(appts: seq<Appointment>, nurseId: string, today: string)
    ensures TodayAppointments(appts, nurseId, today) == AdminCalendar.AppointmentsForDay(appts, nurseId, today)
  {
    SeqUtil.FilterConjunction(appts, (a: Appointment) => a.nurseId == nurseId,
      (a: Appointment) => a.date == today, (a: Appointment) => a.date == today && a.nurseId == nurseId);
  }

  /** The slot count on a day button: the day's list length, 0 for an absent day. */
  function SlotCount(n: Nurse, date: string): (r: nat)
    ensures date !in n.availability ==> r == 0
    ensures date in n.availability ==> r == |n.availability[date]|
    ensures r > 0 <==> AdminCalendar.HasAvailability(n, date)
  {
    |Slots.SlotsOn(n.availability, date)|
  }

  /** `toggleSlot` on the selected day; it stores the same record the calendar's editor
      stores for that day. */
  function ToggleSlot(n: Nurse, activeDate: string, time: string): (r: Nurse)
    ensures r == AdminCalendar.ToggleSlot(n, activeDate, time)
  {
    var current := n.availability;
    var dateSlots := Slots.SlotsOn(current, activeDate);
    n.(availability := current[activeDate := Slots.ToggleSlot(dateSlots, time)])
  }

  /** A slot button is shown as selected iff its label is on the day's list, and pressing
      it flips exactly that. */
  lemma ToggleFlipsSelection(n: Nurse, activeDate: string, time: string, other: string)
    requires other != time
    ensures time in ToggleSlot(n, activeDate, time).availability[activeDate]
        <==> time !in Slots.SlotsOn(n.availability, activeDate)
    ensures other in ToggleSlot(n, activeDate, time).availability[activeDate]
        <==> other in Slots.SlotsOn(n.availability, activeDate)
  {
  }
}
