/** The administrator's availability calendar for one selected nurse: day keys, the day
    queries, block toggling, and the slot editor (which stores through
    `ToggleSlot`). The displayed month is given as a year and a zero-based month,
    as `Date.getFullYear` and `Date.getMonth` report them. */
module AdminCalendar {
  import opened Wrappers
  import SeqUtil
  import Text
  import opened Types
  import Slots

  /** A two-digit decimal field after `padStart(2, '0')`. */
  function TwoDigits(n: nat): string {
    Text.PadStart(Text.NatToString(n), 2, '0')
  }

  lemma TwoDigitsValue(n: nat)
    requires 1 <= n <= 99
    ensures |TwoDigits(n)| == 2 && Text.AllDigits(TwoDigits(n)) && Text.DigitsValue(TwoDigits(n)) == n
  {
    var s := Text.NatToString(n);
    if n < 10 {
      assert TwoDigits(n) == ['0'] + s;
      assert TwoDigits(n)[..1] == ['0'];
    } else {
      Text.NatToStringLength(n, 2);
    }
  }

  /** The fields of `y-m-d` sit at fixed places when their widths are 4, 2 and 2. */
  lemma DashJoin(y: string, m: string, d: string)
    requires |y| == 4 && |m| == 2 && |d| == 2
    ensures var r := y + "-" + m + "-" + d;
      |r| == 10 && r[4] == '-' && r[7] == '-' && r[..4] == y && r[5..7] == m && r[8..] == d
  {
  }

  /** A date written with a four-digit year, and month and day fields in range. */
  predicate WellFormedKey(r: string, year: int, month: int, day: int) {
    && |r| == 10 && r[4] == '-' && r[7] == '-'
    && Text.AllDigits(r[..4]) && Text.DigitsValue(r[..4]) == year
    && Text.AllDigits(r[5..7]) && Text.DigitsValue(r[5..7]) == month
    && Text.AllDigits(r[8..]) && Text.DigitsValue(r[8..]) == day
  }

  /** `getDayKey`: `String(year)`, the one-based month and the day, joined by dashes. */
  function DayKey(year: int, month0: int, day: int): (r: string)
    ensures 1000 <= year <= 9999 && 0 <= month0 <= 11 && 1 <= day <= 31 ==>
      WellFormedKey(r, year, month0 + 1, day)
  {
    var y := Text.IntToString(year);
    var m := Text.PadStart(Text.IntToString(month0 + 1), 2, '0');
    var d := Text.PadStart(Text.IntToString(day), 2, '0');
    assert 1000 <= year <= 9999 && 0 <= month0 <= 11 && 1 <= day <= 31 ==>
      WellFormedKey(y + "-" + m + "-" + d, year, month0 + 1, day) by {
      if 1000 <= year <= 9999 && 0 <= month0 <= 11 && 1 <= day <= 31 {
        Text.NatToStringLength(year, 4);
        TwoDigitsValue(month0 + 1);
        TwoDigitsValue(day);
        DashJoin(y, m, d);
      }
    }
    y + "-" + m + "-" + d
  }

  /** `getAppointmentsForDay`: the appointments on that day with the selected nurse. */
  function AppointmentsForDay(appts: seq<Appointment>, nurseId: string, dateKey: string): (r: seq<Appointment>)
    ensures forall i :: 0 <= i < |r| ==> r[i] in appts && r[i].date == dateKey && r[i].nurseId == nurseId
    ensures forall a :: a in appts && a.date == dateKey && a.nurseId == nurseId ==> a in r
  {
    SeqUtil.Filter(appts, (a: Appointment) => a.date == dateKey && a.nurseId == nurseId)
  }

  /** The day's list keeps the original order: it splits over a concatenation. */
  lemma AppointmentsForDayInOrder(a: seq<Appointment>, b: seq<Appointment>, nurseId: string, dateKey: string)
    ensures AppointmentsForDay(a + b, nurseId, dateKey)
         == AppointmentsForDay(a, nurseId, dateKey) + AppointmentsForDay(b, nurseId, dateKey)
  {
    SeqUtil.FilterAppend(a, b, (x: Appointment) => x.date == dateKey && x.nurseId == nurseId);
  }

  /** `isBlocked`: the key is on the blocked list; an absent list blocks nothing. */
  function IsBlocked(n: Nurse, dateKey: string): (r: bool)
    ensures r <==> dateKey in Types.BlockedList(n)
  {
    n.blockedDates.Some? && dateKey in n.blockedDates.value
  }

  /** `hasAvailability`: the day has a list and it is not empty. */
  function HasAvailability(n: Nurse, dateKey: string): (r: bool)
    ensures r <==> dateKey in n.availability && |n.availability[dateKey]| > 0
    ensures r <==> |Slots.SlotsOn(n.availability, dateKey)| > 0
  {
    dateKey in n.availability && |n.availability[dateKey]| > 0
  }

  /** What a day cell shows: the lock wins over the green availability dot. */
  datatype DayMarker = Locked | OpenSlots | NoMarker

  function Marker(n: Nurse, dateKey: string): (r: DayMarker)
    ensures r == Locked <==> IsBlocked(n, dateKey)
    ensures r == OpenSlots <==> HasAvailability(n, dateKey) && !IsBlocked(n, dateKey)
  {
    if IsBlocked(n, dateKey) then Locked
    else if HasAvailability(n, dateKey) then OpenSlots
    else NoMarker
  }

  /** `toggleBlockDay`: the key leaves the list if it is there and is appended otherwise;
      nothing but the blocked dates changes. */
  function ToggleBlockDay(n: Nurse, dateKey: string): (r: Nurse)
    ensures r == n.(blockedDates := r.blockedDates) && r.blockedDates.Some?
    ensures IsBlocked(r, dateKey) <==> !IsBlocked(n, dateKey)
    ensures forall k :: k != dateKey ==> (IsBlocked(r, k) <==> IsBlocked(n, k))
    ensures !IsBlocked(n, dateKey) ==> Types.BlockedList(r) == Types.BlockedList(n) + [dateKey]
    ensures IsBlocked(n, dateKey) ==>
      multiset(Types.BlockedList(r)) == multiset(Types.BlockedList(n))[dateKey := 0]
  {
    n.(blockedDates := Some(SeqUtil.ToggleMember(Types.BlockedList(n), dateKey)))
  }

  /** Toggling a day that was not blocked twice gives back the list exactly; toggling a
      day blocked once gives back the same dates, with that day moved to the end. */
  lemma ToggleBlockDayTwice(n: Nurse, dateKey: string)
    ensures !IsBlocked(n, dateKey) ==>
      Types.BlockedList(ToggleBlockDay(ToggleBlockDay(n, dateKey), dateKey)) == Types.BlockedList(n)
    ensures multiset(Types.BlockedList(n))[dateKey] == 1 ==>
      Types.BlockedList(ToggleBlockDay(ToggleBlockDay(n, dateKey), dateKey))
      == SeqUtil.Without(Types.BlockedList(n), dateKey) + [dateKey]
  {
    SeqUtil.ToggleMemberTwice(Types.BlockedList(n), dateKey);
  }

  /** `toggleSlot`: the nurse record after toggling `time` on `date`. Only that day's entry
      changes, and it ends up present even when it was absent before. */
  function ToggleSlot(n: Nurse, date: string, time: string): (r: Nurse)
    ensures r.availability.Keys == n.availability.Keys + {date}
    ensures r.availability[date] == Slots.ToggleSlot(Slots.SlotsOn(n.availability, date), time)
    ensures forall d :: d in n.availability && d != date ==> r.availability[d] == n.availability[d]
    ensures r == n.(availability := r.availability)
  {
    n.(availability := n.availability[date := Slots.ToggleSlot(Slots.SlotsOn(n.availability, date), time)])
  }

  /** Removing the day's only slot leaves the day present with an empty list. */
  lemma RemovingLastSlot(n: Nurse, date: string, time: string)
    requires Slots.SlotsOn(n.availability, date) == [time]
    ensures date in ToggleSlot(n, date, time).availability
    ensures ToggleSlot(n, date, time).availability[date] == []
  {
    assert time in [time];
    assert |Slots.ToggleSlot([time], time)| == 0 by {
      assert multiset(Slots.ToggleSlot([time], time)) == multiset{};
    }
  }

  /** The toggle never looks at the blocked dates: it succeeds on a blocked day, and two
      records that differ only in their blocked dates get the same new availability. */
  lemma IgnoresBlockedDates(n: Nurse, blocked: seq<string>, date: string, time: string)
    ensures ToggleSlot(n.(blockedDates := Some(blocked)), date, time).availability
         == ToggleSlot(n, date, time).availability
    ensures ToggleSlot(n, date, time).blockedDates == n.blockedDates
  {
  }

  /** A blocked day can still hold slots: the slot editor never consults the blocked list,
      and adding a slot on a blocked day leaves it blocked and available. */
  lemma BlockedDayCanHoldSlots(n: Nurse, dateKey: string, time: string)
    requires IsBlocked(n, dateKey) && time !in Slots.SlotsOn(n.availability, dateKey)
    ensures IsBlocked(ToggleSlot(n, dateKey, time), dateKey)
    ensures HasAvailability(ToggleSlot(n, dateKey, time), dateKey)
  {
    var r := ToggleSlot(n, dateKey, time);
    assert time in r.availability[dateKey];
  }
}
