/** The slot toggle shared by the admin calendar, the nurse portal and the staff editor.
    Each of them reads the day's list (an absent day is an empty list), removes every copy
    of the chosen label when it is there and otherwise appends it and sorts the list with
    the default string order, then stores the new list under that day. */
module Slots {
  import SeqUtil
  import Text
  import opened Types

  /** `availability[date] || []`. */
  function SlotsOn(availability: map<string, seq<string>>, date: string): (r: seq<string>)
    ensures date in availability ==> r == availability[date]
    ensures date !in availability ==> r == []
  {
    if date in availability then availability[date] else []
  }

  /** The day's new slot list. */
  function ToggleSlot(slots: seq<string>, time: string): (r: seq<string>)
    ensures time in r <==> time !in slots
    ensures forall t :: t != time ==> (t in r <==> t in slots)
    ensures time in slots ==> multiset(r) == multiset(slots)[time := 0]
    ensures time !in slots ==> multiset(r) == multiset(slots) + multiset{time}
    ensures time !in slots ==> SeqUtil.SortedBy(r, Text.StrLe)
  {
    if time in slots then
      SeqUtil.Without(slots, time)
    else
      var r := Text.SortStrings(slots + [time]);
      assert multiset(r) == multiset(slots) + multiset{time};
      assert forall t :: t in r <==> t in multiset(r);
      assert forall t :: t in slots <==> t in multiset(slots);
      r
  }

  /** A removal keeps the remaining labels in their order, so a sorted list stays sorted. */
  lemma RemovalKeepsSorted(slots: seq<string>, time: string)
    requires time in slots && SeqUtil.SortedBy(slots, Text.StrLe)
    ensures SeqUtil.SortedBy(ToggleSlot(slots, time), Text.StrLe)
  {
    SeqUtil.WithoutKeepsSorted(slots, time, Text.StrLe);
  }

  /** Adding then removing a label gives back a sorted list. */
  lemma AddThenRemove(slots: seq<string>, time: string)
    requires time !in slots && SeqUtil.SortedBy(slots, Text.StrLe)
    ensures ToggleSlot(ToggleSlot(slots, time), time) == slots
  {
    var added := ToggleSlot(slots, time);
    var back := ToggleSlot(added, time);
    RemovalKeepsSorted(added, time);
    assert multiset(back) == multiset(slots) by {
      assert multiset(added)[time := 0] == multiset(slots);
    }
    Text.StrLeTotalOrder();
    SeqUtil.SortedUnique(back, slots, Text.StrLe);
  }

  /** Removing a label that occurs once and adding it again gives back a sorted list. */
  lemma RemoveThenAdd(slots: seq<string>, time: string)
    requires multiset(slots)[time] == 1 && SeqUtil.SortedBy(slots, Text.StrLe)
    ensures ToggleSlot(ToggleSlot(slots, time), time) == slots
  {
    var removed := ToggleSlot(slots, time);
    var back := ToggleSlot(removed, time);
    assert multiset(back) == multiset(slots) by {
      assert multiset(slots)[time := 0] + multiset{time} == multiset(slots);
    }
    Text.StrLeTotalOrder();
    SeqUtil.SortedUnique(back, slots, Text.StrLe);
  }

  /** The default sort compares characters, not clock times: one in the afternoon lands
      before eight in the morning. */
  lemma AfternoonBeforeMorning()
    ensures ToggleSlot(["08:00 AM"], "01:00 PM") == ["01:00 PM", "08:00 AM"]
  {
    var t := ["01:00 PM", "08:00 AM"];
    assert Text.StrLe("01:00 PM", "08:00 AM");
    assert SeqUtil.SortedBy(t, Text.StrLe);
    assert ["08:00 AM"] + ["01:00 PM"] == ["08:00 AM", "01:00 PM"];
    assert multiset(t) == multiset(["08:00 AM", "01:00 PM"]);
    Text.SortStringsUnique(["08:00 AM"] + ["01:00 PM"], t);
  }

  /** The nine labels the calendar and the nurse portal offer as toggle buttons. */
  const AllTimeSlots: seq<string> := [
    "08:00 AM", "09:00 AM", "10:00 AM", "11:00 AM",
    "12:00 PM", "01:00 PM", "02:00 PM", "03:00 PM", "04:00 PM"]

  /** Toggling one of the offered labels on a day holding only offered labels keeps the
      day within them. Stored lists are not checked, so a day may hold other labels. */
  lemma OfferedLabelsOnly(slots: seq<string>, time: string)
    requires forall i :: 0 <= i < |slots| ==> slots[i] in AllTimeSlots
    requires time in AllTimeSlots
    ensures forall i :: 0 <= i < |ToggleSlot(slots, time)| ==> ToggleSlot(slots, time)[i] in AllTimeSlots
  {
    var r := ToggleSlot(slots, time);
    forall i | 0 <= i < |r| ensures r[i] in AllTimeSlots {
      assert r[i] in r;
      if r[i] != time {
        var j :| 0 <= j < |slots| && slots[j] == r[i];
      }
    }
  }
}
