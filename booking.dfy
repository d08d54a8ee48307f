/** The patient's booking wizard: choose a nurse, a date, a time and a service, then a
    meeting platform for a virtual visit, acknowledge the prerequisites and confirm. The
    confirmed request goes to the store, which accepts it unconditionally. The random room
    id, the random appointment and notification ids and the clock are parameters, and the
    seven offered dates (the next seven days) are chosen by the caller. */
module Booking {
  import opened Wrappers
  import SeqUtil
  import opened Types
  import Slots
  import AdminCalendar
  import AppStore

  datatype Step = NurseStep | DateStep | TimeStep | ServiceStep | PlatformStep | PrerequisiteStep | ConfirmStep

  /** The nurses the first step lists. */
  function ActiveNurses(nurses: seq<Nurse>): (r: seq<Nurse>)
    ensures forall i :: 0 <= i < |r| ==> r[i] in nurses && r[i].active
    ensures forall n :: n in nurses && n.active ==> n in r
  {
    SeqUtil.Filter(nurses, (n: Nurse) => n.active)
  }

  /** `nurses.find(n => n.id === selectedNurse)`: the first record with that id. */
  function FindNurse(nurses: seq<Nurse>, id: Option<string>): (r: Option<Nurse>)
    ensures id.None? ==> r.None?
    ensures r.Some? ==> r.value in nurses && id == Some(r.value.id)
    ensures id.Some? && r.None? ==> forall i :: 0 <= i < |nurses| ==> nurses[i].id != id.value
  {
    if id.None? || nurses == [] then None
    else if nurses[0].id == id.value then Some(nurses[0])
    else FindNurse(nurses[1..], id)
  }

  /** `canBook`: the nurse has a non-empty list for the date. Neither the blocked dates nor
      the existing appointments are consulted. */
  function CanBook(nurse: Option<Nurse>, date: string): (r: bool)
    ensures r <==> nurse.Some? && date in nurse.value.availability && |nurse.value.availability[date]| > 0
    ensures nurse.Some? ==> (r <==> AdminCalendar.HasAvailability(nurse.value, date))
  {
    nurse.Some? && date in nurse.value.availability && |nurse.value.availability[date]| > 0
  }

  /** A blocked date with slots stays bookable. */
  lemma BlockedDateStillBookable(n: Nurse, date: string)
    requires AdminCalendar.IsBlocked(n, date) && AdminCalendar.HasAvailability(n, date)
    ensures CanBook(Some(n), date)
  {
  }

  /** The time buttons: the stored list for the date in stored order, none for an absent
      date or no nurse. */
  function OfferedTimes(nurse: Option<Nurse>, date: string): (r: seq<string>)
    ensures nurse.None? ==> r == []
    ensures nurse.Some? ==> r == Slots.SlotsOn(nurse.value.availability, date)
    ensures |r| > 0 <==> CanBook(nurse, date)
  {
    if nurse.Some? && date in nurse.value.availability then nurse.value.availability[date] else []
  }

  datatype Service = Service(id: string, title: string, kind: ConsultationType, disabled: bool)

  const Services: seq<Service> := [
    Service("In-Person Consultation", "In-Person Consultation", InPerson, false),
    Service("Virtual Consultation", "Virtual Consultation", Virtual, false),
    Service("Check-up", "Routine Check-up", InPerson, false),
    Service("Follow-up", "Post-Lab Follow-up", InPerson, false),
    Service("Dialysis", "Dialysis Session", InPerson, true)]

  /** Exactly one service, Dialysis, is offered but cannot be chosen, and the only
      virtual one is the virtual consultation. */
  lemma ServicesSelectable(i: int)
    requires 0 <= i < |Services|
    ensures Services[i].disabled <==> Services[i].id == "Dialysis"
    ensures Services[i].kind == Virtual <==> Services[i].id == "Virtual Consultation"
  {
  }

  /** The request `handleConfirm` hands to the store. */
  function Payload(user: User, nurse: Option<Nurse>, selectedNurse: Option<string>, date: string, time: string,
                   appointmentType: string, ct: ConsultationType, platform: MeetingPlatform, notes: string,
                   roomId: string): (r: AppStore.BookingRequest)
    ensures r.patientId == user.id && r.patientName == user.name
    ensures r.nurseId == selectedNurse.GetOr("")
    ensures r.nurseName == if nurse.Some? then nurse.value.name else ""
    ensures r.date == date && r.time == time && r.kind == appointmentType && r.consultationType == ct
    ensures r.platform.Some? <==> ct == Virtual
    ensures r.videoRoomId.Some? <==> ct == Virtual
    ensures r.platform.Some? ==> r.platform.value == platform
    ensures r.videoRoomId.Some? ==> r.videoRoomId.value == roomId
    ensures r.notes.None? <==> notes == ""
    ensures r.notes.Some? ==> r.notes.value == notes
  {
    AppStore.BookingRequest(
      user.id, user.name, selectedNurse.GetOr(""), if nurse.Some? then nurse.value.name else "",
      date, time, appointmentType, ct,
      if ct == Virtual then Some(platform) else None,
      if ct == Virtual then Some(roomId) else None,
      if notes == "" then None else Some(notes))
  }

  /** Where "proceed" leads from the service step. */
  function AfterService(ct: ConsultationType): (r: Step)
    ensures r == PlatformStep <==> ct == Virtual
    ensures r == PrerequisiteStep <==> ct.InPerson?
  {
    if ct == Virtual then PlatformStep else PrerequisiteStep
  }

  class BookingWizard {
    var step: Step
    var selectedNurse: Option<string>
    var selectedDate: string
    var selectedTime: string
    var appointmentType: string
    var consultationType: ConsultationType
    var selectedPlatform: MeetingPlatform
    var notes: string
    var loading: bool
    var acknowledged: bool

    /** What the steps guarantee about the choices made so far: past the nurse step a
        nurse is chosen, past the service step a service is chosen, the platform step is
        reached only for a virtual visit, and the spinner shows only while a confirmed
        booking waits for its timer. */
    predicate Valid()
      reads this
    {
      && (step in {TimeStep, ServiceStep, PlatformStep, PrerequisiteStep, DateStep} ==> selectedNurse.Some?)
      && (step in {PlatformStep, PrerequisiteStep} ==> appointmentType != "")
      && (step == PlatformStep ==> consultationType == Virtual)
      && (loading ==> step == PrerequisiteStep)
    }

    constructor ()
      ensures Valid() && step == NurseStep && selectedNurse.None? && selectedDate == "" && selectedTime == ""
      ensures appointmentType == "" && consultationType == InPerson && selectedPlatform == GoogleMeet
      ensures notes == "" && !loading && !acknowledged
    {
      step := NurseStep;
      selectedNurse := None;
      selectedDate := "";
      selectedTime := "";
      appointmentType := "";
      consultationType := InPerson;
      selectedPlatform := GoogleMeet;
      notes := "";
      loading := false;
      acknowledged := false;
    }

    method SelectNurse(nurses: seq<Nurse>, id: string)
      requires Valid() && step == NurseStep && !loading
      requires exists k :: 0 <= k < |ActiveNurses(nurses)| && ActiveNurses(nurses)[k].id == id
      modifies this
      ensures Valid() && selectedNurse == Some(id) && step == DateStep
      ensures FindNurse(nurses, selectedNurse).Some?
      ensures selectedDate == old(selectedDate) && selectedTime == old(selectedTime)
      ensures appointmentType == old(appointmentType) && consultationType == old(consultationType)
      ensures selectedPlatform == old(selectedPlatform) && notes == old(notes)
      ensures loading == old(loading) && acknowledged == old(acknowledged)
    {
      var k :| 0 <= k < |ActiveNurses(nurses)| && ActiveNurses(nurses)[k].id == id;
      assert ActiveNurses(nurses)[k] in nurses;
      selectedNurse := Some(id);
      step := DateStep;
    }

    /** A date button is enabled only when the date is bookable. */
    method SelectDate(nurses: seq<Nurse>, date: string)
      requires Valid() && step == DateStep && !loading
      requires CanBook(FindNurse(nurses, selectedNurse), date)
      modifies this
      ensures Valid() && selectedDate == date && step == TimeStep
      ensures selectedNurse == old(selectedNurse) && selectedTime == old(selectedTime)
      ensures appointmentType == old(appointmentType) && consultationType == old(consultationType)
      ensures selectedPlatform == old(selectedPlatform) && notes == old(notes)
      ensures loading == old(loading) && acknowledged == old(acknowledged)
    {
      selectedDate := date;
      step := TimeStep;
    }

    /** The time buttons are the offered times. */
    method SelectTime(nurses: seq<Nurse>, time: string)
      requires Valid() && step == TimeStep && !loading
      requires time in OfferedTimes(FindNurse(nurses, selectedNurse), selectedDate)
      modifies this
      ensures Valid() && selectedTime == time && step == ServiceStep
      ensures selectedNurse == old(selectedNurse) && selectedDate == old(selectedDate)
      ensures appointmentType == old(appointmentType) && consultationType == old(consultationType)
      ensures selectedPlatform == old(selectedPlatform) && notes == old(notes)
      ensures loading == old(loading) && acknowledged == old(acknowledged)
    {
      selectedTime := time;
      step := ServiceStep;
    }

    /** `handleServiceSelect` on an enabled service card. */
    method SelectService(s: Service)
      requires Valid() && step == ServiceStep && !loading && s in Services && !s.disabled
      modifies this
      ensures Valid() && appointmentType == s.id && consultationType == s.kind && step == old(step)
      ensures selectedNurse == old(selectedNurse) && selectedDate == old(selectedDate)
      ensures selectedTime == old(selectedTime) && selectedPlatform == old(selectedPlatform)
      ensures notes == old(notes) && loading == old(loading) && acknowledged == old(acknowledged)
    {
      appointmentType := s.id;
      consultationType := s.kind;
    }

    method SetNotes(text: string)
      requires Valid() && step == ServiceStep && !loading
      modifies this
      ensures Valid() && notes == text && step == old(step)
      ensures selectedNurse == old(selectedNurse) && selectedDate == old(selectedDate)
      ensures selectedTime == old(selectedTime) && appointmentType == old(appointmentType)
      ensures consultationType == old(consultationType) && selectedPlatform == old(selectedPlatform)
      ensures loading == old(loading) && acknowledged == old(acknowledged)
    {
      notes := text;
    }

    /** "Proceed", enabled once a service is chosen. */
    method ProceedFromService()
      requires Valid() && step == ServiceStep && !loading && appointmentType != ""
      modifies this
      ensures Valid() && step == AfterService(consultationType)
      ensures selectedNurse == old(selectedNurse) && selectedDate == old(selectedDate)
      ensures selectedTime == old(selectedTime) && appointmentType == old(appointmentType)
      ensures consultationType == old(consultationType) && selectedPlatform == old(selectedPlatform)
      ensures notes == old(notes) && loading == old(loading) && acknowledged == old(acknowledged)
    {
      if consultationType == Virtual {
        step := PlatformStep;
      } else {
        step := PrerequisiteStep;
      }
    }

    method SelectPlatform(p: MeetingPlatform)
      requires Valid() && step == PlatformStep && !loading
      modifies this
      ensures Valid() && selectedPlatform == p && step == old(step)
      ensures selectedNurse == old(selectedNurse) && selectedDate == old(selectedDate)
      ensures selectedTime == old(selectedTime) && appointmentType == old(appointmentType)
      ensures consultationType == old(consultationType) && notes == old(notes)
      ensures loading == old(loading) && acknowledged == old(acknowledged)
    {
      selectedPlatform := p;
    }

    method PlatformNext()
      requires Valid() && step == PlatformStep && !loading
      modifies this
      ensures Valid() && step == PrerequisiteStep
      ensures selectedNurse == old(selectedNurse) && selectedDate == old(selectedDate)
      ensures selectedTime == old(selectedTime) && appointmentType == old(appointmentType)
      ensures consultationType == old(consultationType) && selectedPlatform == old(selectedPlatform)
      ensures notes == old(notes) && loading == old(loading) && acknowledged == old(acknowledged)
    {
      step := PrerequisiteStep;
    }

    method SetAcknowledged(checked: bool)
      requires Valid() && step == PrerequisiteStep && !loading
      modifies this
      ensures Valid() && acknowledged == checked && step == old(step)
      ensures selectedNurse == old(selectedNurse) && selectedDate == old(selectedDate)
      ensures selectedTime == old(selectedTime) && appointmentType == old(appointmentType)
      ensures consultationType == old(consultationType) && selectedPlatform == old(selectedPlatform)
      ensures notes == old(notes) && loading == old(loading)
    {
      acknowledged := checked;
    }

    /** The back links: from the date step to the nurse step, from the time step to the
        date step, from the service step to the time step, and from the platform and
        prerequisite steps to the service step. */
    method Back()
      requires Valid() && !loading && step in {DateStep, TimeStep, ServiceStep, PlatformStep, PrerequisiteStep}
      modifies this
      ensures Valid()
      ensures old(step) == DateStep ==> step == NurseStep
      ensures old(step) == TimeStep ==> step == DateStep
      ensures old(step) == ServiceStep ==> step == TimeStep
      ensures old(step) in {PlatformStep, PrerequisiteStep} ==> step == ServiceStep
      ensures selectedNurse == old(selectedNurse) && selectedDate == old(selectedDate)
      ensures selectedTime == old(selectedTime) && appointmentType == old(appointmentType)
      ensures consultationType == old(consultationType) && selectedPlatform == old(selectedPlatform)
      ensures notes == old(notes) && loading == old(loading) && acknowledged == old(acknowledged)
    {
      match step
      case DateStep => step := NurseStep;
      case TimeStep => step := DateStep;
      case ServiceStep => step := TimeStep;
      case PlatformStep => step := ServiceStep;
      case PrerequisiteStep => step := ServiceStep;
    }

    /** `handleConfirm`, enabled once the prerequisites are acknowledged: the spinner
        shows and the request is booked. */
    method Confirm(store: AppStore.Store, user: User, nurses: seq<Nurse>, roomId: string,
                   apptId: string, p: string, n: string, a: string, timestamp: string)
      requires Valid() && step == PrerequisiteStep && !loading && acknowledged
      modifies this, store
      ensures Valid() && loading && step == old(step)
      ensures store.appointments == AppStore.Booked(old(store.appointments), old(Request(user, nurses, roomId)), apptId)
      ensures store.notifications
           == AppStore.BookingNotifications(old(Request(user, nurses, roomId)), p, n, a, timestamp) + old(store.notifications)
      ensures store.nurses == old(store.nurses) && store.checkInRecords == old(store.checkInRecords)
      ensures store.legalStatus == old(store.legalStatus) && store.user == old(store.user)
      ensures store.preferences == old(store.preferences)
      ensures selectedNurse == old(selectedNurse) && selectedDate == old(selectedDate)
      ensures selectedTime == old(selectedTime) && appointmentType == old(appointmentType)
      ensures consultationType == old(consultationType) && selectedPlatform == old(selectedPlatform)
      ensures notes == old(notes) && acknowledged == old(acknowledged)
    {
      var req := Request(user, nurses, roomId);
      store.BookAppointment(req, apptId, p, n, a, timestamp);
      loading := true;
    }

    /** The request the current choices make. */
    function Request(user: User, nurses: seq<Nurse>, roomId: string): AppStore.BookingRequest
      reads this
    {
      Payload(user, FindNurse(nurses, selectedNurse), selectedNurse, selectedDate, selectedTime,
              appointmentType, consultationType, selectedPlatform, notes, roomId)
    }

    /** A request made from a valid confirm step names the chosen nurse and service. */
    lemma ConfirmedRequestComplete(user: User, nurses: seq<Nurse>, roomId: string)
      requires Valid() && step == PrerequisiteStep
      ensures Request(user, nurses, roomId).nurseId == selectedNurse.value
      ensures Request(user, nurses, roomId).kind != ""
    {
    }

    /** The two-second timer after confirming. */
    method FinishLoading()
      requires Valid() && loading
      modifies this
      ensures Valid() && !loading && step == ConfirmStep
      ensures selectedNurse == old(selectedNurse) && selectedDate == old(selectedDate)
      ensures selectedTime == old(selectedTime) && appointmentType == old(appointmentType)
      ensures consultationType == old(consultationType) && selectedPlatform == old(selectedPlatform)
      ensures notes == old(notes) && acknowledged == old(acknowledged)
    {
      loading := false;
      step := ConfirmStep;
    }

    /** "Book Another": back to the nurse step with the choices cleared. The consultation
        type and platform are kept. */
    method BookAnother()
      requires Valid() && step == ConfirmStep && !loading
      modifies this
      ensures Valid() && step == NurseStep && selectedNurse.None? && selectedDate == "" && selectedTime == ""
      ensures !acknowledged && notes == "" && appointmentType == "" && !loading
      ensures consultationType == old(consultationType) && selectedPlatform == old(selectedPlatform)
    {
      step := NurseStep;
      selectedNurse := None;
      selectedDate := "";
      selectedTime := "";
      acknowledged := false;
      notes := "";
      appointmentType := "";
    }
  }
}
