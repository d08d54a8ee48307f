/** The patient dashboard: the masked patient id, the compliance badge, the per-appointment
    action (join a virtual room, wait for the nurse, or check in) and the clinic check-in
    form, whose state is a class that hands the submitted form to the store. */
module Dashboard {
  import opened Wrappers
  import Text
  import opened Types
  import AppStore

  /** `maskPatientId`: 'KH-NEW' for a missing or empty id, the id with privacy off, else a
      fixed mask that does not depend on the id. */
  function MaskPatientId(val: Option<string>, privacyMode: bool): (r: string)
    ensures val.None? || val == Some("") ==> r == "KH-NEW"
    ensures val.Some? && val.value != "" && !privacyMode ==> r == val.value
    ensures val.Some? && val.value != "" && privacyMode ==> r == "KH-" + Text.Bullets
  {
    if val.None? || val.value == "" then "KH-NEW"
    else if !privacyMode then val.value
    else "KH-" + Text.Bullets
  }

  /** Under privacy two known ids cannot be told apart by their mask. */
  lemma MaskHidesId(a: string, b: string)
    requires a != "" && b != ""
    ensures MaskPatientId(Some(a), true) == MaskPatientId(Some(b), true)
  {
  }

  /** The "ZA Verified" badge: indemnity and POPIA, without the identity check. */
  predicate ShowsVerifiedBadge(l: LegalStatus) {
    l.indemnitySigned && l.popiaConsent
  }

  /** Whoever passes the app's onboarding gate sees the badge, but not the other way round:
      the badge ignores identity verification. */
  lemma BadgeWeakerThanGate(l: LegalStatus)
    ensures AppStore.IsCompliant(l) ==> ShowsVerifiedBadge(l)
    ensures var u := l.(indemnitySigned := true, popiaConsent := true, identityVerified := false);
      ShowsVerifiedBadge(u) && !AppStore.IsCompliant(u)
  {
  }

  /** The join button's caption: the platform name upper-cased with its first space
      dropped, or 'TELEHEALTH' without a platform. */
  function JoinCaption(platform: Option<MeetingPlatform>): string {
    "JOIN " + PlatformWord(platform)
  }

  function PlatformWord(platform: Option<MeetingPlatform>): string {
    if platform.Some? then Text.RemoveFirst(Text.Upper(platform.value.Label()), ' ') else "TELEHEALTH"
  }

  lemma RemoveSpaceGoogleMeet()
    ensures Text.RemoveFirst("GOOGLE MEET", ' ') == "GOOGLEMEET"
  {
    assert "GOOGLE MEET" == "GOOGLE" + [' '] + "MEET";
    Text.RemoveFirstAfter("GOOGLE", ' ', "MEET");
  }

  lemma RemoveSpaceMsTeams()
    ensures Text.RemoveFirst("MS TEAMS", ' ') == "MSTEAMS"
  {
    assert "MS TEAMS" == "MS" + [' '] + "TEAMS";
    Text.RemoveFirstAfter("MS", ' ', "TEAMS");
  }

  lemma UpperGoogleMeet()
    ensures Text.Upper("Google Meet") == "GOOGLE MEET"
  {
  }

  lemma UpperMsTeams()
    ensures Text.Upper("MS Teams") == "MS TEAMS"
  {
  }

  /** The word after "JOIN " for every platform choice. */
  lemma PlatformWords(p: Option<MeetingPlatform>)
    ensures p.None? ==> PlatformWord(p) == "TELEHEALTH"
    ensures p.Some? && p.value.GoogleMeet? ==> PlatformWord(p) == "GOOGLEMEET"
    ensures p.Some? && p.value.MsTeams? ==> PlatformWord(p) == "MSTEAMS"
  {
    if p.Some? && p.value.GoogleMeet? {
      UpperGoogleMeet();
      RemoveSpaceGoogleMeet();
    } else if p.Some? {
      UpperMsTeams();
      RemoveSpaceMsTeams();
    }
  }

  /** What an appointment row offers. */
  datatype Action =
    | Join(roomId: string, nurseName: string, platform: Option<MeetingPlatform>, caption: string)
    | AwaitingNurse
    | CheckInButton

  /** Virtual appointments join their room ('default-room' when none or empty); in-person
      ones wait for the nurse once a check-in is on record, and offer check-in before. */
  function ActionFor(appt: Appointment, records: map<string, CheckInData>): (r: Action)
    ensures r.Join? <==> appt.consultationType.Virtual?
    ensures r.Join? ==>
      r.roomId == (if appt.videoRoomId.Some? && appt.videoRoomId.value != "" then appt.videoRoomId.value else "default-room")
      && r.nurseName == appt.nurseName && r.platform == appt.platform && r.caption == JoinCaption(appt.platform)
    ensures r.AwaitingNurse? <==> appt.consultationType.InPerson? && appt.id in records
    ensures r.CheckInButton? <==> appt.consultationType.InPerson? && appt.id !in records
  {
    if appt.consultationType.Virtual? then
      Join(if appt.videoRoomId.Some? && appt.videoRoomId.value != "" then appt.videoRoomId.value else "default-room",
           appt.nurseName, appt.platform, JoinCaption(appt.platform))
    else if appt.id in records then AwaitingNurse
    else CheckInButton
  }

  /** Checking in turns the row into "Awaiting Nurse", and other rows keep their action. */
  lemma CheckInThenAwaiting(appt: Appointment, other: Appointment, records: map<string, CheckInData>, data: CheckInData)
    requires appt.consultationType.InPerson?
    requires other.id != appt.id
    ensures ActionFor(appt, AppStore.RecordCheckIn(records, appt.id, data)) == AwaitingNurse
    ensures ActionFor(other, AppStore.RecordCheckIn(records, appt.id, data)) == ActionFor(other, records)
  {
  }

  class CheckInForm {
    var checkingIn: Option<string>
    var data: CheckInData

    constructor ()
      ensures checkingIn.None? && data == EmptyCheckIn
    {
      checkingIn := None;
      data := EmptyCheckIn;
    }

    /** The check-in button of a row opens the form for that appointment. */
    method Open(apptId: string)
      modifies this
      ensures checkingIn == Some(apptId) && data == old(data)
    {
      checkingIn := Some(apptId);
    }

    method Edit(d: CheckInData)
      modifies this
      ensures data == d && checkingIn == old(checkingIn)
    {
      data := d;
    }

    /** `handleCheckInSubmit`: with an appointment open, the store records a copy of the
        form, and the form closes and clears; with none, nothing happens. */
    method Submit(store: AppStore.Store)
      modifies this, store
      ensures old(checkingIn).None? ==>
        checkingIn == old(checkingIn) && data == old(data) && store.checkInRecords == old(store.checkInRecords)
      ensures old(checkingIn).Some? ==>
        checkingIn.None? && data == EmptyCheckIn && store.checkInRecords == AppStore.RecordCheckIn(old(store.checkInRecords), old(checkingIn).value, old(data))
      ensures store.user == old(store.user) && store.nurses == old(store.nurses)
      ensures store.appointments == old(store.appointments) && store.notifications == old(store.notifications)
      ensures store.legalStatus == old(store.legalStatus) && store.preferences == old(store.preferences)
    {
      if checkingIn.Some? {
        store.HandleCheckIn(checkingIn.value, data);
        checkingIn := None;
        data := EmptyCheckIn;
      }
    }
  }
}
