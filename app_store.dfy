/** The application's shared store: nurses, appointments, notifications, check-in records,
    the legal status and the signed-in user, with the handlers the screens call. Each
    handler builds its new value from the old one without looking at anything else; the
    pure functions here are those values, and the `Store` methods install them. Random
    ids and the clock are parameters of the handlers. */
module AppStore {
  import opened Wrappers
  import SeqUtil
  import Text
  import opened Types

  // ---------------------------------------------------------------------------------
  // Booking

  /** `Omit<Appointment, 'id' | 'status'>`: what the booking wizard hands to the store. */
  datatype BookingRequest = BookingRequest(
    patientId: string,
    patientName: string,
    nurseId: string,
    nurseName: string,
    date: string,
    time: string,
    kind: string,
    consultationType: ConsultationType,
    platform: Option<MeetingPlatform>,
    videoRoomId: Option<string>,
    notes: Option<string>)

  function RequestOf(a: Appointment): BookingRequest {
    BookingRequest(a.patientId, a.patientName, a.nurseId, a.nurseName, a.date, a.time, a.kind,
                   a.consultationType, a.platform, a.videoRoomId, a.notes)
  }

  /** The stored appointment: the request with a fresh id and status Upcoming. */
  function NewAppointment(req: BookingRequest, id: string): (a: Appointment)
    ensures a.id == id && a.status == Upcoming
    ensures RequestOf(a) == req
  {
    Appointment(id, req.patientId, req.patientName, req.nurseId, req.nurseName, req.date, req.time,
                req.kind, req.consultationType, req.platform, req.videoRoomId, Upcoming, req.notes)
  }

  /** An Upcoming appointment is exactly what booking its own request under its own id stores. */
  lemma NewAppointmentOfRequest(a: Appointment)
    requires a.status == Upcoming
    ensures NewAppointment(RequestOf(a), a.id) == a
  {
  }

  /** The appointment list after a booking: the new one in front, the rest in order. The
      booking is accepted whatever the list holds. */
  function Booked(appts: seq<Appointment>, req: BookingRequest, id: string): (r: seq<Appointment>)
    ensures |r| == |appts| + 1
    ensures r[0].id == id && r[0].status == Upcoming && RequestOf(r[0]) == req
    ensures r[1..] == appts
  {
    [NewAppointment(req, id)] + appts
  }

  /** Upcoming appointments holding a given nurse's slot. */
  function UpcomingAt(appts: seq<Appointment>, nurseId: string, date: string, time: string): (r: nat)
    ensures r <= |appts|
  {
    if appts == [] then 0
    else
      var a := appts[0];
      (if a.status == Upcoming && a.nurseId == nurseId && a.date == date && a.time == time then 1 else 0)
      + UpcomingAt(appts[1..], nurseId, date, time)
  }

  /** Booking a slot adds one Upcoming appointment for it, however many the list already
      has: booking the same nurse, date and time twice leaves two. */
  lemma BookingNeverRejects(appts: seq<Appointment>, req: BookingRequest, id1: string, id2: string)
    ensures UpcomingAt(Booked(appts, req, id1), req.nurseId, req.date, req.time)
         == UpcomingAt(appts, req.nurseId, req.date, req.time) + 1
    ensures UpcomingAt(Booked(Booked(appts, req, id1), req, id2), req.nurseId, req.date, req.time)
         == UpcomingAt(appts, req.nurseId, req.date, req.time) + 2
  {
    var once := Booked(appts, req, id1);
    assert once[1..] == appts;
    var twice := Booked(once, req, id2);
    assert twice[1..] == once;
  }

  /** The patient's confirmation text. */
  function PatientMessage(req: BookingRequest): string {
    "Your appointment with " + req.nurseName + PatientTail(req)
  }

  function PatientTail(req: BookingRequest): string {
    " is scheduled for " + req.date + " at " + req.time + ". Confirmation email sent."
  }

  /** The nurse's assignment text. */
  function NurseMessage(req: BookingRequest): string {
    "Urgent: Patient " + req.patientName + NurseTail(req)
  }

  function NurseTail(req: BookingRequest): string {
    " has booked a " + req.kind + " session with you for " + req.date + ". Check your schedule."
  }

  /** The administrator's audit text. */
  function AuditMessage(req: BookingRequest): string {
    "Audit Alert: Booking established between " + req.patientName + AuditTail(req)
  }

  function AuditTail(req: BookingRequest): string {
    " and " + req.nurseName + ". HIPAA/POPIA compliant emails dispatched to all parties."
  }

  /** Each message names the people it is about. */
  lemma MessagesNameParties(req: BookingRequest)
    ensures Text.Includes(PatientMessage(req), req.nurseName)
    ensures Text.Includes(NurseMessage(req), req.patientName)
    ensures Text.Includes(AuditMessage(req), req.patientName)
    ensures Text.Includes(AuditMessage(req), req.nurseName)
  {
    Text.IncludesMiddle("Your appointment with ", req.nurseName, PatientTail(req));
    Text.IncludesMiddle("Urgent: Patient ", req.patientName, NurseTail(req));
    Text.IncludesMiddle("Audit Alert: Booking established between ", req.patientName, AuditTail(req));
    Text.IncludesMiddle(" and ", req.nurseName, ". HIPAA/POPIA compliant emails dispatched to all parties.");
    Text.IncludesInSuffix("Audit Alert: Booking established between " + req.patientName, AuditTail(req), req.nurseName);
  }

  /** The three notifications a booking raises, for the patient, the nurse and the
      administrator. `p`, `n` and `a` are the random parts of their ids. */
  function BookingNotifications(req: BookingRequest, p: string, n: string, a: string, timestamp: string)
    : (r: seq<AppNotification>)
    ensures |r| == 3
    ensures forall k :: 0 <= k < 3 ==> !r[k].read && r[k].timestamp == timestamp
    ensures r[0].kind == AppointmentAlert && r[0].title == "Booking Confirmed"
    ensures r[0].actionUrl == Some("dashboard") && r[0].id == "p-" + p
    ensures r[1].kind == AppointmentAlert && r[1].title == "New Clinical Assignment"
    ensures r[1].actionUrl == Some("dashboard") && r[1].id == "n-" + n
    ensures r[2].kind == SecurityAlert && r[2].title == "System Roster Update"
    ensures r[2].actionUrl == Some("admin_appointments") && r[2].id == "a-" + a
    ensures Text.Includes(r[0].message, req.nurseName) && Text.Includes(r[1].message, req.patientName)
    ensures Text.Includes(r[2].message, req.patientName) && Text.Includes(r[2].message, req.nurseName)
  {
    MessagesNameParties(req);
    var pn, nn, an := PatientNotice(req, p, timestamp), NurseNotice(req, n, timestamp), AuditNotice(req, a, timestamp);
    var r := [pn, nn, an];
    assert r[0] == pn && r[1] == nn && r[2] == an;
    r
  }

  function PatientNotice(req: BookingRequest, p: string, timestamp: string): (r: AppNotification)
    ensures r.id == "p-" + p && r.kind == AppointmentAlert && r.title == "Booking Confirmed"
    ensures r.message == PatientMessage(req) && r.timestamp == timestamp && !r.read
    ensures r.actionUrl == Some("dashboard")
  {
    AppNotification("p-" + p, AppointmentAlert, "Booking Confirmed", PatientMessage(req), timestamp,
                    false, Some(AppRoute.Dashboard.Path()))
  }

  function NurseNotice(req: BookingRequest, n: string, timestamp: string): (r: AppNotification)
    ensures r.id == "n-" + n && r.kind == AppointmentAlert && r.title == "New Clinical Assignment"
    ensures r.message == NurseMessage(req) && r.timestamp == timestamp && !r.read
    ensures r.actionUrl == Some("dashboard")
  {
    AppNotification("n-" + n, AppointmentAlert, "New Clinical Assignment", NurseMessage(req), timestamp,
                    false, Some(AppRoute.Dashboard.Path()))
  }

  function AuditNotice(req: BookingRequest, a: string, timestamp: string): (r: AppNotification)
    ensures r.id == "a-" + a && r.kind == SecurityAlert && r.title == "System Roster Update"
    ensures r.message == AuditMessage(req) && r.timestamp == timestamp && !r.read
    ensures r.actionUrl == Some("admin_appointments")
  {
    AppNotification("a-" + a, SecurityAlert, "System Roster Update", AuditMessage(req), timestamp,
                    false, Some(AppRoute.AdminAppointments.Path()))
  }

  // ---------------------------------------------------------------------------------
  // Notifications

  /** The unread badge: how many notifications are unread. */
  function UnreadCount(ns: seq<AppNotification>): (r: nat)
    ensures r <= |ns|
    ensures r == 0 <==> forall i :: 0 <= i < |ns| ==> ns[i].read
  {
    if ns == [] then 0
    else (if ns[0].read then 0 else 1) + UnreadCount(ns[1..])
  }

  lemma {:induction false} UnreadCountAppend(a: seq<AppNotification>, b: seq<AppNotification>)
    ensures UnreadCount(a + b) == UnreadCount(a) + UnreadCount(b)
  {
    if a == [] {
      assert a + b == b;
    } else {
      assert (a + b)[0] == a[0];
      assert (a + b)[1..] == a[1..] + b;
      UnreadCountAppend(a[1..], b);
    }
  }

  /** A booking raises the unread count by exactly three. */
  lemma BookingAddsThreeUnread(ns: seq<AppNotification>, req: BookingRequest, p: string, n: string, a: string, ts: string)
    ensures UnreadCount(BookingNotifications(req, p, n, a, ts) + ns) == UnreadCount(ns) + 3
  {
    var raised := BookingNotifications(req, p, n, a, ts);
    UnreadCountAppend(raised, ns);
    AllUnreadCount(raised);
  }

  /** A list of unread notifications counts in full. */
  lemma {:induction false} AllUnreadCount(ns: seq<AppNotification>)
    requires forall i :: 0 <= i < |ns| ==> !ns[i].read
    ensures UnreadCount(ns) == |ns|
  {
    if ns != [] {
      AllUnreadCount(ns[1..]);
    }
  }

  /** `markNotificationRead`: every notification with that id becomes read. */
  function MarkRead(ns: seq<AppNotification>, id: string): (r: seq<AppNotification>)
    ensures |r| == |ns|
    ensures forall i :: 0 <= i < |ns| ==> r[i] == if ns[i].id == id then ns[i].(read := true) else ns[i]
  {
    if ns == [] then []
    else [if ns[0].id == id then ns[0].(read := true) else ns[0]] + MarkRead(ns[1..], id)
  }

  /** Marking twice is marking once. */
  lemma MarkReadIdempotent(ns: seq<AppNotification>, id: string)
    ensures MarkRead(MarkRead(ns, id), id) == MarkRead(ns, id)
  {
  }

  /** Unread notifications with a given id. */
  function UnreadWithId(ns: seq<AppNotification>, id: string): (r: nat)
    ensures r <= UnreadCount(ns)
  {
    if ns == [] then 0
    else (if !ns[0].read && ns[0].id == id then 1 else 0) + UnreadWithId(ns[1..], id)
  }

  /** Marking an id read lowers the badge by the number of unread notifications with it. */
  lemma {:induction false} MarkReadLowersUnread(ns: seq<AppNotification>, id: string)
    ensures UnreadCount(MarkRead(ns, id)) == UnreadCount(ns) - UnreadWithId(ns, id)
  {
    if ns != [] {
      MarkReadLowersUnread(ns[1..], id);
      assert MarkRead(ns, id)[1..] == MarkRead(ns[1..], id);
    }
  }

  // ---------------------------------------------------------------------------------
  // Nurses

  /** `updateNurse`: each record with the updated record's id is replaced by it. */
  function ReplaceNurse(ns: seq<Nurse>, updated: Nurse): (r: seq<Nurse>)
    ensures |r| == |ns|
    ensures forall i :: 0 <= i < |ns| ==> r[i] == if ns[i].id == updated.id then updated else ns[i]
  {
    if ns == [] then []
    else [if ns[0].id == updated.id then updated else ns[0]] + ReplaceNurse(ns[1..], updated)
  }

  /** An update whose id is not on the list changes nothing; one whose id is on it puts the
      record in the list. */
  lemma ReplaceNurseEffect(ns: seq<Nurse>, updated: Nurse)
    ensures (forall i :: 0 <= i < |ns| ==> ns[i].id != updated.id) ==> ReplaceNurse(ns, updated) == ns
    ensures (exists i :: 0 <= i < |ns| && ns[i].id == updated.id) ==> updated in ReplaceNurse(ns, updated)
  {
    if exists i :: 0 <= i < |ns| && ns[i].id == updated.id {
      var i :| 0 <= i < |ns| && ns[i].id == updated.id;
      assert ReplaceNurse(ns, updated)[i] == updated;
    }
  }

  /** Replacing with the same record twice is replacing once. */
  lemma ReplaceNurseIdempotent(ns: seq<Nurse>, updated: Nurse)
    ensures ReplaceNurse(ReplaceNurse(ns, updated), updated) == ReplaceNurse(ns, updated)
  {
  }

  // ---------------------------------------------------------------------------------
  // Legal status and user

  /** `{ ...prev, ...update }`: each property the update carries overrides the old one. */
  function ApplyLegal(s: LegalStatus, u: LegalUpdate): (r: LegalStatus)
    ensures r.indemnitySigned == u.indemnitySigned.GetOr(s.indemnitySigned)
    ensures r.indemnityDate == if u.indemnityDate.Some? then u.indemnityDate else s.indemnityDate
    ensures r.popiaConsent == u.popiaConsent.GetOr(s.popiaConsent)
    ensures r.popiaDate == if u.popiaDate.Some? then u.popiaDate else s.popiaDate
    ensures r.dataSharingConsent == u.dataSharingConsent.GetOr(s.dataSharingConsent)
    ensures r.identityVerified == u.identityVerified.GetOr(s.identityVerified)
    ensures r.telemedicineConsent == u.telemedicineConsent.GetOr(s.telemedicineConsent)
    ensures r.sharingPreferences == u.sharingPreferences.GetOr(s.sharingPreferences)
    ensures r.indemnitySignature == if u.indemnitySignature.Some? then u.indemnitySignature else s.indemnitySignature
    ensures r.popiaSignature == if u.popiaSignature.Some? then u.popiaSignature else s.popiaSignature
    ensures r.nhiComplianceStatus == s.nhiComplianceStatus
  {
    LegalStatus(
      u.indemnitySigned.GetOr(s.indemnitySigned),
      if u.indemnityDate.Some? then u.indemnityDate else s.indemnityDate,
      if u.indemnitySignature.Some? then u.indemnitySignature else s.indemnitySignature,
      u.popiaConsent.GetOr(s.popiaConsent),
      if u.popiaDate.Some? then u.popiaDate else s.popiaDate,
      if u.popiaSignature.Some? then u.popiaSignature else s.popiaSignature,
      u.dataSharingConsent.GetOr(s.dataSharingConsent),
      s.nhiComplianceStatus,
      u.identityVerified.GetOr(s.identityVerified),
      u.telemedicineConsent.GetOr(s.telemedicineConsent),
      u.sharingPreferences.GetOr(s.sharingPreferences))
  }

  function Override<T>(first: Option<T>, second: Option<T>): Option<T> {
    if second.Some? then second else first
  }

  /** The partial record `{ ...first, ...second }`. */
  function MergeLegal(first: LegalUpdate, second: LegalUpdate): LegalUpdate {
    LegalUpdate(
      Override(first.indemnitySigned, second.indemnitySigned),
      Override(first.indemnityDate, second.indemnityDate),
      Override(first.indemnitySignature, second.indemnitySignature),
      Override(first.popiaConsent, second.popiaConsent),
      Override(first.popiaDate, second.popiaDate),
      Override(first.popiaSignature, second.popiaSignature),
      Override(first.dataSharingConsent, second.dataSharingConsent),
      Override(first.identityVerified, second.identityVerified),
      Override(first.telemedicineConsent, second.telemedicineConsent),
      Override(first.sharingPreferences, second.sharingPreferences))
  }

  lemma GetOrTwice<T>(x: T, o1: Option<T>, o2: Option<T>)
    ensures o2.GetOr(o1.GetOr(x)) == Override(o1, o2).GetOr(x)
  {
  }

  lemma OverrideTwice<T>(x: Option<T>, o1: Option<T>, o2: Option<T>)
    ensures (if o2.Some? then o2 else if o1.Some? then o1 else x) == Override(x, Override(o1, o2))
  {
  }

  /** Two updates in a row are one merged update. */
  lemma ApplyLegalCompose(s: LegalStatus, u1: LegalUpdate, u2: LegalUpdate)
    ensures ApplyLegal(ApplyLegal(s, u1), u2) == ApplyLegal(s, MergeLegal(u1, u2))
  {
    var m, t := MergeLegal(u1, u2), ApplyLegal(s, u1);
    var a, b := ApplyLegal(t, u2), ApplyLegal(s, m);
    GetOrTwice(s.indemnitySigned, u1.indemnitySigned, u2.indemnitySigned);
    OverrideTwice(s.indemnityDate, u1.indemnityDate, u2.indemnityDate);
    OverrideTwice(s.indemnitySignature, u1.indemnitySignature, u2.indemnitySignature);
    GetOrTwice(s.popiaConsent, u1.popiaConsent, u2.popiaConsent);
    OverrideTwice(s.popiaDate, u1.popiaDate, u2.popiaDate);
    OverrideTwice(s.popiaSignature, u1.popiaSignature, u2.popiaSignature);
    GetOrTwice(s.dataSharingConsent, u1.dataSharingConsent, u2.dataSharingConsent);
    GetOrTwice(s.identityVerified, u1.identityVerified, u2.identityVerified);
    GetOrTwice(s.telemedicineConsent, u1.telemedicineConsent, u2.telemedicineConsent);
    GetOrTwice(s.sharingPreferences, u1.sharingPreferences, u2.sharingPreferences);
  }

  /** The empty update changes nothing. */
  lemma ApplyLegalNothing(s: LegalStatus)
    ensures ApplyLegal(s, NoLegalChange) == s
  {
  }

  /** `prev ? { ...prev, ...userData } : null`. */
  function ApplyUser(user: Option<User>, u: UserUpdate): (r: Option<User>)
    ensures r.None? <==> user.None?
    ensures r.Some? ==> r.value == user.value.(
      saIdNumber := if u.saIdNumber.Some? then u.saIdNumber else user.value.saIdNumber,
      medicalAidName := if u.medicalAidName.Some? then u.medicalAidName else user.value.medicalAidName,
      medicalAidNumber := if u.medicalAidNumber.Some? then u.medicalAidNumber else user.value.medicalAidNumber)
  {
    match user
    case None => None
    case Some(v) => Some(v.(
      saIdNumber := Override(v.saIdNumber, u.saIdNumber),
      medicalAidName := Override(v.medicalAidName, u.medicalAidName),
      medicalAidNumber := Override(v.medicalAidNumber, u.medicalAidNumber)))
  }

  /** `handleCheckIn`: the form is stored under the appointment id. */
  function RecordCheckIn(records: map<string, CheckInData>, apptId: string, data: CheckInData)
    : (r: map<string, CheckInData>)
    ensures r.Keys == records.Keys + {apptId} && r[apptId] == data
    ensures forall k :: k in records && k != apptId ==> r[k] == records[k]
  {
    records[apptId := data]
  }

  /** A later check-in for the same appointment replaces the earlier one. */
  lemma CheckInOverwrites(records: map<string, CheckInData>, apptId: string, d1: CheckInData, d2: CheckInData)
    ensures RecordCheckIn(RecordCheckIn(records, apptId, d1), apptId, d2) == RecordCheckIn(records, apptId, d2)
  {
  }

  /** The store-level compliance rule that admits a patient past onboarding. */
  predicate IsCompliant(l: LegalStatus) {
    l.indemnitySigned && l.popiaConsent && l.identityVerified
  }

  /** A signed-in user is sent to onboarding iff they are a patient who is not compliant. */
  function ShowsOnboarding(role: UserRole, l: LegalStatus): (r: bool)
    ensures r <==> role == Patient && !(l.indemnitySigned && l.popiaConsent && l.identityVerified)
    ensures role != Patient ==> !r
  {
    role == Patient && !IsCompliant(l)
  }

  const InitialLegal := LegalStatus(
    false, None, None, false, None, None, false, "Ready", false, false,
    SharingPreferences(true, true, false, false, false))

  const InitialPreferences := NotificationPreferences(
    CategoryPrefs(true, true, true, true, true), ChannelPrefs(true, true, false))

  // ---------------------------------------------------------------------------------
  // The store

  class Store {
    var user: Option<User>
    var nurses: seq<Nurse>
    var appointments: seq<Appointment>
    var notifications: seq<AppNotification>
    var checkInRecords: map<string, CheckInData>
    var legalStatus: LegalStatus
    var preferences: NotificationPreferences

    /** The state on a first visit: the given user, lists and empty check-ins, and the
        default legal status and preferences. */
    constructor (user0: Option<User>, nurses0: seq<Nurse>, appts0: seq<Appointment>, notifs0: seq<AppNotification>)
      ensures user == user0 && nurses == nurses0 && appointments == appts0 && notifications == notifs0
      ensures checkInRecords == map[] && legalStatus == InitialLegal && preferences == InitialPreferences
    {
      user := user0;
      nurses := nurses0;
      appointments := appts0;
      notifications := notifs0;
      checkInRecords := map[];
      legalStatus := InitialLegal;
      preferences := InitialPreferences;
    }

    /** `handleBookAppointment` with the random ids and the timestamp supplied. */
    method BookAppointment(req: BookingRequest, id: string, p: string, n: string, a: string, timestamp: string)
      modifies this
      ensures appointments == Booked(old(appointments), req, id)
      ensures notifications == BookingNotifications(req, p, n, a, timestamp) + old(notifications)
      ensures user == old(user) && nurses == old(nurses) && checkInRecords == old(checkInRecords)
      ensures legalStatus == old(legalStatus) && preferences == old(preferences)
    {
      appointments := [NewAppointment(req, id)] + appointments;
      notifications := BookingNotifications(req, p, n, a, timestamp) + notifications;
    }

    method MarkNotificationRead(id: string)
      modifies this
      ensures notifications == MarkRead(old(notifications), id)
      ensures user == old(user) && nurses == old(nurses) && appointments == old(appointments)
      ensures checkInRecords == old(checkInRecords) && legalStatus == old(legalStatus)
      ensures preferences == old(preferences)
    {
      notifications := MarkRead(notifications, id);
    }

    method UpdateNurse(updated: Nurse)
      modifies this
      ensures nurses == ReplaceNurse(old(nurses), updated)
      ensures user == old(user) && appointments == old(appointments) && notifications == old(notifications)
      ensures checkInRecords == old(checkInRecords) && legalStatus == old(legalStatus)
      ensures preferences == old(preferences)
    {
      nurses := ReplaceNurse(nurses, updated);
    }

    method AddNurse(added: Nurse)
      modifies this
      ensures nurses == old(nurses) + [added]
      ensures user == old(user) && appointments == old(appointments) && notifications == old(notifications)
      ensures checkInRecords == old(checkInRecords) && legalStatus == old(legalStatus)
      ensures preferences == old(preferences)
    {
      nurses := nurses + [added];
    }

    method UpdateLegalStatus(u: LegalUpdate)
      modifies this
      ensures legalStatus == ApplyLegal(old(legalStatus), u)
      ensures user == old(user) && nurses == old(nurses) && appointments == old(appointments)
      ensures notifications == old(notifications) && checkInRecords == old(checkInRecords)
      ensures preferences == old(preferences)
    {
      legalStatus := ApplyLegal(legalStatus, u);
    }

    /** `handleOnboardingComplete`: merges the legal and the user records. */
    method OnboardingComplete(legal: LegalUpdate, userData: UserUpdate)
      modifies this
      ensures legalStatus == ApplyLegal(old(legalStatus), legal)
      ensures user == ApplyUser(old(user), userData)
      ensures nurses == old(nurses) && appointments == old(appointments)
      ensures notifications == old(notifications) && checkInRecords == old(checkInRecords)
      ensures preferences == old(preferences)
    {
      legalStatus := ApplyLegal(legalStatus, legal);
      user := ApplyUser(user, userData);
    }

    method HandleCheckIn(apptId: string, data: CheckInData)
      modifies this
      ensures checkInRecords == RecordCheckIn(old(checkInRecords), apptId, data)
      ensures user == old(user) && nurses == old(nurses) && appointments == old(appointments)
      ensures notifications == old(notifications) && legalStatus == old(legalStatus)
      ensures preferences == old(preferences)
    {
      checkInRecords := RecordCheckIn(checkInRecords, apptId, data);
    }

    method SetPreferences(p: NotificationPreferences)
      modifies this
      ensures preferences == p
      ensures user == old(user) && nurses == old(nurses) && appointments == old(appointments)
      ensures notifications == old(notifications) && checkInRecords == old(checkInRecords)
      ensures legalStatus == old(legalStatus)
    {
      preferences := p;
    }

    /** The badge count the sidebar shows. */
    function Unread(): (r: nat)
      reads this
      ensures r <= |notifications|
    {
      UnreadCount(notifications)
    }

    /** Whether the signed-in user is held at onboarding. */
    function AtOnboarding(): (r: bool)
      reads this
      ensures r ==> user.Some? && user.value.role == Patient
    {
      user.Some? && ShowsOnboarding(user.value.role, legalStatus)
    }
  }
}
