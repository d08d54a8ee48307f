/** The records and string unions of the portal's data model. A string union becomes a
    datatype with one constructor per member; `Label` gives the member's string and `Parse`
    recognises exactly those strings. An optional property (`x?: T`) becomes an `Option`. */
module Types {
  import opened Wrappers

  datatype UserRole = Patient | Admin | Nurse {
    function Label(): string {
      match this
      case Patient => "PATIENT"
      case Admin => "ADMIN"
      case Nurse => "NURSE"
    }
  }

  datatype MeetingPlatform = GoogleMeet | MsTeams {
    function Label(): string {
      match this
      case GoogleMeet => "Google Meet"
      case MsTeams => "MS Teams"
    }
  }

  datatype NurseCategory = RegisteredNurse | StaffNurse | NursingAssistant | NursePractitioner {
    function Label(): string {
      match this
      case RegisteredNurse => "Professional Nurse (RN)"
      case StaffNurse => "Staff Nurse (EN)"
      case NursingAssistant => "Nursing Assistant (ENA)"
      case NursePractitioner => "Nurse Practitioner (NP)"
    }
  }

  datatype NurseStatus = Available | OnACall | Offline {
    function Label(): string {
      match this
      case Available => "Available"
      case OnACall => "On a Call"
      case Offline => "Offline"
    }
  }

  /** The status union has exactly three members: a string is a status iff it is the
      label of exactly one of them. */
  function ParseNurseStatus(s: string): (r: Option<NurseStatus>)
    ensures forall x: NurseStatus :: x.Label() == s <==> r == Some(x)
  {
    if s == "Available" then Some(Available)
    else if s == "On a Call" then Some(OnACall)
    else if s == "Offline" then Some(Offline)
    else None
  }

  datatype ConsultationType = InPerson | Virtual {
    function Label(): string {
      match this
      case InPerson => "In-person"
      case Virtual => "Virtual"
    }
  }

  function ParseConsultationType(s: string): (r: Option<ConsultationType>)
    ensures forall x: ConsultationType :: x.Label() == s <==> r == Some(x)
  {
    if s == "In-person" then Some(InPerson)
    else if s == "Virtual" then Some(Virtual)
    else None
  }

  datatype AppointmentStatus = Upcoming | Completed | Cancelled {
    function Label(): string {
      match this
      case Upcoming => "Upcoming"
      case Completed => "Completed"
      case Cancelled => "Cancelled"
    }
  }

  function ParseAppointmentStatus(s: string): (r: Option<AppointmentStatus>)
    ensures forall x: AppointmentStatus :: x.Label() == s <==> r == Some(x)
  {
    if s == "Upcoming" then Some(Upcoming)
    else if s == "Completed" then Some(Completed)
    else if s == "Cancelled" then Some(Cancelled)
    else None
  }

  datatype NotificationType = AppointmentAlert | RecordAlert | HealthAlert | SystemAlert | SecurityAlert {
    function Label(): string {
      match this
      case AppointmentAlert => "APPOINTMENT"
      case RecordAlert => "RECORD"
      case HealthAlert => "HEALTH_ALERT"
      case SystemAlert => "SYSTEM"
      case SecurityAlert => "SECURITY"
    }
  }

  function ParseNotificationType(s: string): (r: Option<NotificationType>)
    ensures forall x: NotificationType :: x.Label() == s <==> r == Some(x)
  {
    if s == "APPOINTMENT" then Some(AppointmentAlert)
    else if s == "RECORD" then Some(RecordAlert)
    else if s == "HEALTH_ALERT" then Some(HealthAlert)
    else if s == "SYSTEM" then Some(SystemAlert)
    else if s == "SECURITY" then Some(SecurityAlert)
    else None
  }

  datatype Testimonial = Testimonial(patientName: string, rating: int, comment: string)

  /** A staff record. `availability` maps a `YYYY-MM-DD` date key to that day's slot labels. */
  datatype Nurse = Nurse(
    id: string,
    name: string,
    sancNumber: string,
    nurseType: NurseCategory,
    specialty: string,
    img: string,
    active: bool,
    status: NurseStatus,
    certifications: seq<string>,
    languages: seq<string>,
    testimonials: seq<Testimonial>,
    availability: map<string, seq<string>>,
    blockedDates: Option<seq<string>>)

  /** The blocked dates as the calendar reads them: an absent list is an empty one. */
  function BlockedList(n: Nurse): (r: seq<string>)
    ensures n.blockedDates.None? ==> r == []
    ensures n.blockedDates.Some? ==> r == n.blockedDates.value
  {
    n.blockedDates.GetOr([])
  }

  /** An appointment; the property `type` is called `kind` here. */
  datatype Appointment = Appointment(
    id: string,
    patientId: string,
    patientName: string,
    nurseId: string,
    nurseName: string,
    date: string,
    time: string,
    kind: string,
    consultationType: ConsultationType,
    platform: Option<MeetingPlatform>,
    videoRoomId: Option<string>,
    status: AppointmentStatus,
    notes: Option<string>)

  datatype AppNotification = AppNotification(
    id: string,
    kind: NotificationType,
    title: string,
    message: string,
    timestamp: string,
    read: bool,
    actionUrl: Option<string>)

  /** One switch per notification type. */
  datatype CategoryPrefs = CategoryPrefs(
    appointment: bool, record: bool, healthAlert: bool, system: bool, security: bool)
  {
    function Get(t: NotificationType): bool {
      match t
      case AppointmentAlert => appointment
      case RecordAlert => record
      case HealthAlert => healthAlert
      case SystemAlert => system
      case SecurityAlert => security
    }

    /** The record with the switch for `t` set to `v`, every other switch as before. */
    function With(t: NotificationType, v: bool): (r: CategoryPrefs)
      ensures r.Get(t) == v
      ensures forall u :: u != t ==> r.Get(u) == Get(u)
    {
      match t
      case AppointmentAlert => this.(appointment := v)
      case RecordAlert => this.(record := v)
      case HealthAlert => this.(healthAlert := v)
      case SystemAlert => this.(system := v)
      case SecurityAlert => this.(security := v)
    }
  }

  datatype Channel = InApp | Email | Sms

  datatype ChannelPrefs = ChannelPrefs(inApp: bool, email: bool, sms: bool) {
    function Get(c: Channel): bool {
      match c
      case InApp => inApp
      case Email => email
      case Sms => sms
    }

    function With(c: Channel, v: bool): (r: ChannelPrefs)
      ensures r.Get(c) == v
      ensures forall d :: d != c ==> r.Get(d) == Get(d)
    {
      match c
      case InApp => this.(inApp := v)
      case Email => this.(email := v)
      case Sms => this.(sms := v)
    }
  }

  datatype NotificationPreferences = NotificationPreferences(categories: CategoryPrefs, channels: ChannelPrefs)

  /** The keys of `LegalStatus.sharingPreferences`. */
  datatype SharingKey = Labs | Specialists | Insurance | Research | CrossBorder

  datatype SharingPreferences = SharingPreferences(
    labs: bool, specialists: bool, insurance: bool, research: bool, crossBorder: bool)
  {
    function Get(k: SharingKey): bool {
      match k
      case Labs => labs
      case Specialists => specialists
      case Insurance => insurance
      case Research => research
      case CrossBorder => crossBorder
    }

    function With(k: SharingKey, v: bool): (r: SharingPreferences)
      ensures r.Get(k) == v
      ensures forall j :: j != k ==> r.Get(j) == Get(j)
    {
      match k
      case Labs => this.(labs := v)
      case Specialists => this.(specialists := v)
      case Insurance => this.(insurance := v)
      case Research => this.(research := v)
      case CrossBorder => this.(crossBorder := v)
    }

    /** `Object.values(prefs).some(v => v)`. */
    function AnyEnabled(): (r: bool)
      ensures r <==> exists k :: Get(k)
    {
      assert labs ==> Get(Labs);
      assert specialists ==> Get(Specialists);
      assert insurance ==> Get(Insurance);
      assert research ==> Get(Research);
      assert crossBorder ==> Get(CrossBorder);
      labs || specialists || insurance || research || crossBorder
    }
  }

  /** The legal and consent state. `nhiComplianceStatus` is a string because the store's
      initial value, 'Ready', lies outside the declared union. */
  datatype LegalStatus = LegalStatus(
    indemnitySigned: bool,
    indemnityDate: Option<string>,
    indemnitySignature: Option<string>,
    popiaConsent: bool,
    popiaDate: Option<string>,
    popiaSignature: Option<string>,
    dataSharingConsent: bool,
    nhiComplianceStatus: string,
    identityVerified: bool,
    telemedicineConsent: bool,
    sharingPreferences: SharingPreferences)

  /** `Partial<LegalStatus>`: `Some` for each property the partial record carries. */
  datatype LegalUpdate = LegalUpdate(
    indemnitySigned: Option<bool>,
    indemnityDate: Option<string>,
    indemnitySignature: Option<string>,
    popiaConsent: Option<bool>,
    popiaDate: Option<string>,
    popiaSignature: Option<string>,
    dataSharingConsent: Option<bool>,
    identityVerified: Option<bool>,
    telemedicineConsent: Option<bool>,
    sharingPreferences: Option<SharingPreferences>)

  const NoLegalChange := LegalUpdate(None, None, None, None, None, None, None, None, None, None)

  datatype SecurityConfig = SecurityConfig(
    mfaEnabled: bool,
    biometricEnabled: bool,
    lastAudit: string,
    loginAlerts: bool,
    autoTimeoutMinutes: int,
    privacyMode: bool)

  datatype User = User(
    id: string,
    patientId: Option<string>,
    email: string,
    firstName: string,
    surname: string,
    name: string,
    role: UserRole,
    avatarUrl: Option<string>,
    nurseId: Option<string>,
    saIdNumber: Option<string>,
    medicalAidName: Option<string>,
    medicalAidNumber: Option<string>,
    security: Option<SecurityConfig>)

  /** The part of `Partial<User>` that onboarding supplies. */
  datatype UserUpdate = UserUpdate(
    saIdNumber: Option<string>, medicalAidName: Option<string>, medicalAidNumber: Option<string>)

  datatype UpdateType = Feature | Security | Maintenance

  datatype FeatureFlag = FeatureFlag(id: string, name: string, description: string, isEnabled: bool)

  /** The pre-visit check-in form (declared in components/Dashboard.tsx). */
  datatype CheckInData = CheckInData(
    idNumber: string,
    medicalAid: string,
    memberNumber: string,
    emergencyContact: string,
    currentSymptoms: string,
    signature: string)

  const EmptyCheckIn := CheckInData("", "", "", "", "", "")

  /** The routes the model refers to, with their path strings. */
  datatype AppRoute =
    | Dashboard | Booking | Records | Progress | Telehealth | Reviews
    | AdminNurses | AdminAppointments | AdminPatients | AdminCalendar | AdminAnalytics
    | VideoCall | Notifications | TrustCenter | Updates | Onboarding
    | NurseAvailability | NurseSchedule | NursePatients
  {
    function Path(): string {
      match this
      case Dashboard => "dashboard"
      case Booking => "booking"
      case Records => "records"
      case Progress => "progress"
      case Telehealth => "telehealth"
      case Reviews => "reviews"
      case AdminNurses => "admin_nurses"
      case AdminAppointments => "admin_appointments"
      case AdminPatients => "admin_patients"
      case AdminCalendar => "admin_calendar"
      case AdminAnalytics => "admin_analytics"
      case VideoCall => "video_call"
      case Notifications => "notifications"
      case TrustCenter => "trust_center"
      case Updates => "updates"
      case Onboarding => "onboarding"
      case NurseAvailability => "nurse_availability"
      case NurseSchedule => "nurse_schedule"
      case NursePatients => "nurse_patients"
    }
  }
}
