# Kidney Hub: a Dafny model of its state logic

Kidney Hub is a single-page renal-care telehealth app for patients, nurses and administrators. Patients
book nurse visits, sign their legal consents and join video consultations. Nurses publish
their available time slots. Administrators manage the staff roster, the calendar and the
feature flags. This project models the deterministic part of that app: the shared store's
updates, the handlers of each screen and the string helpers they use. It also proves what
those handlers promise.

Each source file is one Dafny module. The exceptions are four helper modules:

- `Wrappers` holds `Option`.
- `SeqUtil` models the array methods `filter` and `sort`.
- `Text` models the JavaScript string operations the screens call: string order, `String(n)`,
  `padStart`, `split`/`join`, `includes`, case mapping, `replace` and `trim`.
- `Slots` holds the slot toggle. That toggle is written out three times in the source: in the
  calendar, in the nurse portal and in the staff editor. All three are shown to compute the
  same thing.

The modules are:

- `Types` gives the records of `types.ts` as datatypes.
- `AppStore` models `App.tsx`. It is a class `Store` whose fields are the shared lists and
  maps. Each handler is a method whose new state is given by a pure function of the old one,
  and the functions carry the lemmas: booking is always accepted, three notifications are
  fanned out, mark-read is idempotent, the nurse update keeps the list's order, check-ins
  overwrite, and the compliance gate is stated.
- `AdminCalendar`, `NursePortal`, `AdminNurses`, `Booking`, `NotificationCenter`,
  `MedicalRecords`, `LegalOnboarding`, `Dashboard`, `PatientManagement`, `Sidebar`,
  `AdminDashboard`, `UpdatesPortal`, `Auth`, `VideoCall` and `Telehealth` model the component
  of the same name. Where a component keeps local state that its handlers set field by field,
  that state is a class: the booking wizard, the onboarding wizard, the staff editor, the
  records view, the check-in form, the reveal set, the update portal, the sign-in form, the
  waiting room and the intake view.
- `Telehealth` models the integer part of the PCM decoder. It is a method that fills one
  `array<int>` per channel. The method is proved equal to a decoding function, and that
  function is proved to invert an interleaving encoder.

The model follows the code as written:

- A booking is never refused. Nothing checks availability, blocked dates or earlier
  appointments.
- Slots are sorted by string order, so "01:00 PM" comes before "08:00 AM".
- No handler moves an appointment out of Upcoming.

A scheduling engine that refuses double bookings, refuses bookings on blocked dates or at
unoffered slots, and can cancel or reassign appointments is a plausible design for this
app. It is not what the code does, so none of it is modelled.

Random ids, the current time and the first nurse's photo are parameters, and so is every
value a timer or the browser produces. A timer callback is a separate method.

## Model

| member | source | states |
|---|---|---|
| Types.ParseNurseStatus | types.ts:5 | a nurse status string names exactly one of Available, On a Call, Offline, or none |
| Types.ParseConsultationType | types.ts:133 | a consultation type string is In-person or Virtual, or nothing |
| Types.ParseAppointmentStatus | types.ts:136 | an appointment status string is exactly one of Upcoming, Completed, Cancelled, or nothing |
| Types.ParseNotificationType | types.ts:140 | a notification type string names exactly one of the five types, or nothing |
| Types.BlockedList | types.ts:121 | an absent `blockedDates` reads as the empty list, a present one as itself |
| Types.CategoryPrefs.With | types.ts:152-153 | setting one category's switch sets it and leaves the other four as they were |
| Types.ChannelPrefs.With | types.ts:154-158 | setting one channel's switch sets it and leaves the other two as they were |
| Types.SharingPreferences.With | types.ts:70-76 | setting one of the five sharing keys sets it and leaves the other four as they were |
| Types.SharingPreferences.AnyEnabled | types.ts:70-76 | true iff some sharing key is on |
| AppStore.NewAppointment | App.tsx:213-217 | the stored appointment has the fresh id, status Upcoming, and every requested field unchanged |
| AppStore.NewAppointmentOfRequest | App.tsx:213-217 | every Upcoming appointment is exactly what booking its own fields under its own id stores |
| AppStore.Booked | App.tsx:218 | the list grows by one, the new appointment first, the old ones after it unchanged and in order |
| AppStore.BookingNeverRejects | App.tsx:211-218 | booking adds one Upcoming appointment at the slot whatever is there; booking the same nurse, date and time twice leaves two more |
| AppStore.MessagesNameParties | App.tsx:225 | the patient text names the nurse, the nurse text names the patient, the audit text names both (see also lines 234, 243) |
| AppStore.BookingNotifications | App.tsx:220-248 | exactly three unread notifications with one timestamp: APPOINTMENT "Booking Confirmed", APPOINTMENT "New Clinical Assignment", SECURITY "System Roster Update", with action routes dashboard, dashboard, admin_appointments and ids prefixed p-, n-, a- |
| AppStore.UnreadCount | App.tsx:257 | the count is at most the list length and is 0 iff every notification is read |
| AppStore.UnreadCountAppend | App.tsx:257 | the unread count of a concatenation is the sum of the counts |
| AppStore.BookingAddsThreeUnread | App.tsx:250 | after a booking's notifications are prepended the unread count is three higher (see also line 257) |
| AppStore.MarkRead | App.tsx:189-191 | same length; a notification with the id becomes read and every other one is unchanged |
| AppStore.MarkReadIdempotent | App.tsx:189-191 | marking the same id read twice is marking it once |
| AppStore.MarkReadLowersUnread | App.tsx:189-191 | marking an id read lowers the unread count by exactly the unread notifications carrying that id (see also line 257) |
| AppStore.ReplaceNurse | App.tsx:193-195 | same length and order; each record with the updated id is replaced, every other record is unchanged |
| AppStore.ReplaceNurseEffect | App.tsx:193-195 | an update with an unknown id changes nothing; one with a known id puts the record in the list |
| AppStore.ReplaceNurseIdempotent | App.tsx:193-195 | applying the same update twice is applying it once |
| AppStore.ApplyLegal | App.tsx:201-203 | each property the partial update carries overrides the old one; every absent property keeps its old value |
| AppStore.ApplyLegalCompose | App.tsx:201-203 | two partial updates in a row equal their merged update (see also line 206) |
| AppStore.ApplyLegalNothing | App.tsx:201-203 | the empty update leaves the legal status as it was |
| AppStore.ApplyUser | App.tsx:207 | no user stays no user; a user gets the three carried identity fields overridden and keeps the rest |
| AppStore.RecordCheckIn | App.tsx:253-255 | the record is stored under the appointment id; every other key and its record is untouched |
| AppStore.CheckInOverwrites | App.tsx:253-255 | a second check-in for the same appointment replaces the first |
| AppStore.ShowsOnboarding | App.tsx:296-299 | a user is held at onboarding iff a patient lacking one of indemnity, POPIA consent and identity verification; other roles never are |
| AppStore.Store.constructor | App.tsx:63-115 | the store starts from the loaded user and lists, no check-ins, the default legal status and default preferences |
| AppStore.Store.BookAppointment | App.tsx:211-251 | appointments become `Booked(...)`, the three notifications go in front of the old ones, nothing else changes |
| AppStore.Store.MarkNotificationRead | App.tsx:189-191 | notifications become `MarkRead(...)`, nothing else changes |
| AppStore.Store.UpdateNurse | App.tsx:193-195 | nurses become `ReplaceNurse(...)`, nothing else changes |
| AppStore.Store.AddNurse | App.tsx:197-199 | the nurse is appended at the end, nothing else changes |
| AppStore.Store.UpdateLegalStatus | App.tsx:201-203 | the legal status is the old one overridden by the update, nothing else changes |
| AppStore.Store.OnboardingComplete | App.tsx:205-209 | both the legal status and the user are overridden by their partial updates, nothing else changes |
| AppStore.Store.HandleCheckIn | App.tsx:253-255 | the check-in map gets the record under the appointment id, nothing else changes |
| AppStore.Store.SetPreferences | App.tsx:102-115 | the preferences are replaced, nothing else changes (see also line 369) |
| AppStore.Store.Unread | App.tsx:257 | the badge count never exceeds the number of notifications |
| AppStore.Store.AtOnboarding | App.tsx:296-299 | only a signed-in patient is ever held at onboarding |
| Slots.SlotsOn | components/AdminCalendar.tsx:57 | `availability[date] \|\| []`: the day's list, or empty when the day is absent |
| Slots.ToggleSlot | components/AdminCalendar.tsx:58-60 | the time's membership flips and no other time's does; a removal drops every copy and keeps the rest (as a multiset); an addition adds one copy and sorts by string order |
| Slots.RemovalKeepsSorted | components/NursePortal.tsx:28-30 | removing from a sorted list leaves it sorted |
| Slots.AddThenRemove | components/NursePortal.tsx:28-30 | adding an absent time to a sorted list and removing it again gives the list back |
| Slots.RemoveThenAdd | components/NursePortal.tsx:28-30 | removing a time that occurs once from a sorted list and adding it again gives the list back |
| Slots.AfternoonBeforeMorning | components/NursePortal.tsx:30 | the string sort puts "01:00 PM" before "08:00 AM" |
| Slots.OfferedLabelsOnly | components/NursePortal.tsx:12-15 | toggling one of the nine offered labels on a day holding only offered labels keeps it so (see also lines 190-195) |
| AdminCalendar.TwoDigitsValue | components/AdminCalendar.tsx:23-24 | `padStart(2, '0')` of 1..99 is two digits that read back as the number |
| AdminCalendar.DashJoin | components/AdminCalendar.tsx:25 | in `y-m-d` with widths 4, 2, 2 the dashes sit at places 4 and 7 and each field can be read back |
| AdminCalendar.DayKey | components/AdminCalendar.tsx:21-26 | for a four-digit year, month index 0..11 and day 1..31 the key is `YYYY-MM-DD` with month = index + 1, both zero-padded |
| AdminCalendar.AppointmentsForDay | components/AdminCalendar.tsx:28-31 | exactly the appointments with that date and the selected nurse |
| AdminCalendar.AppointmentsForDayInOrder | components/AdminCalendar.tsx:30 | the filter splits over concatenation, so the original order is kept |
| AdminCalendar.IsBlocked | components/AdminCalendar.tsx:33-36 | true iff the key is on the blocked list (an absent list blocks nothing) |
| AdminCalendar.HasAvailability | components/AdminCalendar.tsx:51-54 | true iff the day has a list and it is non-empty |
| AdminCalendar.Marker | components/AdminCalendar.tsx:130-148 | a day shows the lock iff blocked, and the green dot iff it has slots and is not blocked |
| AdminCalendar.ToggleBlockDay | components/AdminCalendar.tsx:38-49 | only `blockedDates` changes; the key's blocked state flips and no other key's does; an absent key is appended, a present one removed in every copy |
| AdminCalendar.ToggleBlockDayTwice | components/AdminCalendar.tsx:38-44 | toggling an unblocked day twice restores the list; toggling a once-blocked day twice moves it to the end |
| AdminCalendar.ToggleSlot | components/AdminCalendar.tsx:56-69 | only that day's entry changes, to the shared slot toggle of its old list; other days and every other field are unchanged |
| AdminCalendar.RemovingLastSlot | components/AdminCalendar.tsx:62-68 | removing the only slot leaves the day mapped to an empty list |
| AdminCalendar.IgnoresBlockedDates | components/AdminCalendar.tsx:56-69 | the toggle's result does not depend on the blocked list and leaves it alone |
| AdminCalendar.BlockedDayCanHoldSlots | components/AdminCalendar.tsx:56-69 | adding a slot on a blocked day succeeds: the day stays blocked and has availability |
| NursePortal.NurseAppointments | components/NursePortal.tsx:21 | exactly this nurse's appointments |
| NursePortal.TodayAppointments | components/NursePortal.tsx:22 | a sub-list of the nurse's appointments, all dated today |
| NursePortal.ListsInOrder | components/NursePortal.tsx:21-22 | both filters split over concatenation, so the original order is kept |
| NursePortal.TodayIsCalendarDay | components/NursePortal.tsx:22 | today's list is the calendar's day list for this nurse and today's key |
| NursePortal.SlotCount | components/NursePortal.tsx:169 | the day's list length, 0 for an absent day; positive iff the day has availability |
| NursePortal.ToggleSlot | components/NursePortal.tsx:24-39 | the portal's toggle stores the same record as the calendar's toggle |
| NursePortal.ToggleFlipsSelection | components/NursePortal.tsx:24-30 | pressing a slot button flips that label's selection and no other label's (see also lines 190-195) |
| AdminNurses.NewDraft | components/AdminNurses.tsx:67-81 | a new draft is an active, Available RN record with the supplied id, English only, no certifications, testimonials or slots |
| AdminNurses.FullNurse | components/AdminNurses.tsx:90-96 | the saved record keeps the draft's fields; missing languages become English, missing certifications, testimonials and availability become empty |
| AdminNurses.SaveUnchangedDraft | components/AdminNurses.tsx:90-96 | opening a record and saving it unchanged stores the same record (see also lines 60-61) |
| AdminNurses.SavedList | components/AdminNurses.tsx:97-99 | with the id on the list the matching record is replaced; otherwise the record is appended |
| AdminNurses.SaveIsUpsert | components/AdminNurses.tsx:97-99 | after saving the record is on the list, and the list grows by one exactly when the id was new |
| AdminNurses.AddCertification | components/AdminNurses.tsx:104-110 | the old list is a prefix of the result; the trimmed input is added iff it is non-empty and not yet present |
| AdminNurses.AddCertificationKeepsClean | components/AdminNurses.tsx:104-110 | a list without repeats or blanks stays so after an add |
| AdminNurses.CertificationRefused | components/AdminNurses.tsx:105 | a blank input changes nothing |
| AdminNurses.DraftToggleSlot | components/AdminNurses.tsx:125-131 | only the draft's availability changes |
| AdminNurses.DraftToggleAgrees | components/AdminNurses.tsx:125-131 | toggling in the staff editor and saving stores the same record as the calendar's toggle |
| AdminNurses.Splice1 | components/AdminNurses.tsx:141-146 | `splice(index, 1)`: an index in range removes that entry, one past the end changes nothing, a negative one counts from the end |
| AdminNurses.Splice1RemovesEntry | components/AdminNurses.tsx:141-146 | removing a shown entry shortens the list by one, keeps the entries before it and shifts the ones after it |
| AdminNurses.AddTestimonial | components/AdminNurses.tsx:133-139 | accepted iff name and comment are non-empty; the new testimonial goes first |
| AdminNurses.NextSort | components/AdminNurses.tsx:54-58 | none goes to ascending, ascending to descending, descending to none |
| AdminNurses.NextSortCycles | components/AdminNurses.tsx:54-58 | three presses return to the start and every press changes the direction |
| AdminNurses.SpecialtyAscTotal | components/AdminNurses.tsx:49 | the ascending specialty comparison is a total preorder |
| AdminNurses.SpecialtyDescTotal | components/AdminNurses.tsx:50 | the descending specialty comparison is a total preorder |
| AdminNurses.SortedNurses | components/AdminNurses.tsx:44-52 | unsorted gives the list itself; sorted gives a permutation ordered by lower-case specialty, ascending or descending |
| AdminNurses.MaskSanc | components/AdminNurses.tsx:163-166 | privacy off gives the number; privacy on gives its first five characters followed by the fixed mask |
| AdminNurses.StatusColorsDistinct | components/AdminNurses.tsx:148-155 | two statuses get the same badge style iff they are the same status |
| AdminNurses.StaffEditor.constructor | components/AdminNurses.tsx:31-42 | closed, unsorted, the slot day is today and the testimonial form is blank with rating 5 |
| AdminNurses.StaffEditor.ToggleSort | components/AdminNurses.tsx:54-58 | the direction advances one step, nothing else changes |
| AdminNurses.StaffEditor.HandleEdit | components/AdminNurses.tsx:60-65 | the draft is the record, the info tab opens, the certificate input clears |
| AdminNurses.StaffEditor.HandleAddNew | components/AdminNurses.tsx:67-85 | the draft is the blank record with the supplied id, the info tab opens, the certificate input clears |
| AdminNurses.StaffEditor.HandleSave | components/AdminNurses.tsx:87-102 | with a draft, the store's nurse list is upserted with the full record and the editor closes; without one nothing changes |
| AdminNurses.StaffEditor.AddCertificationClicked | components/AdminNurses.tsx:104-110 | an accepted input is appended and the input cleared; a refused one changes nothing |
| AdminNurses.StaffEditor.RemoveCertification | components/AdminNurses.tsx:112-116 | every copy of the certificate leaves the draft's list |
| AdminNurses.StaffEditor.ToggleLanguage | components/AdminNurses.tsx:118-123 | the language's membership flips in the draft |
| AdminNurses.StaffEditor.ToggleSlot | components/AdminNurses.tsx:125-131 | the draft gets the shared slot toggle on the selected slot day |
| AdminNurses.StaffEditor.HandleAddTestimonial | components/AdminNurses.tsx:133-139 | a complete testimonial goes first and the form resets to rating 5; an incomplete one changes nothing |
| AdminNurses.StaffEditor.RemoveTestimonial | components/AdminNurses.tsx:141-146 | the draft's testimonials become `splice(index, 1)` of the old ones |
| Booking.ActiveNurses | components/Booking.tsx:207 | exactly the active nurses are listed |
| Booking.FindNurse | components/Booking.tsx:26 | the record found carries the selected id; none is found only when no record has it |
| Booking.CanBook | components/Booking.tsx:305-306 | a date is bookable iff the nurse's list for it exists and is non-empty; blocked dates and appointments play no part |
| Booking.BlockedDateStillBookable | components/Booking.tsx:305-306 | a blocked date that holds slots is still bookable |
| Booking.OfferedTimes | components/Booking.tsx:340-343 | the time buttons are the stored list for the date in stored order, and there are some iff the date is bookable |
| Booking.ServicesSelectable | components/Booking.tsx:364-370 | of the five services only Dialysis is disabled, and only the virtual consultation is Virtual |
| Booking.Payload | components/Booking.tsx:45-57 | the request has the user, the selected nurse id or '' and the nurse's name or ''; platform and room id are present iff Virtual; notes are absent iff empty |
| Booking.AfterService | components/Booking.tsx:405-410 | proceeding goes to the platform step iff Virtual, otherwise to the prerequisites |
| Booking.BookingWizard.constructor | components/Booking.tsx:14-24 | the wizard starts at the nurse step with nothing chosen, In-person, Google Meet, not loading, not acknowledged |
| Booking.BookingWizard.SelectNurse | components/Booking.tsx:234 | choosing one of the active nurses listed records it, so the booking's nurse lookup finds a record, and moves to the date step, nothing else changing (see also line 207) |
| Booking.BookingWizard.SelectDate | components/Booking.tsx:306-312 | an enabled (bookable) date is recorded and the wizard moves to the time step |
| Booking.BookingWizard.SelectTime | components/Booking.tsx:340-343 | an offered time is recorded and the wizard moves to the service step |
| Booking.BookingWizard.SelectService | components/Booking.tsx:37-40 | an enabled service from the catalogue sets the appointment type and consultation type, nothing else (see also lines 373-374) |
| Booking.BookingWizard.SetNotes | components/Booking.tsx:399 | the notes are replaced, nothing else |
| Booking.BookingWizard.ProceedFromService | components/Booking.tsx:405-410 | with a type chosen, the step becomes the platform step for Virtual and the prerequisites otherwise |
| Booking.BookingWizard.SelectPlatform | components/Booking.tsx:503 | the platform is recorded, nothing else (see also line 515) |
| Booking.BookingWizard.PlatformNext | components/Booking.tsx:529 | the platform step moves on to the prerequisites |
| Booking.BookingWizard.SetAcknowledged | components/Booking.tsx:470-474 | the acknowledgement box takes the checked value |
| Booking.BookingWizard.Back | components/Booking.tsx:291 | date goes back to nurse, time to date, service to time, platform and prerequisites to service; choices are kept (see also lines 335, 358, 422, 497) |
| Booking.BookingWizard.Confirm | components/Booking.tsx:42-58 | with the box ticked the store books the request built from the choices and the spinner starts; nothing else in the store changes (see also lines 485-486) |
| Booking.BookingWizard.ConfirmedRequestComplete | components/Booking.tsx:45-51 | a request confirmed from a reachable prerequisite step names the chosen nurse and a chosen service |
| Booking.BookingWizard.FinishLoading | components/Booking.tsx:59-62 | the timer stops the spinner and shows the confirmation |
| Booking.BookingWizard.BookAnother | components/Booking.tsx:176-184 | back at the nurse step with nurse, date, time, acknowledgement, notes and type cleared |
| NotificationCenter.ToggleCategory | components/NotificationCenter.tsx:16-24 | exactly one category flips; the other categories and every channel are unchanged |
| NotificationCenter.ToggleChannel | components/NotificationCenter.tsx:26-34 | exactly one channel flips; the other channels and every category are unchanged |
| NotificationCenter.CategoriesExtensional | types.ts:153 | the category record is determined by its five switches |
| NotificationCenter.ChannelsExtensional | types.ts:154-158 | the channel record is determined by its three switches |
| NotificationCenter.ToggleTwiceRestores | components/NotificationCenter.tsx:16-34 | toggling the same category, or the same channel, twice gives the preferences back |
| NotificationCenter.Filtered | components/NotificationCenter.tsx:57 | exactly the notifications whose category is switched on |
| NotificationCenter.FilteredInOrder | components/NotificationCenter.tsx:57 | the filter keeps the original order, and with the default preferences keeps everything |
| NotificationCenter.NewerFirstTotal | components/NotificationCenter.tsx:152 | the newest-first comparison is a total preorder, so the sort is well defined |
| NotificationCenter.Displayed | components/NotificationCenter.tsx:152 | the shown list is a permutation of the filtered list, newest timestamp first |
| NotificationCenter.ClickMarksRead | components/NotificationCenter.tsx:156 | clicking a shown item marks its id read in the store and leaves other ids alone |
| NotificationCenter.TypeIcon | components/NotificationCenter.tsx:36-44 | the four named types get their icons and any other string the bell |
| NotificationCenter.TypeColor | components/NotificationCenter.tsx:46-54 | the four named types get their colours and any other string grey |
| NotificationCenter.SystemFallsToDefault | components/NotificationCenter.tsx:36-54 | among the five types exactly SYSTEM gets the default icon and the default colour |
| MedicalRecords.IndemnityUpdate | components/MedicalRecords.tsx:34-37 | a signature of at least three characters yields exactly `indemnitySigned` and the date; a shorter one yields nothing |
| MedicalRecords.PopiaUpdate | components/MedicalRecords.tsx:39-42 | a signature of at least three characters yields exactly POPIA consent, its date and data sharing on; a shorter one yields nothing |
| MedicalRecords.SigningOpensSharing | components/MedicalRecords.tsx:24-42 | after both documents are signed sharing is allowed and the other legal fields are unchanged |
| MedicalRecords.ConsentPrefUpdate | components/MedicalRecords.tsx:44-47 | one preference flips, the others stay, and data sharing is on iff some preference is on |
| MedicalRecords.ConsentFollowsPrefs | components/MedicalRecords.tsx:44-47 | after a toggle the stored consent agrees with the stored preferences |
| MedicalRecords.MaskHpcsa | components/MedicalRecords.tsx:49-53 | '' for a missing or empty number, the number with privacy off, else its first seven characters and the mask |
| MedicalRecords.FallbackNumberMasked | components/MedicalRecords.tsx:94 | a record without a number shows the masked fallback "HPCSA-1••••" |
| MedicalRecords.RecordsView.constructor | components/MedicalRecords.tsx:14-22 | the records tab, nothing shared, no warning, blank signatures dated today |
| MedicalRecords.RecordsView.HandleShare | components/MedicalRecords.tsx:24-32 | without both signatures the warning shows and the trust tab opens; with both the record is marked as sharing |
| MedicalRecords.RecordsView.ShareTimerFires | components/MedicalRecords.tsx:31 | the timer clears the sharing indicator, nothing else |
| MedicalRecords.RecordsView.SignIndemnity | components/MedicalRecords.tsx:34-37 | the store's legal status takes the indemnity update when the signature is long enough and is unchanged otherwise |
| MedicalRecords.RecordsView.SignPopia | components/MedicalRecords.tsx:39-42 | the store's legal status takes the POPIA update when the signature is long enough and is unchanged otherwise |
| MedicalRecords.RecordsView.ToggleConsentPref | components/MedicalRecords.tsx:44-47 | the store's legal status takes the preference update, nothing else in the store changes |
| LegalOnboarding.InitialForm | components/LegalOnboarding.tsx:12-26 | the form opens with the user's id number or '', blank medical aid and signatures, telemedicine off, and exactly labs and specialists shared |
| LegalOnboarding.ToggleCheckbox | components/LegalOnboarding.tsx:134-138 | a checkbox flips exactly the value it shows: telemedicine, labs or specialists |
| LegalOnboarding.ToggleCheckboxTwice | components/LegalOnboarding.tsx:134-138 | clicking a checkbox twice gives the form back |
| LegalOnboarding.UserOf | components/LegalOnboarding.tsx:45-49 | the user update carries exactly the id number, medical aid name and medical aid number |
| LegalOnboarding.SubmitMakesCompliant | components/LegalOnboarding.tsx:31-43 | after submit the status passes the app's gate and records consent, both signatures, today's date, telemedicine and the chosen preferences |
| LegalOnboarding.SubmitConsentsWithNoPrefs | components/LegalOnboarding.tsx:41-42 | submit turns data sharing on even when no preference is ticked |
| LegalOnboarding.SubmitUserFields | components/LegalOnboarding.tsx:45-51 | the stored user takes the three typed fields and keeps everything else |
| LegalOnboarding.OnboardingWizard.constructor | components/LegalOnboarding.tsx:11-26 | the wizard opens on step 1 with the initial form |
| LegalOnboarding.OnboardingWizard.Edit | components/LegalOnboarding.tsx:12 | typing replaces the form and keeps the step |
| LegalOnboarding.OnboardingWizard.ClickCheckbox | components/LegalOnboarding.tsx:134-138 | the form becomes the toggled form and the step is kept |
| LegalOnboarding.OnboardingWizard.Next | components/LegalOnboarding.tsx:28 | with the step's forward button enabled (step 1: id number and medical aid name; step 2: a POPIA signature of at least three characters) the step goes up by one; otherwise nothing changes (see also lines 99-100, 160-161) |
| LegalOnboarding.OnboardingWizard.Back | components/LegalOnboarding.tsx:29 | the step goes down by one from steps 2 and 3 (see also lines 158, 198) |
| LegalOnboarding.OnboardingWizard.Submit | components/LegalOnboarding.tsx:31-52 | on step 3 with an indemnity signature of at least three characters the store receives the legal and user updates; otherwise nothing changes (see also lines 200-201) |
| Dashboard.MaskPatientId | components/Dashboard.tsx:49-53 | 'KH-NEW' for a missing or empty id, the id with privacy off, else 'KH-••••' |
| Dashboard.MaskHidesId | components/Dashboard.tsx:52 | under privacy any two known ids show the same mask |
| Dashboard.BadgeWeakerThanGate | components/Dashboard.tsx:28 | whoever passes the app's gate sees the badge, and a status without identity verification shows the badge yet fails the gate (see also App.tsx line 296) |
| Dashboard.PlatformWords | components/Dashboard.tsx:251 | the join caption word is TELEHEALTH without a platform, GOOGLEMEET for Google Meet, MSTEAMS for MS Teams |
| Dashboard.ActionFor | components/Dashboard.tsx:246-266 | Virtual rows join their room ('default-room' when missing or empty) with the nurse and platform; in-person rows show "Awaiting Nurse" iff a check-in is on record, else the check-in button |
| Dashboard.CheckInThenAwaiting | components/Dashboard.tsx:254 | checking in turns an in-person row into "Awaiting Nurse" and leaves every other row's action alone (see also App.tsx lines 253-255) |
| Dashboard.CheckInForm.constructor | components/Dashboard.tsx:30-38 | no appointment selected and a blank form |
| Dashboard.CheckInForm.Open | components/Dashboard.tsx:261 | the check-in button selects its appointment |
| Dashboard.CheckInForm.Edit | components/Dashboard.tsx:130-165 | typing replaces the form |
| Dashboard.CheckInForm.Submit | components/Dashboard.tsx:40-47 | with an appointment selected the store records a copy of the form under it and the form and selection clear; otherwise nothing changes |
| PatientManagement.ToggleReveal | components/PatientManagement.tsx:14-19 | the id goes in if absent and out if present; every other id keeps its membership |
| PatientManagement.ToggleRevealTwice | components/PatientManagement.tsx:14-19 | toggling the same id twice restores the set |
| PatientManagement.MaskWord | components/PatientManagement.tsx:24 | a word becomes its first character and the mask; an empty word's `p[0]` prints as "undefined" |
| PatientManagement.MaskWordInjective | components/PatientManagement.tsx:24 | two words mask alike iff they start alike (both empty counting as alike) |
| PatientManagement.MaskWords | components/PatientManagement.tsx:24 | the masked list has one masked word per word |
| PatientManagement.MaskId | components/PatientManagement.tsx:27-30 | the id with privacy off or the patient revealed, else 'KH-••••' |
| PatientManagement.RevealShowsName | components/PatientManagement.tsx:14-30 | after revealing a patient, or with privacy off, the real name and id show |
| PatientManagement.MaskWordsByInitials | components/PatientManagement.tsx:23-24 | two equally long word lists mask alike iff their words start alike one by one |
| PatientManagement.MaskedNameLeaksOnlyInitials | components/PatientManagement.tsx:21-25 | two hidden names with the same word count and initials show the same masked name |
| PatientManagement.RevealState.constructor | components/PatientManagement.tsx:12 | nothing is revealed at first |
| PatientManagement.RevealState.Toggle | components/PatientManagement.tsx:14-19 | the revealed set becomes its toggle |
| Sidebar.DesktopItems | components/Sidebar.tsx:85-88 | patients get their menu followed by the four extra entries; other roles get their menu unchanged |
| Sidebar.MenusWellFormed | components/Sidebar.tsx:39-69 | the role's menu is a prefix of the desktop list, which starts at the dashboard and repeats no route (see also lines 85-88) |
| Sidebar.BadgeIffUnread | components/Sidebar.tsx:87 | a badge shows somewhere iff the user is a patient with a positive unread count (see also line 125) |
| Sidebar.RoleBadgeColorsDistinct | components/Sidebar.tsx:71-77 | the three roles get three different badge colours |
| Sidebar.MaskPatientId | components/Sidebar.tsx:79-83 | '' when there is no id, the id with privacy off, else 'KH-••••' |
| AdminDashboard.Agenda | components/AdminDashboard.tsx:98-99 | exactly the appointments dated today |
| AdminDashboard.AgendaInOrder | components/AdminDashboard.tsx:98-99 | the agenda splits over concatenation, so the original order is kept |
| AdminDashboard.TodaysVisits | components/AdminDashboard.tsx:11-12 | the visit count is the agenda's length |
| AdminDashboard.VisitsCountNewBooking | components/AdminDashboard.tsx:12 | a new booking in front raises the count by one iff it is for today (see also App.tsx line 218) |
| AdminDashboard.AllToday | components/AdminDashboard.tsx:12 | when every appointment is for today the agenda is the whole list |
| AdminDashboard.ActivePersonnel | components/AdminDashboard.tsx:48 | the count of nurses whose status is not Offline |
| AdminDashboard.ActivePlusOffline | components/AdminDashboard.tsx:48 | active and offline nurses together make up the whole roster |
| AdminDashboard.NoneOffline | components/AdminDashboard.tsx:48 | with nobody offline everyone is active |
| AdminDashboard.StatusColorsDistinct | components/AdminDashboard.tsx:14-30 | the three statuses and the fallback get four different dot colours and four different label colours |
| AdminDashboard.StatusTextColors | components/AdminDashboard.tsx:14-30 | a status label gets its status's colours and any other text the fallback colours |
| UpdatesPortal.TabButtons | components/UpdatesPortal.tsx:37-56 | every role gets the updates and roadmap tabs; the flags tab is offered iff the role is ADMIN |
| UpdatesPortal.ToggledFlags | components/UpdatesPortal.tsx:14-17 | a non-administrator changes nothing; for ADMIN exactly the flags with that id switch `isEnabled` and nothing else changes |
| UpdatesPortal.ToggleFlagTwice | components/UpdatesPortal.tsx:14-17 | switching the same flag twice restores the list |
| UpdatesPortal.ToggleFlagTouchesOnlyItsFlag | components/UpdatesPortal.tsx:16 | a toggle keeps each flag's id, name and description, and changes the enabled bit only of the named flag |
| UpdatesPortal.UpdateIconsDistinct | components/UpdatesPortal.tsx:19-26 | the three release types and the default get four different icons |
| UpdatesPortal.Portal.constructor | components/UpdatesPortal.tsx:11-12 | the portal opens on the release notes with the given flags |
| UpdatesPortal.Portal.SelectTab | components/UpdatesPortal.tsx:38-52 | pressing an offered tab selects it; the flags panel shows iff the flags tab was pressed (see also line 123) |
| UpdatesPortal.Portal.ToggleFlag | components/UpdatesPortal.tsx:14-17 | the flags become the toggled list, the tab is kept |
| UpdatesPortal.NoFlagsForOthers | components/UpdatesPortal.tsx:49 | no tab a non-administrator can reach shows the flags panel (see also line 123) |
| VideoCall.MeetingLink | components/VideoCall.tsx:64-67 | Google Meet (also the default) links to `https://meet.google.com/<room>`, MS Teams to the Teams meetup-join address with the room (see also line 12) |
| VideoCall.MeetingLinkInjective | components/VideoCall.tsx:65-67 | the link ends with the room id, and two links agree iff their platforms and rooms do |
| VideoCall.PlatformStyleFollowsLink | components/VideoCall.tsx:56-62 | a Google Meet link (also the default) comes with the blue heart and the blue-to-indigo gradient, an MS Teams link with the violet heart and the violet-to-fuchsia gradient; two platforms share a heart or a gradient iff they are the same platform |
| VideoCall.SignalAfterTick | components/VideoCall.tsx:23-28 | every signal update sets two to four bars |
| VideoCall.SignalNeverPoor | components/VideoCall.tsx:23-28 | the signal starts at Excellent and no update ever makes the label read Poor (see also lines 14, 49-54) |
| VideoCall.LitBarsMatchStrength | components/VideoCall.tsx:32-44 | at strength 1 to 4 exactly that many bars are lit, namely bars 1 up to the strength |
| VideoCall.Checklist.Toggle | components/VideoCall.tsx:103 | one checklist item flips and the other two stay |
| VideoCall.CompleteIffAllTicked | components/VideoCall.tsx:141 | the launch button is enabled iff mic, camera and environment are all ticked |
| VideoCall.WaitingRoom.constructor | components/VideoCall.tsx:12-19 | not in the call, four bars, nothing ticked |
| VideoCall.WaitingRoom.ToggleItem | components/VideoCall.tsx:103 | the checklist becomes its toggle, nothing else changes |
| VideoCall.WaitingRoom.SignalTick | components/VideoCall.tsx:23-28 | the strength becomes the drawn update, nothing else changes |
| VideoCall.WaitingRoom.Launch | components/VideoCall.tsx:64-70 | launching from a complete checklist (or re-opening from the call) returns the meeting link and enters the call (see also lines 141-142, 191) |
| Telehealth.Int16LE | components/Telehealth.tsx:55 | a little-endian 16-bit read lies in -32768..32767 |
| Telehealth.Int16RoundTrip | components/Telehealth.tsx:55 | reading back the two stored bytes of a sample gives the sample |
| Telehealth.FrameCount | components/Telehealth.tsx:42 | the frame count is the largest whole number of frames that fit in the data |
| Telehealth.ReadInBounds | components/Telehealth.tsx:46-54 | every offset the loops compute is non-negative and leaves two bytes to read, so the bounds check always passes |
| Telehealth.ChannelOf | components/Telehealth.tsx:48-58 | a channel holds one sample per whole frame, each the 16-bit value at offset `(i * numChannels + c) * 2` |
| Telehealth.Decoded | components/Telehealth.tsx:38-44 | nothing for empty data, a non-positive channel count or no whole frame; otherwise one sample list per channel |
| Telehealth.DecodeAudioData | components/Telehealth.tsx:31-65 | the nested loops build exactly the reference decoding |
| Telehealth.Encoded | components/Telehealth.tsx:52-55 | the interleaved encoding has two bytes per sample per channel |
| Telehealth.EncodedSample | components/Telehealth.tsx:52-55 | sample `i` of channel `c` sits at offset `(i * numChannels + c) * 2`, low byte first |
| Telehealth.EncodedFrameCount | components/Telehealth.tsx:42 | the interleaved encoding of `frames` whole frames decodes as exactly `frames` frames |
| Telehealth.ChannelRoundTrip | components/Telehealth.tsx:48-58 | each decoded channel of the encoding is that channel's samples |
| Telehealth.DecodeEncode | components/Telehealth.tsx:31-65 | decoding the interleaved encoding of whole frames gives back the channels |
| Telehealth.IntakeView.constructor | components/Telehealth.tsx:80-82 | the intake form shows first, billed to medical aid (see also line 94) |
| Telehealth.IntakeView.ChooseBilling | components/Telehealth.tsx:406 | the billing choice is recorded, the screens stay (see also line 410) |
| Telehealth.IntakeView.SubmitIntake | components/Telehealth.tsx:317-321 | the intake closes; cash opens payment and medical aid opens consent |
| Auth.SubmitError | components/Auth.tsx:147-165 | "Required fields missing." for an empty identifier or, outside the reset path, an empty password; then on sign-up "Full legal name required." before "Please accept the POPIA & Terms."; no error iff every check passes |
| Auth.DigitsOnly | components/Auth.tsx:211 | the code box keeps only digits, and every typed digit is kept |
| Auth.CompleteCodeIsTypedDigits | components/Auth.tsx:209-211 | with `maxLength={6}`, a six-character code is exactly six typed digits |
| Auth.RoleOf | components/Auth.tsx:101-103 | sign-up uses the chosen role; login gives ADMIN iff the identifier contains "admin", NURSE iff it contains "nurse" but not "admin", else PATIENT |
| Auth.SurnameAsWrittenDropsTypedSurname | components/Auth.tsx:112 | signing up as Jane Smith records surname "Doe" while the name reads "Jane Smith" (see also line 95) |
| Auth.Surname | components/Auth.tsx:112 | corrected: sign-up records the typed surname; login keeps the preset persona's |
| Auth.NameIsFirstAndSurname | components/Auth.tsx:93-99 | with the corrected surname the display name is the first name, a space and the surname (after "Nurse " for the nurse login) (see also line 112) |
| Auth.CompletedUser | components/Auth.tsx:89-126 | the record's role is the derived one; `patientId` 'KH-8829' iff PATIENT, `nurseId` 'n1' iff NURSE; the e-mail is the identifier, with '@phone.hub' for phone; the first name and display name are the derived ones (on sign-up the typed first name, and the typed first name and surname joined by a space), and the surname is the one derived from the first name, on sign-up as well; sign-up keeps the chosen avatar; login has an avatar iff NURSE; the security settings are fixed |
| Auth.SignUpRecordAsWritten | components/Auth.tsx:112 | the record a sign-up as Jane Smith produces has surname "Doe" and display name "Jane Smith" (see also line 95) |
| Auth.CompletedUserIntended | components/Auth.tsx:89-126 | corrected record: the surname is the typed one on sign-up, and the display name is the first name, a space and the surname, after "Nurse " for the nurse login |
| Auth.IntendedDiffersOnlyInSurname | components/Auth.tsx:112 | the corrected record differs from the as-written one only in the surname, and on login the two are equal |
| Auth.AuthForm.constructor | components/Auth.tsx:36-56 | the login tab, e-mail, patient role, the first preset avatar, no error, no code screen |
| Auth.AuthForm.Edit | components/Auth.tsx:37-51 | typing or choosing replaces the inputs, nothing else |
| Auth.AuthForm.ChooseTab | components/Auth.tsx:249 | the tab sets `isLogin` and leaves the reset path (see also line 255) |
| Auth.AuthForm.UploadAvatar | components/Auth.tsx:58-72 | a file over 2 MB is refused with "Image too large (max 2MB)"; otherwise it becomes the avatar and the error clears |
| Auth.AuthForm.Submit | components/Auth.tsx:147-173 | the error is the first failing check's message, or '' when all pass, and only then is the code sent |
| Auth.AuthForm.CodeSent | components/Auth.tsx:168-172 | the code screen opens, at the verify step on the reset path |
| Auth.AuthForm.TypeCode | components/Auth.tsx:209-211 | the code becomes the typed digits, at most six |
| Auth.AuthForm.SubmitCode | components/Auth.tsx:74-87 | a code that is not six characters is refused with "Invalid verification code."; on the reset path a good code goes to the new-password step; otherwise sign-in starts |
| Auth.AuthForm.SignInCompletes | components/Auth.tsx:90-127 | the sign-in timer stops loading and hands over the record as the code builds it, with the surname derived from the first name |
| Auth.AuthForm.SubmitReset | components/Auth.tsx:130-136 | differing passwords are refused with "Passwords do not match."; equal ones start the reset |
| Auth.AuthForm.ResetCompletes | components/Auth.tsx:137-144 | the reset timer stops loading and returns to the login tab at the identifier step, off the reset path, with no error |
| Text.StrLeTotalOrder | components/AdminCalendar.tsx:60 | the order `.sort()` uses on strings is total, transitive and antisymmetric |
| Text.SortStrings | components/AdminCalendar.tsx:60 | `.sort()` on strings yields a rearrangement of its input in string order |
| Text.SortStringsUnique | components/NursePortal.tsx:30 | any sorted rearrangement of the input is what `.sort()` yields |
| Text.Prefix | components/MedicalRecords.tsx:52 | `substring(0, k)`: the first k characters, or all of a shorter string |
| Text.NatToString | components/AdminCalendar.tsx:23-24 | `String(n)`: decimal digits denoting n, with no leading zero, one digit iff n < 10 |
| Text.NatToStringLength | components/AdminCalendar.tsx:23-24 | a number of k digits prints as k characters |
| Text.IntToString | components/AdminCalendar.tsx:23 | `String(n)` of a negative number is '-' and the digits of its magnitude |
| Text.PadStart | components/AdminCalendar.tsx:23-24 | `padStart(width, c)`: at least `width` long, ending with the string, padded only with `c` |
| Text.Includes | components/Auth.tsx:94 | `includes(sub)` is true iff `sub` occurs at some position |
| Text.IncludesMiddle | components/Auth.tsx:94 | text spliced into a message is found in it |
| Text.Split | components/PatientManagement.tsx:23 | `split(sep)` yields at least one piece and no piece holds the separator |
| Text.JoinSplit | components/PatientManagement.tsx:23-24 | joining the pieces of a split with the same separator gives back the string |
| Text.Lower | components/AdminNurses.tsx:47-48 | `toLowerCase()` keeps the length and lowers exactly the upper-case letters |
| Text.Upper | components/Dashboard.tsx:251 | `toUpperCase()` keeps the length and raises exactly the lower-case letters |
| Text.RemoveFirst | components/Dashboard.tsx:251 | `replace(c, '')` drops only the first occurrence, and changes nothing when there is none |
| Text.Trim | components/AdminNurses.tsx:105-108 | `trim()` is a middle slice of the string, with white space cut away at both ends and none left at either end |
| SeqUtil.Filter | components/NursePortal.tsx:22 | `filter(p)` keeps exactly the elements satisfying p |
| SeqUtil.FilterAppend | components/NursePortal.tsx:22 | filtering a concatenation is concatenating the filters, so order is kept |
| SeqUtil.FilterIdempotent | components/NotificationCenter.tsx:152 | filtering twice by the same test is filtering once |
| SeqUtil.SortBy | components/AdminNurses.tsx:46-57 | sorting yields a rearrangement of its input |
| SeqUtil.SortBySorted | components/AdminNurses.tsx:46-57 | under a total preorder the sort's result is ordered |
| SeqUtil.SortedUnique | components/AdminCalendar.tsx:60 | under an antisymmetric total order two sorted rearrangements of one multiset are equal |
| SeqUtil.Without | components/AdminNurses.tsx:121 | `filter(y => y !== x)` removes every copy of x and keeps every other element |
| SeqUtil.ToggleMember | components/AdminNurses.tsx:121 | the element's membership flips; every other element's stays |
| SeqUtil.ToggleMemberTwice | components/AdminCalendar.tsx:41-43 | toggling an absent element twice gives the list back; toggling a single present one twice moves it to the end |

## Left out

- Persistence: loading and saving in `localStorage`, and the clearing on logout (App.tsx:50-158, 171). These are browser storage I/O.
- Vibration, scrolling, `alert` and focus calls. These are browser effects with no state in the model.
- The ten-second random flipping of nurse status (App.tsx:117-129). It is a simulation driven by a timer and randomness.
- Random ids and clock readings (App.tsx:212-215, components/Booking.tsx:55, components/AdminNurses.tsx:69, components/Auth.tsx:108, 121). Each is a parameter of the operation that uses it.
- The 7- and 14-day date lists, `daysInMonth`, `startDayOfMonth` and every `toLocale*` formatting. These are `Date` library calls. The day key takes the year, the zero-based month and the day as numbers.
- The float scaling of samples, `/ 32768.0` on decoding and `* 32768` on the microphone path (components/Telehealth.tsx:56, 243). The decoder yields the integer samples.
- `AudioContext`, `createBuffer` and its exceptions, the `catch` that returns null (components/Telehealth.tsx:61-64), and playback scheduling. These are audio APIs.
- The live AI session, grounding, geolocation and the microphone. These are network and media.
- The base64 wrappers over `atob`/`btoa` (components/Telehealth.tsx:17-25, 67-74). These are foreign calls; the decoder starts from the bytes.
- The simulated payment, 3DS and handshake timers in Telehealth.tsx. Only the intake routing and the billing choice are modelled.
- ProgressTracker.tsx: floating-point regression and averages behind charts.
- AdminAnalytics.tsx: random float jitter on a timer.
- Review.tsx: text generated over the network.
- TrustCenter.tsx and AdminAppointments.tsx: rendering only. The COMPLETE and CANCEL buttons have no handlers, which is why no appointment status ever changes.
- constants.ts: fixture data for the initial lists. The store takes its initial lists as parameters.
- Login and logout routing, the lock screen, the route switch and all JSX rendering and styling.
- The user's optional `paymentMethods` list (types.ts:38), which no core handler reads or writes.
- `encryptionLevel` (types.ts:18), a field whose type admits one constant value. It carries no information, so `Types.SecurityConfig` omits it.
- The booking wizard's expanded-profile toggle (components/Booking.tsx:16, 240), which only changes what is displayed.
- Case mapping covers only the ASCII letters. `p[0]` in the name mask is a UTF-16 code unit, and the model takes a character, so a name starting with a surrogate pair is not modelled.
- Text.StrLe and Text.StrLt: they compare Unicode scalar values, while JavaScript's default `.sort()` compares UTF-16 code units. The two orders differ only for strings holding characters above U+FFFF.
- NotificationCenter.NewerFirst: the model reads each timestamp as a whole number of milliseconds. `new Date(t).getTime()` gives NaN for a timestamp it cannot parse, and that makes the comparison inconsistent. Such timestamps are not modelled.
- SortedNurses: the comparator never returns 0, so the order of two equal specialties is left to the engine and is not even a consistent comparator. The model keeps equal specialties in input order. It proves only that the result is a rearrangement ordered by specialty.
- Object keys of the prototype (for example a date key named `constructor`) are not modelled. The maps behave as pure dictionaries.
- Auth.AuthForm.SubmitReset: nothing in the source opens the reset flow (`showResetFlow` is never set to true). The reset handlers are modelled as written, although no screen reaches them.
- VideoCall.SignalLabel and VideoCall.BarClass: these lookups are stated by their bodies only. Their partners are VideoCall.SignalNeverPoor and VideoCall.LitBarsMatchStrength.

## Findings

| source | as written | input that shows it | evidently intended | confidence | as-written member | corrected member |
|---|---|---|---|---|---|---|
| components/Auth.tsx:112 | the record's surname is derived from the first name, even on sign-up, so the typed surname is ignored | sign-up with first name "Jane" and surname "Smith" records surname "Doe" while the display name reads "Jane Smith" | sign-up records the typed surname | not executed | Auth.SurnameAsWrittenDropsTypedSurname, Auth.SignUpRecordAsWritten | Auth.Surname, Auth.CompletedUserIntended, Auth.NameIsFirstAndSurname |

