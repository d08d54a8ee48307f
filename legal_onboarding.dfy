/** The three-step legal onboarding wizard: identity details, POPIA consent with its
    preference checkboxes, and the indemnity. The wizard's form is a value held by a class
    whose methods are the buttons; a disabled button does nothing when pressed. */
module LegalOnboarding {
  import opened Wrappers
  import opened Types
  import AppStore

  datatype Form = Form(
    saIdNumber: string,
    medicalAidName: string,
    medicalAidNumber: string,
    popiaSignature: string,
    indemnitySignature: string,
    telemedicineConsent: bool,
    sharingPrefs: SharingPreferences)

  /** The form as the wizard opens: the user's id number if known, labs and specialists on. */
  function InitialForm(user: User): (r: Form)
    ensures r.saIdNumber == user.saIdNumber.GetOr("")
    ensures r.medicalAidName == "" && r.medicalAidNumber == ""
    ensures r.popiaSignature == "" && r.indemnitySignature == "" && !r.telemedicineConsent
    ensures forall k :: r.sharingPrefs.Get(k) <==> k == Labs || k == Specialists
  {
    Form(user.saIdNumber.GetOr(""), "", "", "", "", false, SharingPreferences(true, true, false, false, false))
  }

  /** Whether the forward button of `step` is enabled. */
  predicate ForwardEnabled(step: int, f: Form) {
    (step == 1 && f.saIdNumber != "" && f.medicalAidName != "")
    || (step == 2 && |f.popiaSignature| >= 3)
    || (step == 3 && |f.indemnitySignature| >= 3)
  }

  /** The three checkboxes of the consent step. */
  datatype Checkbox = LabsBox | SpecialistsBox | TelemedicineBox

  /** A checkbox change flips exactly the value it shows. */
  function ToggleCheckbox(f: Form, b: Checkbox): (r: Form)
    ensures b == TelemedicineBox ==> r == f.(telemedicineConsent := !f.telemedicineConsent)
    ensures b == LabsBox ==> r.sharingPrefs.labs == !f.sharingPrefs.labs
    ensures b == SpecialistsBox ==> r.sharingPrefs.specialists == !f.sharingPrefs.specialists
    ensures b != TelemedicineBox ==> r.telemedicineConsent == f.telemedicineConsent
    ensures b != TelemedicineBox ==>
      forall k :: k != Labs && k != Specialists ==> r.sharingPrefs.Get(k) == f.sharingPrefs.Get(k)
    ensures b == LabsBox ==> r.sharingPrefs.specialists == f.sharingPrefs.specialists
    ensures b == SpecialistsBox ==> r.sharingPrefs.labs == f.sharingPrefs.labs
    ensures r == f.(telemedicineConsent := r.telemedicineConsent, sharingPrefs := r.sharingPrefs)
  {
    match b
    case TelemedicineBox => f.(telemedicineConsent := !f.telemedicineConsent)
    case LabsBox => f.(sharingPrefs := f.sharingPrefs.With(Labs, !f.sharingPrefs.labs))
    case SpecialistsBox => f.(sharingPrefs := f.sharingPrefs.With(Specialists, !f.sharingPrefs.specialists))
  }

  lemma ToggleCheckboxTwice(f: Form, b: Checkbox)
    ensures ToggleCheckbox(ToggleCheckbox(f, b), b) == f
  {
  }

  /** The legal part of `handleSubmit`, dated `today`. */
  function LegalOf(f: Form, today: string): LegalUpdate {
    LegalUpdate(
      indemnitySigned := Some(true), indemnityDate := Some(today),
      indemnitySignature := Some(f.indemnitySignature),
      popiaConsent := Some(true), popiaDate := Some(today), popiaSignature := Some(f.popiaSignature),
      dataSharingConsent := Some(true), identityVerified := Some(true),
      telemedicineConsent := Some(f.telemedicineConsent), sharingPreferences := Some(f.sharingPrefs))
  }

  /** The user part of `handleSubmit`: exactly the three identity fields. */
  function UserOf(f: Form): (r: UserUpdate)
    ensures r.saIdNumber == Some(f.saIdNumber) && r.medicalAidName == Some(f.medicalAidName)
    ensures r.medicalAidNumber == Some(f.medicalAidNumber)
  {
    UserUpdate(Some(f.saIdNumber), Some(f.medicalAidName), Some(f.medicalAidNumber))
  }

  /** Whatever the status before, submitting makes the user compliant, so the app leaves
      onboarding; the form's signatures, choices and today's date are recorded. */
  lemma SubmitMakesCompliant(l: LegalStatus, f: Form, today: string, role: UserRole)
    ensures var after := AppStore.ApplyLegal(l, LegalOf(f, today));
      && AppStore.IsCompliant(after) && !AppStore.ShowsOnboarding(role, after)
      && after.dataSharingConsent
      && after.indemnitySignature == Some(f.indemnitySignature) && after.popiaSignature == Some(f.popiaSignature)
      && after.indemnityDate == Some(today) && after.popiaDate == Some(today)
      && after.telemedicineConsent == f.telemedicineConsent && after.sharingPreferences == f.sharingPrefs
      && after.nhiComplianceStatus == l.nhiComplianceStatus
  {
  }

  /** Unlike the records screen's switches, the wizard turns data sharing on even when every
      sharing preference was unticked. */
  lemma SubmitConsentsWithNoPrefs(l: LegalStatus, f: Form, today: string)
    requires forall k :: !f.sharingPrefs.Get(k)
    ensures var after := AppStore.ApplyLegal(l, LegalOf(f, today));
      after.dataSharingConsent && !after.sharingPreferences.AnyEnabled()
  {
  }

  /** The user record after submit carries the typed id and medical aid, and nothing else of
      it changes. */
  lemma SubmitUserFields(u: User, f: Form)
    ensures var after := AppStore.ApplyUser(Some(u), UserOf(f));
      && after.Some?
      && after.value == u.(saIdNumber := Some(f.saIdNumber), medicalAidName := Some(f.medicalAidName),
                           medicalAidNumber := Some(f.medicalAidNumber))
  {
  }

  class OnboardingWizard {
    var step: int
    var form: Form

    /** Only steps 1 to 3 render anything; the buttons keep the wizard among them. */
    predicate Valid()
      reads this
    {
      1 <= step <= 3
    }

    constructor (user: User)
      ensures Valid() && step == 1 && form == InitialForm(user)
    {
      step := 1;
      form := InitialForm(user);
    }

    method Edit(f: Form)
      modifies this
      ensures form == f && step == old(step)
    {
      form := f;
    }

    method ClickCheckbox(b: Checkbox)
      modifies this
      ensures form == ToggleCheckbox(old(form), b) && step == old(step)
    {
      form := ToggleCheckbox(form, b);
    }

    /** The "continue" and "I consent" buttons of steps 1 and 2: one step forward when enabled. */
    method Next()
      requires Valid()
      modifies this
      ensures Valid() && form == old(form)
      ensures old(step) < 3 && ForwardEnabled(old(step), old(form)) ==> step == old(step) + 1
      ensures !(old(step) < 3 && ForwardEnabled(old(step), old(form))) ==> step == old(step)
    {
      if step < 3 && ForwardEnabled(step, form) {
        step := step + 1;
      }
    }

    /** The back button, shown on steps 2 and 3. */
    method Back()
      requires Valid()
      modifies this
      ensures Valid() && form == old(form)
      ensures step == if old(step) > 1 then old(step) - 1 else old(step)
    {
      if step > 1 {
        step := step - 1;
      }
    }

    /** "Execute agreement" on step 3: the store receives both records. */
    method Submit(store: AppStore.Store, today: string)
      requires Valid()
      modifies store
      ensures step == 3 && ForwardEnabled(3, form) ==>
        store.legalStatus == AppStore.ApplyLegal(old(store.legalStatus), LegalOf(form, today))
        && store.user == AppStore.ApplyUser(old(store.user), UserOf(form))
      ensures !(step == 3 && ForwardEnabled(3, form)) ==>
        store.legalStatus == old(store.legalStatus) && store.user == old(store.user)
      ensures store.nurses == old(store.nurses) && store.appointments == old(store.appointments)
      ensures store.notifications == old(store.notifications) && store.checkInRecords == old(store.checkInRecords)
      ensures store.preferences == old(store.preferences)
    {
      if step == 3 && |form.indemnitySignature| >= 3 {
        store.OnboardingComplete(LegalOf(form, today), UserOf(form));
      }
    }
  }
}
