/** Sign-in and sign-up: the form's validation order, the six-digit verification step, the
    password-reset path, the avatar size limit, and the user record built once the code is
    accepted. The form is a class; the record is a pure function of the form. Timers are
    separate methods for the moment they fire. */
module Auth {
  import opened Wrappers
  import SeqUtil
  import Text
  import opened Types

  datatype AuthMethod = EmailMethod | PhoneMethod
  datatype ResetStep = IdentifierStep | VerifyStep | NewPassStep

  /** The values typed or chosen on the form. */
  datatype Inputs = Inputs(
    authMethod: AuthMethod,
    identifier: string,
    password: string,
    newPassword: string,
    confirmPassword: string,
    firstName: string,
    surname: string,
    role: UserRole,
    avatarUrl: string,
    agreedToTerms: bool)

  const RequiredMissing := "Required fields missing."
  const NameRequired := "Full legal name required."
  const TermsRequired := "Please accept the POPIA & Terms."
  const InvalidCode := "Invalid verification code."
  const PasswordsDiffer := "Passwords do not match."
  const ImageTooLarge := "Image too large (max 2MB)"

  /** The largest accepted avatar, in bytes. */
  const MaxAvatarBytes := 2 * 1024 * 1024

  /** `handleSubmit`'s checks, in order: identifier and (outside the reset path) password;
      then, on sign-up, the full name and the terms. None means the code is sent. */
  function SubmitError(i: Inputs, isLogin: bool, showResetFlow: bool): (r: Option<string>)
    ensures i.identifier == "" || (!showResetFlow && i.password == "") ==> r == Some(RequiredMissing)
    ensures i.identifier != "" && (showResetFlow || i.password != "") && !isLogin && !showResetFlow ==>
      r == if i.firstName == "" || i.surname == "" then Some(NameRequired)
           else if !i.agreedToTerms then Some(TermsRequired) else None
    ensures r.None? <==>
      && i.identifier != "" && (showResetFlow || i.password != "")
      && (isLogin || showResetFlow || (i.firstName != "" && i.surname != "" && i.agreedToTerms))
  {
    if i.identifier == "" || (!showResetFlow && i.password == "") then Some(RequiredMissing)
    else if !isLogin && !showResetFlow && (i.firstName == "" || i.surname == "") then Some(NameRequired)
    else if !isLogin && !showResetFlow && !i.agreedToTerms then Some(TermsRequired)
    else None
  }

  /** The code field keeps only the digits of what was typed. */
  function DigitsOnly(raw: string): (r: string)
    ensures Text.AllDigits(r) && |r| <= |raw|
    ensures forall k :: 0 <= k < |raw| && Text.IsDigit(raw[k]) ==> raw[k] in r
  {
    SeqUtil.Filter(raw, Text.IsDigit)
  }

  /** `maxLength={6}` bounds what is typed, so a complete code is six typed digits. */
  lemma CompleteCodeIsTypedDigits(raw: string)
    requires |raw| <= 6 && |DigitsOnly(raw)| == 6
    ensures DigitsOnly(raw) == raw && Text.AllDigits(raw)
  {
    SeqUtil.FilterSplitsLength(raw, Text.IsDigit);
    SeqUtil.FilterKeepsAll(raw, Text.IsDigit);
  }

  /** The role of the signed-in user: on login it comes from the identifier, 'admin'
      taking precedence over 'nurse'; on sign-up it is the chosen role. */
  function RoleOf(i: Inputs, isLogin: bool): (r: UserRole)
    ensures !isLogin ==> r == i.role
    ensures isLogin ==> (r == Admin <==> Text.Includes(i.identifier, "admin"))
    ensures isLogin ==> (r == UserRole.Nurse <==> !Text.Includes(i.identifier, "admin") && Text.Includes(i.identifier, "nurse"))
  {
    if !isLogin then i.role
    else if Text.Includes(i.identifier, "admin") then Admin
    else if Text.Includes(i.identifier, "nurse") then UserRole.Nurse
    else Patient
  }

  /** The display name and first name: fixed per role on login, typed on sign-up. */
  function NameOf(i: Inputs, isLogin: bool): string {
    if !isLogin then i.firstName + " " + i.surname
    else match RoleOf(i, isLogin)
      case Admin => "Admin System"
      case Nurse => "Nurse Sarah Miller"
      case Patient => "John Doe"
  }

  function FirstNameOf(i: Inputs, isLogin: bool): string {
    if !isLogin then i.firstName
    else match RoleOf(i, isLogin)
      case Admin => "Admin"
      case Nurse => "Sarah"
      case Patient => "John"
  }

  /** The surname as the record is built: derived from the first name whatever the flow. */
  function SurnameAsWritten(i: Inputs, isLogin: bool): string {
    var f := FirstNameOf(i, isLogin);
    if f == "Admin" then "System" else if f == "Sarah" then "Miller" else "Doe"
  }

  /** On sign-up the typed surname is dropped: 'Jane Smith' is recorded as surname 'Doe'
      while the display name still says 'Jane Smith'. */
  lemma SurnameAsWrittenDropsTypedSurname(i: Inputs)
    requires i.firstName == "Jane" && i.surname == "Smith"
    ensures SurnameAsWritten(i, false) == "Doe"
    ensures NameOf(i, false) == "Jane Smith"
  {
    assert "Jane" != "Admin" && "Jane" != "Sarah";
  }

  /** The surname the record should carry: the login persona's, or the typed one. */
  function Surname(i: Inputs, isLogin: bool): (r: string)
    ensures !isLogin ==> r == i.surname
    ensures isLogin ==> r == SurnameAsWritten(i, isLogin)
  {
    if isLogin then SurnameAsWritten(i, isLogin) else i.surname
  }

  /** With the corrected surname the display name is first name, space, surname, with the
      demo nurse's title in front. */
  lemma NameIsFirstAndSurname(i: Inputs, isLogin: bool)
    ensures NameOf(i, isLogin)
         == (if isLogin && RoleOf(i, isLogin).Nurse? then "Nurse " else "") + FirstNameOf(i, isLogin) + " " + Surname(i, isLogin)
  {
    if isLogin {
      match RoleOf(i, isLogin)
      case Admin =>
      case Nurse =>
      case Patient =>
    }
  }

  /** The record `completeAuth` hands over, with the surname given separately. The id, the
      audit time and the first nurse's photo come from outside (random, clock, fixtures). */
  function UserRecord(i: Inputs, isLogin: bool, surname: string, randomId: string, nowIso: string,
                      nurseImg: string): User
  {
    var role := RoleOf(i, isLogin);
    User(
      id := randomId,
      patientId := if role == Patient then Some("KH-8829") else None,
      email := if i.authMethod == EmailMethod then i.identifier else i.identifier + "@phone.hub",
      firstName := FirstNameOf(i, isLogin),
      surname := surname,
      name := NameOf(i, isLogin),
      role := role,
      avatarUrl := if isLogin then (if role == UserRole.Nurse then Some(nurseImg) else None) else Some(i.avatarUrl),
      nurseId := if role == UserRole.Nurse then Some("n1") else None,
      saIdNumber := None, medicalAidName := None, medicalAidNumber := None,
      security := Some(SecurityConfig(true, true, nowIso, true, 15, false)))
  }

  /** `completeAuth`'s record as written: the surname is derived from the first name. */
  function CompletedUser(i: Inputs, isLogin: bool, randomId: string, nowIso: string, nurseImg: string): (u: User)
    ensures u.role == RoleOf(i, isLogin)
    ensures u.patientId.Some? <==> u.role == Patient
    ensures u.patientId.Some? ==> u.patientId.value == "KH-8829"
    ensures u.nurseId.Some? <==> u.role == UserRole.Nurse
    ensures u.nurseId.Some? ==> u.nurseId.value == "n1"
    ensures i.authMethod == EmailMethod ==> u.email == i.identifier
    ensures i.authMethod == PhoneMethod ==> u.email == i.identifier + "@phone.hub"
    ensures u.firstName == FirstNameOf(i, isLogin) && u.name == NameOf(i, isLogin)
    ensures u.surname == SurnameAsWritten(i, isLogin)
    ensures !isLogin ==> u.firstName == i.firstName && u.name == i.firstName + " " + i.surname
    ensures !isLogin ==> u.avatarUrl == Some(i.avatarUrl)
    ensures isLogin ==> u.name == (if u.role.Nurse? then "Nurse " else "") + u.firstName + " " + u.surname
    ensures isLogin ==> (u.avatarUrl.Some? <==> u.role == UserRole.Nurse)
    ensures u.saIdNumber.None? && u.medicalAidName.None? && u.medicalAidNumber.None?
    ensures u.security == Some(SecurityConfig(true, true, nowIso, true, 15, false))
  {
    NameIsFirstAndSurname(i, isLogin);
    UserRecord(i, isLogin, SurnameAsWritten(i, isLogin), randomId, nowIso, nurseImg)
  }

  /** As written, signing up as Jane Smith yields a record whose surname is 'Doe' while its
      name reads 'Jane Smith'. */
  lemma SignUpRecordAsWritten(i: Inputs, randomId: string, nowIso: string, nurseImg: string)
    requires i.firstName == "Jane" && i.surname == "Smith"
    ensures CompletedUser(i, false, randomId, nowIso, nurseImg).surname == "Doe"
    ensures CompletedUser(i, false, randomId, nowIso, nurseImg).name == "Jane Smith"
  {
    SurnameAsWrittenDropsTypedSurname(i);
  }

  /** The corrected record: it carries the surname the name is built from. */
  function CompletedUserIntended(i: Inputs, isLogin: bool, randomId: string, nowIso: string, nurseImg: string)
    : (u: User)
    ensures u.role == RoleOf(i, isLogin)
    ensures u.surname == Surname(i, isLogin)
    ensures !isLogin ==> u.firstName == i.firstName && u.surname == i.surname
    ensures u.name == (if isLogin && u.role.Nurse? then "Nurse " else "") + u.firstName + " " + u.surname
  {
    NameIsFirstAndSurname(i, isLogin);
    UserRecord(i, isLogin, Surname(i, isLogin), randomId, nowIso, nurseImg)
  }

  /** The correction changes the surname of a sign-up and nothing else; a login's record is
      the same either way. */
  lemma IntendedDiffersOnlyInSurname(i: Inputs, isLogin: bool, randomId: string, nowIso: string, nurseImg: string)
    ensures CompletedUserIntended(i, isLogin, randomId, nowIso, nurseImg)
         == CompletedUser(i, isLogin, randomId, nowIso, nurseImg).(surname := Surname(i, isLogin))
    ensures isLogin ==> (CompletedUserIntended(i, isLogin, randomId, nowIso, nurseImg)
                         == CompletedUser(i, isLogin, randomId, nowIso, nurseImg))
  {
  }

  class AuthForm {
    var inputs: Inputs
    var isLogin: bool
    var showResetFlow: bool
    var resetStep: ResetStep
    var isSendingCode: bool
    var showMfa: bool
    var isLoading: bool
    var mfaCode: string
    var error: string

    /** The login tab, e-mail method, patient role and the first preset avatar. */
    constructor (defaultAvatar: string)
      ensures inputs == Inputs(EmailMethod, "", "", "", "", "", "", Patient, defaultAvatar, false)
      ensures isLogin && !showResetFlow && resetStep == IdentifierStep
      ensures !isSendingCode && !showMfa && !isLoading && mfaCode == "" && error == ""
    {
      inputs := Inputs(EmailMethod, "", "", "", "", "", "", Patient, defaultAvatar, false);
      isLogin := true;
      showResetFlow := false;
      resetStep := IdentifierStep;
      isSendingCode := false;
      showMfa := false;
      isLoading := false;
      mfaCode := "";
      error := "";
    }

    /** Typing into the fields, choosing the method, the role, a preset avatar or the terms box. */
    method Edit(i: Inputs)
      modifies this
      ensures inputs == i && isLogin == old(isLogin) && showResetFlow == old(showResetFlow)
      ensures resetStep == old(resetStep) && isSendingCode == old(isSendingCode) && showMfa == old(showMfa)
      ensures isLoading == old(isLoading) && mfaCode == old(mfaCode) && error == old(error)
    {
      inputs := i;
    }

    /** The login and sign-up tabs both leave the reset path. */
    method ChooseTab(login: bool)
      modifies this
      ensures isLogin == login && !showResetFlow && inputs == old(inputs) && resetStep == old(resetStep)
      ensures isSendingCode == old(isSendingCode) && showMfa == old(showMfa)
      ensures isLoading == old(isLoading) && mfaCode == old(mfaCode) && error == old(error)
    {
      isLogin := login;
      showResetFlow := false;
    }

    /** `handleFileUpload` for a chosen file: above 2 MB it is refused with a message;
        otherwise, once read, it becomes the avatar and the message clears. */
    method UploadAvatar(size: int, dataUrl: string)
      modifies this
      ensures size > MaxAvatarBytes ==> error == ImageTooLarge && inputs == old(inputs)
      ensures size <= MaxAvatarBytes ==> error == "" && inputs == old(inputs).(avatarUrl := dataUrl)
      ensures isLogin == old(isLogin) && showResetFlow == old(showResetFlow) && resetStep == old(resetStep)
      ensures isSendingCode == old(isSendingCode) && showMfa == old(showMfa)
      ensures isLoading == old(isLoading) && mfaCode == old(mfaCode)
    {
      if size > 2 * 1024 * 1024 {
        error := "Image too large (max 2MB)";
        return;
      }
      inputs := inputs.(avatarUrl := dataUrl);
      error := "";
    }

    /** `handleSubmit`: the first failing check sets its message; when all pass the code
        is being sent. */
    method Submit()
      modifies this
      ensures error == SubmitError(old(inputs), old(isLogin), old(showResetFlow)).GetOr("")
      ensures isSendingCode == (old(isSendingCode) || SubmitError(old(inputs), old(isLogin), old(showResetFlow)).None?)
      ensures inputs == old(inputs) && isLogin == old(isLogin) && showResetFlow == old(showResetFlow)
      ensures resetStep == old(resetStep) && showMfa == old(showMfa) && isLoading == old(isLoading)
      ensures mfaCode == old(mfaCode)
    {
      error := "";
      var e := SubmitError(inputs, isLogin, showResetFlow);
      if e.Some? {
        error := e.value;
        return;
      }
      isSendingCode := true;
    }

    /** The dispatch timer: the code screen opens, at the verify step on the reset path. */
    method CodeSent()
      requires isSendingCode
      modifies this
      ensures !isSendingCode && showMfa
      ensures resetStep == if old(showResetFlow) then VerifyStep else old(resetStep)
      ensures inputs == old(inputs) && isLogin == old(isLogin) && showResetFlow == old(showResetFlow)
      ensures isLoading == old(isLoading) && mfaCode == old(mfaCode) && error == old(error)
    {
      isSendingCode := false;
      showMfa := true;
      if showResetFlow {
        resetStep := VerifyStep;
      }
    }

    /** Typing in the code box, whose `maxLength` is six. */
    method TypeCode(raw: string)
      requires |raw| <= 6
      modifies this
      ensures mfaCode == DigitsOnly(raw) && |mfaCode| <= 6
      ensures inputs == old(inputs) && isLogin == old(isLogin) && showResetFlow == old(showResetFlow)
      ensures resetStep == old(resetStep) && isSendingCode == old(isSendingCode) && showMfa == old(showMfa)
      ensures isLoading == old(isLoading) && error == old(error)
    {
      mfaCode := DigitsOnly(raw);
    }

    /** `handleMfaSubmit`: a code that is not six characters is refused; on the reset path
        a good code leads to the new-password step; otherwise sign-in starts. */
    method SubmitCode()
      modifies this
      ensures |old(mfaCode)| != 6 ==>
        error == InvalidCode && mfaCode == old(mfaCode) && resetStep == old(resetStep) && isLoading == old(isLoading)
      ensures |old(mfaCode)| == 6 && old(showResetFlow) ==>
        resetStep == NewPassStep && mfaCode == "" && error == "" && isLoading == old(isLoading)
      ensures |old(mfaCode)| == 6 && !old(showResetFlow) ==>
        isLoading && resetStep == old(resetStep) && mfaCode == old(mfaCode) && error == old(error)
      ensures inputs == old(inputs) && isLogin == old(isLogin) && showResetFlow == old(showResetFlow)
      ensures isSendingCode == old(isSendingCode) && showMfa == old(showMfa)
    {
      if |mfaCode| != 6 {
        error := InvalidCode;
        return;
      }
      if showResetFlow {
        resetStep := NewPassStep;
        mfaCode := "";
        error := "";
      } else {
        isLoading := true;
      }
    }

    /** The sign-in timer: loading ends and the user record is handed to the app. */
    method SignInCompletes(randomId: string, nowIso: string, nurseImg: string) returns (u: User)
      requires isLoading
      modifies this
      ensures !isLoading && u == CompletedUser(inputs, isLogin, randomId, nowIso, nurseImg)
      ensures inputs == old(inputs) && isLogin == old(isLogin) && showResetFlow == old(showResetFlow)
      ensures resetStep == old(resetStep) && isSendingCode == old(isSendingCode) && showMfa == old(showMfa)
      ensures mfaCode == old(mfaCode) && error == old(error)
    {
      isLoading := false;
      u := CompletedUser(inputs, isLogin, randomId, nowIso, nurseImg);
    }

    /** `handleResetSubmit`: differing passwords are refused; equal ones start the reset. */
    method SubmitReset()
      modifies this
      ensures old(inputs).newPassword != old(inputs).confirmPassword ==> error == PasswordsDiffer && isLoading == old(isLoading)
      ensures old(inputs).newPassword == old(inputs).confirmPassword ==> isLoading && error == old(error)
      ensures inputs == old(inputs) && isLogin == old(isLogin) && showResetFlow == old(showResetFlow)
      ensures resetStep == old(resetStep) && isSendingCode == old(isSendingCode) && showMfa == old(showMfa)
      ensures mfaCode == old(mfaCode)
    {
      if inputs.newPassword != inputs.confirmPassword {
        error := PasswordsDiffer;
        return;
      }
      isLoading := true;
    }

    /** The reset timer: back to a clean login. */
    method ResetCompletes()
      requires isLoading
      modifies this
      ensures !isLoading && !showResetFlow && resetStep == IdentifierStep && isLogin && error == ""
      ensures inputs == old(inputs) && isSendingCode == old(isSendingCode) && showMfa == old(showMfa)
      ensures mfaCode == old(mfaCode)
    {
      isLoading := false;
      showResetFlow := false;
      resetStep := IdentifierStep;
      isLogin := true;
      error := "";
    }
  }
}
