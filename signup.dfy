/** The sign-up page (src/app/auth/signup/page.tsx): the form state, its validator,
    the request it builds for a patient or a doctor, and the submit handler. */
module Signup {
  import opened Wrappers
  import opened Text
  import opened Toasts

  /** The form's fields, all held as the text the inputs contain. */
  datatype FormData = FormData(
    name: string, email: string, phone: string, password: string, confirmPassword: string,
    abhaId: string, dateOfBirth: string, gender: string, height: string, weight: string,
    medicalHistory: string, allergies: string, currentMedications: string,
    hprId: string, qualification: string, specialization: string, experience: string,
    clinicAddress: string, consultationFee: string)

  const EmptyForm := FormData("", "", "", "", "", "", "", "", "", "", "", "", "", "", "", "", "", "", "")

  /** The `name` attribute of each input, which `handleInputChange` uses as the key. */
  datatype Field =
    | Name | Email | Phone | Password | ConfirmPassword
    | AbhaId | DateOfBirth | Gender | Height | Weight
    | MedicalHistory | Allergies | CurrentMedications
    | HprId | Qualification | Specialization | Experience
    | ClinicAddress | ConsultationFee

  /** `formData[field]`. */
  function FieldValue(f: FormData, field: Field): string {
    match field
    case Name => f.name
    case Email => f.email
    case Phone => f.phone
    case Password => f.password
    case ConfirmPassword => f.confirmPassword
    case AbhaId => f.abhaId
    case DateOfBirth => f.dateOfBirth
    case Gender => f.gender
    case Height => f.height
    case Weight => f.weight
    case MedicalHistory => f.medicalHistory
    case Allergies => f.allergies
    case CurrentMedications => f.currentMedications
    case HprId => f.hprId
    case Qualification => f.qualification
    case Specialization => f.specialization
    case Experience => f.experience
    case ClinicAddress => f.clinicAddress
    case ConsultationFee => f.consultationFee
  }

  /** `{...formData, [field]: value}`. */
  function WithField(f: FormData, field: Field, value: string): (g: FormData)
    ensures FieldValue(g, field) == value
    ensures forall other :: other != field ==> FieldValue(g, other) == FieldValue(f, other)
  {
    match field
    case Name => f.(name := value)
    case Email => f.(email := value)
    case Phone => f.(phone := value)
    case Password => f.(password := value)
    case ConfirmPassword => f.(confirmPassword := value)
    case AbhaId => f.(abhaId := value)
    case DateOfBirth => f.(dateOfBirth := value)
    case Gender => f.(gender := value)
    case Height => f.(height := value)
    case Weight => f.(weight := value)
    case MedicalHistory => f.(medicalHistory := value)
    case Allergies => f.(allergies := value)
    case CurrentMedications => f.(currentMedications := value)
    case HprId => f.(hprId := value)
    case Qualification => f.(qualification := value)
    case Specialization => f.(specialization := value)
    case Experience => f.(experience := value)
    case ClinicAddress => f.(clinicAddress := value)
    case ConsultationFee => f.(consultationFee := value)
  }

  const PasswordMismatch: string := "Passwords do not match"
  const PasswordTooShort: string := "Password must be at least 6 characters long"
  const InvalidEmail: string := "Please enter a valid email address"
  const PhoneRequired: string := "Phone number is required"
  const MinPasswordLength: nat := 6

  /** `validateForm`: the first failing check's message, or none. */
  function ValidateForm(f: FormData): (error: Option<string>)
  {
    if f.password != f.confirmPassword then Some(PasswordMismatch)
    else if Utf16Length(f.password) < MinPasswordLength then Some(PasswordTooShort)
    else if '@' !in f.email then Some(InvalidEmail)
    else if Trim(f.phone) == "" then Some(PhoneRequired)
    else None
  }

  /** The form passes exactly when the passwords agree, are at least six characters,
      the e-mail holds an `@`, and the phone is not blank. */
  lemma ValidIff(f: FormData)
    ensures ValidateForm(f) == None <==>
              f.password == f.confirmPassword && Utf16Length(f.password) >= MinPasswordLength &&
              '@' in f.email && exists k :: 0 <= k < |f.phone| && !IsWhitespace(f.phone[k])
  {
    TrimEmptyIffBlank(f.phone);
  }

  /** A mismatch is reported first, even when the password is also too short. */
  lemma MismatchReportedFirst(f: FormData)
    requires f.password != f.confirmPassword
    ensures ValidateForm(f) == Some(PasswordMismatch)
  {
  }

  /** A matching password of six code units passes the length check and one of five
      does not; three characters outside the Basic Multilingual Plane make six units,
      so such a password is long enough although it has three characters. */
  lemma PasswordLengthBoundary(f: FormData)
    requires f.password == f.confirmPassword
    ensures Utf16Length(f.password) == 5 ==> ValidateForm(f) == Some(PasswordTooShort)
    ensures Utf16Length(f.password) == 6 ==> ValidateForm(f) != Some(PasswordTooShort)
    ensures (forall k :: 0 <= k < |f.password| ==> (f.password[k] as int) < 0x1_0000) ==>
              (ValidateForm(f) == Some(PasswordTooShort) <==> |f.password| < MinPasswordLength)
    ensures f.password == "\U{1F600}\U{1F600}\U{1F600}" ==> ValidateForm(f) != Some(PasswordTooShort)
  {
    var emoji := "\U{1F600}\U{1F600}\U{1F600}";
    assert Utf16Length(emoji) == 6 by {
      assert emoji[1..][1..][1..] == [];
    }
  }

  /** What `signupPatient` is sent. The optional fields are `None` when the form left
      them empty; the numbers are `parseInt` of the text. */
  datatype PatientSignupRequest = PatientSignupRequest(
    fullName: string, email: string, phone: string, dob: string, gender: string, password: string,
    abhaId: Option<string>, height: Option<JsNumber>, weight: Option<JsNumber>,
    knownAllergies: Option<seq<string>>, medicalHistory: Option<seq<string>>)

  /** What `signupDoctor` is sent. */
  datatype DoctorSignupRequest = DoctorSignupRequest(
    fullName: string, email: string, phone: string, hprId: string, qualifications: seq<string>,
    specialization: string, experience: JsNumber, consultationFees: JsNumber,
    clinicAddress: string, password: string)

  datatype SignupRequest = ForPatient(patient: PatientSignupRequest) | ForDoctor(doctor: DoctorSignupRequest)

  /** `...(text && { key: f(text) })`: present only for non-empty text. */
  function IfFilled<T>(text: string, value: T): Option<T> {
    if text != "" then Some(value) else None
  }

  /** The patient payload of `handleSubmit`. */
  function PatientRequest(f: FormData): (r: PatientSignupRequest)
    ensures r.abhaId.Some? <==> f.abhaId != ""
    ensures r.knownAllergies.Some? <==> f.allergies != ""
    ensures r.medicalHistory.Some? <==> f.medicalHistory != ""
    ensures r.height.Some? <==> f.height != ""
    ensures r.weight.Some? <==> f.weight != ""
  {
    PatientSignupRequest(
      f.name, f.email, f.phone, f.dateOfBirth, f.gender, f.password,
      IfFilled(f.abhaId, f.abhaId),
      IfFilled(f.height, ParseInt(f.height)),
      IfFilled(f.weight, ParseInt(f.weight)),
      IfFilled(f.allergies, SplitTrim(f.allergies, ',')),
      IfFilled(f.medicalHistory, SplitTrim(f.medicalHistory, ',')))
  }

  /** The doctor payload of `handleSubmit`: one qualification per comma-separated
      piece of the typed text, each trimmed. */
  function DoctorRequest(f: FormData): (r: DoctorSignupRequest)
    ensures |r.qualifications| == Occurrences(f.qualification, ',') + 1
    ensures forall k :: 0 <= k < |r.qualifications| ==>
                        r.qualifications[k] == Trim(Split(f.qualification, ',')[k])
  {
    DoctorSignupRequest(
      f.name, f.email, f.phone, f.hprId, SplitTrim(f.qualification, ','),
      f.specialization, ParseInt(f.experience), ParseInt(f.consultationFee),
      f.clinicAddress, f.password)
  }

  /** The allergy list has one entry per comma-separated piece, each trimmed, and
      joining the untrimmed pieces with commas gives the typed text back. */
  lemma AllergiesAreTrimmedPieces(f: FormData)
    requires f.allergies != ""
    ensures var list := PatientRequest(f).knownAllergies.value;
            |list| == Occurrences(f.allergies, ',') + 1 &&
            (forall k :: 0 <= k < |list| ==> list[k] == Trim(Split(f.allergies, ',')[k]) && ',' !in list[k]) &&
            Join(Split(f.allergies, ','), ",") == f.allergies
  {
    var list := PatientRequest(f).knownAllergies.value;
    var pieces := Split(f.allergies, ',');
    forall k | 0 <= k < |list| ensures ',' !in list[k] {
      var t := Trim(pieces[k]);
      assert ',' !in pieces[k];
      var i, j :| 0 <= i <= j <= |pieces[k]| && t == pieces[k][i..j];
      assert forall c :: c in t ==> c in pieces[k];
    }
  }

  /** A height typed as digits reaches the request as that number. */
  lemma HeightIsParsed(f: FormData, n: nat)
    requires f.height == DecimalString(n)
    ensures PatientRequest(f).height == Some(Num(n))
  {
    ParseIntDecimalString(n);
  }

  /** Experience and fee typed as digits reach the doctor request as those numbers;
      an empty experience field reaches it as `NaN`. */
  lemma DoctorFiguresAreParsed(f: FormData, years: nat, fee: nat)
    ensures f.experience == DecimalString(years) ==> DoctorRequest(f).experience == Num(years)
    ensures f.consultationFee == DecimalString(fee) ==> DoctorRequest(f).consultationFees == Num(fee)
    ensures f.experience == "" ==> DoctorRequest(f).experience == NaN
  {
    ParseIntDecimalString(years);
    ParseIntDecimalString(fee);
  }

  const SignupFailed: string := "Signup failed. Please try again."
  const PatientCreated: string := "Account created successfully! Please sign in with your credentials."
  const DoctorCreated: string := "Doctor account created successfully! Please sign in with your credentials."
  const PatientLoginRedirect: string := "/auth/login?role=user&signup=success"
  const DoctorLoginRedirect: string := "/auth/login?role=doctor&signup=success"

  /** The backend's answer to a sign-up request: success, or a thrown value, which is
      an `Error` carrying its message or anything else (`None`). */
  datatype Answer = Created | Threw(error: Option<string>)

  /** The message shown for a failure: the `Error`'s message, or the fixed fallback. */
  function FailureMessage(error: Option<string>): (message: string)
    ensures error.Some? ==> message == error.value
    ensures error.None? ==> message == SignupFailed
  {
    error.GetOr(SignupFailed)
  }

  /** The request `handleSubmit` sends for the chosen role: anything other than
      `user` takes the doctor branch. */
  function RequestFor(userType: string, f: FormData): (r: SignupRequest)
    ensures r.ForPatient? <==> userType == "user"
  {
    if userType == "user" then ForPatient(PatientRequest(f)) else ForDoctor(DoctorRequest(f))
  }

  /** The page's state. `sent` records the sign-up requests made, `navigations` the
      paths pushed to the router, `toasts` the shared toast queue. */
  class SignupPage {
    var userType: string
    var isLoading: bool
    var error: Option<string>
    var formData: FormData
    var sent: seq<SignupRequest>
    var navigations: seq<string>
    const toasts: ToastQueue

    /** `searchParams.get('role') || 'user'`, an empty form, no error, not loading. */
    constructor (roleParam: Option<string>, toasts: ToastQueue)
      ensures userType == (if roleParam.Some? && roleParam.value != "" then roleParam.value else "user")
      ensures !isLoading && error == None && formData == EmptyForm
      ensures sent == [] && navigations == [] && this.toasts == toasts
    {
      userType := if roleParam.Some? && roleParam.value != "" then roleParam.value else "user";
      isLoading := false;
      error := None;
      formData := EmptyForm;
      sent := [];
      navigations := [];
      this.toasts := toasts;
    }

    /** `handleInputChange`: clears the error and changes the named field only. */
    method HandleInputChange(field: Field, value: string)
      modifies this
      ensures error == None
      ensures formData == WithField(old(formData), field, value)
      ensures isLoading == old(isLoading) && userType == old(userType)
      ensures sent == old(sent) && navigations == old(navigations)
    {
      error := None;
      formData := WithField(formData, field, value);
    }

    /** `handleSubmit`. A failed validation sets its message, ends loading and sends
        nothing. Otherwise the role's request is sent; `response` is the backend's answer
        (success, or what it threw) and `toastId` the id the toast gets. */
    method HandleSubmit(response: Answer, toastId: string)
      modifies this, toasts
      ensures !isLoading
      ensures formData == old(formData) && userType == old(userType)
      ensures ValidateForm(formData).Some? ==>
                error == ValidateForm(formData) && sent == old(sent) &&
                navigations == old(navigations) && toasts.toasts == old(toasts.toasts)
      ensures ValidateForm(formData).None? ==> sent == old(sent) + [RequestFor(userType, formData)]
      ensures ValidateForm(formData).None? && response.Created? ==>
                error == None &&
                navigations == old(navigations) +
                  [if userType == "user" then PatientLoginRedirect else DoctorLoginRedirect] &&
                toasts.toasts == old(toasts.toasts) +
                  [Toast(toastId, Success, if userType == "user" then PatientCreated else DoctorCreated, None)]
      ensures ValidateForm(formData).None? && response.Threw? ==>
                error == Some(FailureMessage(response.error)) && navigations == old(navigations) &&
                toasts.toasts == old(toasts.toasts) + [Toast(toastId, Error, FailureMessage(response.error), None)]
    {
      isLoading := true;
      error := None;
      var validationError := ValidateForm(formData);
      if validationError.Some? {
        error := validationError;
        isLoading := false;
        return;
      }
      sent := sent + [RequestFor(userType, formData)];
      if response.Created? {
        var message := if userType == "user" then PatientCreated else DoctorCreated;
        var id := toasts.ShowSuccess(message, None, toastId);
        navigations := navigations + [if userType == "user" then PatientLoginRedirect else DoctorLoginRedirect];
      } else {
        var errorMessage := FailureMessage(response.error);
        error := Some(errorMessage);
        var id := toasts.ShowError(errorMessage, None, toastId);
      }
      isLoading := false;
    }
  }
}
