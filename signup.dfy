/**
 * The sign-up form (app/auth/sign-up/page.tsx): `validate`, which fills an
 * error map by successive checks (a later check overwriting an earlier one
 * under the same key), and `handleSubmit`, which calls the auth provider's
 * `signUp` only for a valid form.
 */
module SignUp {
  import opened Js

  datatype SignUpForm = SignUpForm(
    firstName: string,
    lastName: string,
    email: string,
    password: string,
    confirmPassword: string,
    agreeTerms: bool)

  const InitialForm := SignUpForm("", "", "", "", "", false)

  const FirstNameRequired := "First name is required"
  const LastNameRequired := "Last name is required"
  const EmailRequired := "Email is required"
  const PasswordRequired := "Password is required"
  const PasswordTooShort := "Password must be at least 8 characters"
  const PasswordsDiffer := "Passwords do not match"
  const TermsRequired := "You must agree to the terms and conditions"
  const RegistrationFailed := "An error occurred during registration. Please try again."

  /** The keys `validate` can write. */
  const FieldKeys: set<string> := {"firstName", "lastName", "email", "password", "confirmPassword", "agreeTerms"}

  /** What the form needs to be submitted. */
  predicate Valid(f: SignUpForm) {
    && f.firstName != ""
    && f.lastName != ""
    && f.email != ""
    && |f.password| >= 8
    && f.password == f.confirmPassword
    && f.agreeTerms
  }

  /**
   * The message each key ends up with, stated per key: for the password
   * the length check always has the last word, so the "required" message
   * never survives.
   */
  function FinalError(f: SignUpForm, key: string): Option<string> {
    if key == "firstName" then (if f.firstName == "" then Some(FirstNameRequired) else None)
    else if key == "lastName" then (if f.lastName == "" then Some(LastNameRequired) else None)
    else if key == "email" then (if f.email == "" then Some(EmailRequired) else None)
    else if key == "password" then (if |f.password| < 8 then Some(PasswordTooShort) else None)
    else if key == "confirmPassword" then (if f.password != f.confirmPassword then Some(PasswordsDiffer) else None)
    else if key == "agreeTerms" then (if !f.agreeTerms then Some(TermsRequired) else None)
    else None
  }

  /** `validate`: the error map, built check after check, and whether it is empty. */
  method Validate(f: SignUpForm) returns (errors: map<string, string>, ok: bool)
    ensures forall k :: Field(errors, k) == FinalError(f, k)
    ensures errors.Keys <= FieldKeys
    ensures ok <==> errors == map[]
    ensures ok <==> Valid(f)
  {
    errors := map[];
    if f.firstName == "" { errors := errors["firstName" := FirstNameRequired]; }
    if f.lastName == "" { errors := errors["lastName" := LastNameRequired]; }
    if f.email == "" { errors := errors["email" := EmailRequired]; }
    if f.password == "" { errors := errors["password" := PasswordRequired]; }
    if |f.password| < 8 { errors := errors["password" := PasswordTooShort]; }
    if f.password != f.confirmPassword { errors := errors["confirmPassword" := PasswordsDiffer]; }
    if !f.agreeTerms { errors := errors["agreeTerms" := TermsRequired]; }
    ok := errors.Keys == {};
    if !Valid(f) {
      var k := if f.firstName == "" then "firstName"
        else if f.lastName == "" then "lastName"
        else if f.email == "" then "email"
        else if |f.password| < 8 then "password"
        else if f.password != f.confirmPassword then "confirmPassword"
        else "agreeTerms";
      assert k in errors;
    }
  }

  /** The error map is empty exactly for a valid form. */
  lemma NoErrorsIffValid(f: SignUpForm)
    ensures (forall k :: FinalError(f, k) == None) <==> Valid(f)
  {
    if !Valid(f) {
      var k :| k in FieldKeys && FinalError(f, k).Some?;
    }
  }

  /** How `handleSubmit` ends: stopped by validation, on its way to the dashboard, or showing the form-level error. */
  datatype SubmitResult = Blocked | Navigated(url: string) | RegistrationError

  /** What `signUp` is given: the credentials, and the names as user metadata. */
  datatype SignUpRequest = SignUpRequest(email: string, password: string, firstName: string, lastName: string)

  function RequestFor(f: SignUpForm): SignUpRequest {
    SignUpRequest(f.email, f.password, f.firstName, f.lastName)
  }

  /** What the auth provider's `signUp` did: resolved, or threw. */
  datatype SignUpOutcome = Accepted | Rejected

  class SignUpPage {
    var form: SignUpForm
    var isLoading: bool
    var errors: map<string, string>

    constructor()
      ensures form == InitialForm && !isLoading && errors == map[]
    {
      form := InitialForm;
      isLoading := false;
      errors := map[];
    }

    /** One of the inputs' change handlers: the whole form replaced. */
    method Edit(f: SignUpForm)
      modifies this`form
      ensures form == f
    {
      form := f;
    }

    /**
     * `handleSubmit`, as one step. An invalid form shows its errors and
     * `signUp` is not called; a failed `signUp` replaces the errors with the
     * single form-level message; `isLoading` is false once a call is over.
     */
    method HandleSubmit(outcome: SignUpOutcome) returns (sent: Option<SignUpRequest>, result: SubmitResult)
      modifies this`isLoading, this`errors
      ensures sent.Some? <==> Valid(form)
      ensures sent.Some? ==> sent.value == RequestFor(form)
      ensures sent.None? ==> result == Blocked && isLoading == old(isLoading)
      ensures sent.None? ==> forall k :: Field(errors, k) == FinalError(form, k)
      ensures sent.Some? && outcome.Accepted? ==> result == Navigated("/dashboard") && errors == map[]
      ensures sent.Some? && outcome.Rejected? ==> result == RegistrationError && errors == map["form" := RegistrationFailed]
      ensures sent.Some? ==> !isLoading
    {
      var newErrors, ok := Validate(form);
      errors := newErrors;
      if !ok {
        return None, Blocked;
      }
      sent := Some(RequestFor(form));
      isLoading := true;
      match outcome {
        case Accepted => result := Navigated("/dashboard");
        case Rejected =>
          errors := map["form" := RegistrationFailed];
          result := RegistrationError;
      }
      isLoading := false;
    }
  }
}
