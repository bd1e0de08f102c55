/** The logic of src/pages/RegisterPage.tsx: the registration form schema, the
    projection of the form onto `RegisterData`, and the submit handler with its
    `isSubmitting` and `error` state. */
module RegisterPage {
  import opened Wrappers
  import opened Strings
  import opened Types
  import opened AuthContext

  /** The form's values. `phone` is optional in the schema; an empty input is
      the empty string, not an absent value. */
  datatype RegisterForm = RegisterForm(
    firstName: string,
    lastName: string,
    email: string,
    phone: Option<string>,
    password: string,
    confirmPassword: string,
    agreeTerms: bool)

  /** One failed check of `registerSchema`. */
  datatype RegisterIssue =
    | FirstNameTooShort | LastNameTooShort | InvalidEmail | PhoneTooShort
    | PasswordTooShort | TermsNotAccepted | PasswordsDontMatch
  {
    function Message(): string
    {
      match this
      case FirstNameTooShort => "First name must be at least 2 characters"
      case LastNameTooShort => "Last name must be at least 2 characters"
      case InvalidEmail => "Invalid email address"
      case PhoneTooShort => "Phone number must be at least 10 digits"
      case PasswordTooShort => "Password must be at least 6 characters"
      case TermsNotAccepted => "You must agree to the terms and conditions"
      case PasswordsDontMatch => "Passwords don't match"
    }

    /** The form field the error is shown under. */
    function Path(): string
    {
      match this
      case FirstNameTooShort => "firstName"
      case LastNameTooShort => "lastName"
      case InvalidEmail => "email"
      case PhoneTooShort => "phone"
      case PasswordTooShort => "password"
      case TermsNotAccepted => "agreeTerms"
      case PasswordsDontMatch => "confirmPassword"
    }
  }

  const MinNameLength := 2
  const MinPhoneLength := 10
  const MinPasswordLength := 6

  /** Whether one check fails. The library's e-mail format check is the
      parameter `isEmail`. */
  predicate RegisterFails(f: RegisterForm, isEmail: string -> bool, issue: RegisterIssue)
  {
    match issue
    case FirstNameTooShort => JsLength(f.firstName) < MinNameLength
    case LastNameTooShort => JsLength(f.lastName) < MinNameLength
    case InvalidEmail => !isEmail(f.email)
    case PhoneTooShort => f.phone.Some? && JsLength(f.phone.value) < MinPhoneLength
    case PasswordTooShort => JsLength(f.password) < MinPasswordLength
    case TermsNotAccepted => !f.agreeTerms
    case PasswordsDontMatch => f.password != f.confirmPassword
  }

  /** Every check of the schema: the field checks in key order, then the refinement. */
  function AllRegisterChecks(): (r: seq<RegisterIssue>)
    ensures forall i: RegisterIssue :: i in r
  {
    var r := [FirstNameTooShort, LastNameTooShort, InvalidEmail, PhoneTooShort,
              PasswordTooShort, TermsNotAccepted, PasswordsDontMatch];
    assert forall i: RegisterIssue :: i in r by {
      forall i: RegisterIssue ensures i in r {
        if i.FirstNameTooShort? { assert i == r[0]; } else if i.LastNameTooShort? { assert i == r[1]; }
        else if i.InvalidEmail? { assert i == r[2]; } else if i.PhoneTooShort? { assert i == r[3]; }
        else if i.PasswordTooShort? { assert i == r[4]; } else if i.TermsNotAccepted? { assert i == r[5]; }
        else { assert i == r[6]; }
      }
    }
    r
  }

  /** The checks among `checks` that fail on the form, in order. */
  function RegisterFailing(f: RegisterForm, isEmail: string -> bool, checks: seq<RegisterIssue>): (r: seq<RegisterIssue>)
    ensures forall i :: i in r <==> i in checks && RegisterFails(f, isEmail, i)
  {
    if checks == [] then []
    else
      var rest := RegisterFailing(f, isEmail, checks[1..]);
      assert forall i :: i in checks <==> i == checks[0] || i in checks[1..];
      if RegisterFails(f, isEmail, checks[0]) then [checks[0]] + rest else rest
  }

  /** The form passes every check. */
  predicate RegisterPassesAll(f: RegisterForm, isEmail: string -> bool)
  {
    && JsLength(f.firstName) >= MinNameLength && JsLength(f.lastName) >= MinNameLength
    && isEmail(f.email)
    && (f.phone.None? || JsLength(f.phone.value) >= MinPhoneLength)
    && JsLength(f.password) >= MinPasswordLength
    && f.agreeTerms
    && f.password == f.confirmPassword
  }

  /** No check fails exactly when the form passes every check. */
  lemma NoRegisterFailingIffPasses(f: RegisterForm, isEmail: string -> bool)
    ensures RegisterFailing(f, isEmail, AllRegisterChecks()) == [] <==> RegisterPassesAll(f, isEmail)
  {
    var issues := RegisterFailing(f, isEmail, AllRegisterChecks());
    if issues == [] {
      assert !RegisterFails(f, isEmail, FirstNameTooShort) && !RegisterFails(f, isEmail, LastNameTooShort);
      assert !RegisterFails(f, isEmail, InvalidEmail) && !RegisterFails(f, isEmail, PhoneTooShort);
      assert !RegisterFails(f, isEmail, PasswordTooShort) && !RegisterFails(f, isEmail, TermsNotAccepted);
      assert !RegisterFails(f, isEmail, PasswordsDontMatch);
    } else {
      assert RegisterFails(f, isEmail, issues[0]);
    }
  }

  /** `registerSchema`: names of at least 2 characters, a well-formed e-mail, an
      absent phone or one of at least 10 characters, a password of at least 6,
      the terms accepted, and the confirmation equal to the password; otherwise
      exactly the failed checks. Every field check is non-fatal, so the
      password-match refinement runs and reports as well. */
  function ValidateRegister(f: RegisterForm, isEmail: string -> bool): (r: Validation<RegisterForm, RegisterIssue>)
    ensures r.Valid? <==> RegisterPassesAll(f, isEmail)
    ensures r.Valid? ==> r.value == f
    ensures r.Invalid? ==> |r.issues| > 0 && forall i :: i in r.issues <==> RegisterFails(f, isEmail, i)
  {
    var issues := RegisterFailing(f, isEmail, AllRegisterChecks());
    NoRegisterFailingIffPasses(f, isEmail);
    if issues == [] then Valid(f) else Invalid(issues)
  }

  /** A mismatched confirmation is reported under `confirmPassword`, whatever
      else is wrong with the form. */
  lemma MismatchReportedOnConfirm(f: RegisterForm, isEmail: string -> bool)
    requires f.password != f.confirmPassword
    ensures var r := ValidateRegister(f, isEmail);
            r.Invalid? && exists i :: i in r.issues && i.Path() == "confirmPassword" && i.Message() == "Passwords don't match"
  {
    assert PasswordsDontMatch in ValidateRegister(f, isEmail).issues;
  }

  /** The fields `onSubmit` passes on; `confirmPassword` and `agreeTerms` stay behind. */
  function ToRegisterData(f: RegisterForm): (d: RegisterData)
    ensures d.firstName == f.firstName && d.lastName == f.lastName && d.email == f.email
    ensures d.phone == f.phone && d.password == f.password
  {
    RegisterData(f.firstName, f.lastName, f.email, f.phone, f.password)
  }

  /** Two forms that differ only in the fields left behind send the same data. */
  lemma ToRegisterDataIgnoresConfirmation(f: RegisterForm, confirm: string, terms: bool)
    ensures ToRegisterData(f.(confirmPassword := confirm, agreeTerms := terms)) == ToRegisterData(f)
  {
  }

  const RegisterPageFailedMessage := "Registration failed. Please try again."

  /** The page's `error` and `isSubmitting` state and the schema's issues. */
  class RegisterPageState {
    var issues: seq<RegisterIssue>
    var error: string
    var isSubmitting: bool

    constructor ()
      ensures issues == [] && error == "" && !isSubmitting
    {
      issues := [];
      error := "";
      isSubmitting := false;
    }

    /** `onSubmit`: registers with the projected data; any failure, the duplicate
      one included, shows one fixed message; success heads for the dashboard.
      `isSubmitting` is set for the call and cleared on every path. */
    method OnSubmit(f: RegisterForm, session: SessionManager, signUp: SignUpResult,
                    profileUpdateError: Option<string>, read: ProfileRead)
      returns (navigateTo: Option<string>, request: SignUpRequest)
      modifies this, session
      ensures !isSubmitting && !session.loading && issues == old(issues)
      ensures request == SignUpRequestOf(ToRegisterData(f))
      ensures RegisterOutcome(signUp, profileUpdateError).Ok? ==>
                error == "" && navigateTo == Some("/dashboard")
      ensures RegisterOutcome(signUp, profileUpdateError).Err? ==>
                error == RegisterPageFailedMessage && navigateTo.None?
      ensures session.user == if signUp == SignedUp(true) && profileUpdateError.None?
                              then AfterProfileLoad(old(session.user), read) else old(session.user)
    {
      error := "";
      isSubmitting := true;
      var r, req, written := session.Register(ToRegisterData(f), signUp, profileUpdateError, read);
      request := req;
      if r.Ok? {
        navigateTo := Some("/dashboard");
      } else {
        error := RegisterPageFailedMessage;
        navigateTo := None;
      }
      isSubmitting := false;
    }

    /** `handleSubmit(onSubmit)`: a form the schema rejects shows its issues and
      never reaches `register`. */
    method HandleSubmit(f: RegisterForm, isEmail: string -> bool, session: SessionManager,
                        signUp: SignUpResult, profileUpdateError: Option<string>, read: ProfileRead)
      returns (navigateTo: Option<string>)
      modifies this, session
      ensures ValidateRegister(f, isEmail).Invalid? ==>
                && issues == ValidateRegister(f, isEmail).issues && navigateTo.None?
                && error == old(error) && isSubmitting == old(isSubmitting)
                && session.user == old(session.user) && session.loading == old(session.loading)
      ensures ValidateRegister(f, isEmail).Valid? ==>
                && issues == [] && !isSubmitting
                && (navigateTo == Some("/dashboard") <==> RegisterOutcome(signUp, profileUpdateError).Ok?)
                && error == (if RegisterOutcome(signUp, profileUpdateError).Ok? then "" else RegisterPageFailedMessage)
                && !session.loading
                && session.user == if signUp == SignedUp(true) && profileUpdateError.None?
                                   then AfterProfileLoad(old(session.user), read) else old(session.user)
    {
      var checked := ValidateRegister(f, isEmail);
      if checked.Invalid? {
        issues := checked.issues;
        navigateTo := None;
      } else {
        issues := [];
        var request;
        navigateTo, request := OnSubmit(checked.value, session, signUp, profileUpdateError, read);
      }
    }
  }
}
