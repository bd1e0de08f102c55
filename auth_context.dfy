/** The session manager of src/contexts/AuthContext.tsx: the current `user` and the
    `loading` flag, driven by the initial session check, session-change events,
    login, registration and logout. Every identity-provider call is an input: the
    value it resolved to, or the message of the error it threw. */
module AuthContext {
  import opened Wrappers
  import opened Strings
  import opened Types

  // ---------------------------------------------------------------------------
  // Profiles
  // ---------------------------------------------------------------------------

  /** A row of the `profiles` table; `phone` and `department` may be `null`. */
  datatype Profile = Profile(
    id: string,
    email: string,
    firstName: string,
    lastName: string,
    phone: Option<string>,
    role: Role,
    department: Option<string>,
    createdAt: Time,
    updatedAt: Time)

  /** `value || undefined`: `null` and the empty string both become absent. */
  function Truthy(s: Option<string>): (r: Option<string>)
    ensures r.Some? <==> s.Some? && s.value != ""
    ensures r.Some? ==> r == s
  {
    if Present(s) then s else None
  }

  /** The `User` that `loadUserProfile` builds from a profile row. */
  function ProfileToUser(p: Profile): (u: User)
    ensures u.id == p.id && u.email == p.email && u.role == p.role
    ensures u.firstName == p.firstName && u.lastName == p.lastName
    ensures u.phone.Some? <==> p.phone.Some? && p.phone.value != ""
    ensures u.department.Some? <==> p.department.Some? && p.department.value != ""
    ensures u.phone.Some? ==> u.phone == p.phone
    ensures u.department.Some? ==> u.department == p.department
    ensures u.createdAt == p.createdAt && u.updatedAt == p.updatedAt
  {
    User(p.id, p.email, p.firstName, p.lastName, Truthy(p.phone), p.role,
         Truthy(p.department), p.createdAt, p.updatedAt)
  }

  /** What `getCurrentUserProfile()` gave: a row, `null`, or a thrown error. */
  datatype ProfileRead = ProfileFound(profile: Profile) | NoProfile | ProfileReadError(message: string)

  /** `user` after `loadUserProfile`: set from a found row; a missing row or an
      error (which is only logged) leaves it as it was. */
  function AfterProfileLoad(current: Option<User>, read: ProfileRead): (r: Option<User>)
    ensures !read.ProfileFound? ==> r == current
    ensures read.ProfileFound? ==> r == Some(ProfileToUser(read.profile))
    ensures read.ProfileFound? ==> r.Some? && r.value.id == read.profile.id && r.value.role == read.profile.role
  {
    match read
    case ProfileFound(p) => Some(ProfileToUser(p))
    case _ => current
  }

  /** Loading the same read twice changes nothing more than loading it once. */
  lemma AfterProfileLoadIdempotent(current: Option<User>, read: ProfileRead)
    ensures AfterProfileLoad(AfterProfileLoad(current, read), read) == AfterProfileLoad(current, read)
  {
  }

  // ---------------------------------------------------------------------------
  // Login
  // ---------------------------------------------------------------------------

  /** What `signInWithPassword` gave: an error (its message, `''` when it has
      none) or data, with or without a user. */
  datatype SignInResult = SignInError(message: string) | SignedIn(hasUser: bool)

  const LoginFailedMessage := "Login failed"

  /** `new Error(error.message || 'Login failed')`. */
  function LoginErrorMessage(message: string): (r: string)
    ensures r != ""
    ensures message != "" ==> r == message
    ensures message == "" ==> r == LoginFailedMessage
  {
    if message == "" then LoginFailedMessage else message
  }

  // ---------------------------------------------------------------------------
  // Registration errors
  // ---------------------------------------------------------------------------

  const DuplicateCode := "user_already_exists"
  /** The phrase the outer `catch` looks for to recognise its own duplicate error. */
  const DuplicateMarker := "This email is already registered"
  /** `'This email is already registered. Please log in or use a different email.'` */
  const DuplicateMessage := DuplicateMarker + ". Please log in or use a different email."
  const RegistrationFailedMessage := "Registration failed"

  /** The sign-up error test of `register`: the error code, or the lower-cased
      message containing any of four phrases. */
  predicate IsDuplicateSignUpError(code: string, message: string)
  {
    var m := Lower(message);
    || code == DuplicateCode
    || Contains(m, "user already registered")
    || Contains(m, "user already exists")
    || Contains(m, "already registered")
    || Contains(m, "email address is already registered")
  }

  /** Two of the four phrases are redundant: `'already registered'` occurs in
      `'user already registered'` and in `'email address is already registered'`. */
  lemma DuplicateTestSimplified(code: string, message: string)
    ensures IsDuplicateSignUpError(code, message)
        <==> || code == DuplicateCode
             || Contains(Lower(message), "already registered")
             || Contains(Lower(message), "user already exists")
  {
    var m := Lower(message);
    assert "user already registered" == "user " + "already registered" + "";
    OccursInConcat("user ", "already registered", "");
    assert "email address is already registered" == "email address is " + "already registered" + "";
    OccursInConcat("email address is ", "already registered", "");
    if Contains(m, "user already registered") {
      ContainsTransitive(m, "user already registered", "already registered");
    }
    if Contains(m, "email address is already registered") {
      ContainsTransitive(m, "email address is already registered", "already registered");
    }
  }

  /** The outer `catch` of `register`: an error carrying the duplicate phrase is
      rethrown as it is, any other becomes an `Error` with its own message, or
      `'Registration failed'` when that is empty. Either way the message survives
      unless it is empty. */
  function RegisterCatch(message: string): (r: string)
    ensures r == if message == "" then RegistrationFailedMessage else message
  {
    if Contains(message, DuplicateMarker) then message
    else if message == "" then RegistrationFailedMessage
    else message
  }

  /** The message `register` rejects with when sign-up returns an error. */
  function SignUpErrorMessage(code: string, message: string): (r: string)
    ensures r != ""
    ensures IsDuplicateSignUpError(code, message) ==> r == DuplicateMessage
    ensures !IsDuplicateSignUpError(code, message) && message != "" ==> r == message
  {
    RegisterCatch(if IsDuplicateSignUpError(code, message) then DuplicateMessage else message)
  }

  /** The friendly message starts with the phrase the outer `catch` looks for. */
  lemma MarkerStartsMessage()
    ensures OccursAt(DuplicateMessage, DuplicateMarker, 0)
  {
    var rest := ". Please log in or use a different email.";
    assert DuplicateMessage == "" + DuplicateMarker + rest;
    OccursInConcat("", DuplicateMarker, rest);
  }

  /** The phrase carries `'already registered'`. */
  lemma MarkerSaysAlreadyRegistered()
    ensures OccursAt(DuplicateMarker, "already registered", 14)
  {
    assert DuplicateMarker == "This email is " + "already registered" + "";
    OccursInConcat("This email is ", "already registered", "");
  }

  /** `'already registered'` is already in lower case. */
  lemma AlreadyRegisteredIsLower()
    ensures Lower("already registered") == "already registered"
  {
  }

  /** The friendly message would itself pass the duplicate test, and it carries
      the phrase the outer `catch` looks for. */
  lemma DuplicateMessageSelfClassifies(code: string)
    ensures IsDuplicateSignUpError(code, DuplicateMessage)
    ensures Contains(DuplicateMessage, DuplicateMarker)
  {
    MarkerStartsMessage();
    MarkerSaysAlreadyRegistered();
    AlreadyRegisteredIsLower();
    OccursAtTransitive(DuplicateMessage, DuplicateMarker, "already registered", 0, 14);
    LowerKeepsOccurrence(DuplicateMessage, "already registered", 14);
  }

  /** The friendly duplicate message is raised exactly for the duplicate errors, so
      a caller can tell the two kinds of failure apart. */
  lemma DuplicateDistinguishable(code: string, message: string)
    ensures SignUpErrorMessage(code, message) == DuplicateMessage <==> IsDuplicateSignUpError(code, message)
  {
    DuplicateMessageSelfClassifies(code);
    assert |RegistrationFailedMessage| != |DuplicateMessage|;
  }

  // ---------------------------------------------------------------------------
  // The provider
  // ---------------------------------------------------------------------------

  /** What `signUp` gave: a returned error with its code and message (each `''`
      when it has none), data with or without a user, or a thrown error (its
      message), which skips the duplicate test and reaches the outer `catch`. */
  datatype SignUpResult =
    | SignUpError(code: string, message: string)
    | SignedUp(hasUser: bool)
    | SignUpThrew(message: string)

  /** The metadata sent with `signUp`. */
  datatype SignUpRequest = SignUpRequest(email: string, password: string, firstName: string,
                                         lastName: string, phone: Option<string>)

  /** The `profiles` update written after a successful sign-up. */
  datatype ProfileUpdate = ProfileUpdate(phone: Option<string>, role: Role)

  function SignUpRequestOf(data: RegisterData): (q: SignUpRequest)
    ensures q.email == data.email && q.password == data.password && q.phone == data.phone
    ensures q.firstName == data.firstName && q.lastName == data.lastName
  {
    SignUpRequest(data.email, data.password, data.firstName, data.lastName, data.phone)
  }

  /** How `register` settles for the given provider results. */
  function RegisterOutcome(signUp: SignUpResult, profileUpdateError: Option<string>): (r: Result<()>)
    ensures r.Err? <==> !signUp.SignedUp? || (signUp == SignedUp(true) && profileUpdateError.Some?)
    ensures r.Err? ==> r.message != ""
    ensures signUp.SignUpThrew? ==> r == Err(RegisterCatch(signUp.message))
  {
    match signUp
    case SignUpError(code, message) => Err(SignUpErrorMessage(code, message))
    case SignUpThrew(message) => Err(RegisterCatch(message))
    case SignedUp(hasUser) =>
      if hasUser && profileUpdateError.Some? then Err(RegisterCatch(profileUpdateError.value)) else Ok(())
  }

  /** A thrown sign-up error is not reclassified: its message comes out as it
      is, so a thrown duplicate error does not become the friendly message. */
  lemma ThrownSignUpKeepsMessage(message: string)
    requires message != ""
    ensures RegisterOutcome(SignUpThrew(message), None) == Err(message)
  {
  }

  class SessionManager {
    var user: Option<User>
    var loading: bool

    /** `useState(null)` and `useState(true)`. */
    constructor ()
      ensures user.None? && loading
    {
      user := None;
      loading := true;
    }

    method LoadUserProfile(read: ProfileRead)
      modifies this`user
      ensures user == AfterProfileLoad(old(user), read)
    {
      match read
      case ProfileFound(p) =>
        user := Some(ProfileToUser(p));
      case _ =>
    }

    /** `getInitialSession`: loads the profile when a session with a user exists. */
    method InitialSession(sessionHasUser: bool, read: ProfileRead)
      modifies this
      ensures !loading
      ensures user == if sessionHasUser then AfterProfileLoad(old(user), read) else old(user)
    {
      if sessionHasUser {
        LoadUserProfile(read);
      }
      loading := false;
    }

    /** The `onAuthStateChange` handler: loads the profile when the new session has
      a user, and clears `user` otherwise. */
    method SessionChanged(sessionHasUser: bool, read: ProfileRead)
      modifies this
      ensures !loading
      ensures user == if sessionHasUser then AfterProfileLoad(old(user), read) else None
    {
      if sessionHasUser {
        LoadUserProfile(read);
      } else {
        user := None;
      }
      loading := false;
    }

    /** `login`: rejects with the provider's message (or `'Login failed'`) and
      leaves `user` alone; on success loads the profile when a user came back. */
    method Login(email: string, password: string, signIn: SignInResult, read: ProfileRead)
      returns (r: Result<()>)
      modifies this
      ensures !loading
      ensures signIn.SignInError? ==> r == Err(LoginErrorMessage(signIn.message)) && user == old(user)
      ensures signIn.SignedIn? ==> r == Ok(())
      ensures signIn.SignedIn? && signIn.hasUser ==> user == AfterProfileLoad(old(user), read)
      ensures signIn.SignedIn? && !signIn.hasUser ==> user == old(user)
    {
      loading := true;
      match signIn {
        case SignInError(message) =>
          r := Err(LoginErrorMessage(message));
        case SignedIn(hasUser) =>
          if hasUser {
            LoadUserProfile(read);
          }
          r := Ok(());
      }
      loading := false;
    }

    /** `register`: signs up with the form's data; classifies a sign-up error (see
      `SignUpErrorMessage`); after a sign-up that returned a user writes the phone
      and role `citizen` to the profile, where an error aborts the registration,
      and then loads the profile. `profileUpdateError` is the message of the
      update's error, if it returned one. */
    method Register(data: RegisterData, signUp: SignUpResult, profileUpdateError: Option<string>,
                    read: ProfileRead)
      returns (r: Result<()>, request: SignUpRequest, written: Option<ProfileUpdate>)
      modifies this
      ensures !loading
      ensures request == SignUpRequestOf(data)
      ensures written.Some? <==> signUp == SignedUp(true)
      ensures written.Some? ==> written.value == ProfileUpdate(data.phone, Citizen)
      ensures r == RegisterOutcome(signUp, profileUpdateError)
      ensures signUp.SignUpError? ==>
                r == Err(SignUpErrorMessage(signUp.code, signUp.message)) && user == old(user)
      ensures signUp.SignUpThrew? ==> r == Err(RegisterCatch(signUp.message)) && user == old(user)
      ensures signUp == SignedUp(false) ==> r == Ok(()) && user == old(user)
      ensures signUp == SignedUp(true) && profileUpdateError.Some? ==>
                r == Err(RegisterCatch(profileUpdateError.value)) && user == old(user)
      ensures signUp == SignedUp(true) && profileUpdateError.None? ==>
                r == Ok(()) && user == AfterProfileLoad(old(user), read)
    {
      loading := true;
      request := SignUpRequestOf(data);
      written := None;
      match signUp {
        case SignUpError(code, message) =>
          r := Err(SignUpErrorMessage(code, message));
        case SignUpThrew(message) =>
          r := Err(RegisterCatch(message));
        case SignedUp(hasUser) =>
          r := Ok(());
          if hasUser {
            written := Some(ProfileUpdate(data.phone, Citizen));
            if profileUpdateError.Some? {
              r := Err(RegisterCatch(profileUpdateError.value));
            } else {
              LoadUserProfile(read);
            }
          }
      }
      loading := false;
    }

    /** `logout`: clears `user` once `signOut` succeeds; a thrown error is logged
      and `user` stays. `loading` is not touched. */
    method Logout(signOutFails: bool)
      modifies this`user
      ensures signOutFails ==> user == old(user)
      ensures !signOutFails ==> user.None?
    {
      if !signOutFails {
        user := None;
      }
    }
  }
}
