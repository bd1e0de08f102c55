/** The decision logic of src/components/Auth/AuthCallback.tsx: what the page does
    with the `code`, `error`, `error_description` and `type` query parameters of
    an authentication redirect, and the `verifying`/`error` state it ends in. */
module AuthCallback {
  import opened Wrappers
  import opened Strings

  /** The query parameters; `None` is a parameter the URL lacks (`get` gives `null`). */
  datatype CallbackParams = CallbackParams(
    code: Option<string>,
    error: Option<string>,
    errorDescription: Option<string>,
    callbackType: Option<string>)

  /** A template-literal slot: a missing parameter renders as `null`. */
  function Render(p: Option<string>): string
  {
    match p
    case Some(v) => v
    case None => "null"
  }

  /** What the handler goes on to do after reading the parameters. */
  datatype Step = Fail(message: string) | Exchange(code: string) | GoToResetPassword

  const EmailConfirmation := "email_confirmation"
  const Recovery := "recovery"
  const InvalidTypeMessage := "Invalid callback type"
  const VerifiedMessage := "Email verified successfully! You can now log in."
  const DefaultAuthError := "An error occurred during authentication"

  /** The `if`/`else` chain of `handleAuthCallback`. An `error` parameter wins over
      everything; a confirmation with a code is exchanged; a recovery goes to the
      reset page whatever the code; anything else is an invalid type. */
  function Dispatch(q: CallbackParams): (s: Step)
    ensures Present(q.error) ==> s == Fail(q.error.value + ": " + Render(q.errorDescription))
    ensures s.Exchange? <==> !Present(q.error) && q.callbackType == Some(EmailConfirmation) && Present(q.code)
    ensures s.Exchange? ==> Some(s.code) == q.code
    ensures s.GoToResetPassword? <==> !Present(q.error) && q.callbackType == Some(Recovery)
    ensures s.Fail? ==> s.message != ""
    ensures !Present(q.error) && !s.Exchange? && !s.GoToResetPassword? ==> s == Fail(InvalidTypeMessage)
  {
    if Present(q.error) then
      var m := q.error.value + ": " + Render(q.errorDescription);
      assert m[0] == q.error.value[0];
      Fail(m)
    else if q.callbackType == Some(EmailConfirmation) && Present(q.code) then Exchange(q.code.value)
    else if q.callbackType == Some(Recovery) then GoToResetPassword
    else Fail(InvalidTypeMessage)
  }

  /** A confirmation link that lost its code is rejected as an invalid type. */
  lemma ConfirmationWithoutCode(q: CallbackParams)
    requires !Present(q.error) && q.callbackType == Some(EmailConfirmation) && !Present(q.code)
    ensures Dispatch(q) == Fail(InvalidTypeMessage)
  {
  }

  /** `err.message || 'An error occurred during authentication'`. */
  function ShownError(message: string): (r: string)
    ensures r != ""
    ensures message != "" ==> r == message
    ensures message == "" ==> r == DefaultAuthError
  {
    if message == "" then DefaultAuthError else message
  }

  /** A navigation, with the router state message it carries. */
  datatype Navigation = Navigation(path: string, message: Option<string>)

  /** What the page renders: the spinner while verifying, then the failure card
      when an error message is set, else the success card. */
  datatype Screen = VerifyingScreen | FailedScreen(message: string) | SucceededScreen

  function ScreenOf(verifying: bool, error: Option<string>): (r: Screen)
    ensures r.VerifyingScreen? <==> verifying
    ensures r.FailedScreen? <==> !verifying && Present(error)
    ensures r.FailedScreen? ==> r.message == error.value
  {
    if verifying then VerifyingScreen
    else if Present(error) then FailedScreen(error.value)
    else SucceededScreen
  }

  class CallbackView {
    var error: Option<string>
    var verifying: bool

    constructor ()
      ensures error.None? && verifying
    {
      error := None;
      verifying := true;
    }

    /** `handleAuthCallback`. `exchangeError` is the message of the error
      `exchangeCodeForSession` returned, if any; `exchanged` is the code sent to it. */
    method HandleAuthCallback(q: CallbackParams, exchangeError: Option<string>)
      returns (nav: Option<Navigation>, exchanged: Option<string>)
      modifies this
      ensures !verifying
      ensures exchanged.Some? <==> Dispatch(q).Exchange?
      ensures exchanged.Some? ==> exchanged.value == Dispatch(q).code
      ensures Dispatch(q).Fail? ==> error == Some(ShownError(Dispatch(q).message)) && nav.None?
      ensures Dispatch(q).Exchange? && exchangeError.Some? ==>
                error == Some(ShownError(exchangeError.value)) && nav.None?
      ensures Dispatch(q).Exchange? && exchangeError.None? ==>
                error == old(error) && nav == Some(Navigation("/login", Some(VerifiedMessage)))
      ensures Dispatch(q).GoToResetPassword? ==>
                error == old(error) && nav == Some(Navigation("/reset-password", None))
      ensures old(error).None? ==> (ScreenOf(verifying, error).FailedScreen? <==> nav.None?)
    {
      var step := Dispatch(q);
      nav, exchanged := None, None;
      match step {
        case Fail(m) =>
          error := Some(ShownError(m));
        case Exchange(code) =>
          exchanged := Some(code);
          if exchangeError.Some? {
            error := Some(ShownError(exchangeError.value));
          } else {
            nav := Some(Navigation("/login", Some(VerifiedMessage)));
          }
        case GoToResetPassword =>
          nav := Some(Navigation("/reset-password", None));
      }
      verifying := false;
    }
  }
}
