/** The sign-in form (frontend/src/components/LoginView.jsx): the guard on
    the credentials, what reaches the login handler, and the forgot-password
    request. The handlers the page is given are inputs: absent, or what
    awaiting them gives (success, or the message of the error thrown). */
module LoginView {
  import opened Common

  /** What `onLogin` receives. */
  datatype Credentials = Credentials(username: string, password: string)

  /** A handler prop: not a function, or one whose call succeeds or throws
      an error with this message (possibly empty). */
  datatype Handler = Missing | Resolves | Throws(message: string)

  /** The forgot-password status line. */
  datatype StatusKind = NoStatus | ErrorStatus | SuccessStatus
  datatype Status = Status(kind: StatusKind, message: string)

  const BothRequired := "Please enter both username and password."
  const NoHandler := "Login handler not available"
  const SignInFailed := "Sign in failed. Please try again."
  const EmailRequired := "Please enter your email address."
  const ResetSent := "If an account with that email exists, a reset link has been sent."

  /** The credentials a submission sends: none without a username that is
      non-blank once trimmed and a non-empty password; the username sent is
      the trimmed one, the password as typed. */
  function LoginRequest(username: string, password: string): (r: Option<Credentials>)
    ensures r.Some? <==> NonBlank(username) && password != ""
    ensures r.Some? ==> r.value.username == Trim(username) && r.value.password == password
  {
    var u := Trim(username);
    if u == [] || password == "" then None else Some(Credentials(u, password))
  }

  /** The username sent is never blank and has no surrounding whitespace. */
  lemma SentUsernameTrimmed(username: string, password: string)
    requires LoginRequest(username, password).Some?
    ensures var u := LoginRequest(username, password).value.username;
            u != "" && Trim(u) == u
  {
    TrimIdempotent(username);
  }

  /** The message shown when the login handler fails. */
  function LoginFailure(h: Handler): (m: string)
    requires !h.Resolves?
    ensures m != ""
    ensures h.Throws? && h.message != "" ==> m == h.message
  {
    if h.Missing? then NoHandler
    else if h.message != "" then h.message
    else SignInFailed
  }

  /** The sign-in form's state. */
  class LoginForm {
    var error: Option<string>
    var loading: bool
    var forgotStatus: Status
    var forgotLoading: bool

    constructor()
      ensures error.None? && !loading && forgotStatus == Status(NoStatus, "") && !forgotLoading
    {
      error := None;
      loading := false;
      forgotStatus := Status(NoStatus, "");
      forgotLoading := false;
    }

    /** `handleSubmit`: without both credentials the form shows the
        message and calls nothing; otherwise it calls the handler with the
        trimmed username and shows the handler's failure, if any. */
    method Submit(username: string, password: string, onLogin: Handler) returns (called: Option<Credentials>)
      modifies this
      ensures called == (if onLogin.Missing? then None else LoginRequest(username, password))
      ensures LoginRequest(username, password).None? ==> error == Some(BothRequired) && loading == old(loading)
      ensures LoginRequest(username, password).Some? ==> !loading
      ensures LoginRequest(username, password).Some? && onLogin.Resolves? ==> error.None?
      ensures LoginRequest(username, password).Some? && !onLogin.Resolves? ==> error == Some(LoginFailure(onLogin))
      ensures forgotStatus == old(forgotStatus) && forgotLoading == old(forgotLoading)
    {
      error := None;
      var trimmed := Trim(username);
      if trimmed == [] || password == "" {
        error := Some(BothRequired);
        return None;
      }
      loading := true;
      called := None;
      if onLogin.Missing? {
        error := Some(LoginFailure(onLogin));
      } else {
        called := Some(Credentials(trimmed, password));
        if onLogin.Throws? {
          error := Some(LoginFailure(onLogin));
        }
      }
      loading := false;
    }

    /** `submitForgotPassword`: an empty address is refused; otherwise the
        request is made and the same success message is shown whether it
        succeeds or fails. */
    method SubmitForgotPassword(email: string, onForgotPassword: Handler) returns (requested: Option<string>)
      modifies this
      ensures email == "" ==> requested.None? && forgotStatus == Status(ErrorStatus, EmailRequired)
      ensures email != "" ==> forgotStatus == Status(SuccessStatus, ResetSent) && !forgotLoading
      ensures email != "" ==> requested == (if onForgotPassword.Missing? then None else Some(email))
      ensures error == old(error) && loading == old(loading)
    {
      forgotStatus := Status(NoStatus, "");
      if email == "" {
        forgotStatus := Status(ErrorStatus, EmailRequired);
        return None;
      }
      forgotLoading := true;
      requested := None;
      if !onForgotPassword.Missing? {
        requested := Some(email);
      }
      if onForgotPassword.Throws? {
        forgotStatus := Status(SuccessStatus, ResetSent);
      } else {
        forgotStatus := Status(SuccessStatus, ResetSent);
      }
      forgotLoading := false;
    }
  }

  /** The outcome of a forgot-password request does not show: a request
      that succeeds and one that fails leave the same status. */
  method ForgotPasswordHidesOutcome(email: string, message: string) returns (same: bool)
    ensures same
  {
    var a := new LoginForm();
    var b := new LoginForm();
    var _ := a.SubmitForgotPassword(email, Resolves);
    var _ := b.SubmitForgotPassword(email, Throws(message));
    same := a.forgotStatus == b.forgotStatus;
  }
}
