/** The authentication client (frontend/src/api/auth.jsx): the dashboard
    helpers over the server's `role_info`, how `login` and `register` turn
    what happens into a message, and how addresses are normalised before
    they are sent. The HTTP calls are inputs: what a call gives back is an
    `Answer`. */
module Auth {
  import opened Common
  import UserModels

  // ----- role and route helpers (auth.jsx:262-277) -----

  /** The `role_info` the server sends; a flag that is absent is None. */
  datatype RoleInfo = RoleInfo(canAccessAdmin: Option<bool>, canAccessBidder: Option<bool>, dashboardRoute: string)

  /** The signed-in user's data, as far as these helpers read it. */
  datatype UserData = UserData(roleInfo: Option<RoleInfo>)

  /** `canAccessAdminDashboard`: only when role information is present and
      its flag is set. */
  function CanAccessAdminDashboard(u: Option<UserData>): (r: bool)
    ensures r <==> u.Some? && u.value.roleInfo.Some? && u.value.roleInfo.value.canAccessAdmin == Some(true)
  {
    if u.None? || u.value.roleInfo.None? then false else u.value.roleInfo.value.canAccessAdmin.GetOr(false)
  }

  /** `canAccessBidderDashboard`: the same for the bidder flag. */
  function CanAccessBidderDashboard(u: Option<UserData>): (r: bool)
    ensures r <==> u.Some? && u.value.roleInfo.Some? && u.value.roleInfo.value.canAccessBidder == Some(true)
  {
    if u.None? || u.value.roleInfo.None? then false else u.value.roleInfo.value.canAccessBidder.GetOr(false)
  }

  /** `getDashboardRoute`: the route the server named, or `/login` when
      there is no role information or no route. Never empty. */
  function DashboardRoute(u: Option<UserData>): (r: string)
    ensures r != ""
    ensures u.None? || u.value.roleInfo.None? ==> r == "/login"
    ensures u.Some? && u.value.roleInfo.Some? && u.value.roleInfo.value.dashboardRoute != "" ==> r == u.value.roleInfo.value.dashboardRoute
    ensures u.Some? && u.value.roleInfo.Some? && u.value.roleInfo.value.dashboardRoute == "" ==> r == "/login"
  {
    if u.None? || u.value.roleInfo.None? then "/login"
    else if u.value.roleInfo.value.dashboardRoute != "" then u.value.roleInfo.value.dashboardRoute
    else "/login"
  }

  /** When the role information carries the route the account model gives
      (`get_dashboard_route`), the client goes exactly there: that route is
      never empty, so the `/login` fallback never overrides it. */
  lemma RouteAgreesWithServer(user: UserModels.User, info: RoleInfo)
    requires info.dashboardRoute == UserModels.DashboardRoute(user)
    ensures DashboardRoute(Some(UserData(Some(info)))) == UserModels.DashboardRoute(user)
  {
  }

  // ----- what a call gives back -----

  /** An error from the HTTP client: no response at all (the network
      failed), or a response with its status, the `error` and `message`
      texts of its body (empty when absent) and, for registration, its
      field errors. */
  datatype ClientError =
    | NoResponse
    | WithResponse(status: int, error: string, message: string, fieldErrors: Option<FieldErrors>)

  /** `errors` of a rejected registration; a field with no entry is None. */
  datatype FieldErrors = FieldErrors(
    email: Option<seq<string>>,
    username: Option<seq<string>>,
    phoneNumber: Option<seq<string>>,
    password: Option<seq<string>>,
    nonField: Option<seq<string>>)

  /** What reaches a `catch`: the client's error, or an `Error` the function
      threw itself, which has no `response`. */
  datatype Thrown = Client(e: ClientError) | Own(message: string)

  /** A call: the client threw, or it answered with a status and, for
      login, the account status of the body. */
  datatype Answer = Threw(e: ClientError) | Answered(status: int, accountStatus: string)

  predicate HasResponse(t: Thrown) { t.Client? && t.e.WithResponse? }

  const InvalidCredentials := "Invalid email or password"
  const AccessDenied := "Account access denied"
  const TooManyAttempts := "Too many login attempts. Please try again later."
  const ServerError := "Server error. Please try again later."
  const NetworkError := "Network error. Please check your connection."
  const LoginFailed := "Login failed"
  const InvalidResponse := "Login failed - invalid response"
  const SuspendedMessage := "Your account has been suspended. Please contact support."
  const InactiveMessage := "Your account is inactive. Please contact support."
  const PendingMessage := "Your account is pending verification. Please check your email."

  // ----- login (auth.jsx:35-86) -----

  /** The body `login` posts: the username trimmed, the password as
      given. */
  function LoginBody(username: string, password: string): (body: (string, string))
    ensures body.0 == Trim(username) && Trim(body.0) == body.0 && body.1 == password
  {
    TrimIdempotent(username);
    (Trim(username), password)
  }

  /** The `try` block: a 2xx answer for an account that is suspended,
      inactive or pending verification, or any other answer, throws an
      error of the function's own; otherwise the user data is returned. */
  function LoginTry(call: Answer): (r: Result<string, Thrown>)
    ensures r.Ok? <==> call.Answered? && 200 <= call.status < 300
                        && call.accountStatus !in {"suspended", "inactive", "pending_verification"}
    ensures r.Ok? ==> r.value == call.accountStatus
    ensures call.Threw? ==> r == Err(Client(call.e))
    ensures r.Err? && call.Answered? ==> r.error.Own?
  {
    match call
    case Threw(e) => Err(Client(e))
    case Answered(status, account) =>
      if 200 <= status < 300 then
        if account == "suspended" then Err(Own(SuspendedMessage))
        else if account == "inactive" then Err(Own(InactiveMessage))
        else if account == "pending_verification" then Err(Own(PendingMessage))
        else Ok(account)
      else Err(Own(InvalidResponse))
  }

  /** The `catch` block as written: by response status, and anything
      without a response (the function's own errors included) as a
      network failure. */
  function LoginCatchAsWritten(t: Thrown): (m: string)
    ensures !HasResponse(t) ==> m == NetworkError
    ensures HasResponse(t) && t.e.status == 401 ==> m == InvalidCredentials
    ensures HasResponse(t) && t.e.status == 403 ==> m == (if t.e.error != "" then t.e.error else AccessDenied)
    ensures HasResponse(t) && t.e.status == 429 ==> m == TooManyAttempts
    ensures HasResponse(t) && t.e.status >= 500 ==> m == ServerError
    ensures m != ""
  {
    if HasResponse(t) && t.e.status == 401 then InvalidCredentials
    else if HasResponse(t) && t.e.status == 403 then (if t.e.error != "" then t.e.error else AccessDenied)
    else if HasResponse(t) && t.e.status == 429 then TooManyAttempts
    else if HasResponse(t) && t.e.status >= 500 then ServerError
    else if !HasResponse(t) then NetworkError
    else if t.e.error != "" then t.e.error
    else if t.e.message != "" then t.e.message
    else LoginFailed
  }

  /** `login` as written. */
  function LoginAsWritten(call: Answer): (r: Result<string, string>)
    ensures r.Ok? <==> LoginTry(call).Ok?
    ensures r.Err? ==> r.error == LoginCatchAsWritten(LoginTry(call).error)
  {
    match LoginTry(call)
    case Ok(account) => Ok(account)
    case Err(t) => Err(LoginCatchAsWritten(t))
  }

  /** As written, a suspended account that signs in correctly is told its
      network connection failed: the suspension message is thrown inside
      the `try` and, having no response, is caught by the network-error
      rule before the rule meant for such messages. */
  lemma SuspendedReportedAsNetworkError(status: int)
    requires 200 <= status < 300
    ensures LoginAsWritten(Answered(status, "suspended")) == Err(NetworkError)
    ensures LoginAsWritten(Answered(status, "inactive")) == Err(NetworkError)
    ensures LoginAsWritten(Answered(status, "pending_verification")) == Err(NetworkError)
  {
  }

  /** The `catch` block with the function's own messages passed through,
      as its "already a user-friendly error message" rule intends; the
      client's errors are classified as before. */
  function LoginCatch(t: Thrown): (m: string)
    ensures t.Own? && t.message != "" ==> m == t.message
    ensures t.Client? ==> m == LoginCatchAsWritten(t)
    ensures m != ""
  {
    if t.Own? && t.message != "" then t.message else LoginCatchAsWritten(t)
  }

  /** `login` with the intended classification. */
  function Login(call: Answer): (r: Result<string, string>)
    ensures r.Ok? <==> LoginTry(call).Ok?
    ensures r.Err? ==> r.error == LoginCatch(LoginTry(call).error)
  {
    match LoginTry(call)
    case Ok(account) => Ok(account)
    case Err(t) => Err(LoginCatch(t))
  }

  /** With the intended classification each refused account hears its own
      reason, a failed connection still reads as one, and a refusal by
      the server keeps its status's message. */
  lemma LoginReportsAccountState(status: int, e: ClientError)
    requires 200 <= status < 300
    ensures Login(Answered(status, "suspended")) == Err(SuspendedMessage)
    ensures Login(Answered(status, "inactive")) == Err(InactiveMessage)
    ensures Login(Answered(status, "pending_verification")) == Err(PendingMessage)
    ensures Login(Threw(NoResponse)) == Err(NetworkError)
    ensures e.WithResponse? && e.status == 401 ==> Login(Threw(e)) == Err(InvalidCredentials)
  {
  }

  // ----- register (auth.jsx:87-150) -----

  /** The plain-object form of the registration data; absent fields are
      empty. `companyNameSnake` is `company_name`, preferred over
      `companyName`. */
  datatype RegisterFields = RegisterFields(
    email: string,
    password: string,
    confirmPassword: string,
    firstName: string,
    lastName: string,
    username: string,
    phoneNumber: string,
    companyNameSnake: string,
    companyName: string)

  /** The JSON body of a plain-object registration. */
  datatype RegisterBody = RegisterBody(
    email: string,
    password: string,
    confirmPassword: string,
    firstName: string,
    lastName: string,
    username: string,
    phoneNumber: string,
    companyName: string,
    userType: string)

  /** `String(email || '').trim().toLowerCase()`. */
  function NormalizeEmail(email: string): (r: string)
    ensures |r| <= |email|
    ensures r == [] || (!IsSpace(r[0]) && !IsSpace(r[|r| - 1]))
    ensures forall i :: 0 <= i < |r| ==> !IsUpper(r[i])
  {
    Lower(Trim(email))
  }

  /** Normalising an address twice changes nothing more. */
  lemma NormalizeEmailIdempotent(email: string)
    ensures NormalizeEmail(NormalizeEmail(email)) == NormalizeEmail(email)
  {
    var n := NormalizeEmail(email);
    TrimNoop(n);
    LowerIdempotent(Trim(email));
  }

  /** Addresses that differ only in case and surrounding whitespace are
      sent alike. */
  lemma NormalizeEmailIgnoresCase(email: string)
    ensures NormalizeEmail(Lower(email)) == NormalizeEmail(email)
  {
    var t := Trim(email);
    TrimLower(email);
    LowerIdempotent(t);
  }

  /** Lower-casing and trimming commute: the whitespace is the same. */
  lemma TrimLower(s: string)
    ensures Trim(Lower(s)) == Lower(Trim(s))
  {
    var l := Lower(s);
    LeadLower(s, 0);
    var a := Lead(s, 0);
    TrailLower(s, a, |s|);
    var b := Trail(s, a, |s|);
    LowerSlice(s, a, b);
  }

  lemma LowerSlice(s: string, a: nat, b: nat)
    requires a <= b <= |s|
    ensures Lower(s)[a..b] == Lower(s[a..b])
  {
    assert |Lower(s)[a..b]| == |Lower(s[a..b])|;
    forall k | 0 <= k < b - a
      ensures Lower(s)[a..b][k] == Lower(s[a..b])[k]
    {
      assert Lower(s)[a..b][k] == Lower(s)[a + k] == LowerChar(s[a + k]);
      assert Lower(s[a..b])[k] == LowerChar(s[a..b][k]);
    }
  }

  lemma {:induction false} LeadLower(s: string, i: nat)
    requires i <= |s|
    ensures Lead(Lower(s), i) == Lead(s, i)
    decreases |s| - i
  {
    if i < |s| {
      assert IsSpace(Lower(s)[i]) == IsSpace(s[i]);
      LeadLower(s, i + 1);
    }
  }

  lemma {:induction false} TrailLower(s: string, lo: nat, j: nat)
    requires lo <= j <= |s|
    ensures Trail(Lower(s), lo, j) == Trail(s, lo, j)
    decreases j
  {
    if j > lo {
      assert IsSpace(Lower(s)[j - 1]) == IsSpace(s[j - 1]);
      TrailLower(s, lo, j - 1);
    }
  }

  /** The body of a plain-object registration: the email trimmed and
      lower-cased, the names, username, phone and company trimmed (the
      snake-case company name preferred), the passwords as given, and the
      account type forced to `supplier`. */
  function RegisterBodyOf(d: RegisterFields): (b: RegisterBody)
    ensures b.email == NormalizeEmail(d.email)
    ensures b.password == d.password && b.confirmPassword == d.confirmPassword
    ensures b.firstName == Trim(d.firstName) && b.lastName == Trim(d.lastName)
    ensures b.username == Trim(d.username) && b.phoneNumber == Trim(d.phoneNumber)
    ensures d.companyNameSnake != "" ==> b.companyName == Trim(d.companyNameSnake)
    ensures d.companyNameSnake == "" ==> b.companyName == Trim(d.companyName)
    ensures b.userType == "supplier"
  {
    RegisterBody(
      NormalizeEmail(d.email),
      d.password,
      d.confirmPassword,
      Trim(d.firstName),
      Trim(d.lastName),
      Trim(d.username),
      Trim(d.phoneNumber),
      Trim(if d.companyNameSnake != "" then d.companyNameSnake else d.companyName),
      "supplier")
  }

  /** One line per field that has errors, in the fixed order email,
      username, phone, password, then the general errors. */
  function FieldLines(f: FieldErrors): (lines: seq<string>)
    ensures |lines| == (if f.email.Some? then 1 else 0) + (if f.username.Some? then 1 else 0)
                       + (if f.phoneNumber.Some? then 1 else 0) + (if f.password.Some? then 1 else 0)
                       + (if f.nonField.Some? then 1 else 0)
    ensures f.email.Some? ==> lines[0] == "Email: " + Join(f.email.value, ", ")
    ensures f.nonField.Some? ==> lines[|lines| - 1] == Join(f.nonField.value, ", ")
  {
    (if f.email.Some? then ["Email: " + Join(f.email.value, ", ")] else [])
    + (if f.username.Some? then ["Username: " + Join(f.username.value, ", ")] else [])
    + (if f.phoneNumber.Some? then ["Phone: " + Join(f.phoneNumber.value, ", ")] else [])
    + (if f.password.Some? then ["Password: " + Join(f.password.value, ", ")] else [])
    + (if f.nonField.Some? then [Join(f.nonField.value, ", ")] else [])
  }

  const RegistrationFailed := "Registration failed"

  /** The message of a failed registration: on a 400 with field errors, the
      lines joined by newlines (or the fallback when that is empty); other
      400s and statuses other than 5xx the server's `error` or the
      fallback; a 5xx the server error; no response the network error. */
  function RegisterFailure(t: Thrown): (m: string)
    ensures m != ""
    ensures HasResponse(t) && t.e.status == 400 && t.e.fieldErrors.Some? ==>
              m == (var j := Join(FieldLines(t.e.fieldErrors.value), "\n"); if j != "" then j else RegistrationFailed)
    ensures HasResponse(t) && t.e.status >= 500 ==> m == ServerError
    ensures !HasResponse(t) ==> m == NetworkError
    ensures HasResponse(t) && t.e.fieldErrors.None? && t.e.status < 500 ==>
              m == (if t.e.error != "" then t.e.error else RegistrationFailed)
  {
    if HasResponse(t) && t.e.status == 400 then
      if t.e.fieldErrors.Some? then
        var j := Join(FieldLines(t.e.fieldErrors.value), "\n");
        if j != "" then j else RegistrationFailed
      else if t.e.error != "" then t.e.error else RegistrationFailed
    else if HasResponse(t) && t.e.status >= 500 then ServerError
    else if !HasResponse(t) then NetworkError
    else if t.e.error != "" then t.e.error
    else RegistrationFailed
  }

  /** An email error alone is reported as its own line. */
  lemma EmailErrorLine(messages: seq<string>)
    ensures RegisterFailure(Client(WithResponse(400, "", "", Some(FieldErrors(Some(messages), None, None, None, None)))))
            == "Email: " + Join(messages, ", ")
  {
  }

  /** `register`: a 2xx answer succeeds; anything else is reported through
      `RegisterFailure`, the invalid-response error included. */
  function Register(call: Answer): (r: Result<(), string>)
    ensures r.Ok? <==> call.Answered? && 200 <= call.status < 300
    ensures call.Threw? ==> r == Err(RegisterFailure(Client(call.e)))
  {
    match call
    case Threw(e) => Err(RegisterFailure(Client(e)))
    case Answered(status, _) =>
      if 200 <= status < 300 then Ok(()) else Err(RegisterFailure(Own("Registration failed - invalid response")))
  }

  // ----- the e-mail requests (auth.jsx:152-248) -----

  /** The body of `verifyEmail`: the normalised address and the trimmed
      code. */
  function VerifyEmailBody(email: string, otp: string): (b: (string, string))
    ensures b.0 == NormalizeEmail(email) && b.1 == Trim(otp)
  {
    (NormalizeEmail(email), Trim(otp))
  }

  const ResetAmbiguous := "If this email is registered, you will receive reset instructions."

  /** A failed reset request: a 5xx is a server error, no response a
      network error, and every other failure the same non-committal
      message. */
  function RequestResetFailure(t: Thrown): (m: string)
    ensures HasResponse(t) && t.e.status >= 500 ==> m == ServerError
    ensures !HasResponse(t) ==> m == NetworkError
    ensures HasResponse(t) && t.e.status < 500 ==> m == ResetAmbiguous
  {
    if HasResponse(t) && t.e.status >= 500 then ServerError
    else if !HasResponse(t) then NetworkError
    else ResetAmbiguous
  }

  /** A reset request never tells whether the address exists: any two
      refusals below 500 read the same, whatever the server said. */
  lemma ResetDoesNotEnumerate(a: ClientError, b: ClientError)
    requires a.WithResponse? && b.WithResponse? && a.status < 500 && b.status < 500
    ensures RequestResetFailure(Client(a)) == RequestResetFailure(Client(b))
  {
  }
}
