/** The account endpoints (backend/users/views.py): login, the admin guard,
    registration, supplier verification, and the profile edit requests
    that an administrator approves or rejects. Database rows the handlers
    change in place are classes; a row that does not exist is `null`. */
module UserViews {
  import opened Common
  import opened UserModels
  import opened UserSerializer

  // ----- login_view (views.py:40-83) -----

  datatype LoginOutcome = LoginFieldsRequired | InvalidCredentials | LoginInactive | LoggedIn(user: User, route: string)

  /** `email or username`: the username is an alias for an absent or empty
      email. */
  function Identifier(email: Option<string>, username: Option<string>): (id: Option<string>)
    ensures email.Some? && email.value != "" ==> id == email
    ensures email.None? || email.value == "" ==> id == username
  {
    if email.Some? && email.value != "" then email else username
  }

  /** The checks of a login in their order: both identifier and password
      must be present and non-empty (400); `authenticate` must accept them
      (401); the account must be active and not suspended (403). The
      credential check is a library call, given as `authenticate`. */
  function Login(email: Option<string>, username: Option<string>, password: Option<string>,
                 authenticate: (string, string) -> Option<User>): (r: LoginOutcome)
    ensures var id := Identifier(email, username);
            && (r == LoginFieldsRequired <==> id.None? || id.value == "" || password.None? || password.value == "")
            && (r == InvalidCredentials <==>
                  r != LoginFieldsRequired && authenticate(id.value, password.value).None?)
            && (r == LoginInactive <==>
                  r != LoginFieldsRequired && r != InvalidCredentials
                  && var u := authenticate(id.value, password.value).value;
                     !u.isActive || u.status == Suspended)
    ensures r.LoggedIn? ==> r.user.isActive && r.user.status != Suspended && r.route == DashboardRoute(r.user)
  {
    var id := Identifier(email, username);
    if id.None? || id.value == "" || password.None? || password.value == "" then LoginFieldsRequired
    else
      match authenticate(id.value, password.value)
      case None => InvalidCredentials
      case Some(u) =>
        if !u.isActive || u.status == Suspended then LoginInactive
        else LoggedIn(u, DashboardRoute(u))
  }

  /** Logging in with `username` is the same as logging in with `email`. */
  lemma UsernameIsEmailAlias(x: string, password: Option<string>, authenticate: (string, string) -> Option<User>)
    ensures Login(None, Some(x), password, authenticate) == Login(Some(x), None, password, authenticate)
    ensures Login(Some(""), Some(x), password, authenticate) == Login(Some(x), None, password, authenticate)
  {
  }

  // ----- admin_required (views.py:132-147) -----

  datatype GuardOutcome = GuardUnauthenticated | GuardNoAdminAccess | GuardInactive | GuardPass

  /** The admin guard's checks in their order: a session (401), admin
      dashboard access (403), then an active, unsuspended account (403). */
  function AdminGuard(user: Option<User>): (g: GuardOutcome)
    ensures g == GuardUnauthenticated <==> user.None?
    ensures g == GuardNoAdminAccess <==> user.Some? && !CanAccessAdminDashboard(user.value)
    ensures g == GuardPass <==>
              user.Some? && CanAccessAdminDashboard(user.value) && user.value.isActive && user.value.status != Suspended
  {
    if user.None? then GuardUnauthenticated
    else if !CanAccessAdminDashboard(user.value) then GuardNoAdminAccess
    else if !user.value.isActive || user.value.status == Suspended then GuardInactive
    else GuardPass
  }

  /** A user the login sends to the admin dashboard passes the admin guard,
      and one the guard lets through is sent there by the login. */
  lemma LoginAgreesWithGuard(email: Option<string>, username: Option<string>, password: Option<string>,
                             authenticate: (string, string) -> Option<User>)
    ensures var r := Login(email, username, password, authenticate);
            r.LoggedIn? ==> (AdminGuard(Some(r.user)) == GuardPass <==> r.route == "/dashboard")
  {
  }

  // ----- register_view (views.py:220-324) -----

  /** The specification of `pick`: the value of the first alias key the
      payload holds (a JSON null counts as absent). */
  function FirstPresent(keys: seq<string>, payload: map<string, string>): Option<string>
  {
    if keys == [] then None
    else if keys[0] in payload then Some(payload[keys[0]])
    else FirstPresent(keys[1..], payload)
  }

  lemma {:induction false} FirstPresentMeaning(keys: seq<string>, payload: map<string, string>)
    ensures FirstPresent(keys, payload).None? <==> forall i :: 0 <= i < |keys| ==> keys[i] !in payload
    ensures FirstPresent(keys, payload).Some? ==>
              exists i :: 0 <= i < |keys| && keys[i] in payload && payload[keys[i]] == FirstPresent(keys, payload).value
                          && forall j :: 0 <= j < i ==> keys[j] !in payload
  {
    if keys != [] && keys[0] !in payload {
      FirstPresentMeaning(keys[1..], payload);
      if FirstPresent(keys, payload).Some? {
        var i :| 0 <= i < |keys[1..]| && keys[1..][i] in payload
                 && payload[keys[1..][i]] == FirstPresent(keys, payload).value
                 && forall j :: 0 <= j < i ==> keys[1..][j] !in payload;
        assert forall j :: 0 <= j < i + 1 ==> keys[j] !in payload by {
          forall j | 0 <= j < i + 1 ensures keys[j] !in payload {
            if j > 0 { assert keys[j] == keys[1..][j - 1]; }
          }
        }
        assert keys[i + 1] == keys[1..][i];
      } else {
        forall i | 0 <= i < |keys| ensures keys[i] !in payload {
          if i > 0 { assert keys[i] == keys[1..][i - 1]; }
        }
      }
    }
  }

  /** Two payloads that agree on the alias keys pick the same value. */
  lemma {:induction false} FirstPresentAgrees(keys: seq<string>, p: map<string, string>, q: map<string, string>)
    requires forall i :: 0 <= i < |keys| ==> (keys[i] in p <==> keys[i] in q)
    requires forall i :: 0 <= i < |keys| && keys[i] in p ==> p[keys[i]] == q[keys[i]]
    ensures FirstPresent(keys, p) == FirstPresent(keys, q)
  {
    if keys != [] {
      FirstPresentAgrees(keys[1..], p, q);
    }
  }

  /** `pick`: the first non-None value among the alias keys. */
  method Pick(keys: seq<string>, payload: map<string, string>) returns (v: Option<string>)
    ensures v == FirstPresent(keys, payload)
  {
    var i := 0;
    while i < |keys|
      invariant 0 <= i <= |keys|
      invariant FirstPresent(keys[i..], payload) == FirstPresent(keys, payload)
    {
      assert keys[i..][0] == keys[i] && keys[i..][1..] == keys[i + 1..];
      if keys[i] in payload {
        return Some(payload[keys[i]]);
      }
      i := i + 1;
    }
    return None;
  }

  /** Python's `int()` of a text: surrounding whitespace ignored, an
      optional sign, then one or more decimal digits. */
  function ParseInt(s: string): (r: Option<int>)
    ensures r.Some? && '-' !in Trim(s) ==> r.value >= 0
  {
    var t := Trim(s);
    var negative := |t| > 0 && t[0] == '-';
    var body := if |t| > 0 && (t[0] == '-' || t[0] == '+') then t[1..] else t;
    if body != [] && AllDigits(body) then
      (assert negative ==> '-' in t;
       Some(if negative then -(ParseDigits(body) as int) else ParseDigits(body) as int))
    else None
  }

  predicate AllDigits(s: string)
  {
    forall i :: 0 <= i < |s| ==> '0' <= s[i] <= '9'
  }

  /** The number `str(n)` prints reads back as `n`. */
  lemma ParseIntOfDigits(n: nat)
    ensures ParseInt(Digits(n)) == Some(n)
  {
    var d := Digits(n);
    TrimOfDigits(d);
    ParseUnsigned(d);
    ParseDigitsOfDigits(n);
  }

  lemma ParseUnsigned(d: string)
    requires d != [] && AllDigits(d) && Trim(d) == d
    ensures ParseInt(d) == Some(ParseDigits(d) as int)
  {
    assert d[0] != '-' && d[0] != '+';
  }

  lemma TrimOfDigits(d: string)
    requires d != [] && forall i :: 0 <= i < |d| ==> '0' <= d[i] <= '9'
    ensures Trim(d) == d
  {
    assert !IsSpace(d[0]);
    assert TrimStart(d) == d;
    assert !IsSpace(d[|d| - 1]);
  }

  /** The supplier profile a registration creates. */
  datatype NewProfile = NewProfile(
    userId: nat,
    companyName: string,
    businessRegNumber: string,
    businessCategory: string,
    yearsOfExperience: Option<int>,
    verification: Verification)

  /** The user type a registration asks for: the payload's, or supplier when
      it is absent or empty. */
  function RequestedType(payload: map<string, string>): string
  {
    if "user_type" in payload && payload["user_type"] != "" then payload["user_type"] else "supplier"
  }

  /** The serializer input a registration builds from the payload. */
  function PickedData(payload: map<string, string>): UserData
  {
    UserData(
      email := FirstPresent(["email"], payload),
      password := FirstPresent(["password"], payload),
      confirmPassword := FirstPresent(["confirmPassword"], payload),
      firstName := FirstPresent(["first_name", "firstName"], payload),
      lastName := FirstPresent(["last_name", "lastName"], payload),
      username := FirstPresent(["username"], payload),
      phoneNumber := FirstPresent(["phoneNumber", "phone_number", "phone"], payload),
      userType := Some(RequestedType(payload)))
  }

  /** `m` with `key` set to the value, when there is one. */
  function Put(m: map<string, string>, key: string, v: Option<string>): map<string, string>
  {
    if v.Some? then m[key := v.value] else m
  }

  /** The validated data, keyed by model field, `create` receives. */
  function ValidatedFields(d: UserData): map<string, string>
  {
    Put(Put(Put(Put(Put(Put(Put(Put(map[],
      "email", d.email),
      "password", d.password),
      "confirmPassword", d.confirmPassword),
      "first_name", d.firstName),
      "last_name", d.lastName),
      "username", d.username),
      "phone", d.phoneNumber),
      "user_type", d.userType)
  }

  /** The payload with the user type defaulted, as `register_view` sets it. */
  function WithType(payload: map<string, string>): map<string, string>
  {
    payload["user_type" := RequestedType(payload)]
  }

  /** Picking a field other than the user type from the defaulted payload
      reads the payload as sent. */
  lemma WithTypeKeepsFields(payload: map<string, string>, keys: seq<string>)
    requires "user_type" !in keys
    ensures FirstPresent(keys, WithType(payload)) == FirstPresent(keys, payload)
  {
    FirstPresentAgrees(keys, WithType(payload), payload);
  }

  /** The `user_data` dictionary of `register_view`, field by field. */
  method PickUserData(payload: map<string, string>) returns (data: UserData)
    ensures data == PickedData(payload)
  {
    var withType := WithType(payload);
    WithTypeKeepsFields(payload, ["email"]);
    WithTypeKeepsFields(payload, ["password"]);
    WithTypeKeepsFields(payload, ["confirmPassword"]);
    WithTypeKeepsFields(payload, ["first_name", "firstName"]);
    WithTypeKeepsFields(payload, ["last_name", "lastName"]);
    WithTypeKeepsFields(payload, ["username"]);
    WithTypeKeepsFields(payload, ["phoneNumber", "phone_number", "phone"]);
    var email := Pick(["email"], withType);
    var password := Pick(["password"], withType);
    var confirm := Pick(["confirmPassword"], withType);
    var firstName := Pick(["first_name", "firstName"], withType);
    var lastName := Pick(["last_name", "lastName"], withType);
    var username := Pick(["username"], withType);
    var phone := Pick(["phoneNumber", "phone_number", "phone"], withType);
    var userType := Pick(["user_type"], withType);
    data := UserData(email, password, confirm, firstName, lastName, username, phone, userType);
  }

  datatype ExperienceError = ExperienceNotInteger | ExperienceNegative

  /** The experience check: absent or empty means none; otherwise it must
      read as an integer and be at least 0. */
  function Experience(raw: Option<string>): (r: Result<Option<int>, ExperienceError>)
    ensures r.Ok? && r.value.Some? ==> r.value.value >= 0 && raw.Some? && ParseInt(raw.value) == r.value
    ensures r == Ok(None) <==> raw.None? || raw.value == ""
    ensures r == Err(ExperienceNotInteger) <==> raw.Some? && raw.value != "" && ParseInt(raw.value).None?
  {
    if raw.None? || raw.value == "" then Ok(None)
    else
      match ParseInt(raw.value)
      case None => Err(ExperienceNotInteger)
      case Some(v) => if v < 0 then Err(ExperienceNegative) else Ok(Some(v))
  }

  datatype RegisterOutcome =
    | RegisterInvalid(errors: map<string, UserFieldError>)
    | RegisterBadExperience(why: ExperienceError)
    | RegNumberRequired
    | Registered(user: User, profile: Option<NewProfile>)

  /** The password and the user type reach `create` as sent. */
  lemma ValidatedFieldsFacts(d: UserData)
    ensures "password" in ValidatedFields(d) <==> d.password.Some?
    ensures d.password.Some? ==> ValidatedFields(d)["password"] == d.password.value
    ensures d.userType.Some? ==> FieldOr(ValidatedFields(d), "user_type", "") == d.userType.value
  {
  }

  /** The email and the names reach `create` under their model names. */
  lemma ValidatedNames(d: UserData)
    ensures FieldOr(ValidatedFields(d), "email", "") == d.email.GetOr("")
    ensures FieldOr(ValidatedFields(d), "username", "") == d.username.GetOr("")
    ensures FieldOr(ValidatedFields(d), "first_name", "") == d.firstName.GetOr("")
    ensures FieldOr(ValidatedFields(d), "last_name", "") == d.lastName.GetOr("")
  {
  }

  /** The phone reaches `create` under its model name `phone`. */
  lemma ValidatedPhone(d: UserData)
    ensures "phoneNumber" !in ValidatedFields(d)
    ensures d.phoneNumber.Some? ==> FieldOr(ValidatedFields(d), "phone", "") == d.phoneNumber.value
  {
  }

  /** The user `create` builds from cleaned data carries the trimmed texts,
      the hash of the trimmed password and the parsed user type. */
  lemma CreatedFromCleaned(d: UserData, id: nat)
    requires d.email.Some? && d.password.Some? && d.firstName.Some? && d.lastName.Some?
    requires d.username.Some? && d.phoneNumber.Some? && d.userType.Some?
    ensures "password" in ValidatedFields(Cleaned(d))
    ensures var u := UserFromValidated(ValidatedFields(Cleaned(d)), id);
            && u.email == Trim(d.email.value) && u.password == HashOf(Trim(d.password.value))
            && u.username == Trim(d.username.value)
            && u.firstName == Trim(d.firstName.value) && u.lastName == Trim(d.lastName.value)
            && u.phone == Trim(d.phoneNumber.value) && u.userType == ParseUserType(d.userType.value)
            && u.id == id && u.status == PendingVerification
  {
    var c := Cleaned(d);
    ValidatedFieldsFacts(c);
    ValidatedNames(c);
    ValidatedPhone(c);
  }

  /** `register_view`: defaults the user type to supplier, picks each field
      under its aliases, validates through the serializer, checks the
      experience and a supplier's registration number (non-blank after
      trimming), then creates the user and, for a supplier, a pending
      profile. The library's phone verdict and the framework's field checks
      are given; the uploaded files are not modelled. */
  method Register(payload: map<string, string>, verdict: PhoneVerdict, framework: map<string, string>, newId: nat)
    returns (r: RegisterOutcome)
    ensures var v := Validate(PickedData(payload), verdict, framework);
            && (r.RegisterInvalid? <==> v.Err?)
            && (r.RegisterInvalid? ==> r.errors == v.error)
    ensures r.RegisterBadExperience? <==>
              Validate(PickedData(payload), verdict, framework).Ok?
              && Experience(FirstPresent(["experience"], payload)).Err?
    ensures r.RegisterBadExperience? ==> Experience(FirstPresent(["experience"], payload)) == Err(r.why)
    ensures r == RegNumberRequired ==>
              RequestedType(payload) == "supplier" && Trim(FirstPresent(["businessRegNumber"], payload).GetOr("")) == ""
    ensures r.Registered? ==>
              && Validate(PickedData(payload), verdict, framework).Ok?
              && r.user.id == newId
              && r.user.userType == ParseUserType(RequestedType(payload))
              && r.user.status == PendingVerification
              && (r.profile.Some? <==> RequestedType(payload) == "supplier")
    ensures r.Registered? ==>
              var d := PickedData(payload);
              && d.email.Some? && r.user.email == Trim(d.email.value)
              && d.password.Some? && r.user.password == HashOf(Trim(d.password.value))
              && d.username.Some? && r.user.username == Trim(d.username.value)
              && d.firstName.Some? && r.user.firstName == Trim(d.firstName.value)
              && d.lastName.Some? && r.user.lastName == Trim(d.lastName.value)
              && d.phoneNumber.Some? && r.user.phone == Trim(d.phoneNumber.value)
    ensures r.Registered? && r.profile.Some? ==>
              && r.profile.value.verification == Pending
              && r.profile.value.userId == newId
              && r.profile.value.companyName == Trim(FirstPresent(["company_name", "companyName"], payload).GetOr(""))
              && r.profile.value.businessRegNumber == Trim(FirstPresent(["businessRegNumber"], payload).GetOr(""))
              && r.profile.value.businessCategory == Trim(FirstPresent(["businessCategory"], payload).GetOr(""))
              && Experience(FirstPresent(["experience"], payload)).Ok?
              && r.profile.value.yearsOfExperience == Experience(FirstPresent(["experience"], payload)).value
              && Trim(r.profile.value.businessRegNumber) != ""
              && (r.profile.value.yearsOfExperience.Some? ==> r.profile.value.yearsOfExperience.value >= 0)
  {
    var requestedType := RequestedType(payload);
    var data := PickUserData(payload);
    var validation := Validate(data, verdict, framework);
    if validation.Err? {
      return RegisterInvalid(validation.error);
    }

    var withType := WithType(payload);
    WithTypeKeepsFields(payload, ["company_name", "companyName"]);
    WithTypeKeepsFields(payload, ["businessRegNumber"]);
    WithTypeKeepsFields(payload, ["businessCategory"]);
    WithTypeKeepsFields(payload, ["experience"]);
    var companyName := Pick(["company_name", "companyName"], withType);
    var regNumber := Pick(["businessRegNumber"], withType);
    var category := Pick(["businessCategory"], withType);
    var rawExperience := Pick(["experience"], withType);
    var years := Experience(rawExperience);
    if years.Err? {
      return RegisterBadExperience(years.error);
    }

    var businessRegNumber := Trim(regNumber.GetOr(""));
    if requestedType == "supplier" && businessRegNumber == "" {
      return RegNumberRequired;
    }

    var cleaned := validation.value;
    AcceptedSent(data, verdict, framework);
    CreatedFromCleaned(data, newId);
    var user := Create(ValidatedFields(cleaned), newId);
    var profile: Option<NewProfile> := None;
    if user.userType == Supplier {
      profile := Some(NewProfile(
        userId := user.id,
        companyName := Trim(companyName.GetOr("")),
        businessRegNumber := businessRegNumber,
        businessCategory := Trim(category.GetOr("")),
        yearsOfExperience := years.value,
        verification := Pending));
    }
    return Registered(user, profile);
  }

  /** A registration without a first name is refused: the view sends the
      missing name as null, and the serializer refuses a null name even
      though the name may be blank. */
  lemma RegisterWithoutFirstNameRefused(payload: map<string, string>, verdict: PhoneVerdict, framework: map<string, string>)
    requires "first_name" !in payload && "firstName" !in payload
    ensures var v := Validate(PickedData(payload), verdict, framework);
            v.Err? && "first_name" in v.error && v.error["first_name"] == MayNotBeNull
  {
    var d := PickedData(payload);
    FirstPresentMeaning(["first_name", "firstName"], payload);
    assert d.firstName.None?;
    NullErrors(d, verdict, framework, "first_name");
    assert "first_name" in FieldErrors(d, verdict, framework);
  }

  /** A registration that omits the user type creates a supplier with a
      pending profile, or is refused. */
  lemma DefaultRegistrationIsSupplier(payload: map<string, string>)
    requires "user_type" !in payload
    ensures RequestedType(payload) == "supplier" && ParseUserType(RequestedType(payload)) == Supplier
  {
  }

  // ----- rows the review endpoints change -----

  /** A user row: the flags verification sets, and the text columns an
      edit request may change, by column name. */
  class UserRow {
    const id: nat
    var isActive: bool
    var emailVerified: bool
    var status: AccountStatus
    var columns: map<string, string>

    constructor (id: nat, isActive: bool, status: AccountStatus, columns: map<string, string>)
      ensures this.id == id && this.isActive == isActive && this.status == status
      ensures !emailVerified && this.columns == columns
    {
      this.id := id;
      this.isActive := isActive;
      this.emailVerified := false;
      this.status := status;
      this.columns := columns;
    }
  }

  /** A supplier profile row. */
  class ProfileRow {
    const userId: nat
    var verification: Verification
    var verifiedAt: Option<int>
    var adminNotes: string
    var columns: map<string, string>

    /** A verification time is recorded exactly for verified profiles. */
    predicate Consistent()
      reads this
    {
      verifiedAt.Some? <==> verification == Verified
    }

    /** A profile as registration creates it: pending, never verified. */
    constructor (userId: nat, columns: map<string, string>)
      ensures this.userId == userId && verification == Pending && verifiedAt.None?
      ensures adminNotes == "" && this.columns == columns
      ensures Consistent()
    {
      this.userId := userId;
      this.verification := Pending;
      this.verifiedAt := None;
      this.adminNotes := "";
      this.columns := columns;
    }
  }

  /** A user's role in a procuring entity. */
  class EntityUserRow {
    const id: nat
    const userId: nat
    var columns: map<string, string>

    constructor (id: nat, userId: nat, columns: map<string, string>)
      ensures this.id == id && this.userId == userId && this.columns == columns
    {
      this.id := id;
      this.userId := userId;
      this.columns := columns;
    }
  }

  // ----- verify_supplier (views.py:351-398) -----

  datatype VerifyOutcome =
    | VerifyRefused(guard: GuardOutcome)
    | UserLookupFailed
    | ProfileNotFound
    | InvalidVerifyAction
    | SupplierReviewed(verified: bool)

  /** The `action` a body carries, lower-cased (`(x or '').lower()`). */
  function ActionOf(action: Option<string>): string
  {
    Lower(action.GetOr(""))
  }

  /** `verify_supplier`, behind the admin guard. The user is looked up
      before the profile and its absence is not handled (a server error);
      a missing profile is 404; the action must be `verify` or `reject` in
      any case. Verifying marks the profile verified at `now` and makes the
      account active with its email verified; rejecting marks it rejected,
      clears the verification time and leaves the account alone. Notes
      replace the stored ones only when non-empty. */
  method VerifySupplier(admin: Option<User>, user: UserRow?, profile: ProfileRow?,
                        action: Option<string>, notes: Option<string>, now: int)
    returns (r: VerifyOutcome)
    requires profile != null ==> user != null && profile.userId == user.id
    modifies user, profile
    ensures AdminGuard(admin) != GuardPass <==> r == VerifyRefused(AdminGuard(admin))
    ensures r.SupplierReviewed? <==>
              AdminGuard(admin) == GuardPass && profile != null && ActionOf(action) in {"verify", "reject"}
    ensures r == UserLookupFailed <==> AdminGuard(admin) == GuardPass && user == null
    ensures !r.SupplierReviewed? ==>
              (user != null ==> unchanged(user)) && (profile != null ==> unchanged(profile))
    ensures r.SupplierReviewed? ==>
              && r.verified == (ActionOf(action) == "verify")
              && profile.Consistent()
              && profile.columns == old(profile.columns)
              && profile.adminNotes == (if notes.GetOr("") != "" then notes.value else old(profile.adminNotes))
              && user.columns == old(user.columns)
    ensures r == SupplierReviewed(true) ==>
              && profile.verification == Verified && profile.verifiedAt == Some(now)
              && user.isActive && user.emailVerified && user.status == Active
    ensures r == SupplierReviewed(false) ==>
              && profile.verification == Rejected && profile.verifiedAt.None?
              && user.isActive == old(user.isActive) && user.emailVerified == old(user.emailVerified)
              && user.status == old(user.status)
  {
    var guard := AdminGuard(admin);
    if guard != GuardPass {
      return VerifyRefused(guard);
    }
    if user == null {
      return UserLookupFailed;
    }
    if profile == null {
      return ProfileNotFound;
    }
    var act := ActionOf(action);
    var text := notes.GetOr("");
    if act != "verify" && act != "reject" {
      return InvalidVerifyAction;
    }
    if act == "verify" {
      profile.verification := Verified;
      user.isActive := true;
      user.emailVerified := true;
      user.status := Active;
      profile.verifiedAt := Some(now);
    } else {
      profile.verification := Rejected;
      profile.verifiedAt := None;
    }
    if text != "" {
      profile.adminNotes := text;
    }
    return SupplierReviewed(act == "verify");
  }

  /** The action is read without regard to case. */
  lemma ActionIgnoresCase()
    ensures ActionOf(Some("VERIFY")) == "verify" && ActionOf(Some("Reject")) == "reject"
    ensures ActionOf(None) == ""
  {
    LowerLetters("VERIFY", "verify");
    LowerLetters("Reject", "reject");
  }

  /** A supplier verified by an administrator can log in afterwards and is
      sent to the bidder dashboard. */
  lemma VerifiedSupplierCanLogIn(u: User, password: string, authenticate: (string, string) -> Option<User>)
    requires u.isActive && u.status == Active && u.userType == Supplier && !u.isSuperuser
    requires u.email != "" && password != "" && authenticate(u.email, password) == Some(u)
    ensures Login(Some(u.email), None, Some(password), authenticate) == LoggedIn(u, "/bidder/dashboard")
  {
  }

  // ----- profile edit requests (views.py:428-556) -----

  datatype RequestStatus = RequestPending | RequestApproved | RequestRejected

  /** A `ProfileEditRequest` row: who asked, what for, and the review. */
  class EditRequest {
    const userId: nat
    const target: string
    const targetId: Option<nat>
    const proposed: map<string, string>
    var status: RequestStatus
    var adminNotes: string
    var reviewedBy: Option<nat>
    var reviewedAt: Option<int>

    /** A new request is always pending and unreviewed. */
    constructor (userId: nat, target: string, targetId: Option<nat>, proposed: map<string, string>)
      ensures this.userId == userId && this.target == target && this.targetId == targetId
      ensures this.proposed == proposed
      ensures status == RequestPending && adminNotes == "" && reviewedBy.None? && reviewedAt.None?
    {
      this.userId := userId;
      this.target := target;
      this.targetId := targetId;
      this.proposed := proposed;
      this.status := RequestPending;
      this.adminNotes := "";
      this.reviewedBy := None;
      this.reviewedAt := None;
    }
  }

  datatype SubmitOutcome = SubmitUnauthenticated | SupplierOnly | InvalidEntityUserTarget | Submitted

  /** The target a request names, lower-cased, `user` when absent or
      empty. */
  function TargetOf(target: Option<string>): string
  {
    if target.Some? && target.value != "" then Lower(target.value) else "user"
  }

  /** `submit_profile_edit_request`: a session is required; only suppliers
      may target `supplier_profile`; an `entity_user` target must be one of
      the requester's own entity roles (`ownerOf` maps entity-role ids to
      their users); any other target text is accepted as it is. The new
      request is pending. */
  method SubmitEditRequest(requester: Option<User>, target: Option<string>, targetId: Option<nat>,
                           proposed: Option<map<string, string>>, ownerOf: map<nat, nat>)
    returns (r: SubmitOutcome, req: EditRequest?)
    ensures r == SubmitUnauthenticated <==> requester.None?
    ensures r == SupplierOnly <==>
              requester.Some? && TargetOf(target) == "supplier_profile" && !IsSupplier(requester.value)
    ensures r == InvalidEntityUserTarget <==>
              requester.Some? && TargetOf(target) == "entity_user"
              && !(targetId.Some? && targetId.value in ownerOf && ownerOf[targetId.value] == requester.value.id)
    ensures r == Submitted <==> req != null
    ensures req != null ==>
              && fresh(req)
              && req.userId == requester.value.id
              && req.target == TargetOf(target)
              && req.targetId == targetId
              && req.proposed == proposed.GetOr(map[])
              && req.status == RequestPending
  {
    req := null;
    if requester.None? {
      return SubmitUnauthenticated, null;
    }
    var t := TargetOf(target);
    var changes := proposed.GetOr(map[]);
    if t == "supplier_profile" && !IsSupplier(requester.value) {
      return SupplierOnly, null;
    }
    if t == "entity_user" {
      if !(targetId.Some? && targetId.value in ownerOf && ownerOf[targetId.value] == requester.value.id) {
        return InvalidEntityUserTarget, null;
      }
    }
    req := new EditRequest(requester.value.id, t, targetId, changes);
    r := Submitted;
  }

  /** The columns each target may change. */
  const UserEditable: seq<string> := ["first_name", "last_name", "phone"]
  const ProfileEditable: seq<string> := ["company_name", "business_category", "years_of_experience", "business_reg_number"]
  const EntityUserEditable: seq<string> := ["role", "status"]

  /** The proposed changes a whitelist lets through. */
  function Permitted(proposed: map<string, string>, whitelist: seq<string>): (applied: map<string, string>)
    ensures forall k :: k in applied <==> k in proposed && k in whitelist
    ensures forall k :: k in applied ==> applied[k] == proposed[k]
  {
    map k | k in proposed && k in whitelist :: proposed[k]
  }

  /** The approval loop: for each whitelisted column the request proposes,
      set it on the row and record it as applied. */
  method ApplyChanges(columns: map<string, string>, whitelist: seq<string>, proposed: map<string, string>)
    returns (updated: map<string, string>, applied: map<string, string>)
    ensures applied == Permitted(proposed, whitelist)
    ensures updated == columns + applied
  {
    updated := columns;
    applied := map[];
    for i := 0 to |whitelist|
      invariant applied == Permitted(proposed, whitelist[..i])
      invariant updated == columns + applied
    {
      var field := whitelist[i];
      PermittedStep(proposed, whitelist, i);
      if field in proposed {
        updated := updated[field := proposed[field]];
        applied := applied[field := proposed[field]];
      }
    }
    assert whitelist[..|whitelist|] == whitelist;
  }

  /** One more whitelisted column lets its proposed value through, if
      there is one. */
  lemma PermittedStep(proposed: map<string, string>, whitelist: seq<string>, i: nat)
    requires i < |whitelist|
    ensures var field := whitelist[i];
            Permitted(proposed, whitelist[..i + 1])
              == if field in proposed then Permitted(proposed, whitelist[..i])[field := proposed[field]]
                 else Permitted(proposed, whitelist[..i])
  {
    assert whitelist[..i + 1] == whitelist[..i] + [whitelist[i]];
  }

  /** Approval touches no column outside the whitelist, and applying the
      same request twice changes nothing more. */
  lemma ApprovalStaysInWhitelist(columns: map<string, string>, whitelist: seq<string>, proposed: map<string, string>)
    ensures var after := columns + Permitted(proposed, whitelist);
            && (forall k :: k !in whitelist ==> (k in after <==> k in columns))
            && (forall k :: k !in whitelist && k in columns ==> after[k] == columns[k])
            && (forall k :: k in whitelist && k in proposed ==> k in after && after[k] == proposed[k])
            && after + Permitted(proposed, whitelist) == after
  {
  }

  datatype ReviewOutcome =
    | ReviewRefused(guard: GuardOutcome)
    | RequestNotFound
    | InvalidReviewAction
    | RequestRejectedOutcome
    | ProfileMissing
    | EntityUserMissing
    | UnknownTarget
    | RequestApprovedOutcome(applied: map<string, string>)

  /** `review_profile_edit_request`, behind the admin guard. `user` is the
      requester's row, `profile` their supplier profile and `entityUser`
      the entity role the request targets (null when absent). Rejecting
      records the review and changes no other row; approving applies the
      target's whitelisted columns, then records the review. A missing
      profile or role, or an unknown target, changes nothing. The request's
      current status is not consulted. */
  method ReviewEditRequest(admin: Option<User>, req: EditRequest?, user: UserRow, profile: ProfileRow?,
                           entityUser: EntityUserRow?, action: Option<string>, notes: Option<string>, now: int)
    returns (r: ReviewOutcome)
    requires req != null ==> user.id == req.userId
    requires profile != null ==> profile.userId == user.id
    requires entityUser != null && req != null ==> Some(entityUser.id) == req.targetId && entityUser.userId == req.userId
    modifies req, user, profile, entityUser
    ensures AdminGuard(admin) != GuardPass <==> r == ReviewRefused(AdminGuard(admin))
    ensures r == RequestNotFound <==> AdminGuard(admin) == GuardPass && req == null
    ensures r == InvalidReviewAction <==>
              AdminGuard(admin) == GuardPass && req != null && ActionOf(action) !in {"approve", "reject"}
    ensures !r.RequestApprovedOutcome? && !r.RequestRejectedOutcome? ==>
              (req != null ==> unchanged(req)) && unchanged(user)
              && (profile != null ==> unchanged(profile)) && (entityUser != null ==> unchanged(entityUser))
    ensures r.RequestRejectedOutcome? ==>
              && ActionOf(action) == "reject"
              && req.status == RequestRejected
              && unchanged(user) && (profile != null ==> unchanged(profile))
              && (entityUser != null ==> unchanged(entityUser))
    ensures r.RequestRejectedOutcome? || r.RequestApprovedOutcome? ==>
              && req.adminNotes == notes.GetOr("")
              && req.reviewedBy == Some(admin.value.id)
              && req.reviewedAt == Some(now)
    ensures r.RequestApprovedOutcome? ==>
              && ActionOf(action) == "approve"
              && req.status == RequestApproved
              && req.target in {"user", "supplier_profile", "entity_user"}
    ensures r.RequestApprovedOutcome? && req.target == "user" ==>
              && r.applied == Permitted(req.proposed, UserEditable)
              && user.columns == old(user.columns) + r.applied
              && (profile != null ==> unchanged(profile)) && (entityUser != null ==> unchanged(entityUser))
    ensures r.RequestApprovedOutcome? && req.target == "supplier_profile" ==>
              && profile != null
              && r.applied == Permitted(req.proposed, ProfileEditable)
              && profile.columns == old(profile.columns) + r.applied
              && unchanged(user) && (entityUser != null ==> unchanged(entityUser))
    ensures r.RequestApprovedOutcome? && req.target == "entity_user" ==>
              && entityUser != null
              && r.applied == Permitted(req.proposed, EntityUserEditable)
              && entityUser.columns == old(entityUser.columns) + r.applied
              && unchanged(user) && (profile != null ==> unchanged(profile))
  {
    var guard := AdminGuard(admin);
    if guard != GuardPass {
      return ReviewRefused(guard);
    }
    if req == null {
      return RequestNotFound;
    }
    var act := ActionOf(action);
    var text := notes.GetOr("");
    if act != "approve" && act != "reject" {
      return InvalidReviewAction;
    }
    if act == "reject" {
      req.status := RequestRejected;
      req.adminNotes := text;
      req.reviewedBy := Some(admin.value.id);
      req.reviewedAt := Some(now);
      return RequestRejectedOutcome;
    }

    r := ApproveTarget(req.target, req.proposed, user, profile, entityUser);
    if !r.RequestApprovedOutcome? {
      return r;
    }
    req.status := RequestApproved;
    req.adminNotes := text;
    req.reviewedBy := Some(admin.value.id);
    req.reviewedAt := Some(now);
  }

  /** The approving half of the review: the target's whitelisted columns
      are applied to its row, which must exist; an unknown target changes
      nothing. */
  method ApproveTarget(target: string, proposed: map<string, string>, user: UserRow, profile: ProfileRow?,
                       entityUser: EntityUserRow?)
    returns (r: ReviewOutcome)
    modifies user, profile, entityUser
    ensures r.RequestApprovedOutcome? || r in {ProfileMissing, EntityUserMissing, UnknownTarget}
    ensures r == ProfileMissing <==> target == "supplier_profile" && profile == null
    ensures r == EntityUserMissing <==> target == "entity_user" && entityUser == null
    ensures r == UnknownTarget <==> target !in {"user", "supplier_profile", "entity_user"}
    ensures !r.RequestApprovedOutcome? ==>
              unchanged(user) && (profile != null ==> unchanged(profile)) && (entityUser != null ==> unchanged(entityUser))
    ensures r.RequestApprovedOutcome? && target == "user" ==>
              && r.applied == Permitted(proposed, UserEditable)
              && user.columns == old(user.columns) + r.applied
              && (profile != null ==> unchanged(profile)) && (entityUser != null ==> unchanged(entityUser))
    ensures r.RequestApprovedOutcome? && target == "supplier_profile" ==>
              && profile != null
              && r.applied == Permitted(proposed, ProfileEditable)
              && profile.columns == old(profile.columns) + r.applied
              && unchanged(user) && (entityUser != null ==> unchanged(entityUser))
    ensures r.RequestApprovedOutcome? && target == "entity_user" ==>
              && entityUser != null
              && r.applied == Permitted(proposed, EntityUserEditable)
              && entityUser.columns == old(entityUser.columns) + r.applied
              && unchanged(user) && (profile != null ==> unchanged(profile))
  {
    var updated, applied;
    if target == "user" {
      updated, applied := ApplyChanges(user.columns, UserEditable, proposed);
      user.columns := updated;
    } else if target == "supplier_profile" {
      if profile == null {
        return ProfileMissing;
      }
      updated, applied := ApplyChanges(profile.columns, ProfileEditable, proposed);
      profile.columns := updated;
    } else if target == "entity_user" {
      if entityUser == null {
        return EntityUserMissing;
      }
      updated, applied := ApplyChanges(entityUser.columns, EntityUserEditable, proposed);
      entityUser.columns := updated;
    } else {
      return UnknownTarget;
    }
    return RequestApprovedOutcome(applied);
  }
}
