/** Accounts (backend/users/models.py): the user manager's two creation
    paths, the role properties that decide which dashboard a user reaches,
    the procuring-entity record and the supplier-profile link check. */
module UserModels {
  import opened Common

  /** `User.USER_TYPES`; a stored value outside the choices (the manager
      does not validate them, and `user_type` has no default) is kept as
      its text. */
  datatype UserType = Supplier | ProcuringEntityUser | Administrator | EvaluatorUser | OtherType(text: string)

  /** `User.STATUS_CHOICES`. */
  datatype AccountStatus = Active | Inactive | Suspended | PendingVerification

  /** The password as `set_password` leaves it: a hash of the raw value, or
      unusable when the raw value is None. Hashing itself is a library
      call; `HashOf(raw)` stands for "the hash of raw". */
  datatype Password = Unusable | HashOf(raw: string)

  datatype User = User(
    id: nat,
    email: string,
    username: string,
    firstName: string,
    lastName: string,
    phone: string,
    userType: UserType,
    status: AccountStatus,
    isStaff: bool,
    isSuperuser: bool,
    isActive: bool,
    emailVerified: bool,
    password: Password)

  /** The user-type text a request carries, read as a choice. */
  function ParseUserType(text: string): (t: UserType)
    ensures t.OtherType? <==> text !in {"supplier", "procuring_entity", "admin", "evaluator"}
    ensures t == Supplier <==> text == "supplier"
  {
    if text == "supplier" then Supplier
    else if text == "procuring_entity" then ProcuringEntityUser
    else if text == "admin" then Administrator
    else if text == "evaluator" then EvaluatorUser
    else OtherType(text)
  }

  // ----- role properties (models.py:84-121) -----

  predicate IsSupplier(u: User) { u.userType == Supplier }

  /** `is_admin_user`: the admin type or a superuser. */
  predicate IsAdminUser(u: User) { u.userType == Administrator || u.isSuperuser }

  /** A supplier has admin privileges only as a superuser. */
  lemma SupplierAdminOnlyAsSuperuser(u: User)
    requires IsSupplier(u)
    ensures IsAdminUser(u) <==> u.isSuperuser
  {
  }

  predicate IsEvaluatorUser(u: User) { u.userType == EvaluatorUser }

  predicate IsProcuringEntityUser(u: User) { u.userType == ProcuringEntityUser }

  predicate CanAccessAdminDashboard(u: User)
  {
    IsAdminUser(u) || IsEvaluatorUser(u) || IsProcuringEntityUser(u)
  }

  predicate CanAccessBidderDashboard(u: User) { IsSupplier(u) }

  /** The admin dashboard is open to exactly the staff-side user types and
      to superusers; the bidder dashboard to exactly the suppliers. */
  lemma DashboardAccess(u: User)
    ensures CanAccessAdminDashboard(u) <==>
              u.userType in {Administrator, EvaluatorUser, ProcuringEntityUser} || u.isSuperuser
    ensures CanAccessBidderDashboard(u) <==> u.userType == Supplier
    ensures !u.isSuperuser ==> !(CanAccessAdminDashboard(u) && CanAccessBidderDashboard(u))
  {
  }

  /** `get_dashboard_route`: the admin dashboard takes precedence; a user
      with neither kind of access is sent back to the login page. The
      account status plays no part. */
  function DashboardRoute(u: User): (route: string)
    ensures route == "/dashboard" <==> CanAccessAdminDashboard(u)
    ensures route == "/bidder/dashboard" <==> !CanAccessAdminDashboard(u) && IsSupplier(u)
    ensures route == "/login" <==> !CanAccessAdminDashboard(u) && !IsSupplier(u)
  {
    if CanAccessAdminDashboard(u) then "/dashboard"
    else if CanAccessBidderDashboard(u) then "/bidder/dashboard"
    else "/login"
  }

  /** Only an account whose type is outside the choices, and which is not a
      superuser, has no dashboard. */
  lemma LoginRouteOnlyForUnknownTypes(u: User)
    requires DashboardRoute(u) == "/login"
    ensures u.userType.OtherType? && !u.isSuperuser
  {
  }

  // ----- the user manager (models.py:11-34) -----

  /** A keyword argument of `extra_fields` for a boolean flag: not passed,
      passed as a boolean, or passed as something else (None, 1, "yes"),
      which is never `True` itself; `truthy` is how the field stores it. */
  datatype FlagArg = Unset | SetTo(b: bool) | SetOther(truthy: bool)

  /** The other keyword arguments the manager forwards to the model. */
  datatype ExtraFields = ExtraFields(
    username: string,
    firstName: string,
    lastName: string,
    phone: string,
    userType: Option<UserType>,
    status: Option<AccountStatus>,
    isStaff: FlagArg,
    isSuperuser: FlagArg,
    isActive: FlagArg)

  datatype ManagerError = EmailRequired | StaffRequired | SuperuserRequired

  /** The stored value of a flag, given the model's default. */
  function FlagValue(f: FlagArg, default: bool): bool
  {
    match f
    case Unset => default
    case SetTo(b) => b
    case SetOther(t) => t
  }

  /** `setdefault`: an argument already passed is kept. */
  function SetDefault(f: FlagArg, b: bool): (r: FlagArg)
    ensures f.Unset? ==> r == SetTo(b)
    ensures !f.Unset? ==> r == f
  {
    if f.Unset? then SetTo(b) else f
  }

  /** Python's `x is True` for a flag argument. */
  predicate IsTrue(f: FlagArg) { f == SetTo(true) }

  /** `create_user`: refuses a missing or empty email; otherwise builds the
      user from the forwarded fields over the model defaults (not staff, not
      superuser, active, pending verification, email not verified) and
      stores the password only through `set_password`. */
  function CreateUser(id: nat, email: Option<string>, password: Option<string>, extra: ExtraFields)
    : (r: Result<User, ManagerError>)
    ensures r.Err? <==> email.None? || email.value == ""
    ensures r.Err? ==> r.error == EmailRequired
    ensures r.Ok? ==> r.value.email == email.value && r.value.id == id
    ensures r.Ok? ==> (r.value.password.Unusable? <==> password.None?)
    ensures r.Ok? && password.Some? ==> r.value.password == HashOf(password.value)
    ensures r.Ok? ==> !r.value.emailVerified
    ensures r.Ok? ==> r.value.isStaff == FlagValue(extra.isStaff, false)
                      && r.value.isSuperuser == FlagValue(extra.isSuperuser, false)
                      && r.value.isActive == FlagValue(extra.isActive, true)
    ensures r.Ok? && extra.status.None? ==> r.value.status == PendingVerification
  {
    if email.None? || email.value == "" then Err(EmailRequired)
    else
      Ok(User(
        id := id,
        email := email.value,
        username := extra.username,
        firstName := extra.firstName,
        lastName := extra.lastName,
        phone := extra.phone,
        userType := extra.userType.GetOr(OtherType("")),
        status := extra.status.GetOr(PendingVerification),
        isStaff := FlagValue(extra.isStaff, false),
        isSuperuser := FlagValue(extra.isSuperuser, false),
        isActive := FlagValue(extra.isActive, true),
        emailVerified := false,
        password := if password.Some? then HashOf(password.value) else Unusable))
  }

  /** `create_superuser`: staff, superuser and active default to True; a
      staff or superuser flag passed as anything but `True` is refused
      (staff checked first), and only then does the email check of
      `create_user` run. */
  function CreateSuperuser(id: nat, email: Option<string>, password: Option<string>, extra: ExtraFields)
    : (r: Result<User, ManagerError>)
    ensures r == Err(StaffRequired) <==> !(extra.isStaff.Unset? || IsTrue(extra.isStaff))
    ensures r == Err(SuperuserRequired) <==>
              (extra.isStaff.Unset? || IsTrue(extra.isStaff)) && !(extra.isSuperuser.Unset? || IsTrue(extra.isSuperuser))
    ensures r.Ok? ==> r.value.isStaff && r.value.isSuperuser
    ensures r.Ok? ==> r.value.isActive == FlagValue(extra.isActive, true)
  {
    var withDefaults := extra.(
      isStaff := SetDefault(extra.isStaff, true),
      isSuperuser := SetDefault(extra.isSuperuser, true),
      isActive := SetDefault(extra.isActive, true));
    if !IsTrue(withDefaults.isStaff) then Err(StaffRequired)
    else if !IsTrue(withDefaults.isSuperuser) then Err(SuperuserRequired)
    else CreateUser(id, email, password, withDefaults)
  }

  /** Whatever type it is given, a created superuser reaches the admin
      dashboard, and it is refused only for a bad flag or a missing email. */
  lemma SuperuserReachesAdminDashboard(id: nat, email: Option<string>, password: Option<string>, extra: ExtraFields)
    requires email.Some? && email.value != ""
    requires extra.isStaff.Unset? || IsTrue(extra.isStaff)
    requires extra.isSuperuser.Unset? || IsTrue(extra.isSuperuser)
    ensures CreateSuperuser(id, email, password, extra).Ok?
    ensures var u := CreateSuperuser(id, email, password, extra).value;
            IsAdminUser(u) && DashboardRoute(u) == "/dashboard" && u.email == email.value
  {
    var r := CreateSuperuser(id, email, password, extra);
    assert r != Err(StaffRequired) && r != Err(SuperuserRequired);
  }

  // ----- procuring entities and supplier profiles -----

  /** `ProcuringEntity`, with its optional parent. */
  datatype ProcuringEntity = ProcuringEntity(id: nat, name: string, code: string, parentId: Option<nat>)

  /** `SupplierProfile.VERIFICATION_CHOICES`. */
  datatype Verification = Pending | Verified | Rejected

  /** `SupplierProfile.clean`: a profile may only be attached to a
      supplier; a profile with no user yet passes. */
  function CleanSupplierProfile(user: Option<User>): (r: Result<(), string>)
    ensures r.Ok? <==> user.None? || user.value.userType == Supplier
  {
    if user.Some? && !IsSupplier(user.value) then
      Err("SupplierProfile can only be linked to users with user_type='supplier'.")
    else Ok(())
  }

  /** A profile that passes `clean` belongs to a user who reaches the bidder
      dashboard, unless that user is also a superuser. */
  lemma CleanProfileOwnerIsBidder(u: User)
    requires CleanSupplierProfile(Some(u)).Ok? && !u.isSuperuser
    ensures DashboardRoute(u) == "/bidder/dashboard"
  {
  }
}
