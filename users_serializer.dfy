/** The account serializers (backend/users/serializer.py): registration
    validation, user creation from validated data, the outgoing
    representation of a user, and the parent summary of a procuring
    entity. */
module UserSerializer {
  import opened Common
  import opened UserModels

  // ----- ProcuringEntitySerializer.get_parent_entity -----

  datatype ParentSummary = ParentSummary(id: nat, name: string, code: string)

  /** The parent as `{id, name, code}`, or None for a top-level entity.
      `entities` is the entity table; a parent id always refers to a row of
      it (the foreign key). */
  function ParentEntity(e: ProcuringEntity, entities: map<nat, ProcuringEntity>): (r: Option<ParentSummary>)
    requires e.parentId.Some? ==> e.parentId.value in entities
    ensures r.None? <==> e.parentId.None?
    ensures r.Some? ==> var p := entities[e.parentId.value];
                        r.value.id == p.id && r.value.name == p.name && r.value.code == p.code
  {
    match e.parentId
    case None => None
    case Some(pid) =>
      var p := entities[pid];
      Some(ParentSummary(p.id, p.name, p.code))
  }

  // ----- UserSerializer validation -----

  /** `str.replace(pattern, "")`: every non-overlapping occurrence, scanning
      left to right, removed. */
  function RemoveAll(s: string, pattern: string): (r: string)
    requires pattern != []
    ensures |r| <= |s|
    decreases |s|
  {
    if s == [] then []
    else if StartsWith(s, pattern) then RemoveAll(s[|pattern|..], pattern)
    else [s[0]] + RemoveAll(s[1..], pattern)
  }

  /** A string without the pattern's first character is left as it is. */
  lemma {:induction false} RemoveAllAbsent(s: string, pattern: string)
    requires pattern != [] && pattern[0] !in s
    ensures RemoveAll(s, pattern) == s
    decreases |s|
  {
    if s != [] {
      assert s[0] in s;
      assert !StartsWith(s, pattern);
      assert forall c :: c in s[1..] ==> c in s;
      RemoveAllAbsent(s[1..], pattern);
    }
  }

  /** The verdict of the phone-number library on a value (parsed for the
      Zambian region): valid, parsed but not a valid number, or not
      parseable. The library itself is not modelled. */
  datatype PhoneVerdict = ValidNumber | InvalidNumber | Unparseable

  datatype PhoneError = PhoneRequired | PhoneNotValid | PhoneBadFormat | PhoneDigitCount

  /** `validate_phoneNumber`: empty first, then the library's verdict, then
      exactly nine characters must remain once every "+260" is removed. */
  function PhoneCheck(value: string, verdict: PhoneVerdict): (r: Option<PhoneError>)
    ensures r == Some(PhoneRequired) <==> value == ""
    ensures r.None? <==> value != "" && verdict == ValidNumber && |RemoveAll(value, "+260")| == 9
    ensures r == Some(PhoneDigitCount) ==> verdict == ValidNumber
  {
    if value == "" then Some(PhoneRequired)
    else
      match verdict
      case InvalidNumber => Some(PhoneNotValid)
      case Unparseable => Some(PhoneBadFormat)
      case ValidNumber => if |RemoveAll(value, "+260")| != 9 then Some(PhoneDigitCount) else None
  }

  function PhoneMessage(e: PhoneError): string
  {
    match e
    case PhoneRequired => "Phone number is required."
    case PhoneNotValid => "Phone number is not valid."
    case PhoneBadFormat => "Invalid phone number format."
    case PhoneDigitCount => "Phone number must have exactly 9 digits after the country code +260."
  }

  /** A library-valid number written as "+260" and nine digits passes; the
      same number written in the national form with its leading 0 (ten
      characters, no "+") is refused by the count. */
  lemma PhoneForms(nine: string)
    requires |nine| == 9 && forall i :: 0 <= i < 9 ==> '0' <= nine[i] <= '9'
    ensures PhoneCheck("+260" + nine, ValidNumber).None?
    ensures PhoneCheck("0" + nine, ValidNumber) == Some(PhoneDigitCount)
  {
    var s := "+260" + nine;
    assert StartsWith(s, "+260");
    assert s[4..] == nine;
    assert '+' !in nine;
    RemoveAllAbsent(nine, "+260");
    assert '+' !in "0" + nine;
    RemoveAllAbsent("0" + nine, "+260");
  }

  /** The data a registration hands the serializer. `register_view` always
      sends all eight keys, so a field it could not pick arrives as null:
      None here is a null value, never a left-out key. */
  datatype UserData = UserData(
    email: Option<string>,
    password: Option<string>,
    confirmPassword: Option<string>,
    firstName: Option<string>,
    lastName: Option<string>,
    username: Option<string>,
    phoneNumber: Option<string>,
    userType: Option<string>)

  /** The serializer's writable fields, by their names in the data. */
  const UserFields: set<string> :=
    {"email", "password", "confirmPassword", "first_name", "last_name", "username", "phoneNumber", "user_type"}

  /** The fields whose model column allows a blank value. */
  const BlankAllowed: set<string> := {"first_name", "last_name"}

  /** The value sent under a field name. */
  function Sent(data: UserData, k: string): Option<string>
  {
    if k == "email" then data.email
    else if k == "password" then data.password
    else if k == "confirmPassword" then data.confirmPassword
    else if k == "first_name" then data.firstName
    else if k == "last_name" then data.lastName
    else if k == "username" then data.username
    else if k == "phoneNumber" then data.phoneNumber
    else if k == "user_type" then data.userType
    else None
  }

  /** The data as the fields hand it on: every text trimmed, except the user
      type, whose choice field takes it as sent. */
  function Cleaned(data: UserData): (c: UserData)
    ensures c.userType == data.userType
    ensures forall k :: k in UserFields && k != "user_type" ==> Sent(c, k) == TrimmedOf(Sent(data, k))
  {
    UserData(TrimmedOf(data.email), TrimmedOf(data.password), TrimmedOf(data.confirmPassword),
             TrimmedOf(data.firstName), TrimmedOf(data.lastName), TrimmedOf(data.username),
             TrimmedOf(data.phoneNumber), data.userType)
  }

  /** A registration error, under a field name or under `password` for the
      cross-field check. `FrameworkError` stands for the framework's checks
      not modelled here (email format, uniqueness, lengths), with their
      message. */
  datatype UserFieldError =
    | MayNotBeNull
    | MayNotBeBlank
    | NotAChoice(value: string)
    | FrameworkError(message: string)
    | PhoneInvalid(why: PhoneError)
    | PasswordsDiffer

  /** The message sent for an error. */
  function Message(e: UserFieldError): string
  {
    match e
    case MayNotBeNull => "This field may not be null."
    case MayNotBeBlank => "This field may not be blank."
    case NotAChoice(v) => "\"" + v + "\" is not a valid choice."
    case FrameworkError(m) => m
    case PhoneInvalid(why) => PhoneMessage(why)
    case PasswordsDiffer => "Passwords do not match"
  }

  /** One field's check, in the framework's order: a null is refused first;
      then the user type must be one of the choices, and any other text
      must be non-blank once trimmed unless the column allows blank; then
      the framework's own checks (given as `framework`, keyed by field);
      and only on a phone that passed all of these, `validate_phoneNumber`
      on the trimmed text. */
  function Check(data: UserData, verdict: PhoneVerdict, framework: map<string, string>, k: string): (r: Option<UserFieldError>)
  {
    var v := Sent(data, k);
    if k !in UserFields then None
    else if v.None? then Some(MayNotBeNull)
    else if k == "user_type" && ParseUserType(v.value).OtherType? then Some(NotAChoice(v.value))
    else if k != "user_type" && k !in BlankAllowed && Trim(v.value) == [] then Some(MayNotBeBlank)
    else if k in framework then Some(FrameworkError(framework[k]))
    else if k == "phoneNumber" && PhoneCheck(Trim(v.value), verdict).Some? then
      Some(PhoneInvalid(PhoneCheck(Trim(v.value), verdict).value))
    else None
  }

  /** The field-level errors: every field whose check fails, with its error. */
  function FieldErrors(data: UserData, verdict: PhoneVerdict, framework: map<string, string>)
    : (errs: map<string, UserFieldError>)
    ensures forall k :: k in errs <==> k in UserFields && Check(data, verdict, framework, k).Some?
    ensures forall k :: k in errs ==> errs[k] == Check(data, verdict, framework, k).value
  {
    map k | k in UserFields && Check(data, verdict, framework, k).Some? :: Check(data, verdict, framework, k).value
  }

  /** Every field, the names included, refuses a null. */
  lemma NullErrors(data: UserData, verdict: PhoneVerdict, framework: map<string, string>, k: string)
    ensures Check(data, verdict, framework, k) == Some(MayNotBeNull) <==> k in UserFields && Sent(data, k).None?
  {
  }

  /** A blank email, password, confirmation, username or phone is refused as
      blank; the names may be blank. */
  lemma BlankErrors(data: UserData, verdict: PhoneVerdict, framework: map<string, string>, k: string)
    ensures Check(data, verdict, framework, k) == Some(MayNotBeBlank) <==>
              k in UserFields - BlankAllowed - {"user_type"} && Sent(data, k).Some? && Trim(Sent(data, k).value) == []
  {
  }

  /** A user type outside the four choices is refused, untrimmed. */
  lemma ChoiceError(data: UserData, verdict: PhoneVerdict, framework: map<string, string>, v: string)
    ensures Check(data, verdict, framework, "user_type") == Some(NotAChoice(v)) <==>
              data.userType == Some(v) && ParseUserType(v).OtherType?
  {
  }

  /** The phone validator runs only on a non-blank phone the framework
      accepted, so its own empty-value error is never reported. */
  lemma PhoneErrors(data: UserData, verdict: PhoneVerdict, framework: map<string, string>, e: PhoneError)
    ensures Check(data, verdict, framework, "phoneNumber") == Some(PhoneInvalid(e)) <==>
              && data.phoneNumber.Some? && Trim(data.phoneNumber.value) != [] && "phoneNumber" !in framework
              && PhoneCheck(Trim(data.phoneNumber.value), verdict) == Some(e)
    ensures Check(data, verdict, framework, "phoneNumber") != Some(PhoneInvalid(PhoneRequired))
  {
  }

  /** The framework's error on a field is reported exactly when the field is
      not null, blank or an unknown choice. */
  lemma FrameworkErrors(data: UserData, verdict: PhoneVerdict, framework: map<string, string>, k: string, m: string)
    ensures Check(data, verdict, framework, k) == Some(FrameworkError(m)) <==>
              && k in UserFields && k in framework && framework[k] == m && Sent(data, k).Some?
              && (k == "user_type" ==> !ParseUserType(Sent(data, k).value).OtherType?)
              && (k != "user_type" && k !in BlankAllowed ==> Trim(Sent(data, k).value) != [])
  {
  }

  /** A field passes exactly when it is sent, not refused by its own checks,
      and (for the phone) the validator accepts the trimmed text. */
  lemma FieldPasses(data: UserData, verdict: PhoneVerdict, framework: map<string, string>, k: string)
    requires k in UserFields
    ensures Check(data, verdict, framework, k).None? <==>
              && Sent(data, k).Some? && k !in framework
              && (k == "user_type" ==> !ParseUserType(Sent(data, k).value).OtherType?)
              && (k != "user_type" && k !in BlankAllowed ==> Trim(Sent(data, k).value) != [])
              && (k == "phoneNumber" ==> PhoneCheck(Trim(Sent(data, k).value), verdict).None?)
  {
  }

  /** `is_valid`: the field errors when there are any; otherwise `validate`
      compares the two trimmed passwords and keys its error on `password`;
      otherwise the cleaned data. */
  function Validate(data: UserData, verdict: PhoneVerdict, framework: map<string, string>)
    : (r: Result<UserData, map<string, UserFieldError>>)
    ensures FieldErrors(data, verdict, framework) != map[] ==> r == Err(FieldErrors(data, verdict, framework))
    ensures FieldErrors(data, verdict, framework) == map[] && r.Err? ==> r.error == map["password" := PasswordsDiffer]
    ensures r.Err? ==> r.error != map[]
    ensures r.Ok? ==> r.value == Cleaned(data)
  {
    var fieldErrors := FieldErrors(data, verdict, framework);
    var cleaned := Cleaned(data);
    if fieldErrors != map[] then Err(fieldErrors)
    else if cleaned.password != cleaned.confirmPassword then
      var e := map["password" := PasswordsDiffer];
      assert "password" in e;
      Err(e)
    else Ok(cleaned)
  }

  /** What an accepted registration carries: all eight fields sent, the
      required texts non-blank, the two passwords equal once trimmed, a
      phone the validator accepts, a known user type, and no framework
      error on any field. */
  lemma ValidateMeaning(data: UserData, verdict: PhoneVerdict, framework: map<string, string>)
    requires Validate(data, verdict, framework).Ok?
    ensures forall k :: k in UserFields ==> Sent(data, k).Some? && k !in framework
    ensures Trim(data.email.value) != [] && Trim(data.username.value) != [] && Trim(data.password.value) != []
    ensures Trim(data.password.value) == Trim(data.confirmPassword.value)
    ensures PhoneCheck(Trim(data.phoneNumber.value), verdict).None?
    ensures !ParseUserType(data.userType.value).OtherType?
  {
    forall k | k in UserFields
      ensures Sent(data, k).Some? && k !in framework
    {
      assert k !in FieldErrors(data, verdict, framework);
    }
    assert "email" !in FieldErrors(data, verdict, framework);
    assert "username" !in FieldErrors(data, verdict, framework);
    assert "password" !in FieldErrors(data, verdict, framework);
    assert "phoneNumber" !in FieldErrors(data, verdict, framework);
    assert "user_type" !in FieldErrors(data, verdict, framework);
  }

  /** An accepted registration sent every field. */
  lemma AcceptedSent(data: UserData, verdict: PhoneVerdict, framework: map<string, string>)
    requires Validate(data, verdict, framework).Ok?
    ensures data.email.Some? && data.password.Some? && data.confirmPassword.Some? && data.firstName.Some?
    ensures data.lastName.Some? && data.username.Some? && data.phoneNumber.Some? && data.userType.Some?
  {
    var errs := FieldErrors(data, verdict, framework);
    assert "email" !in errs && "password" !in errs && "confirmPassword" !in errs && "first_name" !in errs;
    assert "last_name" !in errs && "username" !in errs && "phoneNumber" !in errs && "user_type" !in errs;
  }

  /** With no field error, the trimmed passwords alone decide. */
  lemma PasswordsDecide(data: UserData, verdict: PhoneVerdict)
    requires FieldErrors(data, verdict, map[]) == map[]
    ensures data.password.Some? && data.confirmPassword.Some?
    ensures Validate(data, verdict, map[]).Ok? <==> Trim(data.password.value) == Trim(data.confirmPassword.value)
  {
    assert "password" !in FieldErrors(data, verdict, map[]);
    assert "confirmPassword" !in FieldErrors(data, verdict, map[]);
  }

  /** Passwords that differ only by surrounding spaces match, since both are
      trimmed before `validate` compares them. */
  lemma SurroundingSpacesIgnored()
    ensures Trim("secret ") == Trim(" secret")
  {
    assert Lead("secret ", 0) == 0;
  }

  // ----- create and to_representation -----

  /** The value of a validated field, or the model's default. */
  function FieldOr(d: map<string, string>, key: string, default: string): string
  {
    if key in d then d[key] else default
  }

  /** The user `create` builds from validated data (keyed by model field,
      `phoneNumber` already mapped to `phone` by its source): every field
      from the data or its model default, the password hashed, nothing
      from `confirmPassword`. */
  function UserFromValidated(validated: map<string, string>, id: nat): (u: User)
    requires "password" in validated
    ensures u.password == HashOf(validated["password"])
    ensures u.email == FieldOr(validated, "email", "")
    ensures u.username == FieldOr(validated, "username", "")
    ensures u.firstName == FieldOr(validated, "first_name", "") && u.lastName == FieldOr(validated, "last_name", "")
    ensures u.phone == FieldOr(validated, "phone", FieldOr(validated, "phoneNumber", ""))
    ensures u.userType == ParseUserType(FieldOr(validated, "user_type", ""))
    ensures u.isActive && !u.isStaff && !u.isSuperuser && u.status == PendingVerification
  {
    var rest := validated - {"confirmPassword", "password"};
    User(
      id := id,
      email := FieldOr(rest, "email", ""),
      username := FieldOr(rest, "username", ""),
      firstName := FieldOr(rest, "first_name", ""),
      lastName := FieldOr(rest, "last_name", ""),
      phone := FieldOr(rest, "phone", FieldOr(rest, "phoneNumber", "")),
      userType := ParseUserType(FieldOr(rest, "user_type", "")),
      status := PendingVerification,
      isStaff := false,
      isSuperuser := false,
      isActive := true,
      emailVerified := false,
      password := HashOf(validated["password"]))
  }

  /** `create`: pops `confirmPassword` and `password`, moves a nested
      `phoneNumber` to `phone`, builds the user and sets its password. A
      missing `password` would raise; the serializer makes it required. */
  method Create(validated: map<string, string>, id: nat) returns (u: User)
    requires "password" in validated
    ensures u == UserFromValidated(validated, id)
  {
    var data := validated;
    data := data - {"confirmPassword"};
    var password := data["password"];
    data := data - {"password"};
    if "phone" !in data && "phoneNumber" in data {
      data := data["phone" := data["phoneNumber"]] - {"phoneNumber"};
    }
    u := User(
      id := id,
      email := FieldOr(data, "email", ""),
      username := FieldOr(data, "username", ""),
      firstName := FieldOr(data, "first_name", ""),
      lastName := FieldOr(data, "last_name", ""),
      phone := FieldOr(data, "phone", ""),
      userType := ParseUserType(FieldOr(data, "user_type", "")),
      status := PendingVerification,
      isStaff := false,
      isSuperuser := false,
      isActive := true,
      emailVerified := false,
      password := Unusable);
    u := u.(password := HashOf(password));
  }

  /** A JSON value of the representation. */
  datatype Json = JString(s: string) | JNumber(n: nat) | JBool(b: bool) | JNull

  /** An optional text as JSON: null when unset. */
  function OptionalText(t: Option<string>): (j: Json)
    ensures j == JNull <==> t.None?
  {
    if t.Some? then JString(t.value) else JNull
  }

  function UserTypeText(t: UserType): (text: string)
    ensures ParseUserType(text) == t || t.OtherType?
  {
    match t
    case Supplier => "supplier"
    case ProcuringEntityUser => "procuring_entity"
    case Administrator => "admin"
    case EvaluatorUser => "evaluator"
    case OtherType(x) => x
  }

  /** The fields a user is sent back with: every field of the serializer
      but the two write-only ones. */
  const RepresentedFields: set<string> :=
    {"id", "email", "first_name", "last_name", "user_type", "username", "phoneNumber",
     "reset_password_token", "reset_password_expires", "is_active"}

  /** `to_representation`: the readable fields, `phoneNumber` as the phone
      text ('' when unset), and never the password or its confirmation. The
      read-only reset token and its expiry (kept outside `User`, which does
      not model them; the expiry as its ISO text) are sent as stored. */
  function Representation(u: User, resetToken: Option<string>, resetExpires: Option<string>): (rep: map<string, Json>)
    ensures rep.Keys == RepresentedFields
    ensures "password" !in rep && "confirmPassword" !in rep
    ensures rep["phoneNumber"] == JString(u.phone)
    ensures rep["email"] == JString(u.email) && rep["id"] == JNumber(u.id)
    ensures rep["reset_password_token"] == JNull <==> resetToken.None?
    ensures resetToken.Some? ==> rep["reset_password_token"] == JString(resetToken.value)
  {
    map[
      "id" := JNumber(u.id),
      "email" := JString(u.email),
      "first_name" := JString(u.firstName),
      "last_name" := JString(u.lastName),
      "user_type" := JString(UserTypeText(u.userType)),
      "username" := JString(u.username),
      "phoneNumber" := JString(u.phone),
      "reset_password_token" := OptionalText(resetToken),
      "reset_password_expires" := OptionalText(resetExpires),
      "is_active" := JBool(u.isActive)]
  }

  /** A registered user is sent back with the email, phone and user type it
      registered with, and without its password. */
  lemma RegisteredUserEcho(validated: map<string, string>, id: nat)
    requires "password" in validated && "email" in validated && "phone" in validated
    requires "user_type" in validated && !ParseUserType(validated["user_type"]).OtherType?
    ensures var rep := Representation(UserFromValidated(validated, id), None, None);
            && rep["email"] == JString(validated["email"])
            && rep["phoneNumber"] == JString(validated["phone"])
            && rep["user_type"] == JString(validated["user_type"])
            && "password" !in rep && rep["reset_password_token"] == JNull
  {
  }
}
