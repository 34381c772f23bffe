/** The tender serializers (backend/tenders/serializer.py): category levels,
    the field validators of tender creation, reference-number generation, the
    choice of procuring entity, tender creation itself, and the status
    transition check of tender updates. */
module TenderSerializer {
  import opened Common
  import opened TenderModels

  // ------------------------------------------------------------- categories

  /** `CategorySerializer.create`: a top-level category is at level 1; a
      child is one level below its parent, a parent level of 0 counting as 1
      (Python's `parent.level or 1`). */
  function CategoryLevel(parentLevel: Option<nat>): (level: nat)
    ensures parentLevel.None? ==> level == 1
    ensures parentLevel.Some? ==> level >= 2 && level > parentLevel.value
  {
    match parentLevel
    case None => 1
    case Some(l) => (if l == 0 then 1 else l) + 1
  }

  /** Along a chain of categories, each created under the previous one from
      a top-level root, the level is the depth (root = 1). */
  lemma {:induction false} LevelIsDepth(levels: seq<nat>)
    requires |levels| > 0 && levels[0] == CategoryLevel(None)
    requires forall i :: 0 < i < |levels| ==> levels[i] == CategoryLevel(Some(levels[i - 1]))
    ensures forall i :: 0 <= i < |levels| ==> levels[i] == i + 1
  {
    if |levels| > 1 {
      LevelIsDepth(levels[..|levels| - 1]);
      var n := |levels| - 1;
      assert levels[n - 1] == n;
    }
  }

  // -------------------------------------------------------------- validators

  /** A key of the request: left out, sent as JSON null, or sent with a value. */
  datatype Sent<T> = Absent | Null | Given(value: T)

  /** The fields of `TenderCreateSerializer` whose checks are modelled. */
  datatype TenderField =
    | ReferenceField | TitleField | DescriptionField | CategoryField | SubcategoryField
    | EntityField | MethodField | CurrencyField | ClosingField | SecurityTypeField

  const TenderFields: set<TenderField> :=
    {ReferenceField, TitleField, DescriptionField, CategoryField, SubcategoryField,
     EntityField, MethodField, CurrencyField, ClosingField, SecurityTypeField}

  /** The fields declared without `required=False` (nor a default). */
  const RequiredTenderFields: set<TenderField> :=
    {TitleField, DescriptionField, CategoryField, MethodField, ClosingField}

  /** The fields declared with `allow_null=True`. */
  const NullableTenderFields: set<TenderField> := {SubcategoryField, EntityField, SecurityTypeField}

  /** The codes of `Tender.PROCUREMENT_METHODS` and `Tender.SECURITY_TYPES`. */
  const ProcurementMethods: set<string> :=
    {"open_domestic", "open_international", "restricted", "single_source", "request_quotations"}
  const SecurityTypes: set<string> := {"bank_guarantee", "insurance_guarantee", "cash"}

  /** What failed on a field: one of the framework's checks of the field's
      declaration, or its `validate_<field>` method, which runs only on a
      value those checks accepted. */
  datatype FieldError =
    | Required | MayNotBeNull | Blank | TooLong | NotAChoice
    | ReferenceNotUnique | InvalidCategory | InvalidSubcategory | InvalidProcuringEntity | ClosingNotInFuture

  /** The keys of a create request whose checks are modelled. */
  datatype TenderRequest = TenderRequest(
    referenceNumber: Sent<string>,
    title: Sent<string>,
    description: Sent<string>,
    category: Sent<nat>,
    subcategory: Sent<nat>,
    procuringEntity: Sent<nat>,
    procurementMethod: Sent<string>,
    currency: Sent<string>,
    closingDate: Sent<int>,
    securityType: Sent<string>)

  /** The validated fields `create` reads. */
  datatype TenderInput = TenderInput(
    referenceNumber: string,
    category: nat,
    subcategory: Option<nat>,
    procuringEntity: Option<nat>,
    closingDate: int)

  /** An `EntityUser` row: a user's membership of a procuring entity. */
  datatype EntityLink = EntityLink(userId: nat, entityId: nat, active: bool)

  /** The stored rows the serializer consults. */
  datatype Store = Store(references: set<string>, categories: set<nat>, entities: set<nat>, links: seq<EntityLink>)

  /** Whether the key of field `f` was left out, or sent as null. */
  predicate IsAbsent(req: TenderRequest, f: TenderField)
  {
    match f
    case ReferenceField => req.referenceNumber.Absent?
    case TitleField => req.title.Absent?
    case DescriptionField => req.description.Absent?
    case CategoryField => req.category.Absent?
    case SubcategoryField => req.subcategory.Absent?
    case EntityField => req.procuringEntity.Absent?
    case MethodField => req.procurementMethod.Absent?
    case CurrencyField => req.currency.Absent?
    case ClosingField => req.closingDate.Absent?
    case SecurityTypeField => req.securityType.Absent?
  }

  predicate IsNull(req: TenderRequest, f: TenderField)
  {
    match f
    case ReferenceField => req.referenceNumber.Null?
    case TitleField => req.title.Null?
    case DescriptionField => req.description.Null?
    case CategoryField => req.category.Null?
    case SubcategoryField => req.subcategory.Null?
    case EntityField => req.procuringEntity.Null?
    case MethodField => req.procurementMethod.Null?
    case CurrencyField => req.currency.Null?
    case ClosingField => req.closingDate.Null?
    case SecurityTypeField => req.securityType.Null?
  }

  /** The framework's empty-value rule: a left-out key is an error only for
      a required field (otherwise the field is skipped or takes its
      default), and null only for a field that does not allow it. */
  function EmptyCheck(req: TenderRequest, f: TenderField): (r: Option<FieldError>)
  {
    if IsAbsent(req, f) then (if f in RequiredTenderFields then Some(Required) else None)
    else if IsNull(req, f) then (if f in NullableTenderFields then None else Some(MayNotBeNull))
    else None
  }

  /** A `CharField` value: trimmed, then refused when blank (unless blanks
      are allowed, which accepts it as it is) or longer than the maximum. */
  function TextCheck(t: string, allowBlank: bool, maxLength: Option<nat>): (r: Option<FieldError>)
  {
    var v := Trim(t);
    if v == [] then (if allowBlank then None else Some(Blank))
    else if maxLength.Some? && |v| > maxLength.value then Some(TooLong)
    else None
  }

  /** The one error of field `f`: the empty-value rule, then the checks of
      the field's declaration on a sent value, then its validator. */
  function Check(req: TenderRequest, f: TenderField, db: Store, now: int): (r: Option<FieldError>)
  {
    if EmptyCheck(req, f).Some? then EmptyCheck(req, f)
    else
      match f
      case ReferenceField =>
        if !req.referenceNumber.Given? then None
        else if TextCheck(req.referenceNumber.value, true, Some(100)).Some? then TextCheck(req.referenceNumber.value, true, Some(100))
        else if Trim(req.referenceNumber.value) != [] && Trim(req.referenceNumber.value) in db.references then Some(ReferenceNotUnique)
        else None
      case TitleField => if req.title.Given? then TextCheck(req.title.value, false, Some(500)) else None
      case DescriptionField => if req.description.Given? then TextCheck(req.description.value, false, None) else None
      case CategoryField =>
        if req.category.Given? && req.category.value !in db.categories then Some(InvalidCategory) else None
      case SubcategoryField =>
        if req.subcategory.Given? && req.subcategory.value !in db.categories then Some(InvalidSubcategory) else None
      case EntityField =>
        if req.procuringEntity.Given? && req.procuringEntity.value !in db.entities then Some(InvalidProcuringEntity) else None
      case MethodField =>
        if req.procurementMethod.Given? && req.procurementMethod.value !in ProcurementMethods then Some(NotAChoice) else None
      case CurrencyField => if req.currency.Given? then TextCheck(req.currency.value, false, Some(3)) else None
      case ClosingField =>
        if req.closingDate.Given? && req.closingDate.value <= now then Some(ClosingNotInFuture) else None
      case SecurityTypeField =>
        if req.securityType.Given? && req.securityType.value !in SecurityTypes then Some(NotAChoice) else None
  }

  /** `serializer.errors` after the field checks: every field that failed,
      with its error. */
  function FieldErrors(req: TenderRequest, db: Store, now: int): (errs: map<TenderField, FieldError>)
    ensures forall f :: f in errs <==> f in TenderFields && Check(req, f, db, now).Some?
    ensures forall f :: f in errs ==> errs[f] == Check(req, f, db, now).value
  {
    map f | f in TenderFields && Check(req, f, db, now).Some? :: Check(req, f, db, now).value
  }

  /** Field `f` has error `e`. */
  predicate Has(errs: map<TenderField, FieldError>, f: TenderField, e: FieldError)
  {
    f in errs && errs[f] == e
  }

  /** Field `f` is reported with error `e` exactly when `e` is its check's
      verdict. */
  lemma HasCheck(req: TenderRequest, db: Store, now: int, f: TenderField, e: FieldError)
    ensures Has(FieldErrors(req, db, now), f, e) <==> Check(req, f, db, now) == Some(e)
  {
    assert f in TenderFields;
  }

  /** `validate_reference_number`: a trimmed reference that is non-blank and
      within its length is refused exactly when a tender already has it. */
  lemma ReferenceError(req: TenderRequest, db: Store, now: int)
    ensures Check(req, ReferenceField, db, now) == Some(ReferenceNotUnique) <==>
              req.referenceNumber.Given? && Trim(req.referenceNumber.value) != []
              && |Trim(req.referenceNumber.value)| <= 100 && Trim(req.referenceNumber.value) in db.references
  {
  }

  /** `validate_category`, `validate_subcategory` and
      `validate_procuring_entity`: a sent id is refused exactly when no such
      row exists (a null subcategory or entity passes). */
  lemma ForeignKeyErrors(req: TenderRequest, db: Store, now: int)
    ensures Check(req, CategoryField, db, now) == Some(InvalidCategory) <==>
              req.category.Given? && req.category.value !in db.categories
    ensures Check(req, SubcategoryField, db, now) == Some(InvalidSubcategory) <==>
              req.subcategory.Given? && req.subcategory.value !in db.categories
    ensures Check(req, EntityField, db, now) == Some(InvalidProcuringEntity) <==>
              req.procuringEntity.Given? && req.procuringEntity.value !in db.entities
  {
  }

  /** `validate_closing_date`: a sent closing date is refused exactly when
      it is not after now. */
  lemma ClosingError(req: TenderRequest, db: Store, now: int)
    ensures Check(req, ClosingField, db, now) == Some(ClosingNotInFuture) <==>
              req.closingDate.Given? && req.closingDate.value <= now
  {
  }

  /** The framework's empty-value errors: a left-out required field, and a
      null where null is not allowed. */
  lemma EmptyErrors(req: TenderRequest, db: Store, now: int, f: TenderField)
    ensures Check(req, f, db, now) == Some(Required) <==> f in RequiredTenderFields && IsAbsent(req, f)
    ensures Check(req, f, db, now) == Some(MayNotBeNull) <==> f !in NullableTenderFields && IsNull(req, f)
  {
  }

  /** The framework's text errors, on the trimmed text: a blank title,
      description or currency, and a reference, title or currency longer
      than 100, 500 or 3 characters. */
  lemma TextErrors(req: TenderRequest, db: Store, now: int)
    ensures Check(req, TitleField, db, now) == Some(Blank) <==> req.title.Given? && Trim(req.title.value) == []
    ensures Check(req, TitleField, db, now) == Some(TooLong) <==> req.title.Given? && |Trim(req.title.value)| > 500
    ensures Check(req, DescriptionField, db, now) == Some(Blank) <==>
              req.description.Given? && Trim(req.description.value) == []
    ensures Check(req, CurrencyField, db, now) == Some(Blank) <==> req.currency.Given? && Trim(req.currency.value) == []
    ensures Check(req, CurrencyField, db, now) == Some(TooLong) <==> req.currency.Given? && |Trim(req.currency.value)| > 3
    ensures Check(req, ReferenceField, db, now) == Some(TooLong) <==>
              req.referenceNumber.Given? && |Trim(req.referenceNumber.value)| > 100
  {
  }

  /** The framework's choice errors: a procurement method or security type
      outside its choices. */
  lemma ChoiceErrors(req: TenderRequest, db: Store, now: int)
    ensures Check(req, MethodField, db, now) == Some(NotAChoice) <==>
              req.procurementMethod.Given? && req.procurementMethod.value !in ProcurementMethods
    ensures Check(req, SecurityTypeField, db, now) == Some(NotAChoice) <==>
              req.securityType.Given? && req.securityType.value !in SecurityTypes
  {
  }

  /** A title longer than 500 characters is refused as too long, and its
      request is not accepted. */
  lemma LongTitleRefused(req: TenderRequest, db: Store, now: int)
    requires req.title.Given? && |Trim(req.title.value)| > 500
    ensures Validated(req, db, now).Err? && Has(Validated(req, db, now).error, TitleField, TooLong)
  {
    TextErrors(req, db, now);
    HasCheck(req, db, now, TitleField, TooLong);
  }

  /** `is_valid` and `validated_data`: with any field error the request is
      refused with exactly the field errors; otherwise `create` reads the
      trimmed reference (blank when left out), the category, the subcategory
      and entity (None when left out or null) and the closing date. */
  function Validated(req: TenderRequest, db: Store, now: int): (r: Result<TenderInput, map<TenderField, FieldError>>)
    ensures r.Err? <==> FieldErrors(req, db, now) != map[]
    ensures r.Err? ==> r.error == FieldErrors(req, db, now)
  {
    var errs := FieldErrors(req, db, now);
    if errs != map[] then Err(errs)
    else
      assert CategoryField !in errs && ClosingField !in errs;
      Ok(TenderInput(
        if req.referenceNumber.Given? then Trim(req.referenceNumber.value) else [],
        req.category.value,
        if req.subcategory.Given? then Some(req.subcategory.value) else None,
        if req.procuringEntity.Given? then Some(req.procuringEntity.value) else None,
        req.closingDate.value))
  }

  /** What a validated request guarantees `create`: a reference that is
      blank or unused and at most 100 characters, an existing category, an
      existing subcategory and entity when given, and a closing date after
      now. */
  lemma ValidatedMeaning(req: TenderRequest, db: Store, now: int)
    requires Validated(req, db, now).Ok?
    ensures var v := Validated(req, db, now).value;
      && (v.referenceNumber != [] ==> v.referenceNumber !in db.references && |v.referenceNumber| <= 100)
      && v.category in db.categories
      && (v.subcategory.Some? ==> v.subcategory.value in db.categories)
      && (v.procuringEntity.Some? ==> v.procuringEntity.value in db.entities)
      && v.closingDate > now
  {
    var errs := FieldErrors(req, db, now);
    assert ReferenceField !in errs && CategoryField !in errs && SubcategoryField !in errs;
    assert EntityField !in errs && ClosingField !in errs;
  }

  /** A tender whose closing date passed validation is open as soon as it is
      published, at the instant of validation. */
  lemma ValidClosingDateOpensOnPublish(req: TenderRequest, db: Store, now: int, ref: string, pub: int)
    requires Validated(req, db, now).Ok?
    ensures var t := Tender(ref, Published, StagePublished, pub, Validated(req, db, now).value.closingDate);
            IsOpen(t, now) && DaysRemaining(t, now) >= 0
  {
    ValidatedMeaning(req, db, now);
  }

  // -------------------------------------------------------- reference numbers

  /** `now().strftime('TDR-%Y%m%d-%H%M%S')`. */
  function ReferenceBase(t: DateTime): (r: string)
    ensures StartsWith(r, "TDR-")
  {
    var stamp := ZeroPad(Digits(t.year), 4) + ZeroPad(Digits(t.month), 2) + ZeroPad(Digits(t.day), 2)
                 + "-" + ZeroPad(Digits(t.hour), 2) + ZeroPad(Digits(t.minute), 2) + ZeroPad(Digits(t.second), 2);
    assert ("TDR-" + stamp)[..4] == "TDR-";
    "TDR-" + stamp
  }

  /** `f"{base}-{suffix:04d}"`. */
  function Candidate(base: string, suffix: nat): (r: string)
    ensures StartsWith(r, base + "-") && |r| >= |base| + 5
  {
    base + "-" + ZeroPad(Digits(suffix), 4)
  }

  /** Different suffixes give different candidates. */
  lemma CandidateInjective(base: string, a: nat, b: nat)
    requires Candidate(base, a) == Candidate(base, b)
    ensures a == b
  {
    var ra, rb := Candidate(base, a), Candidate(base, b);
    assert ra[|base| + 1..] == ZeroPad(Digits(a), 4);
    assert rb[|base| + 1..] == ZeroPad(Digits(b), 4);
    PaddedDigitsInjective(a, b, 4);
  }

  /** Marking candidate `n` as tried leaves every later candidate untried. */
  lemma FreshCandidatesStayUntried(base: string, n: nat, tried: set<string>)
    requires forall s :: s >= n ==> Candidate(base, s) !in tried
    ensures forall s :: s >= n + 1 ==> Candidate(base, s) !in tried + {Candidate(base, n)}
  {
    forall s | s >= n + 1 ensures Candidate(base, s) != Candidate(base, n) {
      if Candidate(base, s) == Candidate(base, n) {
        CandidateInjective(base, s, n);
      }
    }
  }

  /** `_generate_reference_number`: starting from one more than the number
      of tenders, the suffix is increased until the candidate is unused. The
      result is unused, and it is the first free candidate from that start. */
  method GenerateReferenceNumber(now: DateTime, existing: set<string>) returns (candidate: string, ghost suffix: nat)
    ensures candidate !in existing
    ensures suffix >= |existing| + 1 && candidate == Candidate(ReferenceBase(now), suffix)
    ensures forall s :: |existing| + 1 <= s < suffix ==> Candidate(ReferenceBase(now), s) in existing
  {
    var base := ReferenceBase(now);
    var n := |existing| + 1;
    candidate := Candidate(base, n);
    ghost var tried: set<string> := {};
    while candidate in existing
      invariant n >= |existing| + 1 && candidate == Candidate(base, n)
      invariant forall s :: |existing| + 1 <= s < n ==> Candidate(base, s) in existing
      invariant tried <= existing
      invariant forall s :: s >= n ==> Candidate(base, s) !in tried
      decreases existing - tried
    {
      FreshCandidatesStayUntried(base, n, tried);
      tried := tried + {candidate};
      assert forall s :: |existing| + 1 <= s < n + 1 ==> Candidate(base, s) in existing;
      n := n + 1;
      candidate := Candidate(base, n);
    }
    suffix := n;
  }

  // -------------------------------------------------------- procuring entity

  /** Why no procuring entity could be chosen. */
  datatype EntityError = EntityNotFound | NoEntityLinked

  /** The entity of the first active link of `userId`, in table order. */
  function FirstActiveLink(userId: nat, links: seq<EntityLink>): (r: Option<nat>)
    ensures r.None? <==> forall i :: 0 <= i < |links| ==> !(links[i].userId == userId && links[i].active)
    ensures r.Some? ==> exists i :: 0 <= i < |links| && links[i] == EntityLink(userId, r.value, true)
                          && forall j :: 0 <= j < i ==> !(links[j].userId == userId && links[j].active)
  {
    if links == [] then None
    else if links[0].userId == userId && links[0].active then Some(links[0].entityId)
    else
      var r := FirstActiveLink(userId, links[1..]);
      if r.Some? then
        var i :| 0 <= i < |links[1..]| && links[1..][i] == EntityLink(userId, r.value, true)
                 && forall j :: 0 <= j < i ==> !(links[1..][j].userId == userId && links[1..][j].active);
        assert links[i + 1] == EntityLink(userId, r.value, true);
        r
      else r
  }

  /** `_resolve_procuring_entity`: an explicit (non-zero) id must name an
      existing entity; otherwise the user's first active link decides. */
  function ResolveProcuringEntity(userId: nat, explicitId: Option<nat>, db: Store): (r: Result<nat, EntityError>)
    ensures explicitId.Some? && explicitId.value != 0 ==>
              r == (if explicitId.value in db.entities then Ok(explicitId.value) else Err(EntityNotFound))
    ensures (explicitId.None? || explicitId.value == 0) ==>
              (r.Err? <==> FirstActiveLink(userId, db.links).None?) &&
              (r.Ok? ==> r.value == FirstActiveLink(userId, db.links).value)
    ensures r.Err? ==> r.error == EntityNotFound || r.error == NoEntityLinked
  {
    if explicitId.Some? && explicitId.value != 0 then
      if explicitId.value in db.entities then Ok(explicitId.value) else Err(EntityNotFound)
    else
      match FirstActiveLink(userId, db.links)
      case None => Err(NoEntityLinked)
      case Some(e) => Ok(e)
  }

  // ------------------------------------------------------------------ create

  /** Why `create` refuses. */
  datatype CreateError = AuthenticationRequired | NoEntity(why: EntityError)

  /** A created tender with the entity it belongs to. */
  datatype Created = Created(tender: Tender, entityId: nat)

  /** `TenderCreateSerializer.create` on a validated request: the requester
      must be signed in; the entity is resolved; a blank reference is
      replaced by a generated one; the tender starts as a draft in
      preparation, published (dated) now. */
  method Create(input: TenderInput, user: Option<nat>, db: Store, now: int, clock: DateTime)
    returns (r: Result<Created, CreateError>)
    ensures user.None? ==> r == Err(AuthenticationRequired)
    ensures user.Some? ==>
              (r.Err? <==> ResolveProcuringEntity(user.value, input.procuringEntity, db).Err?)
    ensures r.Ok? ==>
              && r.value.entityId == ResolveProcuringEntity(user.value, input.procuringEntity, db).value
              && r.value.tender.status == TDraft
              && r.value.tender.stage == Preparation
              && r.value.tender.publicationDate == now
              && r.value.tender.closingDate == input.closingDate
              && (input.referenceNumber != [] ==> r.value.tender.referenceNumber == input.referenceNumber)
              && (input.referenceNumber == [] ==> r.value.tender.referenceNumber !in db.references
                                                  && StartsWith(r.value.tender.referenceNumber, ReferenceBase(clock) + "-"))
  {
    if user.None? {
      return Err(AuthenticationRequired);
    }
    var entity := ResolveProcuringEntity(user.value, input.procuringEntity, db);
    if entity.Err? {
      return Err(NoEntity(entity.error));
    }
    var reference := input.referenceNumber;
    if reference == [] {
      ghost var suffix;
      reference, suffix := GenerateReferenceNumber(clock, db.references);
    }
    r := Ok(Created(Tender(reference, TDraft, Preparation, now, input.closingDate), entity.value));
  }

  // ------------------------------------------------------- status transitions

  /** The requested status: one of the six, or any other text. */
  datatype StatusValue = Known(status: TenderStatus) | Unknown(text: string)

  datatype StatusError = InvalidStatusValue | InvalidTransition

  /** The transition relation the update check consults: the successors of
      each status (a status missing from the map has none). */
  type TransitionMap = map<TenderStatus, set<TenderStatus>>

  predicate Allowed(tm: TransitionMap, from: TenderStatus, to: TenderStatus)
  {
    from in tm && to in tm[from]
  }

  /** `TenderUpdateSerializer.validate_status`: without an instance anything
      passes; keeping the current status passes; otherwise the value must be
      a known status reachable in one step of the transition map. */
  function ValidateStatus(current: Option<TenderStatus>, value: StatusValue, tm: TransitionMap)
    : (r: Result<StatusValue, StatusError>)
    ensures r.Ok? ==> r.value == value
    ensures r.Ok? <==> current.None? || value == Known(current.value)
                       || (value.Known? && Allowed(tm, current.value, value.status))
    ensures current.Some? && value.Unknown? ==> r == Err(InvalidStatusValue)
  {
    if current.None? then Ok(value)
    else if value == Known(current.value) then Ok(value)
    else if value.Unknown? then Err(InvalidStatusValue)
    else if !Allowed(tm, current.value, value.status) then Err(InvalidTransition)
    else Ok(value)
  }

  /** The statuses a tender goes through when the requests are applied in
      turn, a refused request leaving the status as it was. */
  function StatusTrace(current: TenderStatus, requests: seq<TenderStatus>, tm: TransitionMap): (trace: seq<TenderStatus>)
    ensures |trace| == |requests|
    decreases |requests|
  {
    if requests == [] then []
    else
      var next := if ValidateStatus(Some(current), Known(requests[0]), tm).Ok? then requests[0] else current;
      [next] + StatusTrace(next, requests[1..], tm)
  }

  /** Every step either keeps the status or follows the transition map. */
  ghost predicate Walk(tm: TransitionMap, statuses: seq<TenderStatus>)
  {
    forall i :: 0 < i < |statuses| ==> statuses[i] == statuses[i - 1] || Allowed(tm, statuses[i - 1], statuses[i])
  }

  /** However many updates are requested, the status only ever moves along
      the transition map. */
  lemma {:induction false} UpdatesFollowTransitions(current: TenderStatus, requests: seq<TenderStatus>, tm: TransitionMap)
    ensures Walk(tm, [current] + StatusTrace(current, requests, tm))
    decreases |requests|
  {
    if requests != [] {
      var next := if ValidateStatus(Some(current), Known(requests[0]), tm).Ok? then requests[0] else current;
      UpdatesFollowTransitions(next, requests[1..], tm);
      var rest := [next] + StatusTrace(next, requests[1..], tm);
      assert [current] + StatusTrace(current, requests, tm) == [current] + rest;
    }
  }
}
