/** The budget-line create/update serializer
    (backend/budgets/serializers.py): its field validators, its cross-field
    check, and the creator stamp of `create`. */
module BudgetSerializers {
  import opened Common

  /** The fields of a create or update request that carry a validator;
      None when not sent. The texts are the raw values sent. */
  datatype LineInput = LineInput(
    serialNumber: Option<string>,
    budgetLine: Option<string>,
    section: Option<string>,
    itemDescription: Option<string>,
    unit: Option<string>,
    approved: Option<real>,
    quantityToOrder: Option<real>,
    estimatedUnitCost: Option<real>)

  /** The stored values an update starts from. */
  datatype LineValues = LineValues(id: nat, serialNumber: string, approved: real, quantityToOrder: real)

  /** The serializer fields with a validator, named after the model fields
      `serial_number`, `budget_line`, `section`, `item_description`, `unit`,
      `approved_quantity_2025`, `quantity_to_order` and
      `estimated_unit_cost_usd`. */
  datatype Field =
    | SerialNumber | BudgetLineName | Section | ItemDescription | Unit
    | ApprovedQuantity | QuantityToOrder | EstimatedUnitCost

  /** `Required`, `Blank`, `TooLong` and `BelowMinimum` are the field errors
      the model serializer derives from the model fields (no default, no
      `blank=True`, `max_length`, `MinValueValidator(0)`); `SerialInUse` is
      `validate_serial_number`; the last two come from `validate`. */
  datatype LineError =
    | Required
    | Blank
    | TooLong
    | BelowMinimum
    | SerialInUse
    | QuantityExceedsApproved
    | NegativeUnitCost

  /** `serializer.errors`: at most one error per field. */
  type LineErrors = map<Field, LineError>

  const AllFields: set<Field> :=
    {SerialNumber, BudgetLineName, Section, ItemDescription, Unit, ApprovedQuantity, QuantityToOrder, EstimatedUnitCost}

  /** Fields without a default and without `blank=True`/`null=True`: required
      on create and on a full (PUT) update. */
  const RequiredFields: set<Field> := {SerialNumber, BudgetLineName, Section, ItemDescription, Unit, ApprovedQuantity}

  const TextFields: set<Field> := {SerialNumber, BudgetLineName, Section, ItemDescription, Unit}

  /** The decimal fields with `MinValueValidator(Decimal('0.00'))`. */
  const NumberFields: set<Field> := {ApprovedQuantity, QuantityToOrder, EstimatedUnitCost}

  /** The `max_length` of a text field; `item_description` is a `TextField`
      without one. */
  function MaxLength(f: Field): Option<nat>
  {
    match f
    case SerialNumber => Some(50)
    case BudgetLineName => Some(200)
    case Section => Some(200)
    case Unit => Some(100)
    case _ => None
  }

  function TextValue(input: LineInput, f: Field): Option<string>
  {
    match f
    case SerialNumber => input.serialNumber
    case BudgetLineName => input.budgetLine
    case Section => input.section
    case ItemDescription => input.itemDescription
    case Unit => input.unit
    case _ => None
  }

  function NumberValue(input: LineInput, f: Field): Option<real>
  {
    match f
    case ApprovedQuantity => input.approved
    case QuantityToOrder => input.quantityToOrder
    case EstimatedUnitCost => input.estimatedUnitCost
    case _ => None
  }

  /** Whether the request sent a value for the field. */
  predicate Sent(input: LineInput, f: Field)
  {
    if f in TextFields then TextValue(input, f).Some? else NumberValue(input, f).Some?
  }

  /** The validated data: the texts trimmed (`trim_whitespace`), the numbers
      as sent. The field checks run on these values. */
  function Cleaned(input: LineInput): (c: LineInput)
    ensures c.approved == input.approved && c.quantityToOrder == input.quantityToOrder
    ensures c.estimatedUnitCost == input.estimatedUnitCost
  {
    LineInput(TrimmedOf(input.serialNumber), TrimmedOf(input.budgetLine), TrimmedOf(input.section),
              TrimmedOf(input.itemDescription), TrimmedOf(input.unit),
              input.approved, input.quantityToOrder, input.estimatedUnitCost)
  }

  /** Cleaning keeps which fields were sent, and trims each text. */
  lemma CleanedFields(input: LineInput, f: Field)
    ensures Sent(Cleaned(input), f) <==> Sent(input, f)
    ensures TextValue(Cleaned(input), f) == TrimmedOf(TextValue(input, f))
    ensures NumberValue(Cleaned(input), f) == NumberValue(input, f)
  {
  }

  /** A (cleaned) text must be non-empty and within its maximum length. */
  predicate BlankText(input: LineInput, f: Field)
  {
    TextValue(input, f) == Some("")
  }

  predicate LongText(input: LineInput, f: Field)
  {
    && TextValue(input, f).Some? && MaxLength(f).Some?
    && |TextValue(input, f).value| > MaxLength(f).value
  }

  predicate NegativeNumber(input: LineInput, f: Field)
  {
    NumberValue(input, f).Some? && NumberValue(input, f).value < 0.0
  }

  /** `validate_serial_number`: the serial may not be used by another line;
      on update the line's own serial is not "another". `serials` maps line
      ids to their serial numbers. */
  predicate SerialTaken(serial: string, serials: map<nat, string>, instance: Option<LineValues>)
  {
    exists id :: id in serials && serials[id] == serial && (instance.None? || id != instance.value.id)
  }

  /** The (cleaned) serial passes its own field checks, so the uniqueness
      check runs on it. */
  predicate SerialWellFormed(input: LineInput)
  {
    input.serialNumber.Some? && !BlankText(input, SerialNumber) && !LongText(input, SerialNumber)
  }

  /** The error, if any, of one field of the cleaned input. */
  function FieldError(input: LineInput, f: Field, serials: map<nat, string>, instance: Option<LineValues>, partial: bool)
    : Option<LineError>
  {
    match f
    case SerialNumber =>
      var e := TextError(input.serialNumber, Some(50), partial);
      if e.None? && input.serialNumber.Some? && SerialTaken(input.serialNumber.value, serials, instance) then
        Some(SerialInUse)
      else e
    case BudgetLineName => TextError(input.budgetLine, Some(200), partial)
    case Section => TextError(input.section, Some(200), partial)
    case ItemDescription => TextError(input.itemDescription, None, partial)
    case Unit => TextError(input.unit, Some(100), partial)
    case ApprovedQuantity => NumberError(input.approved, true, partial)
    case QuantityToOrder => NumberError(input.quantityToOrder, false, partial)
    case EstimatedUnitCost => NumberError(input.estimatedUnitCost, false, partial)
  }

  /** The checks of a (cleaned) text field: sent unless partial, then not
      blank and within `maxLength`. */
  function TextError(v: Option<string>, maxLength: Option<nat>, partial: bool): Option<LineError>
  {
    if v.None? then (if !partial then Some(Required) else None)
    else if v.value == "" then Some(Blank)
    else if maxLength.Some? && |v.value| > maxLength.value then Some(TooLong)
    else None
  }

  /** The checks of a decimal field: sent unless optional or partial, then
      at least 0. */
  function NumberError(v: Option<real>, required: bool, partial: bool): Option<LineError>
  {
    if v.None? then (if required && !partial then Some(Required) else None)
    else if v.value < 0.0 then Some(BelowMinimum)
    else None
  }

  /** What each field error means: missing when required (a partial PATCH
      requires nothing), blank or too long for a text, below 0 for a
      decimal, and for a well-formed serial the uniqueness check; the errors
      of `validate` are never field errors. `validate_quantity_to_order`
      never sees a negative quantity, which the field's minimum has already
      refused. */
  lemma FieldErrorMeaning(input: LineInput, f: Field, serials: map<nat, string>, instance: Option<LineValues>, partial: bool)
    ensures FieldError(input, f, serials, instance, partial) == Some(Required) <==> !partial && f in RequiredFields && !Sent(input, f)
    ensures FieldError(input, f, serials, instance, partial) == Some(Blank) <==> f in TextFields && BlankText(input, f)
    ensures FieldError(input, f, serials, instance, partial) == Some(TooLong) <==> f in TextFields && LongText(input, f)
    ensures FieldError(input, f, serials, instance, partial) == Some(BelowMinimum) <==> f in NumberFields && NegativeNumber(input, f)
    ensures FieldError(input, f, serials, instance, partial) == Some(SerialInUse) <==>
              f == SerialNumber && SerialWellFormed(input) && SerialTaken(input.serialNumber.value, serials, instance)
    ensures FieldError(input, f, serials, instance, partial) != Some(QuantityExceedsApproved)
    ensures FieldError(input, f, serials, instance, partial) != Some(NegativeUnitCost)
  {
  }

  /** No field has an error. */
  predicate FieldsClean(input: LineInput, serials: map<nat, string>, instance: Option<LineValues>, partial: bool)
  {
    && FieldError(input, SerialNumber, serials, instance, partial).None?
    && FieldError(input, BudgetLineName, serials, instance, partial).None?
    && FieldError(input, Section, serials, instance, partial).None?
    && FieldError(input, ItemDescription, serials, instance, partial).None?
    && FieldError(input, Unit, serials, instance, partial).None?
    && FieldError(input, ApprovedQuantity, serials, instance, partial).None?
    && FieldError(input, QuantityToOrder, serials, instance, partial).None?
    && FieldError(input, EstimatedUnitCost, serials, instance, partial).None?
  }

  /** The field validators of `is_valid`, run on every field of the cleaned
      input and all collected under their field names. */
  function FieldErrors(input: LineInput, serials: map<nat, string>, instance: Option<LineValues>, partial: bool)
    : (errs: LineErrors)
    ensures forall f :: f in errs <==> f in AllFields && FieldError(input, f, serials, instance, partial).Some?
    ensures forall f :: f in errs ==> errs[f] == FieldError(input, f, serials, instance, partial).value
  {
    map f | f in AllFields && FieldError(input, f, serials, instance, partial).Some?
      :: FieldError(input, f, serials, instance, partial).value
  }

  /** No field error exactly when the collected field errors are empty. */
  lemma FieldsCleanExactly(input: LineInput, serials: map<nat, string>, instance: Option<LineValues>, partial: bool)
    ensures FieldsClean(input, serials, instance, partial) <==> FieldErrors(input, serials, instance, partial) == map[]
  {
    var errs := FieldErrors(input, serials, instance, partial);
    if FieldsClean(input, serials, instance, partial) {
      forall f | f in AllFields
        ensures FieldError(input, f, serials, instance, partial).None?
      {
      }
      assert errs.Keys == {};
    } else {
      var f :| f in AllFields && FieldError(input, f, serials, instance, partial).Some?;
      assert f in errs;
    }
  }

  /** The quantities the cross-field check compares: the sent value, else
      (on update) the stored one. */
  function EffectiveQuantities(input: LineInput, instance: Option<LineValues>): (q: (Option<real>, Option<real>))
    ensures input.quantityToOrder.Some? ==> q.0 == input.quantityToOrder
    ensures input.approved.Some? ==> q.1 == input.approved
    ensures instance.None? ==> q == (input.quantityToOrder, input.approved)
  {
    var toOrder := if input.quantityToOrder.None? && instance.Some? then Some(instance.value.quantityToOrder)
                   else input.quantityToOrder;
    var approved := if input.approved.None? && instance.Some? then Some(instance.value.approved)
                    else input.approved;
    (toOrder, approved)
  }

  /** `if quantity_to_order and approved_quantity` (zero is falsy), then the
      comparison. */
  predicate OrdersTooMuch(q: (Option<real>, Option<real>))
  {
    q.0.Some? && q.1.Some? && q.0.value != 0.0 && q.1.value != 0.0 && q.0.value > q.1.value
  }

  /** `is_valid`: the field errors of the cleaned input first; only without
      them does `validate` run, which stops at its first failure: a
      (non-zero) quantity above a (non-zero) approved quantity, then a
      negative unit cost, each reported under its field. An accepted request
      yields the cleaned data. */
  function Validate(input: LineInput, serials: map<nat, string>, instance: Option<LineValues>, partial: bool)
    : (r: Result<LineInput, LineErrors>)
    ensures r.Ok? ==> r.value == Cleaned(input)
  {
    var c := Cleaned(input);
    if !FieldsClean(c, serials, instance, partial) then Err(FieldErrors(c, serials, instance, partial))
    else if OrdersTooMuch(EffectiveQuantities(input, instance)) then Err(map[QuantityToOrder := QuantityExceedsApproved])
    else if input.estimatedUnitCost.Some? && input.estimatedUnitCost.value != 0.0 && input.estimatedUnitCost.value < 0.0 then
      Err(map[EstimatedUnitCost := NegativeUnitCost])
    else Ok(c)
  }

  /** `is_valid` fails with the field errors whenever there are any; it
      accepts exactly when there are none and neither check of `validate`
      fails; every failure names at least one field. */
  lemma ValidateMeaning(input: LineInput, serials: map<nat, string>, instance: Option<LineValues>, partial: bool)
    ensures FieldErrors(Cleaned(input), serials, instance, partial) != map[] ==>
              Validate(input, serials, instance, partial) == Err(FieldErrors(Cleaned(input), serials, instance, partial))
    ensures Validate(input, serials, instance, partial).Ok? <==>
              && FieldErrors(Cleaned(input), serials, instance, partial) == map[]
              && !OrdersTooMuch(EffectiveQuantities(input, instance))
              && !(input.estimatedUnitCost.Some? && input.estimatedUnitCost.value < 0.0)
    ensures Validate(input, serials, instance, partial).Err? ==> Validate(input, serials, instance, partial).error != map[]
  {
    FieldsCleanExactly(Cleaned(input), serials, instance, partial);
  }

  /** Any field error stops validation, and is reported under its field. */
  lemma FieldErrorReported(input: LineInput, f: Field, serials: map<nat, string>, instance: Option<LineValues>, partial: bool)
    requires FieldError(Cleaned(input), f, serials, instance, partial).Some?
    ensures Validate(input, serials, instance, partial).Err?
    ensures f in Validate(input, serials, instance, partial).error
    ensures Validate(input, serials, instance, partial).error[f] == FieldError(Cleaned(input), f, serials, instance, partial).value
  {
    var c := Cleaned(input);
    assert f in AllFields;
    assert !FieldsClean(c, serials, instance, partial);
    var errs := FieldErrors(c, serials, instance, partial);
    assert Validate(input, serials, instance, partial) == Err(errs);
  }

  /** The unit-cost check of `validate` never fires: a negative unit cost is
      already a field error. */
  lemma UnitCostCheckUnreachable(input: LineInput, serials: map<nat, string>, instance: Option<LineValues>, partial: bool)
    ensures Validate(input, serials, instance, partial) != Err(map[EstimatedUnitCost := NegativeUnitCost])
    ensures input.estimatedUnitCost.Some? && input.estimatedUnitCost.value < 0.0 ==>
              && EstimatedUnitCost in Validate(input, serials, instance, partial).error
              && Validate(input, serials, instance, partial).error[EstimatedUnitCost] == BelowMinimum
  {
    var c := Cleaned(input);
    var r := Validate(input, serials, instance, partial);
    if input.estimatedUnitCost.Some? && input.estimatedUnitCost.value < 0.0 {
      assert FieldError(c, EstimatedUnitCost, serials, instance, partial) == Some(BelowMinimum);
      FieldErrorReported(input, EstimatedUnitCost, serials, instance, partial);
    } else if r.Err? && EstimatedUnitCost in r.error {
      assert r.error == FieldErrors(c, serials, instance, partial);
      assert r.error[EstimatedUnitCost] == FieldError(c, EstimatedUnitCost, serials, instance, partial).value;
    }
  }

  /** A line accepted on create was sent a serial number that, trimmed,
      passes its own field checks and is used by no stored line. */
  lemma AcceptedSerial(input: LineInput, serials: map<nat, string>)
    requires Validate(input, serials, None, false).Ok?
    ensures input.serialNumber.Some? && SerialWellFormed(Cleaned(input))
    ensures forall id :: id in serials ==> serials[id] != Trim(input.serialNumber.value)
  {
    if FieldError(Cleaned(input), SerialNumber, serials, None, false).Some? {
      FieldErrorReported(input, SerialNumber, serials, None, false);
    }
  }

  /** A line that passes validation on create has every required field,
      non-blank texts within their lengths once trimmed, a fresh serial, no
      negative quantity or cost, and orders no more than it was approved for
      (or has nothing approved; a missing quantity is the default 0). */
  lemma ValidatedCreateIsConsistent(input: LineInput, serials: map<nat, string>)
    requires Validate(input, serials, None, false).Ok?
    ensures forall f :: f in RequiredFields ==> Sent(input, f)
    ensures forall f :: f in TextFields ==> !BlankText(Cleaned(input), f) && !LongText(Cleaned(input), f)
    ensures input.serialNumber.Some? && forall id :: id in serials ==> serials[id] != Trim(input.serialNumber.value)
    ensures input.approved.Some? && input.approved.value >= 0.0
    ensures 0.0 <= input.quantityToOrder.GetOr(0.0) <= input.approved.value || input.approved.value == 0.0
    ensures input.estimatedUnitCost.Some? ==> input.estimatedUnitCost.value >= 0.0
  {
    var c := Cleaned(input);
    assert FieldsClean(c, serials, None, false);
    CleanFieldsMeaning(c, serials, None, false);
    assert c.serialNumber.Some? && c.budgetLine.Some? && c.section.Some? && c.itemDescription.Some? && c.unit.Some?;
    AcceptedSerial(input, serials);
  }

  /** What a clean (cleaned) input has, field by field. */
  lemma CleanFieldsMeaning(c: LineInput, serials: map<nat, string>, instance: Option<LineValues>, partial: bool)
    requires FieldsClean(c, serials, instance, partial)
    ensures forall f :: f in TextFields ==> !BlankText(c, f) && !LongText(c, f)
    ensures !partial ==> forall f :: f in RequiredFields ==> Sent(c, f)
    ensures forall f :: f in NumberFields ==> !NegativeNumber(c, f)
  {
    forall f | f in AllFields
      ensures FieldError(c, f, serials, instance, partial).None?
    {
    }
    forall f | f in AllFields
      ensures f in TextFields ==> !BlankText(c, f) && !LongText(c, f)
      ensures !partial && f in RequiredFields ==> Sent(c, f)
      ensures f in NumberFields ==> !NegativeNumber(c, f)
    {
      FieldErrorMeaning(c, f, serials, instance, partial);
    }
  }

  /** An empty create is refused with exactly the six required-field
      errors. */
  lemma EmptyCreateRefused(serials: map<nat, string>)
    ensures Validate(LineInput(None, None, None, None, None, None, None, None), serials, None, false)
            == Err(map[SerialNumber := Required, BudgetLineName := Required, Section := Required,
                       ItemDescription := Required, Unit := Required, ApprovedQuantity := Required])
  {
    var input := LineInput(None, None, None, None, None, None, None, None);
    assert Cleaned(input) == input;
    var errs := FieldErrors(input, serials, None, false);
    var want := map[SerialNumber := Required, BudgetLineName := Required, Section := Required,
                    ItemDescription := Required, Unit := Required, ApprovedQuantity := Required];
    forall f | f in AllFields
      ensures FieldError(input, f, serials, None, false) == (if f in RequiredFields then Some(Required) else None)
    {
    }
    assert errs.Keys == RequiredFields == want.Keys;
    assert forall f :: f in errs ==> errs[f] == Required == want[f];
    assert errs == want;
    assert FieldError(input, SerialNumber, serials, None, false).Some?;
  }

  /** An empty PATCH is accepted as long as the stored quantities are
      consistent. */
  lemma EmptyPatchAccepted(serials: map<nat, string>, line: LineValues)
    requires !OrdersTooMuch((Some(line.quantityToOrder), Some(line.approved)))
    ensures Validate(LineInput(None, None, None, None, None, None, None, None), serials, Some(line), true).Ok?
  {
    var input := LineInput(None, None, None, None, None, None, None, None);
    assert Cleaned(input) == input;
  }

  /** On update a line may keep its own serial number. */
  lemma OwnSerialAccepted(serials: map<nat, string>, line: LineValues)
    requires line.id in serials && serials[line.id] == line.serialNumber
    requires forall id :: id in serials && id != line.id ==> serials[id] != line.serialNumber
    ensures !SerialTaken(line.serialNumber, serials, Some(line))
    ensures SerialTaken(line.serialNumber, serials, None)
  {
  }

  /** `create`: the request user becomes the creator when there is a
      request; otherwise the sent value stands. */
  function CreatedBy(requestUser: Option<nat>, sent: Option<nat>): (r: Option<nat>)
    ensures requestUser.Some? ==> r == requestUser
    ensures requestUser.None? ==> r == sent
  {
    if requestUser.Some? then requestUser else sent
  }
}
