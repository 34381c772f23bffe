/** The create-tender form (frontend/src/components/CreateTenderForm.jsx):
    its validation, the document-requirement rows, and the payload sent to
    the server. Parsing (`parseFloat`, `parseInt`, `new Date`) and the clock
    are parameters: a parser maps an input's text to its value, or None
    where JavaScript gives NaN or an invalid date. */
module CreateTenderForm {
  import opened Common

  /** The inputs the form holds, as text where the input is text. */
  datatype TenderForm = TenderForm(
    title: string,
    description: string,
    category: string,
    subcategory: string,
    procuringEntity: string,
    procurementMethod: string,
    estimatedValue: string,
    bidValidityPeriod: string,
    closingDate: string,
    openingDate: string,
    securityRequired: bool,
    securityAmount: string,
    securityType: string,
    currency: string,
    minimumRequirements: string,
    technicalSpecifications: string,
    evaluationCriteria: string,
    termsConditions: string,
    allowVariantBids: bool,
    allowElectronicSubmission: bool,
    autoExtendOnAmendment: bool)

  /** A document-requirement row; `maxFileSize` is in megabytes. */
  datatype DocRequirement = DocRequirement(id: int, name: string, fileType: string, isMandatory: bool, maxFileSize: real)

  /** The parsers the form relies on. `fractionDigits(v)` is the number of
      characters after the '.' of `v.toString()`, 0 when it has none (as for
      `1e-7`, which JavaScript writes in exponent form). */
  datatype Parsers = Parsers(
    number: string -> Option<real>,
    integer: string -> Option<int>,
    date: string -> Option<int>,
    fractionDigits: real -> nat)

  /** `newErrors` of the form-level checks: one slot per key, None where
      the key is not set. */
  datatype FieldMessages = FieldMessages(
    title: Option<string>,
    description: Option<string>,
    category: Option<string>,
    procuringEntity: Option<string>,
    procurementMethod: Option<string>,
    closingDate: Option<string>,
    openingDate: Option<string>,
    estimatedValue: Option<string>,
    bidValidityPeriod: Option<string>,
    securityAmount: Option<string>,
    securityType: Option<string>)

  /** The keys `doc_req_<index>_file_type` and `doc_req_<index>_name` of one
      requirement row. */
  datatype RowMessages = RowMessages(fileType: Option<string>, name: Option<string>)

  const NoMessages := FieldMessages(None, None, None, None, None, None, None, None, None, None, None)

  /** No key is set. */
  predicate Empty(m: FieldMessages) { m == NoMessages }

  // ----- the conditions validateForm checks -----

  const TitleLimit: nat := 500
  const DocNameLimit: nat := 200

  predicate TitleBad(f: TenderForm) { !NonBlank(f.title) || |Trim(f.title)| > TitleLimit }

  /** The closing date is missing, or parses to a time not after now; an
      unparseable date compares false with everything. */
  predicate ClosingBad(f: TenderForm, p: Parsers, now: int)
  {
    f.closingDate == "" || (p.date(f.closingDate).Some? && p.date(f.closingDate).value <= now)
  }

  /** An opening date is checked only beside a closing date, and must be
      strictly before it. */
  predicate OpeningBad(f: TenderForm, p: Parsers)
  {
    f.closingDate != "" && f.openingDate != "" &&
    p.date(f.openingDate).Some? && p.date(f.closingDate).Some? &&
    p.date(f.openingDate).value >= p.date(f.closingDate).value
  }

  /** The value's text form shows at most two digits after the point. */
  predicate TwoDecimals(v: real, p: Parsers) { p.fractionDigits(v) <= 2 }

  /** A given estimated value must parse to a positive number whose text
      form shows at most two decimals. */
  predicate EstimatedValueBad(f: TenderForm, p: Parsers)
  {
    f.estimatedValue != "" &&
    (p.number(f.estimatedValue).None? || p.number(f.estimatedValue).value <= 0.0 || !TwoDecimals(p.number(f.estimatedValue).value, p))
  }

  /** `parseInt(period) < 1`; text that does not parse passes. */
  predicate ValidityBad(f: TenderForm, p: Parsers)
  {
    f.bidValidityPeriod != "" && p.integer(f.bidValidityPeriod).Some? && p.integer(f.bidValidityPeriod).value < 1
  }

  /** With security required, a missing amount or one that parses to a
      non-positive number; text that does not parse passes. */
  predicate SecurityAmountBad(f: TenderForm, p: Parsers)
  {
    f.securityRequired &&
    (f.securityAmount == "" || (p.number(f.securityAmount).Some? && p.number(f.securityAmount).value <= 0.0))
  }

  predicate SecurityTypeBad(f: TenderForm) { f.securityRequired && f.securityType == "" }

  /** A named row without a file type. */
  predicate FileTypeMissing(r: DocRequirement) { NonBlank(r.name) && r.fileType == "" }

  /** A named row whose name is too long, or a typed row without a name. */
  predicate NameBad(r: DocRequirement)
  {
    (NonBlank(r.name) && |Trim(r.name)| > DocNameLimit) || (r.fileType != "" && !NonBlank(r.name))
  }

  /** A row that raises no error. */
  predicate RowOk(r: DocRequirement) { !FileTypeMissing(r) && !NameBad(r) }

  /** No form-level check fails. */
  predicate FieldsOk(f: TenderForm, p: Parsers, now: int)
  {
    !TitleBad(f) && NonBlank(f.description) && f.category != "" && f.procuringEntity != ""
    && f.procurementMethod != "" && !ClosingBad(f, p, now) && !OpeningBad(f, p)
    && !EstimatedValueBad(f, p) && !ValidityBad(f, p) && !SecurityAmountBad(f, p) && !SecurityTypeBad(f)
  }

  /** The required-field checks; an over-long title is reported only when
      the title is not blank. */
  method RequiredChecks(f: TenderForm)
    returns (title: Option<string>, description: Option<string>, category: Option<string>,
             procuringEntity: Option<string>, procurementMethod: Option<string>)
    ensures title.Some? <==> TitleBad(f)
    ensures description.Some? <==> !NonBlank(f.description)
    ensures category.Some? <==> f.category == ""
    ensures procuringEntity.Some? <==> f.procuringEntity == ""
    ensures procurementMethod.Some? <==> f.procurementMethod == ""
  {
    title, description, category, procuringEntity, procurementMethod := None, None, None, None, None;
    if !NonBlank(f.title) {
      title := Some("Title is required");
    } else if |Trim(f.title)| > TitleLimit {
      title := Some("Title cannot exceed 500 characters");
    }
    if !NonBlank(f.description) {
      description := Some("Description is required");
    }
    if f.category == "" {
      category := Some("Category is required");
    }
    if f.procuringEntity == "" {
      procuringEntity := Some("Procuring entity is required");
    }
    if f.procurementMethod == "" {
      procurementMethod := Some("Procurement method is required");
    }
  }

  /** The date checks; the opening date is compared only when a closing
      date is given. */
  method DateChecks(f: TenderForm, p: Parsers, now: int) returns (closingDate: Option<string>, openingDate: Option<string>)
    ensures closingDate.Some? <==> ClosingBad(f, p, now)
    ensures openingDate.Some? <==> OpeningBad(f, p)
  {
    closingDate, openingDate := None, None;
    if f.closingDate == "" {
      closingDate := Some("Closing date is required");
    } else {
      var closing := p.date(f.closingDate);
      if closing.Some? && closing.value <= now {
        closingDate := Some("Closing date must be in the future");
      }
      if f.openingDate != "" {
        var opening := p.date(f.openingDate);
        if opening.Some? && closing.Some? && opening.value >= closing.value {
          openingDate := Some("Opening date must be before closing date");
        }
      }
    }
  }

  /** The numeric checks; the decimal-places message replaces the
      positivity one. */
  method NumberChecks(f: TenderForm, p: Parsers) returns (estimatedValue: Option<string>, bidValidityPeriod: Option<string>)
    ensures estimatedValue.Some? <==> EstimatedValueBad(f, p)
    ensures bidValidityPeriod.Some? <==> ValidityBad(f, p)
  {
    estimatedValue, bidValidityPeriod := None, None;
    if f.estimatedValue != "" {
      var value := p.number(f.estimatedValue);
      if value.None? || value.value <= 0.0 {
        estimatedValue := Some("Estimated value must be a positive number");
      }
      if value.Some? && !TwoDecimals(value.value, p) {
        estimatedValue := Some("Estimated value can have maximum 2 decimal places");
      }
    }
    if f.bidValidityPeriod != "" {
      var period := p.integer(f.bidValidityPeriod);
      if period.Some? && period.value < 1 {
        bidValidityPeriod := Some("Bid validity period must be at least 1 day");
      }
    }
  }

  /** The security checks, run only when security is required. */
  method SecurityChecks(f: TenderForm, p: Parsers) returns (securityAmount: Option<string>, securityType: Option<string>)
    ensures securityAmount.Some? <==> SecurityAmountBad(f, p)
    ensures securityType.Some? <==> SecurityTypeBad(f)
  {
    securityAmount, securityType := None, None;
    if f.securityRequired {
      var amount := p.number(f.securityAmount);
      if f.securityAmount == "" || (amount.Some? && amount.value <= 0.0) {
        securityAmount := Some("Security amount is required and must be greater than 0");
      }
      if f.securityType == "" {
        securityType := Some("Security type is required when security is required");
      }
    }
  }

  /** The form-level checks of `validateForm`, in the source's order. */
  method FieldErrors(f: TenderForm, p: Parsers, now: int) returns (m: FieldMessages)
    ensures m.title.Some? <==> TitleBad(f)
    ensures m.description.Some? <==> !NonBlank(f.description)
    ensures m.category.Some? <==> f.category == ""
    ensures m.procuringEntity.Some? <==> f.procuringEntity == ""
    ensures m.procurementMethod.Some? <==> f.procurementMethod == ""
    ensures m.closingDate.Some? <==> ClosingBad(f, p, now)
    ensures m.openingDate.Some? <==> OpeningBad(f, p)
    ensures m.estimatedValue.Some? <==> EstimatedValueBad(f, p)
    ensures m.bidValidityPeriod.Some? <==> ValidityBad(f, p)
    ensures m.securityAmount.Some? <==> SecurityAmountBad(f, p)
    ensures m.securityType.Some? <==> SecurityTypeBad(f)
    ensures Empty(m) <==> FieldsOk(f, p, now)
  {
    var title, description, category, procuringEntity, procurementMethod := RequiredChecks(f);
    var closingDate, openingDate := DateChecks(f, p, now);
    var estimatedValue, bidValidityPeriod := NumberChecks(f, p);
    var securityAmount, securityType := SecurityChecks(f, p);
    m := FieldMessages(title, description, category, procuringEntity, procurementMethod,
                       closingDate, openingDate, estimatedValue, bidValidityPeriod, securityAmount, securityType);
  }

  /** Row messages `m` report exactly the failures of row `r`. */
  predicate RowReports(m: RowMessages, r: DocRequirement)
  {
    (m.fileType.Some? <==> FileTypeMissing(r)) && (m.name.Some? <==> NameBad(r))
  }

  /** Every row passes its checks. */
  predicate RowsOk(reqs: seq<DocRequirement>) { forall i :: 0 <= i < |reqs| ==> RowOk(reqs[i]) }

  /** A row that sets no key. */
  const Clean := RowMessages(None, None)

  /** The rows set no key exactly when every row passes. */
  lemma CleanRows(rows: seq<RowMessages>, reqs: seq<DocRequirement>)
    requires |rows| == |reqs|
    requires forall i :: 0 <= i < |reqs| ==> RowReports(rows[i], reqs[i])
    ensures (forall i :: 0 <= i < |rows| ==> rows[i] == Clean) <==> RowsOk(reqs)
  {
    if forall i :: 0 <= i < |rows| ==> rows[i] == Clean {
      forall i | 0 <= i < |reqs| ensures RowOk(reqs[i]) {
        assert RowReports(rows[i], reqs[i]);
      }
    }
    if RowsOk(reqs) {
      forall i | 0 <= i < |rows| ensures rows[i] == Clean {
        assert RowReports(rows[i], reqs[i]) && RowOk(reqs[i]);
      }
    }
  }

  /** One requirement row's checks. */
  method RowErrors(r: DocRequirement) returns (m: RowMessages)
    ensures RowReports(m, r)
  {
    m := RowMessages(None, None);
    if NonBlank(r.name) {
      if r.fileType == "" {
        m := m.(fileType := Some("File type is required"));
      }
      if |Trim(r.name)| > DocNameLimit {
        m := m.(name := Some("Document name cannot exceed 200 characters"));
      }
    }
    if r.fileType != "" && !NonBlank(r.name) {
      m := m.(name := Some("Document name is required"));
    }
  }

  /** `validateForm`: the form-level checks, then one pass over the
      requirement rows; valid exactly when no key was set. */
  method ValidateForm(f: TenderForm, reqs: seq<DocRequirement>, p: Parsers, now: int)
    returns (fields: FieldMessages, rows: seq<RowMessages>, valid: bool)
    ensures Empty(fields) <==> FieldsOk(f, p, now)
    ensures |rows| == |reqs|
    ensures forall i :: 0 <= i < |reqs| ==> RowReports(rows[i], reqs[i])
    ensures valid <==> FieldsOk(f, p, now) && RowsOk(reqs)
  {
    fields := FieldErrors(f, p, now);
    var rowsOk;
    rows, rowsOk := RowsErrors(reqs);
    valid := Empty(fields) && rowsOk;
  }

  /** The pass over the requirement rows: one set of messages per row, and
      whether every row came out clean. */
  method RowsErrors(reqs: seq<DocRequirement>) returns (rows: seq<RowMessages>, rowsOk: bool)
    ensures |rows| == |reqs|
    ensures forall i :: 0 <= i < |reqs| ==> RowReports(rows[i], reqs[i])
    ensures rowsOk <==> RowsOk(reqs)
  {
    rows := [];
    rowsOk := true;
    for i := 0 to |reqs|
      invariant |rows| == i
      invariant forall j :: 0 <= j < i ==> RowReports(rows[j], reqs[j])
      invariant rowsOk <==> forall j :: 0 <= j < i ==> rows[j] == Clean
    {
      var m := RowErrors(reqs[i]);
      rows := rows + [m];
      rowsOk := rowsOk && m == Clean;
    }
    CleanRows(rows, reqs);
  }

  // ----- the requirement rows -----

  /** `addDocumentRequirement`: an empty, optional 10 MB row; `newId`
      stands for `Date.now()`. */
  function AddDocumentRequirement(reqs: seq<DocRequirement>, newId: int): (r: seq<DocRequirement>)
    ensures r == reqs + [DocRequirement(newId, "", "", false, 10.0)]
    ensures RowOk(r[|r| - 1])
  {
    reqs + [DocRequirement(newId, "", "", false, 10.0)]
  }

  /** `removeDocumentRequirement`: every row with that id goes, the rest
      stay in order. */
  function RemoveDocumentRequirement(reqs: seq<DocRequirement>, id: int): (r: seq<DocRequirement>)
    ensures forall x :: x in r <==> x in reqs && x.id != id
    ensures IsSubsequence(r, reqs)
  {
    FilterIsSubsequence(reqs, (x: DocRequirement) => x.id != id);
    Filter(reqs, (x: DocRequirement) => x.id != id)
  }

  /** An edit of one field of a row. */
  datatype RowEdit = SetName(name: string) | SetFileType(fileType: string) | SetMandatory(b: bool) | SetMaxSize(mb: real)

  function ApplyEdit(r: DocRequirement, e: RowEdit): DocRequirement
  {
    match e
    case SetName(n) => r.(name := n)
    case SetFileType(t) => r.(fileType := t)
    case SetMandatory(b) => r.(isMandatory := b)
    case SetMaxSize(mb) => r.(maxFileSize := mb)
  }

  /** `updateDocumentRequirement`: the rows with that id get the edit, every
      other row and the order stay. */
  function UpdateDocumentRequirement(reqs: seq<DocRequirement>, id: int, e: RowEdit): (r: seq<DocRequirement>)
    ensures |r| == |reqs|
    ensures forall i :: 0 <= i < |reqs| ==> r[i].id == reqs[i].id
    ensures forall i :: 0 <= i < |reqs| && reqs[i].id != id ==> r[i] == reqs[i]
    ensures forall i :: 0 <= i < |reqs| && reqs[i].id == id ==> r[i] == ApplyEdit(reqs[i], e)
  {
    seq(|reqs|, i requires 0 <= i < |reqs| => if reqs[i].id == id then ApplyEdit(reqs[i], e) else reqs[i])
  }

  // ----- the payload -----

  /** One entry of `upload_document_requirements`. */
  datatype UploadRequirement = UploadRequirement(name: string, fileType: string, maxFileSize: real, mandatory: bool)

  const BytesPerMegabyte: real := 1048576.0

  /** The rows with a name, trimmed, with the size in bytes. */
  function UploadRequirements(reqs: seq<DocRequirement>): (out: seq<UploadRequirement>)
    ensures |out| <= |reqs|
    ensures forall u :: u in out ==> u.name != ""
  {
    if reqs == [] then []
    else
      var r := reqs[0];
      (if NonBlank(r.name) then [UploadRequirement(Trim(r.name), r.fileType, r.maxFileSize * 1024.0 * 1024.0, r.isMandatory)] else [])
      + UploadRequirements(reqs[1..])
  }

  predicate Named(r: DocRequirement) { NonBlank(r.name) }

  /** One entry per named row. */
  lemma {:induction false} UploadRequirementsCount(reqs: seq<DocRequirement>)
    ensures |UploadRequirements(reqs)| == Count(reqs, Named)
  {
    if reqs != [] {
      UploadRequirementsCount(reqs[1..]);
    }
  }

  /** Every entry is a named row's trimmed name with its size converted
      from megabytes to bytes. */
  lemma {:induction false} UploadRequirementsFromRows(reqs: seq<DocRequirement>)
    ensures forall u :: u in UploadRequirements(reqs) ==>
              exists r :: r in reqs && Named(r) && u.name == Trim(r.name) && u.fileType == r.fileType
                          && u.maxFileSize == r.maxFileSize * BytesPerMegabyte
  {
    if reqs != [] {
      UploadRequirementsFromRows(reqs[1..]);
      forall u | u in UploadRequirements(reqs)
        ensures exists r :: r in reqs && Named(r) && u.name == Trim(r.name) && u.fileType == r.fileType
                            && u.maxFileSize == r.maxFileSize * BytesPerMegabyte
      {
        if u !in UploadRequirements(reqs[1..]) {
          assert reqs[0] in reqs;
        } else {
          var r :| r in reqs[1..] && Named(r) && u.name == Trim(r.name) && u.fileType == r.fileType
                   && u.maxFileSize == r.maxFileSize * BytesPerMegabyte;
          assert r in reqs;
        }
      }
    }
  }

  /** After a passing validation every entry sent has a file type and a
      name within the limit. */
  lemma ValidRowsUpload(reqs: seq<DocRequirement>)
    requires RowsOk(reqs)
    ensures forall u :: u in UploadRequirements(reqs) ==> u.fileType != "" && |u.name| <= DocNameLimit
  {
    UploadRequirementsFromRows(reqs);
    forall u | u in UploadRequirements(reqs) ensures u.fileType != "" && |u.name| <= DocNameLimit {
      var r :| r in reqs && Named(r) && u.name == Trim(r.name) && u.fileType == r.fileType
               && u.maxFileSize == r.maxFileSize * BytesPerMegabyte;
      var i :| 0 <= i < |reqs| && reqs[i] == r;
      assert RowOk(reqs[i]);
    }
  }

  /** The tender part of the payload (dates as parsed times; a number
      JavaScript parses to NaN is sent as null). */
  datatype TenderPayload = TenderPayload(
    title: string,
    description: string,
    category: Option<int>,
    subcategory: Option<int>,
    procuringEntity: Option<int>,
    procurementMethod: string,
    currency: string,
    estimatedValue: Option<real>,
    bidValidityPeriod: Option<int>,
    closingDate: Option<int>,
    openingDate: Option<int>,
    minimumRequirements: string,
    technicalSpecifications: string,
    evaluationCriteria: string,
    termsConditions: string,
    securityRequired: bool,
    securityAmount: Option<real>,
    securityType: Option<string>,
    allowVariantBids: bool,
    allowElectronicSubmission: bool,
    autoExtendOnAmendment: bool,
    status: string)

  /** A given date that does not parse: `toISOString` throws. */
  datatype PayloadError = InvalidDate

  /** An optional number: null for empty text, and for text JavaScript
      parses to NaN, since `JSON.stringify(NaN)` is `null`. */
  function OptionalNumber(text: string, p: Parsers): (v: Option<real>)
    ensures text == "" ==> v.None?
  {
    if text == "" then None else p.number(text)
  }

  /** An optional date: null for empty text; a given date that does not
      parse makes the whole payload fail. */
  function OptionalDate(text: string, p: Parsers): Result<Option<int>, PayloadError>
  {
    if text == "" then Ok(None)
    else if p.date(text).None? then Err(InvalidDate)
    else Ok(Some(p.date(text).value))
  }

  /** `tenderData`: trimmed texts, the ids and numbers parsed, empty
      optional inputs as null, a draft status, the settings as set, and the
      security amount and type only when security is required. */
  function BuildTenderPayload(f: TenderForm, p: Parsers): (r: Result<TenderPayload, PayloadError>)
    ensures r.Err? <==> (f.closingDate != "" && p.date(f.closingDate).None?)
                        || (f.openingDate != "" && p.date(f.openingDate).None?)
    ensures r.Ok? ==> r.value.status == "draft" && r.value.title == Trim(f.title)
    ensures r.Ok? ==> (r.value.securityType.Some? <==> f.securityRequired)
    ensures r.Ok? && !f.securityRequired ==> r.value.securityAmount.None?
    ensures r.Ok? && f.securityRequired && f.securityAmount != "" ==> r.value.securityAmount == p.number(f.securityAmount)
  {
    var closing := OptionalDate(f.closingDate, p);
    var opening := OptionalDate(f.openingDate, p);
    if closing.Err? || opening.Err? then Err(InvalidDate)
    else
      Ok(TenderPayload(
        title := Trim(f.title),
        description := Trim(f.description),
        category := p.integer(f.category),
        subcategory := if f.subcategory != "" then p.integer(f.subcategory) else None,
        procuringEntity := p.integer(f.procuringEntity),
        procurementMethod := f.procurementMethod,
        currency := f.currency,
        estimatedValue := OptionalNumber(f.estimatedValue, p),
        bidValidityPeriod := p.integer(f.bidValidityPeriod),
        closingDate := closing.value,
        openingDate := opening.value,
        minimumRequirements := Trim(f.minimumRequirements),
        technicalSpecifications := Trim(f.technicalSpecifications),
        evaluationCriteria := Trim(f.evaluationCriteria),
        termsConditions := Trim(f.termsConditions),
        securityRequired := f.securityRequired,
        securityAmount := if f.securityRequired then OptionalNumber(f.securityAmount, p) else None,
        securityType := if f.securityRequired then Some(f.securityType) else None,
        allowVariantBids := f.allowVariantBids,
        allowElectronicSubmission := f.allowElectronicSubmission,
        autoExtendOnAmendment := f.autoExtendOnAmendment,
        status := "draft"))
  }

  /** The texts of the payload: the title, description and the four
      requirement texts trimmed, the method and currency as selected. */
  lemma PayloadTexts(f: TenderForm, p: Parsers)
    requires BuildTenderPayload(f, p).Ok?
    ensures var t := BuildTenderPayload(f, p).value;
            && t.title == Trim(f.title) && t.description == Trim(f.description)
            && t.minimumRequirements == Trim(f.minimumRequirements)
            && t.technicalSpecifications == Trim(f.technicalSpecifications)
            && t.evaluationCriteria == Trim(f.evaluationCriteria)
            && t.termsConditions == Trim(f.termsConditions)
            && t.procurementMethod == f.procurementMethod && t.currency == f.currency
  {
  }

  /** The numbers and dates of the payload: the ids and the validity period
      as `parseInt` reads them, an empty subcategory, estimated value or date
      as null, a given one as parsed. */
  lemma PayloadNumbers(f: TenderForm, p: Parsers)
    requires BuildTenderPayload(f, p).Ok?
    ensures var t := BuildTenderPayload(f, p).value;
            && t.category == p.integer(f.category) && t.procuringEntity == p.integer(f.procuringEntity)
            && t.subcategory == (if f.subcategory == "" then None else p.integer(f.subcategory))
            && t.estimatedValue == OptionalNumber(f.estimatedValue, p)
            && t.bidValidityPeriod == p.integer(f.bidValidityPeriod)
            && t.closingDate == (if f.closingDate == "" then None else p.date(f.closingDate))
            && t.openingDate == (if f.openingDate == "" then None else p.date(f.openingDate))
  {
  }

  /** The switches of the payload are sent as set. */
  lemma PayloadSettings(f: TenderForm, p: Parsers)
    requires BuildTenderPayload(f, p).Ok?
    ensures var t := BuildTenderPayload(f, p).value;
            && t.securityRequired == f.securityRequired
            && t.allowVariantBids == f.allowVariantBids
            && t.allowElectronicSubmission == f.allowElectronicSubmission
            && t.autoExtendOnAmendment == f.autoExtendOnAmendment
  {
  }

  /** A form that passed validation has a closing date, so its payload
      carries one whenever that date parses; and when security is required
      the amount sent is the positive amount entered or null for text that
      does not parse. */
  lemma ValidFormPayload(f: TenderForm, p: Parsers, now: int)
    requires FieldsOk(f, p, now)
    requires p.date(f.closingDate).Some? && (f.openingDate == "" || p.date(f.openingDate).Some?)
    ensures BuildTenderPayload(f, p).Ok?
    ensures BuildTenderPayload(f, p).value.closingDate == p.date(f.closingDate)
    ensures p.date(f.closingDate).value > now
    ensures f.securityRequired ==>
              var a := BuildTenderPayload(f, p).value.securityAmount;
              a.None? || a.value > 0.0
    ensures |BuildTenderPayload(f, p).value.title| <= TitleLimit
  {
  }
}
