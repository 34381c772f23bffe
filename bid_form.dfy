/** The bid submission form (frontend/src/components/BidForm.jsx): item
    lines and their totals, VAT, the per-requirement uploads, and the
    validation run before saving or submitting. Number parsing
    (`parseFloat`) is a parameter: it maps an input's text to the number it
    starts with, or None where JavaScript gives NaN. */
module BidForm {
  import opened Common

  /** One item line. The inputs hold text; `totalPrice` is a number. Other
      columns (brand, model, origin, ...) are kept by name. */
  datatype Item = Item(
    itemNumber: int,
    description: string,
    quantity: string,
    unitOfMeasure: string,
    unitPrice: string,
    totalPrice: real,
    others: map<string, string>)

  /** The field an input edits. */
  datatype ItemField = Description | Quantity | UnitOfMeasure | UnitPrice | OtherField(name: string)

  /** `parseFloat(x) || 0`: NaN and 0 both read as 0. */
  function NumberOr0(text: string, parse: string -> Option<real>): real
  {
    parse(text).GetOr(0.0)
  }

  /** `calculateItemTotal`. */
  function ItemTotal(quantity: string, unitPrice: string, parse: string -> Option<real>): (t: real)
    ensures parse(quantity).None? || parse(unitPrice).None? ==> t == 0.0
  {
    NumberOr0(quantity, parse) * NumberOr0(unitPrice, parse)
  }

  /** The extra columns a new line starts with, all empty. */
  const BlankOthers: map<string, string> :=
    map["specifications" := "", "brand" := "", "model" := "", "countryOfOrigin" := ""]

  /** A fresh item line numbered `n`: every text column empty, total 0. */
  function BlankItem(n: int): Item
  {
    Item(n, "", "", "", "", 0.0, BlankOthers)
  }

  function SetField(item: Item, field: ItemField, value: string): Item
  {
    match field
    case Description => item.(description := value)
    case Quantity => item.(quantity := value)
    case UnitOfMeasure => item.(unitOfMeasure := value)
    case UnitPrice => item.(unitPrice := value)
    case OtherField(name) => item.(others := item.others[name := value])
  }

  /** `updateItem`: the item at `index` gets the new value, and its total is
      recomputed exactly when a quantity or a unit price changed; every other
      item is untouched. */
  function UpdateItem(items: seq<Item>, index: nat, field: ItemField, value: string,
                      parse: string -> Option<real>): (r: seq<Item>)
    requires index < |items|
    ensures |r| == |items|
    ensures forall j :: 0 <= j < |items| && j != index ==> r[j] == items[j]
    ensures r[index].itemNumber == items[index].itemNumber
    ensures r[index].quantity == if field == Quantity then value else items[index].quantity
    ensures r[index].unitPrice == if field == UnitPrice then value else items[index].unitPrice
    ensures r[index].description == if field == Description then value else items[index].description
    ensures r[index].unitOfMeasure == if field == UnitOfMeasure then value else items[index].unitOfMeasure
    ensures r[index].others == if field.OtherField? then items[index].others[field.name := value] else items[index].others
    ensures field.Quantity? || field.UnitPrice? ==>
              r[index].totalPrice == ItemTotal(r[index].quantity, r[index].unitPrice, parse)
    ensures !(field.Quantity? || field.UnitPrice?) ==> r[index].totalPrice == items[index].totalPrice
  {
    var edited := SetField(items[index], field, value);
    var priced := if field.Quantity? || field.UnitPrice?
                  then edited.(totalPrice := ItemTotal(edited.quantity, edited.unitPrice, parse))
                  else edited;
    items[index := priced]
  }

  /** `addItem`: a blank line numbered one past the current count. */
  function AddItem(items: seq<Item>): (r: seq<Item>)
    ensures |r| == |items| + 1 && r[..|items|] == items
    ensures r[|items|] == BlankItem(|items| + 1)
  {
    items + [BlankItem(|items| + 1)]
  }

  /** `removeItem`: the last remaining line cannot be removed; otherwise the
      line at `index` goes and the others keep their numbers. */
  function RemoveItem(items: seq<Item>, index: int): (r: seq<Item>)
    ensures |items| <= 1 ==> r == items
    ensures |items| > 1 && 0 <= index < |items| ==> r == items[..index] + items[index + 1..]
    ensures !(0 <= index < |items|) ==> r == items
    ensures |r| >= 1 || items == []
  {
    if |items| > 1 && 0 <= index < |items| then items[..index] + items[index + 1..] else items
  }

  /** Removing the first of two lines and adding one gives two lines that
      carry the same number: numbers are not reassigned. */
  lemma NumbersCanRepeat()
    ensures var items := [BlankItem(1), BlankItem(2)];
            var after := AddItem(RemoveItem(items, 0));
            |after| == 2 && after[0].itemNumber == after[1].itemNumber == 2
  {
  }

  // ----- totals -----

  function TotalPrices(items: seq<Item>): (ps: seq<real>)
    ensures |ps| == |items|
    ensures forall i :: 0 <= i < |items| ==> ps[i] == items[i].totalPrice
  {
    seq(|items|, i requires 0 <= i < |items| => items[i].totalPrice)
  }

  /** The VAT rate applied on top of an exclusive price. */
  const VatRate: real := 0.16

  /** The two numbers `calculateTotalBidAmount` stores. */
  datatype Totals = Totals(totalBidAmount: real, vatAmount: real)

  /** `calculateTotalBidAmount`: the subtotal of the line totals, plus 16%
      VAT unless the prices are VAT inclusive. */
  function TotalBidAmount(items: seq<Item>, vatInclusive: bool): (t: Totals)
    ensures vatInclusive ==> t.vatAmount == 0.0 && t.totalBidAmount == Sum(TotalPrices(items))
    ensures !vatInclusive ==> t.vatAmount == VatRate * Sum(TotalPrices(items))
    ensures t.totalBidAmount == Sum(TotalPrices(items)) + t.vatAmount
  {
    var subtotal := Sum(TotalPrices(items));
    var vat := if vatInclusive then 0.0 else subtotal * VatRate;
    Totals(subtotal + vat, vat)
  }

  /** Exclusive prices are grossed up by exactly 1.16, and with non-negative
      line totals the grand total never falls below the subtotal. */
  lemma TotalWithVat(items: seq<Item>, vatInclusive: bool)
    requires forall i :: 0 <= i < |items| ==> items[i].totalPrice >= 0.0
    ensures !vatInclusive ==> TotalBidAmount(items, vatInclusive).totalBidAmount == 1.16 * Sum(TotalPrices(items))
    ensures TotalBidAmount(items, vatInclusive).totalBidAmount >= Sum(TotalPrices(items)) >= 0.0
  {
    SumNonNegative(TotalPrices(items));
  }

  /** Changing one line moves the subtotal by exactly that line's change. */
  lemma {:induction false} SubtotalAfterUpdate(items: seq<Item>, index: nat, item: Item)
    requires index < |items|
    ensures Sum(TotalPrices(items[index := item])) ==
            Sum(TotalPrices(items)) - items[index].totalPrice + item.totalPrice
  {
    var ps := TotalPrices(items);
    var qs := TotalPrices(items[index := item]);
    assert ps == ps[..index] + [ps[index]] + ps[index + 1..];
    assert qs == ps[..index] + [item.totalPrice] + ps[index + 1..];
    SumAppend(ps[..index] + [ps[index]], ps[index + 1..]);
    SumAppend(ps[..index], [ps[index]]);
    SumAppend(ps[..index] + [item.totalPrice], ps[index + 1..]);
    SumAppend(ps[..index], [item.totalPrice]);
    assert Sum([ps[index]]) == ps[index] by { assert [ps[index]][..0] == []; }
    assert Sum([item.totalPrice]) == item.totalPrice by { assert [item.totalPrice][..0] == []; }
  }

  // ----- documents -----

  /** An attached document; `requirementId` links it to an upload
      requirement of the tender. */
  datatype Document = Document(id: real, name: string, docType: string, size: nat, requirementId: Option<nat>)

  /** A tender's upload requirement; an unset or zero maximum size means
      no limit. */
  datatype Requirement = Requirement(
    id: nat,
    name: string,
    fileType: Option<string>,
    documentType: Option<string>,
    mandatory: bool,
    maxFileSize: Option<nat>)

  /** A chosen file. */
  datatype File = File(name: string, size: nat)

  /** `req.file_type || req.document_type || 'other'`. */
  function RequirementType(req: Requirement): string
  {
    if req.fileType.Some? && req.fileType.value != "" then req.fileType.value
    else if req.documentType.Some? && req.documentType.value != "" then req.documentType.value
    else "other"
  }

  /** The documents linked to requirement `reqId`. */
  function LinkedTo(docs: seq<Document>, reqId: nat): seq<Document>
  {
    Filter(docs, (d: Document) => d.requirementId == Some(reqId))
  }

  /** `handleRequirementUpload`: without a file nothing changes; otherwise
      the document for this requirement replaces any earlier one and goes
      last, and every document of other requirements stays, in order.
      `newId` stands for `Date.now() + Math.random()`. */
  function RequirementUpload(docs: seq<Document>, req: Requirement, file: Option<File>, newId: real)
    : (r: seq<Document>)
    ensures file.None? ==> r == docs
    ensures file.Some? ==> |r| >= 1 && r[|r| - 1] == Document(newId, file.value.name, RequirementType(req), file.value.size, Some(req.id))
    ensures file.Some? ==> LinkedTo(r, req.id) == [r[|r| - 1]]
    ensures file.Some? ==> r[..|r| - 1] == Filter(docs, (d: Document) => d.requirementId != Some(req.id))
  {
    if file.None? then docs
    else
      var doc := Document(newId, file.value.name, RequirementType(req), file.value.size, Some(req.id));
      var kept := Filter(docs, (d: Document) => d.requirementId != Some(req.id));
      var r := kept + [doc];
      FilterAppend(kept, [doc], (d: Document) => d.requirementId == Some(req.id));
      NoneLinked(kept, req.id);
      assert [doc][1..] == [];
      assert r[..|r| - 1] == kept;
      r
  }

  lemma {:induction false} NoneLinked(docs: seq<Document>, reqId: nat)
    requires forall d :: d in docs ==> d.requirementId != Some(reqId)
    ensures LinkedTo(docs, reqId) == []
  {
    if docs != [] {
      NoneLinked(docs[1..], reqId);
    }
  }

  /** At most one document per requirement. */
  predicate OnePerRequirement(docs: seq<Document>)
  {
    forall i, j :: 0 <= i < j < |docs| && docs[i].requirementId.Some? ==> docs[i].requirementId != docs[j].requirementId
  }

  /** Uploads keep at most one document per requirement. */
  lemma UploadKeepsOnePerRequirement(docs: seq<Document>, req: Requirement, file: Option<File>, newId: real)
    requires OnePerRequirement(docs)
    ensures OnePerRequirement(RequirementUpload(docs, req, file, newId))
  {
    if file.Some? {
      var r := RequirementUpload(docs, req, file, newId);
      var kept := r[..|r| - 1];
      FilterIsSubsequence(docs, (d: Document) => d.requirementId != Some(req.id));
      SubsequencePairs(kept, docs);
      forall i, j | 0 <= i < j < |r| && r[i].requirementId.Some?
        ensures r[i].requirementId != r[j].requirementId
      {
        assert r[i] in kept;
      }
    }
  }

  /** Elements of a subsequence keep their relative order in the original,
      so a property of ordered pairs carries over. */
  lemma {:induction false} SubsequencePairs(r: seq<Document>, s: seq<Document>)
    requires IsSubsequence(r, s) && OnePerRequirement(s)
    ensures OnePerRequirement(r)
    decreases |s|
  {
    if s != [] {
      if r != [] && r[0] == s[0] && IsSubsequence(r[1..], s[1..]) {
        SubsequencePairs(r[1..], s[1..]);
        SubsequenceMembers(r[1..], s[1..]);
        forall i, j | 0 <= i < j < |r| && r[i].requirementId.Some?
          ensures r[i].requirementId != r[j].requirementId
        {
          if i == 0 {
            assert r[j] == r[1..][j - 1];
            assert r[1..][j - 1] in r[1..];
            var k :| 0 <= k < |s[1..]| && s[1..][k] == r[j];
            assert s[k + 1] == r[j];
          } else {
            assert r[i] == r[1..][i - 1] && r[j] == r[1..][j - 1];
          }
        }
      } else {
        SubsequencePairs(r, s[1..]);
      }
    }
  }

  lemma {:induction false} SubsequenceMembers<T>(r: seq<T>, s: seq<T>)
    requires IsSubsequence(r, s)
    ensures forall x :: x in r ==> exists k :: 0 <= k < |s| && s[k] == x
    decreases |s|
  {
    if s != [] {
      if r != [] && r[0] == s[0] && IsSubsequence(r[1..], s[1..]) {
        SubsequenceMembers(r[1..], s[1..]);
        forall x | x in r ensures exists k :: 0 <= k < |s| && s[k] == x {
          if x != r[0] {
            assert x in r[1..];
            var k :| 0 <= k < |s[1..]| && s[1..][k] == x;
            assert s[k + 1] == x;
          } else {
            assert s[0] == x;
          }
        }
      } else {
        SubsequenceMembers(r, s[1..]);
        forall x | x in r ensures exists k :: 0 <= k < |s| && s[k] == x {
          var k :| 0 <= k < |s[1..]| && s[1..][k] == x;
          assert s[k + 1] == x;
        }
      }
    }
  }

  /** `removeRequirementDocument`: drops the requirement's document and
      nothing else. */
  function RemoveRequirementDocument(docs: seq<Document>, reqId: nat): (r: seq<Document>)
    ensures LinkedTo(r, reqId) == []
    ensures forall d :: d in docs && d.requirementId != Some(reqId) ==> d in r
    ensures IsSubsequence(r, docs)
  {
    var r := Filter(docs, (d: Document) => d.requirementId != Some(reqId));
    NoneLinked(r, reqId);
    FilterIsSubsequence(docs, (d: Document) => d.requirementId != Some(reqId));
    r
  }

  // ----- validation -----

  /** The form fields `validateForm` looks at. */
  datatype BidData = BidData(
    totalBidAmount: Option<real>,
    bidValidityDays: Option<int>,
    items: seq<Item>,
    bidSecurityAmount: string)

  /** The tender fields it looks at; `uploadDocuments` is None when the
      tender carries no array. */
  datatype Tender = Tender(securityRequired: bool, uploadDocuments: Option<seq<Requirement>>)

  /** A document answers a requirement when linked to it or of its file
      type. */
  predicate Answers(d: Document, r: Requirement)
  {
    d.requirementId == Some(r.id) || r.fileType == Some(d.docType)
  }

  /** `documents.find(...)` for a requirement. */
  function FirstAnswer(docs: seq<Document>, r: Requirement): (d: Option<Document>)
    ensures d.None? <==> forall x :: x in docs ==> !Answers(x, r)
    ensures d.Some? ==> d.value in docs && Answers(d.value, r)
  {
    if docs == [] then None
    else if Answers(docs[0], r) then Some(docs[0])
    else FirstAnswer(docs[1..], r)
  }

  /** The names of the mandatory requirements nothing answers. */
  function MissingMandatory(reqs: seq<Requirement>, docs: seq<Document>): (names: seq<string>)
    ensures |names| <= |reqs|
    ensures names == [] <==> forall r :: r in reqs && r.mandatory ==> FirstAnswer(docs, r).Some?
  {
    if reqs == [] then []
    else
      var r := reqs[0];
      (if r.mandatory && FirstAnswer(docs, r).None? then [r.name] else []) + MissingMandatory(reqs[1..], docs)
  }

  /** The first answering document is larger than the requirement's limit. */
  predicate TooLarge(docs: seq<Document>, r: Requirement)
  {
    var d := FirstAnswer(docs, r);
    d.Some? && r.maxFileSize.Some? && r.maxFileSize.value != 0 && d.value.size > r.maxFileSize.value
  }

  /** The names of the requirements whose document is too large. */
  function Oversize(reqs: seq<Requirement>, docs: seq<Document>): (names: seq<string>)
    ensures names == [] <==> forall r :: r in reqs ==> !TooLarge(docs, r)
  {
    if reqs == [] then []
    else (if TooLarge(docs, reqs[0]) then [reqs[0].name] else []) + Oversize(reqs[1..], docs)
  }

  predicate ItemIncomplete(item: Item)
  {
    item.description == "" || item.quantity == "" || item.unitPrice == ""
  }

  function Requirements(t: Tender): seq<Requirement>
  {
    t.uploadDocuments.GetOr([])
  }

  predicate AmountMissing(data: BidData)
  {
    data.totalBidAmount.None? || data.totalBidAmount.value <= 0.0
  }

  predicate ValidityTooShort(data: BidData)
  {
    data.bidValidityDays.None? || data.bidValidityDays.value < 30
  }

  predicate SomeItemIncomplete(items: seq<Item>)
  {
    exists i :: 0 <= i < |items| && ItemIncomplete(items[i])
  }

  predicate SecurityMissing(data: BidData, tender: Tender)
  {
    tender.securityRequired && data.bidSecurityAmount == ""
  }

  /** The documents message: the missing mandatory uploads, then the
      oversize files, or None when there is nothing to report. */
  function DocumentsMessage(missing: seq<string>, oversize: seq<string>): (m: Option<string>)
    ensures m.None? <==> missing == [] && oversize == []
  {
    var first := if missing != [] then "Please upload all mandatory documents: " + Join(missing, ", ") else "";
    if oversize == [] then (if missing == [] then None else Some(first))
    else
      var prefix := if missing != [] then first + " " else "";
      Some(prefix + "Some files exceed their maximum size: " + Join(oversize, ", "))
  }

  /** The messages of the failed checks. */
  const AmountRequired := "Total bid amount is required"
  const ValidityRequired := "Bid validity must be at least 30 days"
  const ItemsIncomplete := "All items must have description, quantity, and unit price"
  const SecurityRequired := "Bid security is required for this tender"

  /** `validateForm`: one error per failed check, the documents message
      listing the missing mandatory uploads and then the oversize files; the
      form is valid exactly when no check failed. */
  method ValidateForm(data: BidData, tender: Tender, docs: seq<Document>)
    returns (errors: map<string, string>, valid: bool)
    ensures "totalBidAmount" in errors <==> AmountMissing(data)
    ensures "bidValidityDays" in errors <==> ValidityTooShort(data)
    ensures "items" in errors <==> SomeItemIncomplete(data.items)
    ensures "bidSecurityAmount" in errors <==> SecurityMissing(data, tender)
    ensures "documents" in errors <==>
              MissingMandatory(Requirements(tender), docs) != [] || Oversize(Requirements(tender), docs) != []
    ensures errors.Keys <= {"totalBidAmount", "bidValidityDays", "items", "bidSecurityAmount", "documents"}
    ensures valid <==> !AmountMissing(data) && !ValidityTooShort(data) && !SomeItemIncomplete(data.items)
                       && !SecurityMissing(data, tender)
                       && MissingMandatory(Requirements(tender), docs) == [] && Oversize(Requirements(tender), docs) == []
  {
    var reqs := Requirements(tender);
    var message := DocumentsMessage(MissingMandatory(reqs, docs), Oversize(reqs, docs));
    errors := map[];
    errors := Flag(errors, AmountMissing(data), "totalBidAmount", AmountRequired);
    errors := Flag(errors, ValidityTooShort(data), "bidValidityDays", ValidityRequired);
    errors := Flag(errors, SomeItemIncomplete(data.items), "items", ItemsIncomplete);
    errors := Flag(errors, SecurityMissing(data, tender), "bidSecurityAmount", SecurityRequired);
    errors := Flag(errors, message.Some?, "documents", message.GetOr(""));
    valid := errors == map[];
    if !valid {
      assert errors.Keys != {};
    }
  }

  /** `errs.key = text` when the check failed. */
  function Flag(errs: map<string, string>, failed: bool, key: string, text: string): (r: map<string, string>)
    ensures r.Keys == if failed then errs.Keys + {key} else errs.Keys
  {
    if failed then errs[key := text] else errs
  }

  /** Uploading a file for a requirement answers it, so it is no longer
      reported missing. */
  lemma UploadAnswers(docs: seq<Document>, req: Requirement, file: File, newId: real)
    ensures FirstAnswer(RequirementUpload(docs, req, Some(file), newId), req).Some?
  {
    var r := RequirementUpload(docs, req, Some(file), newId);
    assert Answers(r[|r| - 1], req);
    assert r[|r| - 1] in r;
  }
}
