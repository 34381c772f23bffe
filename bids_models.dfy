/** Records of the bids application (backend/bids/models.py): bids, their
    items, evaluations and per-criterion scores, with the field rules and
    uniqueness constraints the database enforces. */
module BidModels {
  import opened Common

  /** The seven values of `Bid.status`. */
  datatype BidStatus = Draft | Submitted | Withdrawn | Disqualified | Qualified | Winning | Losing

  /** A score field of `Bid` or `BidEvaluation` passes its validators: unset, or in [0, 100]. */
  predicate ScoreInRange(x: Option<real>)
  {
    x.None? || (0.0 <= x.value <= 100.0)
  }

  /** The lifecycle part of a bid: its status and when it was submitted. */
  datatype BidState = BidState(status: BidStatus, submittedAt: Option<int>)

  /** A submitted bid carries its submission instant. */
  predicate Consistent(s: BidState)
  {
    s.status == Submitted ==> s.submittedAt.Some?
  }

  /** A bid as stored: the fields the workflows read and write. */
  class Bid {
    var supplierId: nat
    var bidReference: string
    var totalBidAmount: real
    var status: BidStatus
    var submittedAt: Option<int>
    var technicalScore: Option<real>
    var financialScore: Option<real>
    var totalScore: Option<real>
    var ranking: Option<nat>

    constructor (supplier: nat, amount: real)
      ensures supplierId == supplier && totalBidAmount == amount
      ensures bidReference == [] && status == Draft && submittedAt == None
      ensures technicalScore == None && financialScore == None && totalScore == None && ranking == None
    {
      supplierId := supplier;
      bidReference := [];
      totalBidAmount := amount;
      status := Draft;
      submittedAt := None;
      technicalScore := None;
      financialScore := None;
      totalScore := None;
      ranking := None;
    }

    function State(): BidState
      reads this
    {
      BidState(status, submittedAt)
    }

    /** Every score field is within its validator's range. */
    predicate ScoresValid()
      reads this
    {
      ScoreInRange(technicalScore) && ScoreInRange(financialScore) && ScoreInRange(totalScore)
    }

    /** `Bid.save`: an empty reference is replaced by the generated one; a
        reference already present is kept. */
    method Save(tenderReference: string)
      modifies this`bidReference
      ensures old(bidReference) != [] ==> bidReference == old(bidReference)
      ensures old(bidReference) == [] ==> bidReference == GeneratedReference(tenderReference, supplierId)
    {
      if bidReference == [] {
        bidReference := GeneratedReference(tenderReference, supplierId);
      }
    }
  }

  /** `BID-<tender reference>-<supplier id>`. */
  function GeneratedReference(tenderReference: string, supplierId: nat): (r: string)
    ensures StartsWith(r, "BID-")
    ensures EndsWith(r, "-" + Digits(supplierId))
  {
    "BID-" + tenderReference + "-" + Digits(supplierId)
  }

  /** Generated references never collide: the supplier id after the last `-`
      has no `-` in it, so the reference determines both the tender reference
      and the supplier. */
  lemma GeneratedReferenceInjective(t1: string, s1: nat, t2: string, s2: nat)
    requires GeneratedReference(t1, s1) == GeneratedReference(t2, s2)
    ensures t1 == t2 && s1 == s2
  {
    var r := GeneratedReference(t1, s1);
    var d1, d2 := Digits(s1), Digits(s2);
    assert r == "BID-" + t1 + "-" + d1;
    assert r == "BID-" + t2 + "-" + d2;
    assert r[|r| - |d1| - 1] == '-' && r[|r| - |d2| - 1] == '-';
    assert r[|r| - |d1|..] == d1 && r[|r| - |d2|..] == d2;
    assert |d1| == |d2|;
    assert d1 == d2;
    DigitsInjective(s1, s2);
    assert "BID-" + t1 == r[..|r| - |d1| - 1] == "BID-" + t2;
    assert t1 == ("BID-" + t1)[4..];
    assert t2 == ("BID-" + t2)[4..];
  }

  /** A line item of a bid. */
  class BidItem {
    var quantity: real
    var unitPrice: real
    var totalPrice: real

    constructor (q: real, u: real, t: real)
      ensures quantity == q && unitPrice == u && totalPrice == t
    {
      quantity, unitPrice, totalPrice := q, u, t;
    }

    /** `BidItem.save`: the stored total is always quantity × unit price,
        whatever total was supplied. */
    method Save()
      modifies this`totalPrice
      ensures totalPrice == quantity * unitPrice
    {
      totalPrice := quantity * unitPrice;
    }
  }

  /** One evaluator's assessment of a bid. */
  class BidEvaluation {
    var technicalCompliance: bool
    var technicalScore: Option<real>
    var financialScore: Option<real>
    var overallScore: Option<real>

    constructor ()
      ensures !technicalCompliance && technicalScore == None && financialScore == None && overallScore == None
    {
      technicalCompliance := false;
      technicalScore, financialScore, overallScore := None, None, None;
    }

    predicate ScoresValid()
      reads this
    {
      ScoreInRange(technicalScore) && ScoreInRange(financialScore) && ScoreInRange(overallScore)
    }
  }

  /** Why a per-criterion score is refused. */
  datatype ScoreError = NegativeScore | TenderMismatch | AboveMaxPoints

  /** Full validation of a `BidCriterionScore`: the field validator (score ≥ 0)
      runs first, then `clean` checks that criterion and evaluation belong to
      the same tender and that the score does not exceed the criterion's
      `max_points`. */
  function CheckCriterionScore(bidTender: nat, criterionTender: nat, score: real, maxPoints: real): (r: Option<ScoreError>)
    ensures r == None <==> bidTender == criterionTender && 0.0 <= score <= maxPoints
    ensures bidTender != criterionTender && score >= 0.0 ==> r == Some(TenderMismatch)
  {
    if score < 0.0 then Some(NegativeScore)
    else if bidTender != criterionTender then Some(TenderMismatch)
    else if score > maxPoints then Some(AboveMaxPoints)
    else None
  }

  /** Keys of the uniqueness constraints: one bid per (tender, supplier), one
      evaluation per (bid, evaluator). */
  datatype BidKey = BidKey(tenderId: nat, supplierId: nat)
  datatype EvaluationKey = EvaluationKey(bidId: nat, evaluatorId: nat)

  /** A contract's two one-to-one links. */
  datatype ContractLink = ContractLink(tenderId: nat, winningBidId: nat)

  /** The contracts table: no tender and no winning bid appears twice. */
  class ContractTable {
    var rows: seq<ContractLink>

    ghost predicate Valid()
      reads this
    {
      forall i, j :: 0 <= i < j < |rows| ==>
        rows[i].tenderId != rows[j].tenderId && rows[i].winningBidId != rows[j].winningBidId
    }

    constructor ()
      ensures Valid() && rows == []
    {
      rows := [];
    }

    /** Creating a contract is refused when its tender or its winning bid
        already has one. */
    method Insert(c: ContractLink) returns (ok: bool)
      requires Valid()
      modifies this
      ensures Valid()
      ensures ok == forall i :: 0 <= i < |old(rows)| ==>
                      old(rows)[i].tenderId != c.tenderId && old(rows)[i].winningBidId != c.winningBidId
      ensures rows == if ok then old(rows) + [c] else old(rows)
    {
      ok := forall i :: 0 <= i < |rows| ==> rows[i].tenderId != c.tenderId && rows[i].winningBidId != c.winningBidId;
      if ok {
        rows := rows + [c];
      }
    }
  }
}
