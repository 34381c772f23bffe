/** Budget records (backend/budgets/models.py): budget lines with their
    quantities and costs, procurement milestones, and the allocations of a
    line's approved quantity to tenders. Quantities and amounts are decimals,
    modelled as reals; dates are day numbers. */
module BudgetModels {
  import opened Common

  /** `BudgetLine.STATUS_CHOICES`; the column is free text, so any other
      value can be stored. */
  datatype LineStatus =
    | LineDraft | LineApproved | LineInProgress | LineCompleted | LineCancelled | LineOnHold
    | OtherLineStatus(text: string)

  /** `ProcurementTimeline.STAGE_CHOICES`. */
  datatype Stage =
    | ProjectStart | BidAdvertisement | BidReview | FaReview
    | ExecutiveApproval | ContractAward | ContractAcceptance | Delivery

  /** A budget line: the fields the workflows read and write. */
  class BudgetLine {
    var serialNumber: string
    var section: string
    var itemDescription: string
    var approved: real
    var quantityToOrder: real
    var estimatedUnitCost: Option<real>
    var estimatedTotalCost: Option<real>
    var actualAmount: Option<real>
    var status: LineStatus
    var createdBy: Option<nat>

    constructor (serial: string, approvedQuantity: real)
      ensures serialNumber == serial && approved == approvedQuantity && quantityToOrder == 0.0
      ensures estimatedUnitCost == None && estimatedTotalCost == None && actualAmount == None
      ensures status == LineDraft && createdBy == None && section == [] && itemDescription == []
    {
      serialNumber := serial;
      section := [];
      itemDescription := [];
      approved := approvedQuantity;
      quantityToOrder := 0.0;
      estimatedUnitCost := None;
      estimatedTotalCost := None;
      actualAmount := None;
      status := LineDraft;
      createdBy := None;
    }

    /** `BudgetLine.save`: with a (non-zero) unit cost and quantity to order,
        the estimated total becomes their product; otherwise it is left as
        entered. Nothing else changes. */
    method Save()
      modifies this`estimatedTotalCost
      ensures estimatedTotalCost == SavedEstimate(estimatedUnitCost, quantityToOrder, old(estimatedTotalCost))
    {
      if estimatedUnitCost.Some? && estimatedUnitCost.value != 0.0 && quantityToOrder != 0.0 {
        estimatedTotalCost := Some(estimatedUnitCost.value * quantityToOrder);
      }
    }
  }

  /** The estimated total after a save. */
  function SavedEstimate(unit: Option<real>, quantity: real, entered: Option<real>): Option<real>
  {
    if unit.Some? && unit.value != 0.0 && quantity != 0.0 then Some(unit.value * quantity) else entered
  }

  /** Saving is idempotent, a computed estimate is the cost of the whole
      quantity, and an entered estimate survives only when there is nothing
      to compute it from. */
  lemma SavedEstimateMeaning(unit: Option<real>, quantity: real, entered: Option<real>)
    ensures var e := SavedEstimate(unit, quantity, entered);
            SavedEstimate(unit, quantity, e) == e
    ensures unit.Some? && unit.value > 0.0 && quantity > 0.0 ==>
              SavedEstimate(unit, quantity, entered) == Some(unit.value * quantity)
              && SavedEstimate(unit, quantity, entered).value > 0.0
    ensures SavedEstimate(unit, quantity, entered) != entered ==> unit.Some? && unit.value != 0.0 && quantity != 0.0
  {
    if unit.Some? && unit.value > 0.0 && quantity > 0.0 {
      PositiveProduct(unit.value, quantity);
    }
  }

  lemma PositiveProduct(a: real, b: real)
    requires a > 0.0 && b > 0.0
    ensures a * b > 0.0
  {
  }

  /** `budget_utilization_percentage`: 0 without an estimate or an actual
      amount (None or zero), else actual/estimated × 100. */
  function Utilization(estimated: Option<real>, actual: Option<real>): (r: real)
    ensures estimated.None? || estimated.value == 0.0 || actual.None? || actual.value == 0.0 ==> r == 0.0
  {
    if estimated.None? || estimated.value == 0.0 then 0.0
    else if actual.None? || actual.value == 0.0 then 0.0
    else actual.value / estimated.value * 100.0
  }

  /** Spending within the estimate is a percentage; overspending is above
      100. */
  lemma UtilizationBounds(estimated: real, actual: real)
    requires estimated > 0.0 && actual >= 0.0
    ensures actual <= estimated ==> 0.0 <= Utilization(Some(estimated), Some(actual)) <= 100.0
    ensures actual > estimated ==> Utilization(Some(estimated), Some(actual)) > 100.0
  {
    if actual != 0.0 {
      var q := actual / estimated;
      assert q * estimated == actual;
      if actual <= estimated {
        QuotientRange(actual, estimated, 1.0);
      } else {
        assert (q - 1.0) * estimated == actual - estimated;
        assert q > 1.0;
      }
    }
  }

  /** `ProcurementTimeline.is_delayed`: not completed, planned, not yet
      done, and today is past the planned date. */
  function IsDelayed(completed: bool, planned: Option<int>, actual: Option<int>, today: int): (r: bool)
    ensures r <==> !completed && planned.Some? && actual.None? && today > planned.value
  {
    if completed then false
    else if planned.Some? && actual.None? then today > planned.value
    else false
  }

  /** A delay does not go away with time: only completing the milestone or
      recording its actual date clears it. */
  lemma DelayPersists(completed: bool, planned: Option<int>, actual: Option<int>, today: int, later: int)
    requires today <= later && IsDelayed(completed, planned, actual, today)
    ensures IsDelayed(completed, planned, actual, later)
    ensures !IsDelayed(true, planned, actual, later)
    ensures forall d :: !IsDelayed(completed, planned, Some(d), later)
  {
  }

  // -------------------------------------------------------------- allocations

  /** A `TenderBudgetAllocation` row of one budget line. */
  datatype Allocation = Allocation(id: nat, tenderId: nat, quantity: real)

  function Total(xs: seq<Allocation>): real
  {
    if xs == [] then 0.0 else xs[0].quantity + Total(xs[1..])
  }

  /** The allocated total of the rows other than `id` (`.exclude(pk=...)`). */
  function TotalExcept(xs: seq<Allocation>, id: nat): real
  {
    if xs == [] then 0.0
    else (if xs[0].id == id then 0.0 else xs[0].quantity) + TotalExcept(xs[1..], id)
  }

  ghost predicate DistinctIds(xs: seq<Allocation>)
  {
    forall i, j :: 0 <= i < j < |xs| ==> xs[i].id != xs[j].id
  }

  /** Saving row `a`: an existing row with its id is replaced in place, else
      it is added. */
  function Upsert(xs: seq<Allocation>, a: Allocation): (r: seq<Allocation>)
    ensures |r| == |xs| || |r| == |xs| + 1
    ensures forall b :: b in r ==> b == a || b in xs
  {
    if xs == [] then [a]
    else if xs[0].id == a.id then [a] + xs[1..]
    else [xs[0]] + Upsert(xs[1..], a)
  }

  lemma {:induction false} UpsertIds(xs: seq<Allocation>, a: Allocation)
    requires DistinctIds(xs)
    ensures DistinctIds(Upsert(xs, a))
    ensures forall b :: b in Upsert(xs, a) ==> b.id == a.id || exists c :: c in xs && c.id == b.id
    ensures a in Upsert(xs, a)
  {
    if xs != [] && xs[0].id != a.id {
      UpsertIds(xs[1..], a);
      var r := Upsert(xs, a);
      forall i, j | 0 <= i < j < |r| ensures r[i].id != r[j].id {
        if i == 0 {
          assert r[j] in Upsert(xs[1..], a);
          if r[j].id != a.id {
            var c :| c in xs[1..] && c.id == r[j].id;
            var k :| 0 <= k < |xs[1..]| && xs[1..][k] == c;
            assert xs[0].id != xs[k + 1].id;
          }
        }
      }
    }
  }

  /** With distinct ids, the total after saving `a` is the other rows' total
      plus `a`'s quantity. */
  lemma {:induction false} UpsertTotal(xs: seq<Allocation>, a: Allocation)
    requires DistinctIds(xs)
    ensures Total(Upsert(xs, a)) == TotalExcept(xs, a.id) + a.quantity
  {
    if xs == [] {
    } else if xs[0].id == a.id {
      assert Upsert(xs, a)[1..] == xs[1..];
      AbsentIdTotal(xs[1..], a.id);
    } else {
      assert DistinctIds(xs[1..]) by {
        forall i, j | 0 <= i < j < |xs[1..]| ensures xs[1..][i].id != xs[1..][j].id {
          assert xs[i + 1].id != xs[j + 1].id;
        }
      }
      UpsertTotal(xs[1..], a);
      assert Upsert(xs, a)[1..] == Upsert(xs[1..], a);
    }
  }

  /** Excluding an id that no row has excludes nothing. */
  lemma {:induction false} AbsentIdTotal(xs: seq<Allocation>, id: nat)
    requires forall b :: b in xs ==> b.id != id
    ensures TotalExcept(xs, id) == Total(xs)
  {
    if xs != [] {
      AbsentIdTotal(xs[1..], id);
    }
  }

  lemma {:induction false} ExceptAtMostTotal(xs: seq<Allocation>, id: nat)
    requires forall b :: b in xs ==> b.quantity >= 0.0
    ensures 0.0 <= TotalExcept(xs, id) <= Total(xs)
  {
    if xs != [] {
      ExceptAtMostTotal(xs[1..], id);
    }
  }

  /** Why an allocation was refused by `full_clean`. */
  datatype AllocationError = NegativeQuantity | ExceedsAvailable(available: real)

  /** The allocations drawn from one budget line. The approved quantity is
      that of the line, fixed while allocations are saved. */
  class AllocationLedger {
    const approved: real
    var allocations: seq<Allocation>

    /** No negative quantity, one row per id, and the allocated total within
        the approved quantity. */
    ghost predicate Valid()
      reads this
    {
      && approved >= 0.0
      && (forall b :: b in allocations ==> b.quantity >= 0.0)
      && DistinctIds(allocations)
      && Total(allocations) <= approved
    }

    constructor (approvedQuantity: real)
      requires approvedQuantity >= 0.0
      ensures Valid() && approved == approvedQuantity && allocations == []
    {
      approved := approvedQuantity;
      allocations := [];
    }

    /** `BudgetLine.available_quantity`: approved minus allocated. */
    function Available(): real
      reads this
    {
      approved - Total(allocations)
    }

    /** `TenderBudgetAllocation.save`: `full_clean` rejects a negative
        quantity and a (non-zero) quantity above what the line's other
        allocations leave; otherwise the row is stored. */
    method SaveAllocation(a: Allocation) returns (r: Result<Allocation, AllocationError>)
      requires Valid()
      modifies this`allocations
      ensures Valid()
      ensures a.quantity < 0.0 ==> r == Err(NegativeQuantity)
      ensures a.quantity >= 0.0 ==>
                (r.Ok? <==> a.quantity == 0.0 || a.quantity <= approved - TotalExcept(old(allocations), a.id))
      ensures r.Err? ==> allocations == old(allocations)
      ensures r.Ok? ==> r.value == a && allocations == Upsert(old(allocations), a)
    {
      if a.quantity < 0.0 {
        return Err(NegativeQuantity);
      }
      var available := approved - TotalExcept(allocations, a.id);
      if a.quantity != 0.0 && a.quantity > available {
        return Err(ExceedsAvailable(available));
      }
      ExceptAtMostTotal(allocations, a.id);
      UpsertTotal(allocations, a);
      UpsertIds(allocations, a);
      allocations := Upsert(allocations, a);
      r := Ok(a);
    }
  }

  /** While the ledger is valid, the available quantity is never negative
      and never above the approved quantity. */
  lemma AvailableWithinApproved(l: AllocationLedger)
    requires l.Valid()
    ensures 0.0 <= l.Available() <= l.approved
  {
    ExceptAtMostTotal(l.allocations, 0);
  }

  // ----------------------------------------------------- uniqueness constraints

  /** At most one milestone per (line, stage) and one amendment per (line,
      number): keys of `Common.UniqueTable`s. */
  datatype MilestoneKey = MilestoneKey(lineId: nat, stage: Stage)
  datatype AmendmentKey = AmendmentKey(lineId: nat, amendmentNumber: nat)
}
