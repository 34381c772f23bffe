/** The budget admin display helpers (backend/budgets/admin.py): the short
    description, the status badge colour, the availability colour, the
    milestone status indicator, and the creator/requester stamps. */
module BudgetAdmin {
  import opened Common
  import opened BudgetModels

  /** `item_description_short`: the description when at most 50 characters,
      else its first 50 and an ellipsis. */
  function ShortDescription(d: string): (r: string)
    ensures |d| <= 50 ==> r == d
    ensures |d| > 50 ==> |r| == 53 && StartsWith(r, d[..50]) && EndsWith(r, "...")
    ensures |r| <= 53
  {
    if |d| > 50 then d[..50] + "..." else d
  }

  /** Display colours. */
  datatype Colour = Gray | Green | Blue | DarkGreen | Red | Orange

  /** `status_badge`: one colour per status; any stored value outside the
      choices is gray, like a draft. */
  function StatusBadge(s: LineStatus): (c: Colour)
    ensures s.OtherLineStatus? ==> c == Gray
    ensures c == Gray <==> s == LineDraft || s.OtherLineStatus?
  {
    match s
    case LineDraft => Gray
    case LineApproved => Green
    case LineInProgress => Blue
    case LineCompleted => DarkGreen
    case LineCancelled => Red
    case LineOnHold => Orange
    case OtherLineStatus(_) => Gray
  }

  /** The six known statuses have six different colours except draft's gray,
      which is shared only with unknown values. */
  lemma BadgesDistinguishStatuses(a: LineStatus, b: LineStatus)
    requires !a.OtherLineStatus? && !b.OtherLineStatus? && a != b
    ensures StatusBadge(a) != StatusBadge(b)
  {
  }

  /** `available_quantity_display`: the available share of the approved
      quantity, 0 when nothing was approved. */
  function AvailablePercentage(available: real, total: real): (p: real)
    ensures total <= 0.0 ==> p == 0.0
  {
    if total > 0.0 then available / total * 100.0 else 0.0
  }

  /** Green above 50%, orange above 20%, red otherwise. */
  function AvailabilityColour(percentage: real): (c: Colour)
    ensures c == Green <==> percentage > 50.0
    ensures c == Orange <==> 20.0 < percentage <= 50.0
    ensures c == Red <==> percentage <= 20.0
  {
    if percentage > 50.0 then Green else if percentage > 20.0 then Orange else Red
  }

  /** For a valid ledger the percentage is within [0, 100]. */
  lemma AvailabilityDisplay(l: AllocationLedger)
    requires l.Valid() && l.approved > 0.0
    ensures 0.0 <= AvailablePercentage(l.Available(), l.approved) <= 100.0
  {
    AvailableWithinApproved(l);
    QuotientRange(l.Available(), l.approved, 1.0);
    ScaleUp(l.Available() / l.approved, 1.0, 100.0);
  }

  function ColourRank(c: Colour): nat
  {
    match c
    case Green => 2
    case Orange => 1
    case _ => 0
  }

  /** Drawing more from a line never makes its colour greener. */
  lemma LessAvailableNoGreener(a1: real, a2: real, total: real)
    requires a2 <= a1 && total > 0.0
    ensures ColourRank(AvailabilityColour(AvailablePercentage(a2, total)))
            <= ColourRank(AvailabilityColour(AvailablePercentage(a1, total)))
  {
    assert a2 / total <= a1 / total by {
      assert (a1 / total - a2 / total) * total == a1 - a2;
    }
  }

  datatype Indicator = IndicatorCompleted | IndicatorDelayed | IndicatorInProgress

  /** `status_indicator`: completed wins over delayed; otherwise in
      progress. */
  function StatusIndicator(completed: bool, planned: Option<int>, actual: Option<int>, today: int): (r: Indicator)
    ensures r == IndicatorCompleted <==> completed
    ensures r == IndicatorDelayed <==> !completed && planned.Some? && actual.None? && today > planned.value
  {
    if completed then IndicatorCompleted
    else if IsDelayed(completed, planned, actual, today) then IndicatorDelayed
    else IndicatorInProgress
  }

  /** `save_model` of the budget line and amendment admins: the stamped
      user is set from the request only when the object is created. */
  function AdminStamp(isChange: bool, requestUser: nat, current: Option<nat>): (r: Option<nat>)
    ensures !isChange ==> r == Some(requestUser)
    ensures isChange ==> r == current
  {
    if isChange then current else Some(requestUser)
  }
}
