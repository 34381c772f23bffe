/** The supplier's list of bids
    (frontend/src/components/bidder/bids/BidStatus.jsx): the actions each
    row offers and the status badge, and how those actions meet the
    lifecycle endpoints of backend/bids/views.py. */
module BidStatusView {
  import opened Common
  import opened BidModels
  import BidViews

  /** The row buttons. */
  datatype Action = SubmitAction | UnsubmitAction | WithdrawAction

  /** The buttons a row offers for a bid whose status is written `status`:
      Submit unless it is exactly `submitted` (so a withdrawn bid can be
      submitted again), Unsubmit exactly when it is, Withdraw unless it is
      exactly `withdrawn`. */
  function Actions(status: string): (r: set<Action>)
    ensures SubmitAction in r <==> status != "submitted"
    ensures UnsubmitAction in r <==> status == "submitted"
    ensures WithdrawAction in r <==> status != "withdrawn"
  {
    (if status != "submitted" then {SubmitAction} else {})
    + (if status == "submitted" then {UnsubmitAction} else {})
    + (if status != "withdrawn" then {WithdrawAction} else {})
  }

  /** Every row offers one or two buttons, never Submit and Unsubmit
      together. */
  lemma ActionsShape(status: string)
    ensures 1 <= |Actions(status)| <= 2
    ensures !(SubmitAction in Actions(status) && UnsubmitAction in Actions(status))
  {
    var r := Actions(status);
    if status == "submitted" {
      assert r == {UnsubmitAction, WithdrawAction};
    } else if status == "withdrawn" {
      assert r == {SubmitAction};
    } else {
      assert r == {SubmitAction, WithdrawAction};
    }
  }

  /** The badge colour. */
  datatype Colour = Green | Gray

  /** The badge is green exactly when the status, ignoring case, is
      `submitted`. */
  function BadgeColour(status: Option<string>): (c: Colour)
    ensures c == Green <==> Lower(status.GetOr("")) == "submitted"
  {
    if Lower(status.GetOr("")) == "submitted" then Green else Gray
  }

  /** The buttons test the status exactly while the badge ignores case: a
      bid whose status is written `Submitted` shows the green badge yet
      offers Submit and not Unsubmit. */
  lemma BadgeAndButtonsDisagreeOnCase()
    ensures BadgeColour(Some("Submitted")) == Green
    ensures SubmitAction in Actions("Submitted") && UnsubmitAction !in Actions("Submitted")
  {
    LowerLetters("Submitted", "submitted");
  }

  /** The stored status as the server writes it. */
  function StatusName(s: BidStatus): string
  {
    match s
    case Draft => "draft"
    case Submitted => "submitted"
    case Withdrawn => "withdrawn"
    case Disqualified => "disqualified"
    case Qualified => "qualified"
    case Winning => "winning"
    case Losing => "losing"
  }

  /** The endpoint answer a button gets for the bid's own supplier. */
  function Press(a: Action, s: BidState, supplierId: nat, open: bool, now: int): BidViews.Outcome
  {
    var me := BidViews.Requester(supplierId, false);
    match a
    case SubmitAction => BidViews.ChangeStatus(s, me, supplierId, BidViews.ToSubmitted, open, now)
    case UnsubmitAction => BidViews.Unsubmit(s, me, supplierId, open)
    case WithdrawAction => BidViews.ChangeStatus(s, me, supplierId, BidViews.ToWithdrawn, open, now)
  }

  /** While the tender is open every button a row offers succeeds for the
      bid's supplier; once it closes, Withdraw still succeeds while Submit
      and Unsubmit, though still offered, are refused. */
  lemma OfferedActionsMeetEndpoints(s: BidState, supplierId: nat, open: bool, now: int)
    ensures forall a :: a in Actions(StatusName(s.status)) ==>
              (Press(a, s, supplierId, open, now).response.Done? <==> open || a == WithdrawAction)
  {
    forall a | a in Actions(StatusName(s.status))
      ensures Press(a, s, supplierId, open, now).response.Done? <==> open || a == WithdrawAction
    {
      if a == UnsubmitAction {
        assert StatusName(s.status) == "submitted";
        assert s.status == Submitted;
      }
    }
  }
}
