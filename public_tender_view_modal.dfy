/** The public tender details modal
    (frontend/src/components/public/PublicTenderViewModal.jsx): whether the
    tender is open, the days shown as remaining, the bid validity shown,
    and whether the "Submit Bid" action is offered. */
module PublicTenderViewModal {
  import opened Common
  import PublicTenderView

  type PublicTender = PublicTenderView.PublicTender

  /** The modal's own `isOpen`: published and closing after now. */
  predicate ModalOpen(t: PublicTender, now: int, parseDate: string -> Option<int>)
  {
    t.status == "published" && parseDate(t.closingDate).Some? && parseDate(t.closingDate).value > now
  }

  /** The modal's rule is the list's rule. */
  lemma SameOpenRule(t: PublicTender, now: int, parseDate: string -> Option<int>)
    ensures ModalOpen(t, now, parseDate) <==> PublicTenderView.IsOpen(t, now, parseDate)
  {
  }

  /** The days shown: 0 unless open, else the days remaining (at least
      one). */
  function DaysShown(t: PublicTender, now: int, parseDate: string -> Option<int>): (d: nat)
    ensures d > 0 <==> ModalOpen(t, now, parseDate)
  {
    if ModalOpen(t, now, parseDate) then PublicTenderView.DaysRemaining(parseDate(t.closingDate), now) else 0
  }

  /** `bid_validity_period || 90`: an absent or zero period shows 90. */
  function ValidityShown(period: Option<int>): (days: int)
    ensures period.Some? && period.value != 0 ==> days == period.value
    ensures period.None? || period.value == 0 ==> days == 90
  {
    if period.Some? && period.value != 0 then period.value else 90
  }

  /** The footer action. */
  datatype Footer = SubmitBid | TenderClosed

  /** The footer offers "Submit Bid" exactly when the tender is open, and
      then at least one day is shown as remaining. */
  function FooterAction(t: PublicTender, now: int, parseDate: string -> Option<int>): (f: Footer)
    ensures f == SubmitBid <==> ModalOpen(t, now, parseDate)
    ensures f == SubmitBid <==> DaysShown(t, now, parseDate) >= 1
  {
    if ModalOpen(t, now, parseDate) then SubmitBid else TenderClosed
  }
}
