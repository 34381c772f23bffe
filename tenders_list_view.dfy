/** The administrators' tender list (frontend/src/components/TendersView.jsx):
    the status filter with the search, and the status badge colour. */
module TendersListView {
  import opened Common

  /** A listed tender. */
  datatype ListedTender = ListedTender(id: int, referenceNumber: string, title: string, status: string)

  /** The status filter passes (`all` passes every tender) and the
      reference number or title contains the search, ignoring case. */
  predicate Shown(t: ListedTender, searchTerm: string, filterStatus: string)
  {
    (filterStatus == "all" || t.status == filterStatus)
    && (Contains(Lower(t.referenceNumber), Lower(searchTerm)) || Contains(Lower(t.title), Lower(searchTerm)))
  }

  /** `filtered`: the tenders shown, in their order. */
  function Filtered(tenders: seq<ListedTender>, searchTerm: string, filterStatus: string): (r: seq<ListedTender>)
    ensures forall t :: t in r <==> t in tenders && Shown(t, searchTerm, filterStatus)
    ensures IsSubsequence(r, tenders)
  {
    FilterIsSubsequence(tenders, (t: ListedTender) => Shown(t, searchTerm, filterStatus));
    Filter(tenders, (t: ListedTender) => Shown(t, searchTerm, filterStatus))
  }

  /** Every text contains the empty text. */
  lemma ContainsEmpty(s: string)
    ensures Contains(s, "")
  {
    assert StartsWith(s, "");
  }

  /** With an empty search and the filter at `all` the whole list is
      shown; with an empty search and a status the list is exactly the
      tenders of that status. */
  lemma EmptySearchShowsStatus(tenders: seq<ListedTender>, filterStatus: string)
    ensures Filtered(tenders, "", "all") == tenders
    ensures forall t :: t in Filtered(tenders, "", filterStatus) <==> t in tenders && (filterStatus == "all" || t.status == filterStatus)
  {
    forall t: ListedTender ensures Contains(Lower(t.referenceNumber), Lower("")) {
      ContainsEmpty(Lower(t.referenceNumber));
    }
    FilterKeepsAll(tenders, (t: ListedTender) => Shown(t, "", "all"));
  }

  /** The status match is exact: a filter that differs from a tender's
      status only in letter case hides it. */
  lemma StatusFilterExact(t: ListedTender, searchTerm: string)
    requires t.status == "published"
    ensures !Shown(t, searchTerm, "Published")
  {
  }

  /** The badge classes of `getStatusColor`. */
  datatype Colour = Green | Yellow | Gray | Blue

  /** `getStatusColor`: an exact match on four statuses; closed and every
      other status are gray. */
  function StatusColor(status: string): (r: Colour)
    ensures r == Green <==> status == "published"
    ensures r == Yellow <==> status == "evaluation"
    ensures r == Blue <==> status == "awarded"
    ensures r == Gray <==> status !in {"published", "evaluation", "awarded"}
  {
    match status
    case "published" => Green
    case "evaluation" => Yellow
    case "closed" => Gray
    case "awarded" => Blue
    case _ => Gray
  }
}
