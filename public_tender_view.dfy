/** The public tender list (frontend/src/components/public/PublicTenderView.jsx):
    when a tender is open, the days left before it closes, the category
    filter with the search, and the status badge colour. `new Date(text)`
    is a parameter (None for an invalid date); times are milliseconds and
    `now` is an input. */
module PublicTenderView {
  import opened Common

  /** A published tender as the public list receives it; a text field the
      answer leaves out is None. */
  datatype PublicTender = PublicTender(
    id: int,
    referenceNumber: Option<string>,
    title: Option<string>,
    procuringEntity: Option<string>,
    category: string,
    status: string,
    closingDate: string)

  /** One day in milliseconds. */
  const Day: int := 1000 * 60 * 60 * 24

  /** `isOpen`: published, with a closing date later than now; an invalid
      date is never later. */
  predicate IsOpen(t: PublicTender, now: int, parseDate: string -> Option<int>)
  {
    t.status == "published" && parseDate(t.closingDate).Some? && parseDate(t.closingDate).value > now
  }

  /** Openness only ends, and a closing date that does not parse never
      shows a tender as open. */
  lemma OpenUntilClosing(t: PublicTender, now1: int, now2: int, parseDate: string -> Option<int>)
    requires now1 <= now2
    ensures IsOpen(t, now2, parseDate) ==> IsOpen(t, now1, parseDate)
    ensures parseDate(t.closingDate).None? || t.status != "published" ==> !IsOpen(t, now1, parseDate)
  {
  }

  /** `getDaysRemaining`: the whole days, rounded up, from now to the
      closing time, and 0 when that is not positive or the date is
      invalid. A positive count `d` means the closing time lies within
      `d` days from now but not within `d - 1`. */
  function DaysRemaining(closing: Option<int>, now: int): (d: nat)
    ensures closing.None? ==> d == 0
    ensures closing.Some? ==> (d > 0 <==> closing.value > now)
    ensures d > 0 ==> (d - 1) * Day < closing.value - now <= d * Day
  {
    if closing.None? then 0
    else
      var days := Ceil((closing.value - now) as real / Day as real);
      CeilDays(closing.value - now, days);
      if days > 0 then days else 0
  }

  /** The ceiling of a time difference in days brackets the difference. */
  lemma CeilDays(diff: int, days: int)
    requires days == Ceil(diff as real / Day as real)
    ensures days > 0 <==> diff > 0
    ensures (days - 1) * Day < diff <= days * Day
  {
    var x := diff as real / Day as real;
    assert x <= days as real < x + 1.0;
    assert diff as real == x * Day as real;
    assert ((days - 1) * Day) as real == (days as real - 1.0) * Day as real;
    assert (days * Day) as real == days as real * Day as real;
  }

  /** An open tender has at least one day remaining. */
  lemma OpenHasDays(t: PublicTender, now: int, parseDate: string -> Option<int>)
    requires IsOpen(t, now, parseDate)
    ensures DaysRemaining(parseDate(t.closingDate), now) >= 1
  {
  }

  /** `t.field?.toLowerCase().includes(q)`: false when the field is absent. */
  predicate FieldMatches(field: Option<string>, q: string)
  {
    field.Some? && Contains(Lower(field.value), q)
  }

  /** The category filter passes (`all` passes every tender) and the
      reference number, title or procuring entity contains the search,
      ignoring case. */
  predicate Shown(t: PublicTender, searchTerm: string, filterCategory: string)
  {
    var q := Lower(searchTerm);
    (filterCategory == "all" || t.category == filterCategory)
    && (FieldMatches(t.referenceNumber, q) || FieldMatches(t.title, q) || FieldMatches(t.procuringEntity, q))
  }

  /** `filtered`: the tenders shown, in their order. */
  function Filtered(tenders: seq<PublicTender>, searchTerm: string, filterCategory: string): (r: seq<PublicTender>)
    ensures forall t :: t in r <==> t in tenders && Shown(t, searchTerm, filterCategory)
    ensures IsSubsequence(r, tenders)
  {
    FilterIsSubsequence(tenders, (t: PublicTender) => Shown(t, searchTerm, filterCategory));
    Filter(tenders, (t: PublicTender) => Shown(t, searchTerm, filterCategory))
  }

  /** With an empty search a tender is shown exactly when its category
      passes and it has at least one of the three text fields: one lacking
      all three is hidden even then. */
  lemma EmptySearchNeedsText(t: PublicTender, filterCategory: string)
    ensures Shown(t, "", filterCategory) <==>
              (filterCategory == "all" || t.category == filterCategory)
              && (t.referenceNumber.Some? || t.title.Some? || t.procuringEntity.Some?)
  {
    forall s: string ensures Contains(s, "") {
      assert StartsWith(s, "");
    }
  }

  /** The badge classes of `getStatusColor`. */
  datatype Colour = Green | Yellow | Gray

  /** `getStatusColor`: green for published, yellow for evaluation, gray
      for closed and every other status. */
  function StatusColor(status: string): (r: Colour)
    ensures r == Green <==> status == "published"
    ensures r == Yellow <==> status == "evaluation"
    ensures r == Gray <==> status != "published" && status != "evaluation"
  {
    match status
    case "published" => Green
    case "evaluation" => Yellow
    case "closed" => Gray
    case _ => Gray
  }
}
