/** The contract-management summary (frontend/src/components/ContractsView.jsx):
    the status counts, the total value, the contracts expiring within 30
    days, and the status badge colour. `Number(value)` and `new Date(text)`
    are parameters (None where JavaScript gives NaN or an invalid date);
    times are milliseconds and `now` is an input. */
module ContractsView {
  import opened Common

  /** A contract as listed; a missing field is the empty text or None. */
  datatype Contract = Contract(id: int, status: Option<string>, value: string, endDate: string)

  /** `(status || '').toLowerCase()`. */
  function StatusKey(c: Contract): string
  {
    Lower(c.status.GetOr(""))
  }

  predicate IsActive(c: Contract) { StatusKey(c) == "active" }

  predicate IsCompleted(c: Contract) { StatusKey(c) == "completed" }

  /** No contract is both active and completed. */
  lemma ActiveNotCompleted(c: Contract)
    ensures !(IsActive(c) && IsCompleted(c))
  {
  }

  /** `activeCount`. */
  function ActiveCount(contracts: seq<Contract>): nat
  {
    Count(contracts, IsActive)
  }

  /** `completedCount`. */
  function CompletedCount(contracts: seq<Contract>): nat
  {
    Count(contracts, IsCompleted)
  }

  /** A contract is never both active and completed, so the two counts
      together never exceed the number of contracts. */
  lemma ActiveCompletedBound(contracts: seq<Contract>)
    ensures ActiveCount(contracts) + CompletedCount(contracts) <= |contracts|
  {
    DisjointCounts(contracts, IsActive, IsCompleted);
  }

  /** The counts ignore letter case: a contract whose status is written in
      capitals counts like one written in lower case. */
  lemma StatusCaseInsensitive(c: Contract, s: string)
    requires c.status == Some(s)
    ensures IsActive(c) <==> IsActive(c.(status := Some(Lower(s))))
    ensures IsCompleted(c) <==> IsCompleted(c.(status := Some(Lower(s))))
  {
    LowerIdempotent(s);
  }

  /** `Number(value) || 0`: NaN counts as 0. */
  function ValueOf(c: Contract, toNumber: string -> Option<real>): real
  {
    toNumber(c.value).GetOr(0.0)
  }

  /** `totalValue`, the reduce over the contracts in order. */
  function TotalValue(contracts: seq<Contract>, toNumber: string -> Option<real>): real
  {
    if contracts == [] then 0.0
    else TotalValue(contracts[..|contracts| - 1], toNumber) + ValueOf(contracts[|contracts| - 1], toNumber)
  }

  /** The total of a list split in two is the sum of the parts' totals. */
  lemma {:induction false} TotalValueAppend(a: seq<Contract>, b: seq<Contract>, toNumber: string -> Option<real>)
    ensures TotalValue(a + b, toNumber) == TotalValue(a, toNumber) + TotalValue(b, toNumber)
    decreases |b|
  {
    if b != [] {
      var last := b[|b| - 1];
      assert (a + b)[..|a + b| - 1] == a + b[..|b| - 1];
      TotalValueAppend(a, b[..|b| - 1], toNumber);
    } else {
      assert a + b == a;
    }
  }

  /** Values that are not numbers add nothing; with every value a
      non-negative number the total is non-negative. */
  lemma {:induction false} TotalValueNonNegative(contracts: seq<Contract>, toNumber: string -> Option<real>)
    requires forall c :: c in contracts ==> ValueOf(c, toNumber) >= 0.0
    ensures TotalValue(contracts, toNumber) >= 0.0
  {
    if contracts != [] {
      var init := contracts[..|contracts| - 1];
      assert forall c :: c in init ==> c in contracts;
      TotalValueNonNegative(init, toNumber);
    }
  }

  /** Thirty days in milliseconds. */
  const ExpiryWindow: int := 30 * 24 * 60 * 60 * 1000

  /** The contract has an end date that parses to a time within
      [now, now + 30 days]. */
  predicate ExpiringSoon(c: Contract, now: int, parseDate: string -> Option<int>)
  {
    c.endDate != "" && parseDate(c.endDate).Some?
    && now <= parseDate(c.endDate).value <= now + ExpiryWindow
  }

  predicate HasEndDate(c: Contract) { c.endDate != "" }

  /** `expiringSoonCount`. */
  function ExpiringSoonCount(contracts: seq<Contract>, now: int, parseDate: string -> Option<int>): nat
  {
    Count(contracts, (c: Contract) => ExpiringSoon(c, now, parseDate))
  }

  /** Only contracts with an end date can be expiring: the count never
      exceeds the number of contracts that have one. */
  lemma ExpiringNeedsEndDate(contracts: seq<Contract>, now: int, parseDate: string -> Option<int>)
    ensures ExpiringSoonCount(contracts, now, parseDate) <= Count(contracts, HasEndDate)
  {
    CountMonotone(contracts, (c: Contract) => ExpiringSoon(c, now, parseDate), HasEndDate);
  }

  /** A contract ending exactly now, or exactly 30 days from now, is
      counted; one that ended a millisecond ago is not. */
  lemma ExpiryBoundsInclusive(c: Contract, now: int, parseDate: string -> Option<int>)
    requires c.endDate != "" && parseDate(c.endDate).Some?
    ensures parseDate(c.endDate).value == now ==> ExpiringSoon(c, now, parseDate)
    ensures parseDate(c.endDate).value == now + ExpiryWindow ==> ExpiringSoon(c, now, parseDate)
    ensures parseDate(c.endDate).value == now - 1 ==> !ExpiringSoon(c, now, parseDate)
  {
  }

  /** The badge classes of `getStatusColor`. */
  datatype Colour = Green | Blue | Red | Gray

  /** `getStatusColor`: case-insensitive; draft and every unknown status,
      the missing one included, are gray. */
  function StatusColor(status: Option<string>): (r: Colour)
    ensures r == Green <==> Lower(status.GetOr("")) == "active"
    ensures r == Blue <==> Lower(status.GetOr("")) == "completed"
    ensures r == Red <==> Lower(status.GetOr("")) == "terminated"
    ensures status.None? ==> r == Gray
  {
    var s := Lower(status.GetOr(""));
    if s == "active" then Green
    else if s == "completed" then Blue
    else if s == "terminated" then Red
    else if s == "draft" then Gray
    else Gray
  }

  /** The colour does not depend on letter case. */
  lemma StatusColorCaseInsensitive(s: string)
    ensures StatusColor(Some(s)) == StatusColor(Some(Lower(s)))
  {
    LowerIdempotent(s);
  }

  /** The list shown: the answer when it is an array, otherwise empty. */
  function LoadedContracts(answer: Option<seq<Contract>>): (r: seq<Contract>)
    ensures answer.Some? ==> r == answer.value
    ensures answer.None? ==> r == []
  {
    answer.GetOr([])
  }
}
