/** The budget summary (frontend/src/components/BudgetView.jsx): the total
    estimated value, its split by status, and the search over the listed
    tenders. `Number(text)` is a parameter (None where JavaScript gives
    NaN). */
module BudgetView {
  import opened Common

  /** A listed tender; a missing field is the empty text. */
  datatype BudgetTender = BudgetTender(
    title: string,
    name: string,
    reference: string,
    ref: string,
    status: string,
    estimatedValue: string)

  /** `Number(estimated_value) || 0`: NaN counts as 0. */
  function ValueOf(t: BudgetTender, toNumber: string -> Option<real>): real
  {
    toNumber(t.estimatedValue).GetOr(0.0)
  }

  /** `total`: the reduce over the tenders in order. */
  function Total(tenders: seq<BudgetTender>, toNumber: string -> Option<real>): real
  {
    if tenders == [] then 0.0
    else Total(tenders[..|tenders| - 1], toNumber) + ValueOf(tenders[|tenders| - 1], toNumber)
  }

  /** `t.status || 'unknown'`. */
  function StatusOf(t: BudgetTender): (s: string)
    ensures s != ""
    ensures t.status != "" ==> s == t.status
  {
    if t.status != "" then t.status else "unknown"
  }

  /** The total of the tenders under status `s`. */
  function StatusTotal(tenders: seq<BudgetTender>, s: string, toNumber: string -> Option<real>): real
  {
    if tenders == [] then 0.0
    else
      var last := tenders[|tenders| - 1];
      StatusTotal(tenders[..|tenders| - 1], s, toNumber) + (if StatusOf(last) == s then ValueOf(last, toNumber) else 0.0)
  }

  /** The statuses that occur. */
  function Statuses(tenders: seq<BudgetTender>): set<string>
  {
    set t | t in tenders :: StatusOf(t)
  }

  /** The sum of `m` over the listed keys. */
  function SumOver(keys: seq<string>, m: map<string, real>): real
    requires forall k :: k in keys ==> k in m
  {
    if keys == [] then 0.0 else SumOver(keys[..|keys| - 1], m) + m[keys[|keys| - 1]]
  }

  predicate Distinct(keys: seq<string>) { forall i, j :: 0 <= i < j < |keys| ==> keys[i] != keys[j] }

  /** Changing one value of a map changes the sum over distinct keys that
      include it by the same amount. */
  lemma {:induction false} SumOverUpdate(keys: seq<string>, m: map<string, real>, s: string, x: real)
    requires forall k :: k in keys ==> k in m
    requires Distinct(keys) && s in keys
    ensures SumOver(keys, m[s := x]) == SumOver(keys, m) - m[s] + x
  {
    var init := keys[..|keys| - 1];
    if keys[|keys| - 1] == s {
      assert s !in init;
      SumOverUnchanged(init, m, s, x);
    } else {
      assert s in init;
      SumOverUpdate(init, m, s, x);
    }
  }

  /** Setting a key outside the list leaves the sum. */
  lemma {:induction false} SumOverUnchanged(keys: seq<string>, m: map<string, real>, s: string, x: real)
    requires forall k :: k in keys ==> k in m
    requires s !in keys
    ensures SumOver(keys, m[s := x]) == SumOver(keys, m)
  {
    if keys != [] {
      SumOverUnchanged(keys[..|keys| - 1], m, s, x);
    }
  }

  /** `acc[s] = (acc[s] || 0) + v`, keeping the keys in order of first
      use. */
  method Accumulate(acc: map<string, real>, keys: seq<string>, s: string, v: real)
    returns (acc': map<string, real>, keys': seq<string>)
    requires Distinct(keys) && (forall k :: k in keys <==> k in acc)
    ensures acc' == acc[s := (if s in acc then acc[s] else 0.0) + v]
    ensures Distinct(keys') && (forall k :: k in keys' <==> k in acc')
    ensures SumOver(keys', acc') == SumOver(keys, acc) + v
  {
    if s in acc {
      SumOverUpdate(keys, acc, s, acc[s] + v);
      acc' := acc[s := acc[s] + v];
      keys' := keys;
    } else {
      SumOverUnchanged(keys, acc, s, v);
      acc' := acc[s := v];
      keys' := keys + [s];
      assert keys'[..|keys'| - 1] == keys;
    }
  }

  /** One more tender adds its value to its status's total and to the
      total, and its status to the statuses. */
  lemma PrefixStep(tenders: seq<BudgetTender>, i: nat, toNumber: string -> Option<real>)
    requires i < |tenders|
    ensures var t := tenders[i];
            && Statuses(tenders[..i + 1]) == Statuses(tenders[..i]) + {StatusOf(t)}
            && Total(tenders[..i + 1], toNumber) == Total(tenders[..i], toNumber) + ValueOf(t, toNumber)
            && forall k :: StatusTotal(tenders[..i + 1], k, toNumber)
                             == StatusTotal(tenders[..i], k, toNumber) + (if StatusOf(t) == k then ValueOf(t, toNumber) else 0.0)
  {
    assert tenders[..i + 1][..i] == tenders[..i];
    assert tenders[..i + 1] == tenders[..i] + [tenders[i]];
  }

  /** Adding `v` to the entry of `s` keeps every entry the total of its
      status. */
  lemma EntriesStep(before: seq<BudgetTender>, after: seq<BudgetTender>, acc: map<string, real>, s: string, v: real,
                    toNumber: string -> Option<real>)
    requires acc.Keys == Statuses(before)
    requires forall k :: k in acc ==> acc[k] == StatusTotal(before, k, toNumber)
    requires forall k :: StatusTotal(after, k, toNumber) == StatusTotal(before, k, toNumber) + (if s == k then v else 0.0)
    ensures var acc' := acc[s := (if s in acc then acc[s] else 0.0) + v];
            forall k :: k in acc' ==> acc'[k] == StatusTotal(after, k, toNumber)
  {
    StatusTotalStep(before, s, toNumber);
  }

  /** `byStatus`: for each tender in order, its value is added to the
      entry of its status, created at 0 on first use. The keys come in
      order of first appearance (as an object's own keys do). Each entry is
      the total of its status, the statuses are exactly the keys, and the
      entries add up to `total`. */
  method ByStatus(tenders: seq<BudgetTender>, toNumber: string -> Option<real>)
    returns (byStatus: map<string, real>, keys: seq<string>)
    ensures byStatus.Keys == Statuses(tenders)
    ensures forall s :: s in byStatus ==> byStatus[s] == StatusTotal(tenders, s, toNumber)
    ensures Distinct(keys) && (forall k :: k in keys <==> k in byStatus)
    ensures SumOver(keys, byStatus) == Total(tenders, toNumber)
  {
    byStatus := map[];
    keys := [];
    for i := 0 to |tenders|
      invariant byStatus.Keys == Statuses(tenders[..i])
      invariant forall s :: s in byStatus ==> byStatus[s] == StatusTotal(tenders[..i], s, toNumber)
      invariant Distinct(keys) && (forall k :: k in keys <==> k in byStatus)
      invariant SumOver(keys, byStatus) == Total(tenders[..i], toNumber)
    {
      var s := StatusOf(tenders[i]);
      var v := ValueOf(tenders[i], toNumber);
      PrefixStep(tenders, i, toNumber);
      EntriesStep(tenders[..i], tenders[..i + 1], byStatus, s, v, toNumber);
      byStatus, keys := Accumulate(byStatus, keys, s, v);
    }
    assert tenders[..|tenders|] == tenders;
  }

  /** A status that does not occur totals 0. */
  lemma {:induction false} StatusTotalStep(tenders: seq<BudgetTender>, s: string, toNumber: string -> Option<real>)
    ensures s !in Statuses(tenders) ==> StatusTotal(tenders, s, toNumber) == 0.0
  {
    if tenders != [] {
      var init := tenders[..|tenders| - 1];
      assert Statuses(init) <= Statuses(tenders);
      StatusTotalStep(init, s, toNumber);
    }
  }

  // ----- the search -----

  /** `title || name || ''`. */
  function TitleOf(t: BudgetTender): string { if t.title != "" then t.title else t.name }

  /** `reference || ref || ''`. */
  function ReferenceOf(t: BudgetTender): string { if t.reference != "" then t.reference else t.ref }

  /** The tender's title, reference or status contains the (lower-case)
      query, ignoring case. */
  predicate Matches(t: BudgetTender, q: string)
  {
    Contains(Lower(TitleOf(t)), q) || Contains(Lower(ReferenceOf(t)), q) || Contains(Lower(t.status), q)
  }

  /** `filtered`: a blank query keeps the list as it is; any other keeps,
      in order, the tenders matching the trimmed, lower-cased query. */
  function Filtered(tenders: seq<BudgetTender>, search: string): (r: seq<BudgetTender>)
    ensures !NonBlank(search) ==> r == tenders
    ensures NonBlank(search) ==> forall t :: t in r <==> t in tenders && Matches(t, Lower(Trim(search)))
    ensures IsSubsequence(r, tenders)
  {
    var q := Lower(Trim(search));
    if q == "" then
      FilterKeepsAll(tenders, (t: BudgetTender) => true);
      FilterIsSubsequence(tenders, (t: BudgetTender) => true);
      tenders
    else
      FilterIsSubsequence(tenders, (t: BudgetTender) => Matches(t, q));
      Filter(tenders, (t: BudgetTender) => Matches(t, q))
  }

  /** The title is searched only when present; otherwise the name is. */
  lemma NameSearchedWithoutTitle(t: BudgetTender, q: string)
    requires t.title == ""
    ensures Contains(Lower(t.name), q) ==> Matches(t, q)
  {
  }
}
