/** The budget endpoints (backend/budgets/views.py): the summary with its
    per-status, per-section and per-process groups, the guards of the line
    detail endpoint, the milestone upsert, bulk creation, and the analytics
    of timeline adherence and cost variance. */
module BudgetViews {
  import opened Common
  import opened BudgetModels
  import opened BudgetSerializers

  /** The fields of a stored budget line the endpoints read. */
  datatype LineRow = LineRow(
    id: nat,
    serialNumber: string,
    status: LineStatus,
    section: string,
    process: string,
    approved: real,
    estimated: Option<real>,
    actual: Option<real>,
    createdBy: nat,
    description: string)

  // ------------------------------------------------------------------ summary

  /** The query filters: `status=` exact (an empty value is no filter),
      `section=` a case-insensitive substring (empty is no filter). */
  predicate Selected(r: LineRow, status: Option<LineStatus>, section: string)
  {
    (status.None? || r.status == status.value)
    && (section == [] || Contains(Lower(r.section), Lower(section)))
  }

  function Filtered(rows: seq<LineRow>, status: Option<LineStatus>, section: string): (r: seq<LineRow>)
    ensures |r| <= |rows|
    ensures forall x :: x in r <==> x in rows && Selected(x, status, section)
  {
    if rows == [] then []
    else
      var before := Filtered(rows[..|rows| - 1], status, section);
      var last := rows[|rows| - 1];
      assert rows == rows[..|rows| - 1] + [last];
      if Selected(last, status, section) then before + [last] else before
  }

  /** SQL `SUM` over a nullable column, NULL (no value) read as 0. */
  function ColumnSum(xs: seq<Option<real>>): real
  {
    Sum(Present(xs))
  }

  function Approved(rows: seq<LineRow>): seq<Option<real>> { seq(|rows|, i requires 0 <= i < |rows| => Some(rows[i].approved)) }
  function Estimated(rows: seq<LineRow>): seq<Option<real>> { seq(|rows|, i requires 0 <= i < |rows| => rows[i].estimated) }
  function Actual(rows: seq<LineRow>): seq<Option<real>> { seq(|rows|, i requires 0 <= i < |rows| => rows[i].actual) }

  /** The headline figures of `budget_summary`. */
  datatype Totals = Totals(approved: real, estimated: real, actual: real, remaining: real, utilization: real, lines: nat)

  /** `total_remaining` is estimated − actual; the utilisation rate is
      actual/estimated × 100 rounded to two places, 0 unless the estimate is
      positive. */
  function TotalsOf(rows: seq<LineRow>): (t: Totals)
    ensures t.lines == |rows|
    ensures t.remaining == t.estimated - t.actual
    ensures t.estimated <= 0.0 ==> t.utilization == 0.0
  {
    var est := ColumnSum(Estimated(rows));
    var act := ColumnSum(Actual(rows));
    Totals(ColumnSum(Approved(rows)), est, act, est - act,
           if est > 0.0 then RoundTo(act / est * 100.0, 2) else 0.0, |rows|)
  }

  /** Spending within the estimate leaves a non-negative remainder and a
      utilisation rate that is a percentage. */
  lemma TotalsWithinEstimate(rows: seq<LineRow>)
    requires 0.0 <= TotalsOf(rows).actual <= TotalsOf(rows).estimated
    ensures TotalsOf(rows).remaining >= 0.0
    ensures 0.0 <= TotalsOf(rows).utilization <= 100.0
  {
    var t := TotalsOf(rows);
    if t.estimated > 0.0 {
      QuotientRange(t.actual, t.estimated, 1.0);
      var q := t.actual / t.estimated;
      ScaleUp(q, 1.0, 100.0);
      RoundToPercent(q * 100.0, 2);
    }
  }

  /** One group of `values(key).annotate(count, total_amount)`. */
  datatype Group<K> = Group(key: K, count: nat, total: real)

  function Occurrences<K(==)>(keys: seq<K>, k: K): nat
  {
    if keys == [] then 0
    else Occurrences(keys[..|keys| - 1], k) + (if keys[|keys| - 1] == k then 1 else 0)
  }

  /** The summed amount of the rows with key `k`, NULL amounts skipped. */
  function KeyedSum<K(==)>(keys: seq<K>, amounts: seq<Option<real>>, k: K): real
    requires |keys| == |amounts|
  {
    if keys == [] then 0.0
    else
      var n := |keys| - 1;
      KeyedSum(keys[..n], amounts[..n], k)
      + (if keys[n] == k && amounts[n].Some? then amounts[n].value else 0.0)
  }

  function CountTotal<K>(groups: seq<Group<K>>): nat
  {
    if groups == [] then 0 else groups[0].count + CountTotal(groups[1..])
  }

  function GroupKeys<K>(groups: seq<Group<K>>): set<K>
  {
    set j | 0 <= j < |groups| :: groups[j].key
  }

  ghost predicate DistinctKeys<K>(groups: seq<Group<K>>)
  {
    forall i, j :: 0 <= i < j < |groups| ==> groups[i].key != groups[j].key
  }

  /** Where key `k`'s group is, if there is one. */
  function FindKey<K(==)>(groups: seq<Group<K>>, k: K): (r: Option<nat>)
    ensures r.Some? ==> r.value < |groups| && groups[r.value].key == k
    ensures r.None? ==> k !in GroupKeys(groups)
  {
    if groups == [] then None
    else if groups[0].key == k then Some(0)
    else
      var r := FindKey(groups[1..], k);
      assert forall j :: 0 < j < |groups| ==> groups[j] == groups[1..][j - 1];
      if r.Some? then Some(r.value + 1) else None
  }

  lemma {:induction false} CountTotalUpdate<K>(groups: seq<Group<K>>, j: nat, g: Group<K>)
    requires j < |groups|
    ensures CountTotal(groups[j := g]) + groups[j].count == CountTotal(groups) + g.count
  {
    if j > 0 {
      CountTotalUpdate(groups[1..], j - 1, g);
      assert groups[j := g][1..] == groups[1..][j - 1 := g];
    }
  }

  lemma {:induction false} CountTotalAppend<K>(groups: seq<Group<K>>, g: Group<K>)
    ensures CountTotal(groups + [g]) == CountTotal(groups) + g.count
  {
    if groups != [] {
      assert (groups + [g])[1..] == groups[1..] + [g];
      CountTotalAppend(groups[1..], g);
    }
  }

  /** The grouping loop: one group per distinct key, in order of first
      appearance, carrying that key's row count and summed amount. The
      counts add up to the number of rows. */
  method GroupBy<K(==)>(keys: seq<K>, amounts: seq<Option<real>>) returns (groups: seq<Group<K>>)
    requires |keys| == |amounts|
    ensures DistinctKeys(groups)
    ensures GroupKeys(groups) == set t | 0 <= t < |keys| :: keys[t]
    ensures forall j :: 0 <= j < |groups| ==>
              groups[j].count == Occurrences(keys, groups[j].key)
              && groups[j].total == KeyedSum(keys, amounts, groups[j].key)
    ensures CountTotal(groups) == |keys|
  {
    groups := [];
    var i := 0;
    while i < |keys|
      invariant 0 <= i <= |keys|
      invariant Summarises(groups, keys, amounts, i)
    {
      var k := keys[i];
      var amount := if amounts[i].Some? then amounts[i].value else 0.0;
      var at := FindKey(groups, k);
      if at.Some? {
        var g := groups[at.value];
        GroupByUpdateStep(groups, keys, amounts, i, at.value);
        groups := groups[at.value := Group(k, g.count + 1, g.total + amount)];
      } else {
        GroupByAppendStep(groups, keys, amounts, i);
        groups := groups + [Group(k, 1, amount)];
      }
      i := i + 1;
    }
    assert keys[..|keys|] == keys && amounts[..|amounts|] == amounts;
  }

  /** The loop invariant of `GroupBy` after the first `i` rows. */
  ghost predicate Summarises<K>(groups: seq<Group<K>>, keys: seq<K>, amounts: seq<Option<real>>, i: nat)
    requires i <= |keys| == |amounts|
  {
    && DistinctKeys(groups)
    && GroupKeys(groups) == (set t | 0 <= t < i :: keys[t])
    && (forall j :: 0 <= j < |groups| ==>
          groups[j].count == Occurrences(keys[..i], groups[j].key)
          && groups[j].total == KeyedSum(keys[..i], amounts[..i], groups[j].key))
    && CountTotal(groups) == i
  }

  /** One more row adds to the count and sum of its own key only. */
  lemma PrefixStep<K>(keys: seq<K>, amounts: seq<Option<real>>, i: nat, x: K)
    requires i < |keys| == |amounts|
    ensures Occurrences(keys[..i + 1], x) == Occurrences(keys[..i], x) + (if keys[i] == x then 1 else 0)
    ensures KeyedSum(keys[..i + 1], amounts[..i + 1], x)
            == KeyedSum(keys[..i], amounts[..i], x) + (if keys[i] == x && amounts[i].Some? then amounts[i].value else 0.0)
    ensures (set t | 0 <= t < i + 1 :: keys[t]) == (set t | 0 <= t < i :: keys[t]) + {keys[i]}
  {
    assert keys[..i + 1][..i] == keys[..i] && amounts[..i + 1][..i] == amounts[..i];
  }

  lemma GroupByUpdateStep<K>(groups: seq<Group<K>>, keys: seq<K>, amounts: seq<Option<real>>, i: nat, at: nat)
    requires i < |keys| == |amounts|
    requires Summarises(groups, keys, amounts, i)
    requires at < |groups| && groups[at].key == keys[i]
    ensures var amount := if amounts[i].Some? then amounts[i].value else 0.0;
            Summarises(groups[at := Group(keys[i], groups[at].count + 1, groups[at].total + amount)], keys, amounts, i + 1)
  {
    var amount := if amounts[i].Some? then amounts[i].value else 0.0;
    var g := Group(keys[i], groups[at].count + 1, groups[at].total + amount);
    var after := groups[at := g];
    CountTotalUpdate(groups, at, g);
    GroupKeysUpdate(groups, at, g);
    PrefixStep(keys, amounts, i, keys[i]);
    forall j | 0 <= j < |after|
      ensures after[j].count == Occurrences(keys[..i + 1], after[j].key)
      ensures after[j].total == KeyedSum(keys[..i + 1], amounts[..i + 1], after[j].key)
    {
      PrefixStep(keys, amounts, i, after[j].key);
    }
  }

  lemma GroupByAppendStep<K>(groups: seq<Group<K>>, keys: seq<K>, amounts: seq<Option<real>>, i: nat)
    requires i < |keys| == |amounts|
    requires Summarises(groups, keys, amounts, i)
    requires FindKey(groups, keys[i]).None?
    ensures var amount := if amounts[i].Some? then amounts[i].value else 0.0;
            Summarises(groups + [Group(keys[i], 1, amount)], keys, amounts, i + 1)
  {
    var k := keys[i];
    var amount := if amounts[i].Some? then amounts[i].value else 0.0;
    var g := Group(k, 1, amount);
    var after := groups + [g];
    assert forall t :: 0 <= t < i ==> keys[t] != k by {
      forall t | 0 <= t < i ensures keys[t] != k {
        assert keys[t] in GroupKeys(groups);
      }
    }
    OccurrencesAbsent(keys[..i], k);
    KeyedSumAbsent(keys[..i], amounts[..i], k);
    CountTotalAppend(groups, g);
    GroupKeysAppend(groups, g);
    PrefixStep(keys, amounts, i, k);
    forall j | 0 <= j < |after|
      ensures after[j].count == Occurrences(keys[..i + 1], after[j].key)
      ensures after[j].total == KeyedSum(keys[..i + 1], amounts[..i + 1], after[j].key)
    {
      PrefixStep(keys, amounts, i, after[j].key);
    }
  }

  lemma GroupKeysUpdate<K>(groups: seq<Group<K>>, j: nat, g: Group<K>)
    requires j < |groups| && g.key == groups[j].key
    ensures GroupKeys(groups[j := g]) == GroupKeys(groups)
  {
    var after := groups[j := g];
    forall x | x in GroupKeys(groups) ensures x in GroupKeys(after) {
      var t :| 0 <= t < |groups| && groups[t].key == x;
      assert after[t].key == x;
    }
  }

  lemma GroupKeysAppend<K>(groups: seq<Group<K>>, g: Group<K>)
    ensures GroupKeys(groups + [g]) == GroupKeys(groups) + {g.key}
  {
    var after := groups + [g];
    assert after[|groups|].key == g.key;
    forall x | x in GroupKeys(groups) ensures x in GroupKeys(after) {
      var t :| 0 <= t < |groups| && groups[t].key == x;
      assert after[t].key == x;
    }
  }

  lemma {:induction false} OccurrencesAbsent<K>(keys: seq<K>, k: K)
    requires forall t :: 0 <= t < |keys| ==> keys[t] != k
    ensures Occurrences(keys, k) == 0
  {
    if keys != [] {
      OccurrencesAbsent(keys[..|keys| - 1], k);
    }
  }

  lemma {:induction false} KeyedSumAbsent<K>(keys: seq<K>, amounts: seq<Option<real>>, k: K)
    requires |keys| == |amounts|
    requires forall t :: 0 <= t < |keys| ==> keys[t] != k
    ensures KeyedSum(keys, amounts, k) == 0.0
  {
    if keys != [] {
      KeyedSumAbsent(keys[..|keys| - 1], amounts[..|keys| - 1], k);
    }
  }

  function Statuses(rows: seq<LineRow>): seq<LineStatus> { seq(|rows|, i requires 0 <= i < |rows| => rows[i].status) }
  function Sections(rows: seq<LineRow>): seq<string> { seq(|rows|, i requires 0 <= i < |rows| => rows[i].section) }

  /** The rows with a procurement process (`exclude(procurement_process='')`). */
  function WithProcess(rows: seq<LineRow>): (r: seq<LineRow>)
    ensures |r| <= |rows|
    ensures forall x :: x in r <==> x in rows && x.process != []
  {
    if rows == [] then []
    else
      var before := WithProcess(rows[..|rows| - 1]);
      var last := rows[|rows| - 1];
      assert rows == rows[..|rows| - 1] + [last];
      if last.process != [] then before + [last] else before
  }

  function Processes(rows: seq<LineRow>): seq<string> { seq(|rows|, i requires 0 <= i < |rows| => rows[i].process) }

  /** The response of `budget_summary`. */
  datatype Summary = Summary(totals: Totals, byStatus: seq<Group<LineStatus>>, bySection: seq<Group<string>>,
                             byProcess: seq<Group<string>>)

  /** `budget_summary`: filter, total, then group three ways. The status
      groups (and the section groups) count every selected line once. */
  method BudgetSummary(rows: seq<LineRow>, status: Option<LineStatus>, section: string) returns (s: Summary)
    ensures s.totals == TotalsOf(Filtered(rows, status, section))
    ensures CountTotal(s.byStatus) == s.totals.lines && CountTotal(s.bySection) == s.totals.lines
    ensures CountTotal(s.byProcess) <= s.totals.lines
    ensures forall j :: 0 <= j < |s.byProcess| ==> s.byProcess[j].key != []
    ensures forall j :: 0 <= j < |s.byStatus| ==>
              s.byStatus[j].count == Occurrences(Statuses(Filtered(rows, status, section)), s.byStatus[j].key)
  {
    var qs := Filtered(rows, status, section);
    var byStatus := GroupBy(Statuses(qs), Estimated(qs));
    var bySection := GroupBy(Sections(qs), Estimated(qs));
    var withProcess := WithProcess(qs);
    var byProcess := GroupBy(Processes(withProcess), Estimated(withProcess));
    forall j | 0 <= j < |byProcess| ensures byProcess[j].key != [] {
      assert byProcess[j].key in GroupKeys(byProcess);
      var t :| 0 <= t < |withProcess| && Processes(withProcess)[t] == byProcess[j].key;
      assert withProcess[t] in withProcess;
    }
    s := Summary(TotalsOf(qs), byStatus, bySection, byProcess);
  }

  // ------------------------------------------------------------ line detail

  datatype DetailMethod = Get | Put | Patch | Delete

  datatype DetailOutcome = ShowLine | UpdateLine | DeleteLine | NoPermission | HasAllocations

  /** `budget_line_detail`: modifying methods need a superuser or the line's
      creator; a line with tender allocations is not deleted. */
  function DetailDecision(m: DetailMethod, isSuperuser: bool, userId: nat, createdBy: nat, hasAllocations: bool)
    : (r: DetailOutcome)
    ensures r == NoPermission <==> m != Get && !isSuperuser && userId != createdBy
    ensures r == DeleteLine <==> m == Delete && (isSuperuser || userId == createdBy) && !hasAllocations
    ensures r == HasAllocations <==> m == Delete && (isSuperuser || userId == createdBy) && hasAllocations
    ensures r == ShowLine <==> m == Get
  {
    if m != Get && !(isSuperuser || userId == createdBy) then NoPermission
    else match m
      case Get => ShowLine
      case Put => UpdateLine
      case Patch => UpdateLine
      case Delete => if hasAllocations then HasAllocations else DeleteLine
  }

  /** The update branch of `budget_line_detail`: the sent fields are
      validated against the line being edited, partially exactly for a
      PATCH; an accepted update yields the cleaned data, a refused one is a
      400 with the field errors. */
  function UpdateValidation(m: DetailMethod, input: LineInput, serials: map<nat, string>, line: LineValues)
    : (r: Result<LineInput, LineErrors>)
    requires m == Put || m == Patch
    ensures r.Ok? ==> r.value == Cleaned(input)
    ensures r.Err? ==> r.error != map[]
  {
    ValidateMeaning(input, serials, Some(line), m == Patch);
    Validate(input, serials, Some(line), m == Patch)
  }

  /** A PUT must send every required field, a PATCH need not: a missing
      required field fails a PUT under that field, and a PATCH reports no
      error under it. */
  lemma PutRequiresPatchDoesNot(input: LineInput, serials: map<nat, string>, line: LineValues, f: Field)
    requires f in RequiredFields && !Sent(input, f)
    ensures UpdateValidation(Put, input, serials, line).Err?
    ensures f in UpdateValidation(Put, input, serials, line).error
    ensures UpdateValidation(Put, input, serials, line).error[f] == Required
    ensures UpdateValidation(Patch, input, serials, line).Err? ==> f !in UpdateValidation(Patch, input, serials, line).error
  {
    var c := Cleaned(input);
    CleanedFields(input, f);
    FieldErrorMeaning(c, f, serials, Some(line), false);
    FieldErrorReported(input, f, serials, Some(line), false);
    FieldErrorMeaning(c, f, serials, Some(line), true);
  }

  // --------------------------------------------------------------- timeline

  /** A milestone of one budget line. */
  datatype Milestone = Milestone(stage: Stage, planned: Option<int>, actual: Option<int>, completed: bool)

  /** The fields a POST sends; None when not sent. */
  datatype MilestoneInput = MilestoneInput(planned: Option<int>, actual: Option<int>, completed: Option<bool>)

  /** A partial update: sent fields replace stored ones. */
  function Patched(m: Milestone, input: MilestoneInput): (r: Milestone)
    ensures r.stage == m.stage
  {
    Milestone(m.stage, if input.planned.Some? then input.planned else m.planned,
              if input.actual.Some? then input.actual else m.actual, input.completed.GetOr(m.completed))
  }

  /** The answer to a timeline POST: the saved milestone (201), a request
      without a stage (400), or a server error (500) when the insert fails. */
  datatype TimelineResponse = MilestoneSaved(m: Milestone) | StageRequired | ServerError

  function IndexOfStage(ms: seq<Milestone>, stage: Stage): (r: Option<nat>)
    ensures r.Some? ==> r.value < |ms| && ms[r.value].stage == stage
    ensures r.None? ==> forall i :: 0 <= i < |ms| ==> ms[i].stage != stage
  {
    if ms == [] then None
    else if ms[0].stage == stage then Some(0)
    else
      var r := IndexOfStage(ms[1..], stage);
      if r.Some? then Some(r.value + 1) else None
  }

  /** The milestones of one budget line. */
  class Timeline {
    var milestones: seq<Milestone>

    /** At most one milestone per stage (the `unique_together`). */
    ghost predicate Valid()
      reads this
    {
      forall i, j :: 0 <= i < j < |milestones| ==> milestones[i].stage != milestones[j].stage
    }

    constructor ()
      ensures Valid() && milestones == []
    {
      milestones := [];
    }

    /** `budget_line_timeline` (POST) as written: without a stage the
        request is invalid; an existing milestone for the stage is updated.
        For a new stage the serializer, whose fields leave out
        `budget_line`, drops the line id the view put in the data, so the
        insert misses the required foreign key and fails: the answer is a
        server error and nothing is stored. */
    method PostAsWritten(stage: Option<Stage>, input: MilestoneInput) returns (resp: TimelineResponse)
      requires Valid()
      modifies this
      ensures Valid()
      ensures stage.None? ==> resp == StageRequired && milestones == old(milestones)
      ensures stage.Some? && IndexOfStage(old(milestones), stage.value).Some? ==>
                var j := IndexOfStage(old(milestones), stage.value).value;
                resp == MilestoneSaved(Patched(old(milestones)[j], input))
                && milestones == old(milestones)[j := resp.m]
      ensures stage.Some? && IndexOfStage(old(milestones), stage.value).None? ==>
                resp == ServerError && milestones == old(milestones)
    {
      if stage.None? {
        return StageRequired;
      }
      var at := IndexOfStage(milestones, stage.value);
      if at.Some? {
        var m := Patched(milestones[at.value], input);
        milestones := milestones[at.value := m];
        resp := MilestoneSaved(m);
      } else {
        resp := ServerError;
      }
    }

    /** `budget_line_timeline` (POST) as evidently intended: with a stage,
        that stage's milestone is updated when it exists and created for
        the line otherwise; without one the request is invalid. There is
        never a second milestone per stage. */
    method Post(stage: Option<Stage>, input: MilestoneInput) returns (resp: TimelineResponse)
      requires Valid()
      modifies this
      ensures Valid()
      ensures stage.None? ==> resp == StageRequired && milestones == old(milestones)
      ensures stage.Some? ==> resp.MilestoneSaved? && resp.m.stage == stage.value
      ensures stage.Some? && IndexOfStage(old(milestones), stage.value).Some? ==>
                var j := IndexOfStage(old(milestones), stage.value).value;
                resp.m == Patched(old(milestones)[j], input) && milestones == old(milestones)[j := resp.m]
      ensures stage.Some? && IndexOfStage(old(milestones), stage.value).None? ==>
                resp.m == Patched(Milestone(stage.value, None, None, false), input)
                && milestones == old(milestones) + [resp.m]
    {
      if stage.None? {
        return StageRequired;
      }
      var at := IndexOfStage(milestones, stage.value);
      if at.Some? {
        var m := Patched(milestones[at.value], input);
        milestones := milestones[at.value := m];
        resp := MilestoneSaved(m);
      } else {
        var m := Patched(Milestone(stage.value, None, None, false), input);
        milestones := milestones + [m];
        resp := MilestoneSaved(m);
      }
    }
  }

  /** The first milestone of a budget line: as written the POST fails with a
      server error and the line keeps no milestone; as intended the
      milestone is created. */
  method FirstMilestoneFails(stage: Stage, input: MilestoneInput)
    returns (asWritten: TimelineResponse, keptAsWritten: seq<Milestone>,
             intended: TimelineResponse, keptIntended: seq<Milestone>)
    ensures asWritten == ServerError && keptAsWritten == []
    ensures intended.MilestoneSaved? && intended.m.stage == stage && keptIntended == [intended.m]
  {
    var written := new Timeline();
    asWritten := written.PostAsWritten(Some(stage), input);
    keptAsWritten := written.milestones;
    var corrected := new Timeline();
    intended := corrected.Post(Some(stage), input);
    keptIntended := corrected.milestones;
  }

  // -------------------------------------------------------------- bulk create

  datatype CreatedLine = CreatedLine(index: nat, id: nat, serialNumber: string)
  datatype FailedLine = FailedLine(index: nat, serialNumber: string, errors: LineErrors)

  datatype BulkResponse =
    | BudgetLinesRequired
    | BulkResult(code: int, created: seq<CreatedLine>, failed: seq<FailedLine>)

  function CreatedIndices(cs: seq<CreatedLine>): set<nat> { set c | c in cs :: c.index }
  function FailedIndices(fs: seq<FailedLine>): set<nat> { set f | f in fs :: f.index }

  /** Whether a row passes validation as a create against the stored
      serials. */
  predicate CreateAccepted(input: LineInput, serials: map<nat, string>)
  {
    Validate(input, serials, None, false).Ok?
  }

  /** The stored serials (by line id) and the number of lines created once
      the first `n` rows have been processed, for a given acceptance test: an
      accepted row is stored under the next fresh id with its saved serial. */
  function Stored(inputs: seq<LineInput>, serials: map<nat, string>, nextId: nat, n: nat,
                  accepts: (LineInput, map<nat, string>) -> bool): (s: (map<nat, string>, nat))
    requires n <= |inputs|
    ensures s.1 <= n
  {
    if n == 0 then (serials, 0)
    else
      var before := Stored(inputs, serials, nextId, n - 1, accepts);
      var input := inputs[n - 1];
      if accepts(input, before.0) then
        (before.0[nextId + before.1 := SavedSerial(input)], before.1 + 1)
      else before
  }

  /** The store after `n` rows of a bulk create: a row that passes
      validation against what is stored so far is stored under the next
      fresh id. */
  function StoredAfter(inputs: seq<LineInput>, serials: map<nat, string>, nextId: nat, n: nat): (s: (map<nat, string>, nat))
    requires n <= |inputs|
    ensures s.1 <= n
  {
    Stored(inputs, serials, nextId, n, CreateAccepted)
  }

  /** What row `i` is validated against: the stored lines and those created
      for the rows before it. */
  function StoredBefore(inputs: seq<LineInput>, serials: map<nat, string>, nextId: nat, i: nat): map<nat, string>
    requires i <= |inputs|
  {
    StoredAfter(inputs, serials, nextId, i).0
  }

  /** Whether row `i` is created. */
  predicate RowCreated(inputs: seq<LineInput>, serials: map<nat, string>, nextId: nat, i: nat)
    requires i < |inputs|
  {
    Validate(inputs[i], StoredBefore(inputs, serials, nextId, i), None, false).Ok?
  }

  /** The serial number a created line is saved with: the one sent, trimmed. */
  function SavedSerial(input: LineInput): string
  {
    Trim(input.serialNumber.GetOr([]))
  }

  /** The stored lines are kept, and every id in use lies below the next
      fresh one. */
  lemma {:induction false} StoredFacts(inputs: seq<LineInput>, serials: map<nat, string>, nextId: nat, n: nat,
                                       accepts: (LineInput, map<nat, string>) -> bool)
    requires n <= |inputs|
    requires forall id :: id in serials ==> id < nextId
    ensures forall id :: id in serials ==>
              id in Stored(inputs, serials, nextId, n, accepts).0 && Stored(inputs, serials, nextId, n, accepts).0[id] == serials[id]
    ensures forall id :: id in Stored(inputs, serials, nextId, n, accepts).0 ==> id < nextId + Stored(inputs, serials, nextId, n, accepts).1
  {
    if n > 0 {
      StoredFacts(inputs, serials, nextId, n - 1, accepts);
      var before := Stored(inputs, serials, nextId, n - 1, accepts);
      assert nextId + before.1 !in before.0;
    }
  }

  /** Processing more rows only adds lines: whatever is stored after `m`
      rows is still stored, unchanged, after `n >= m`. */
  lemma {:induction false} StoredGrows(inputs: seq<LineInput>, serials: map<nat, string>, nextId: nat, m: nat, n: nat,
                                       accepts: (LineInput, map<nat, string>) -> bool)
    requires m <= n <= |inputs|
    requires forall id :: id in serials ==> id < nextId
    ensures forall id :: id in Stored(inputs, serials, nextId, m, accepts).0 ==>
              id in Stored(inputs, serials, nextId, n, accepts).0
              && Stored(inputs, serials, nextId, n, accepts).0[id] == Stored(inputs, serials, nextId, m, accepts).0[id]
  {
    if m < n {
      StoredGrows(inputs, serials, nextId, m, n - 1, accepts);
      StoredFacts(inputs, serials, nextId, n - 1, accepts);
    }
  }

  /** Once a row is created, its saved serial number counts as stored for
      every later row of the request. */
  lemma {:induction false} CreatedRowStored(inputs: seq<LineInput>, serials: map<nat, string>, nextId: nat, j: nat, i: nat, accepts: (LineInput, map<nat, string>) -> bool)
    requires j < i <= |inputs|
    requires forall id :: id in serials ==> id < nextId
    requires accepts(inputs[j], Stored(inputs, serials, nextId, j, accepts).0)
    ensures SerialTaken(SavedSerial(inputs[j]), Stored(inputs, serials, nextId, i, accepts).0, None)
  {
    var id := nextId + Stored(inputs, serials, nextId, j, accepts).1;
    assert Stored(inputs, serials, nextId, j + 1, accepts).0 == Stored(inputs, serials, nextId, j, accepts).0[id := SavedSerial(inputs[j])];
    StoredGrows(inputs, serials, nextId, j + 1, i, accepts);
    assert id in Stored(inputs, serials, nextId, i, accepts).0;
  }

  /** Two rows of one request with the same serial number (after trimming):
      once the first is created, the second is refused with the serial error
      on its serial number, since the earlier row's line already counts as
      stored. */
  lemma DuplicateSerialInRequestFails(inputs: seq<LineInput>, serials: map<nat, string>, nextId: nat, j: nat, i: nat)
    requires j < i < |inputs|
    requires forall id :: id in serials ==> id < nextId
    requires RowCreated(inputs, serials, nextId, j)
    requires inputs[i].serialNumber.Some? && SavedSerial(inputs[j]) == Trim(inputs[i].serialNumber.value)
    ensures !RowCreated(inputs, serials, nextId, i)
    ensures var e := Validate(inputs[i], StoredBefore(inputs, serials, nextId, i), None, false).error;
            SerialNumber in e && e[SerialNumber] == SerialInUse
  {
    AcceptedSerial(inputs[j], StoredBefore(inputs, serials, nextId, j));
    CreatedRowStored(inputs, serials, nextId, j, i, CreateAccepted);
    var db := StoredBefore(inputs, serials, nextId, i);
    assert Cleaned(inputs[i]).serialNumber == Cleaned(inputs[j]).serialNumber;
    assert FieldError(Cleaned(inputs[i]), SerialNumber, db, None, false) == Some(SerialInUse);
    FieldErrorReported(inputs[i], SerialNumber, db, None, false);
  }

  /** A row that leaves out a required field (the serial number, the budget
      line, the section, the description, the unit or the approved quantity)
      is never created, and is reported with that field required. */
  lemma RowMissingRequiredFails(inputs: seq<LineInput>, serials: map<nat, string>, nextId: nat, i: nat, f: Field)
    requires i < |inputs| && f in RequiredFields && !Sent(inputs[i], f)
    ensures !RowCreated(inputs, serials, nextId, i)
    ensures var e := Validate(inputs[i], StoredBefore(inputs, serials, nextId, i), None, false).error;
            f in e && e[f] == Required
  {
    var db := StoredBefore(inputs, serials, nextId, i);
    CleanedFields(inputs[i], f);
    FieldErrorMeaning(Cleaned(inputs[i]), f, db, None, false);
    FieldErrorReported(inputs[i], f, db, None, false);
  }

  /** `bulk_create_budget_lines`: 400 on an empty list. Each row is
      validated as a create against the lines stored so far (including those
      created earlier in the request) and is either created, with its
      trimmed serial number and the next fresh id, or reported with its index, the serial number
      sent ('N/A' when none was) and the validation errors. The answer is 207
      when any row failed, 201 otherwise. `serials` maps the stored lines'
      ids to their serial numbers; new lines take fresh ids from `nextId`. */
  method BulkCreate(inputs: seq<LineInput>, serials: map<nat, string>, nextId: nat) returns (resp: BulkResponse)
    requires forall id :: id in serials ==> id < nextId
    ensures inputs == [] <==> resp == BudgetLinesRequired
    ensures resp.BulkResult? ==>
              && (resp.code == 207 <==> resp.failed != [])
              && (resp.code == 201 <==> resp.failed == [])
              && (forall i :: 0 <= i < |inputs| ==> (i in CreatedIndices(resp.created) <==> i !in FailedIndices(resp.failed)))
              && (forall i :: 0 <= i < |inputs| ==> (i in CreatedIndices(resp.created) <==> RowCreated(inputs, serials, nextId, i)))
              && (forall i :: i in CreatedIndices(resp.created) ==> i < |inputs|)
              && (forall i :: i in FailedIndices(resp.failed) ==> i < |inputs|)
    ensures resp.BulkResult? ==>
              forall f :: f in resp.failed ==>
                && f.index < |inputs| && !RowCreated(inputs, serials, nextId, f.index)
                && f.errors == Validate(inputs[f.index], StoredBefore(inputs, serials, nextId, f.index), None, false).error
                && f.errors != map[]
                && f.serialNumber == inputs[f.index].serialNumber.GetOr("N/A")
    ensures resp.BulkResult? ==>
              forall c :: c in resp.created ==>
                && c.index < |inputs| && RowCreated(inputs, serials, nextId, c.index)
                && inputs[c.index].serialNumber.Some? && c.serialNumber == Trim(inputs[c.index].serialNumber.value)
                && c.serialNumber != "" && |c.serialNumber| <= 50
                && c.id == nextId + StoredAfter(inputs, serials, nextId, c.index).1
                && (forall id :: id in serials ==> serials[id] != c.serialNumber)
  {
    if inputs == [] {
      return BudgetLinesRequired;
    }
    var db: map<nat, string> := serials;
    var created: seq<CreatedLine> := [];
    var failed: seq<FailedLine> := [];
    var i := 0;
    while i < |inputs|
      invariant 0 <= i <= |inputs|
      invariant BulkInvariant(inputs, serials, nextId, i, db, created, failed)
    {
      var input := inputs[i];
      var v := Validate(input, db, None, false);
      if v.Ok? {
        var c := CreatedLine(i, nextId + |created|, v.value.serialNumber.GetOr([]));
        CreatedStepKeeps(inputs, serials, nextId, i, db, created, failed, c);
        created := created + [c];
        db := db[c.id := c.serialNumber];
      } else {
        var f := FailedLine(i, input.serialNumber.GetOr("N/A"), v.error);
        FailedStepKeeps(inputs, serials, nextId, i, db, created, failed, f);
        failed := failed + [f];
      }
      i := i + 1;
    }
    PartitionDecides(created, failed, inputs, serials, nextId);
    resp := BulkResult(if failed != [] then 207 else 201, created, failed);
  }

  /** The loop invariant of `BulkCreate` after its first `i` rows. */
  predicate BulkInvariant(inputs: seq<LineInput>, serials: map<nat, string>, nextId: nat, i: nat,
                          db: map<nat, string>, created: seq<CreatedLine>, failed: seq<FailedLine>)
    requires i <= |inputs|
  {
    && (db, |created|) == StoredAfter(inputs, serials, nextId, i)
    && Partition(created, failed, i)
    && FailuresReported(failed, inputs, serials, nextId)
    && CreationsReported(created, inputs, serials, nextId)
  }

  /** Creating row `i` keeps the loop invariant. */
  lemma CreatedStepKeeps(inputs: seq<LineInput>, serials: map<nat, string>, nextId: nat, i: nat,
                         db: map<nat, string>, created: seq<CreatedLine>, failed: seq<FailedLine>, c: CreatedLine)
    requires i < |inputs| && forall id :: id in serials ==> id < nextId
    requires BulkInvariant(inputs, serials, nextId, i, db, created, failed)
    requires Validate(inputs[i], db, None, false).Ok?
    requires c == CreatedLine(i, nextId + |created|, Validate(inputs[i], db, None, false).value.serialNumber.GetOr([]))
    ensures BulkInvariant(inputs, serials, nextId, i + 1, db[c.id := c.serialNumber], created + [c], failed)
  {
    StoredStep(inputs, serials, nextId, i);
    CreatedRowFacts(inputs, serials, nextId, i);
    assert c.serialNumber == SavedSerial(inputs[i]);
    PartitionCreated(created, failed, i, c);
    CreationAppended(created, inputs, serials, nextId, c);
  }

  /** A line created for an accepted row, with its facts, keeps every
      creation reported. */
  lemma CreationAppended(created: seq<CreatedLine>, inputs: seq<LineInput>, serials: map<nat, string>, nextId: nat,
                         c: CreatedLine)
    requires CreationsReported(created, inputs, serials, nextId)
    requires c.index < |inputs| && RowCreated(inputs, serials, nextId, c.index)
    requires inputs[c.index].serialNumber.Some? && c.serialNumber == Trim(inputs[c.index].serialNumber.value)
    requires c.serialNumber != "" && |c.serialNumber| <= 50
    requires c.id == nextId + StoredAfter(inputs, serials, nextId, c.index).1
    requires forall id :: id in serials ==> serials[id] != c.serialNumber
    ensures CreationsReported(created + [c], inputs, serials, nextId)
  {
  }

  /** Refusing row `i` keeps the loop invariant. */
  lemma FailedStepKeeps(inputs: seq<LineInput>, serials: map<nat, string>, nextId: nat, i: nat,
                        db: map<nat, string>, created: seq<CreatedLine>, failed: seq<FailedLine>, f: FailedLine)
    requires i < |inputs|
    requires BulkInvariant(inputs, serials, nextId, i, db, created, failed)
    requires Validate(inputs[i], db, None, false).Err?
    requires f == FailedLine(i, inputs[i].serialNumber.GetOr("N/A"), Validate(inputs[i], db, None, false).error)
    ensures BulkInvariant(inputs, serials, nextId, i + 1, db, created, failed + [f])
  {
    StoredStep(inputs, serials, nextId, i);
    ValidateMeaning(inputs[i], db, None, false);
    PartitionFailed(created, failed, i, f);
  }

  /** One more row: stored under the next fresh id when it is created. */
  lemma StoredStep(inputs: seq<LineInput>, serials: map<nat, string>, nextId: nat, i: nat)
    requires i < |inputs|
    ensures StoredAfter(inputs, serials, nextId, i + 1) ==
            if RowCreated(inputs, serials, nextId, i) then
              (StoredAfter(inputs, serials, nextId, i).0[nextId + StoredAfter(inputs, serials, nextId, i).1 := SavedSerial(inputs[i])],
               StoredAfter(inputs, serials, nextId, i).1 + 1)
            else StoredAfter(inputs, serials, nextId, i)
  {
  }

  /** A created row was sent a serial number which, trimmed, is non-blank,
      at most 50 characters, and used by no line stored before the request. */
  lemma CreatedRowFacts(inputs: seq<LineInput>, serials: map<nat, string>, nextId: nat, i: nat)
    requires i < |inputs|
    requires forall id :: id in serials ==> id < nextId
    requires RowCreated(inputs, serials, nextId, i)
    ensures inputs[i].serialNumber.Some? && SavedSerial(inputs[i]) == Trim(inputs[i].serialNumber.value)
    ensures SavedSerial(inputs[i]) != "" && |SavedSerial(inputs[i])| <= 50
    ensures forall id :: id in serials ==> serials[id] != SavedSerial(inputs[i])
  {
    var db := StoredBefore(inputs, serials, nextId, i);
    AcceptedSerial(inputs[i], db);
    StoredFacts(inputs, serials, nextId, i, CreateAccepted);
    assert !BlankText(Cleaned(inputs[i]), SerialNumber) && !LongText(Cleaned(inputs[i]), SerialNumber);
  }

  /** Rows `0 .. n-1` are each either created or failed, and no other row
      is. */
  predicate Partition(created: seq<CreatedLine>, failed: seq<FailedLine>, n: nat)
  {
    && (forall t :: 0 <= t < n ==> (t in CreatedIndices(created) <==> t !in FailedIndices(failed)))
    && (forall t :: t in CreatedIndices(created) ==> t < n)
    && (forall t :: t in FailedIndices(failed) ==> t < n)
  }

  /** Every failure is a refused row with its validation errors and its
      serial number. */
  predicate FailuresReported(failed: seq<FailedLine>, inputs: seq<LineInput>, serials: map<nat, string>, nextId: nat)
  {
    forall f :: f in failed ==>
      && f.index < |inputs| && !RowCreated(inputs, serials, nextId, f.index)
      && f.errors == Validate(inputs[f.index], StoredBefore(inputs, serials, nextId, f.index), None, false).error
      && f.errors != map[]
      && f.serialNumber == inputs[f.index].serialNumber.GetOr("N/A")
  }

  /** Every created line is an accepted row, with its serial number, the
      next fresh id, and a serial number no stored line had. */
  predicate CreationsReported(created: seq<CreatedLine>, inputs: seq<LineInput>, serials: map<nat, string>, nextId: nat)
  {
    forall c :: c in created ==>
      && c.index < |inputs| && RowCreated(inputs, serials, nextId, c.index)
      && inputs[c.index].serialNumber.Some? && c.serialNumber == Trim(inputs[c.index].serialNumber.value)
      && c.serialNumber != "" && |c.serialNumber| <= 50
      && c.id == nextId + StoredAfter(inputs, serials, nextId, c.index).1
      && (forall id :: id in serials ==> serials[id] != c.serialNumber)
  }

  /** With every row placed, a row is among the created exactly when it
      passes validation. */
  lemma PartitionDecides(created: seq<CreatedLine>, failed: seq<FailedLine>, inputs: seq<LineInput>,
                         serials: map<nat, string>, nextId: nat)
    requires Partition(created, failed, |inputs|)
    requires FailuresReported(failed, inputs, serials, nextId)
    requires CreationsReported(created, inputs, serials, nextId)
    ensures forall i :: 0 <= i < |inputs| ==> (i in CreatedIndices(created) <==> RowCreated(inputs, serials, nextId, i))
  {
    forall i | 0 <= i < |inputs|
      ensures i in CreatedIndices(created) <==> RowCreated(inputs, serials, nextId, i)
    {
      if i in CreatedIndices(created) {
        var c :| c in created && c.index == i;
      } else {
        assert i in FailedIndices(failed);
        var f :| f in failed && f.index == i;
      }
    }
  }

  lemma PartitionCreated(created: seq<CreatedLine>, failed: seq<FailedLine>, n: nat, c: CreatedLine)
    requires Partition(created, failed, n) && c.index == n
    ensures Partition(created + [c], failed, n + 1)
  {
    assert CreatedIndices(created + [c]) == CreatedIndices(created) + {n};
  }

  lemma PartitionFailed(created: seq<CreatedLine>, failed: seq<FailedLine>, n: nat, f: FailedLine)
    requires Partition(created, failed, n) && f.index == n
    ensures Partition(created, failed + [f], n + 1)
  {
    assert FailedIndices(failed + [f]) == FailedIndices(failed) + {n};
  }

  // --------------------------------------------------------------- analytics

  /** A milestone for the adherence metrics. */
  datatype MilestoneRow = MilestoneRow(completed: bool, planned: Option<int>, actual: Option<int>)

  /** Completed on or before its planned date, or completed without one (an
      SQL comparison with a NULL actual date is false). */
  predicate OnTime(m: MilestoneRow)
  {
    m.completed && (m.planned.None? || (m.actual.Some? && m.actual.value <= m.planned.value))
  }

  function CountOnTime(ms: seq<MilestoneRow>): (n: nat)
    ensures n <= |ms|
  {
    if ms == [] then 0 else (if OnTime(ms[0]) then 1 else 0) + CountOnTime(ms[1..])
  }

  /** Not completed and planned strictly before `now` (a NULL planned date
      compares false). */
  predicate Delayed(m: MilestoneRow, now: int)
  {
    !m.completed && m.planned.Some? && m.planned.value < now
  }

  function CountDelayed(ms: seq<MilestoneRow>, now: int): (n: nat)
    ensures n <= |ms|
  {
    if ms == [] then 0 else (if Delayed(ms[0], now) then 1 else 0) + CountDelayed(ms[1..], now)
  }

  /** A milestone is never both on time and delayed, so the two counts
      together never exceed the milestones; and with every milestone
      completed nothing is delayed. */
  lemma {:induction false} OnTimeAndDelayedDisjoint(ms: seq<MilestoneRow>, now: int)
    ensures CountOnTime(ms) + CountDelayed(ms, now) <= |ms|
    ensures (forall i :: 0 <= i < |ms| ==> ms[i].completed) ==> CountDelayed(ms, now) == 0
  {
    if ms != [] {
      OnTimeAndDelayedDisjoint(ms[1..], now);
      assert forall i :: 0 <= i < |ms[1..]| ==> ms[1..][i] == ms[i + 1];
    }
  }

  /** `timeline_adherence_rate`, rounded to two places: 0 with no milestones. */
  function AdherenceRate(ms: seq<MilestoneRow>): (r: real)
    ensures ms == [] ==> r == 0.0
    ensures 0.0 <= r <= 100.0
  {
    if ms == [] then 0.0
    else
      var q := CountOnTime(ms) as real / |ms| as real;
      QuotientRange(CountOnTime(ms) as real, |ms| as real, 1.0);
      ScaleUp(q, 1.0, 100.0);
      RoundToPercent(q * 100.0, 2);
      RoundTo(q * 100.0, 2)
  }

  /** One entry of `variance_data`; `item` is the first 50 characters of
      the line's description. */
  datatype Variance = Variance(serialNumber: string, item: string, estimated: real, actual: real, variance: real, percentage: real)

  function Prefix50(t: string): (r: string)
    ensures |r| <= 50 && r <= t
  {
    if |t| <= 50 then t else t[..50]
  }

  function Abs(x: real): real { if x >= 0.0 then x else -x }

  /** Lines with a (non-zero) estimate and actual amount, in order, with
      their variance and its percentage rounded to two places. */
  function Variances(rows: seq<LineRow>): (r: seq<Variance>)
    ensures |r| <= |rows|
    ensures forall k :: 0 <= k < |r| ==> r[k].variance == r[k].actual - r[k].estimated && r[k].estimated != 0.0
  {
    if rows == [] then []
    else
      var before := Variances(rows[..|rows| - 1]);
      var l := rows[|rows| - 1];
      if l.estimated.Some? && l.estimated.value != 0.0 && l.actual.Some? && l.actual.value != 0.0 then
        var v := l.actual.value - l.estimated.value;
        before + [Variance(l.serialNumber, Prefix50(l.description), l.estimated.value, l.actual.value, v, RoundTo(v / l.estimated.value * 100.0, 2))]
      else before
  }

  predicate LargerVariance(a: Variance, b: Variance)
  {
    Abs(a.variance) >= Abs(b.variance)
  }

  lemma LargerVarianceIsPreorder()
    ensures TotalPreorder(LargerVariance)
  {
  }

  /** The variances sorted by absolute value, largest first (stable). */
  function SortedVariances(rows: seq<LineRow>): (s: seq<Variance>)
    ensures multiset(s) == multiset(Variances(rows))
    ensures forall i, j :: 0 <= i < j < |s| ==> Abs(s[i].variance) >= Abs(s[j].variance)
  {
    LargerVarianceIsPreorder();
    SortBySorted(Variances(rows), LargerVariance);
    SortBy(Variances(rows), LargerVariance)
  }

  /** `top_variances`: the first ten of the sorted variances. */
  function TopVariances(rows: seq<LineRow>): (r: seq<Variance>)
    ensures |r| == if |Variances(rows)| < 10 then |Variances(rows)| else 10
  {
    var s := SortedVariances(rows);
    s[..if |s| < 10 then |s| else 10]
  }

  /** The top variances are line variances, largest first, and every
      variance left out is no larger than every one kept. */
  lemma TopVariancesMeaning(rows: seq<LineRow>)
    ensures var r := TopVariances(rows);
            forall i, j :: 0 <= i < j < |r| ==> Abs(r[i].variance) >= Abs(r[j].variance)
    ensures forall x :: x in TopVariances(rows) ==> x in Variances(rows)
    ensures var r := TopVariances(rows); var s := SortedVariances(rows);
            forall i, j :: 0 <= i < |r| <= j < |s| ==> Abs(r[i].variance) >= Abs(s[j].variance)
  {
    var r := TopVariances(rows);
    var s := SortedVariances(rows);
    forall x | x in r ensures x in Variances(rows) {
      assert x in s;
      assert x in multiset(s);
    }
  }

  /** The milestone and line figures of `budget_analytics`. */
  datatype Analytics = Analytics(
    totalMilestones: nat,
    completedOnTime: nat,
    delayedMilestones: nat,
    adherenceRate: real,
    topVariances: seq<Variance>,
    linesWithActuals: nat)

  /** The analytics the endpoint evidently computes; `now` is the database
      clock `Now()`. The on-time and delayed counts never add up to more than
      the milestones, the rate is in [0, 100], at most ten variances are
      listed and only lines with an actual amount are counted. */
  function BudgetAnalytics(ms: seq<MilestoneRow>, rows: seq<LineRow>, now: int): (a: Analytics)
    ensures a.totalMilestones == |ms|
    ensures a.completedOnTime + a.delayedMilestones <= a.totalMilestones
    ensures 0.0 <= a.adherenceRate <= 100.0 && |a.topVariances| <= 10
    ensures a.linesWithActuals <= |rows|
  {
    OnTimeAndDelayedDisjoint(ms, now);
    Analytics(|ms|, CountOnTime(ms), CountDelayed(ms, now), AdherenceRate(ms), TopVariances(rows), CountWithActual(rows))
  }

  function CountWithActual(rows: seq<LineRow>): (n: nat)
    ensures n <= |rows|
  {
    if rows == [] then 0 else (if rows[0].actual.Some? then 1 else 0) + CountWithActual(rows[1..])
  }

  /** The endpoint as written: it reaches `models.F(...)` with no `models`
      name in scope, so every call ends in a server error. */
  function BudgetAnalyticsAsWritten(ms: seq<MilestoneRow>, rows: seq<LineRow>, now: int): (r: Result<Analytics, string>)
    ensures r.Err?
  {
    Err("NameError: name 'models' is not defined")
  }

  /** Even with no milestones and no lines, the endpoint as written fails,
      where the evident computation answers. */
  lemma BudgetAnalyticsAlwaysFails(now: int)
    ensures BudgetAnalyticsAsWritten([], [], now).Err?
    ensures BudgetAnalytics([], [], now) == Analytics(0, 0, 0, 0.0, [], 0)
  {
  }
}
