/** The evaluation set-up screen of a tender
    (frontend/src/components/TenderCriteriaSetup.jsx): the weight total and
    the check made before saving, the criteria grouped by section, the
    criterion a section's "add" button posts, removal, and the configuration
    loaded over the defaults. `parseFloat` and `Number` are parameters: a
    parser maps text to its value, or None where JavaScript gives NaN. The
    server's answers are inputs. */
module TenderCriteriaSetup {
  import opened Common

  // ----- configuration -----

  /** The configuration the screen edits. The weights, the pass mark and
      the cap hold what their number inputs hold: text, a number from the
      server standing for its own text. The pass mark and the cap are None
      when the server sent them as null. */
  datatype Config = Config(
    technicalWeight: string,
    financialWeight: string,
    technicalPassMark: Option<string>,
    complianceRequired: bool,
    enforceMandatory: bool,
    financialMethod: string,
    capFinancialScoreAt: Option<string>)

  const DefaultConfig := Config("70", "30", Some("70"), true, true, "lowest_price", Some("100"))

  /** The fields of a server answer; a field it leaves out is None. */
  datatype ConfigFields = ConfigFields(
    technicalWeight: Option<string>,
    financialWeight: Option<string>,
    technicalPassMark: Option<Option<string>>,
    complianceRequired: Option<bool>,
    enforceMandatory: Option<bool>,
    financialMethod: Option<string>,
    capFinancialScoreAt: Option<Option<string>>)

  /** `{ ...base, ...fields }`: every field the answer carries replaces the
      base's, every other field keeps the base's value. */
  function Override(base: Config, fields: ConfigFields): (c: Config)
    ensures fields.technicalWeight.Some? ==> c.technicalWeight == fields.technicalWeight.value
    ensures fields.technicalWeight.None? ==> c.technicalWeight == base.technicalWeight
    ensures fields.financialWeight.Some? ==> c.financialWeight == fields.financialWeight.value
    ensures fields.financialWeight.None? ==> c.financialWeight == base.financialWeight
    ensures fields.financialMethod.None? ==> c.financialMethod == base.financialMethod
  {
    Config(
      fields.technicalWeight.GetOr(base.technicalWeight),
      fields.financialWeight.GetOr(base.financialWeight),
      fields.technicalPassMark.GetOr(base.technicalPassMark),
      fields.complianceRequired.GetOr(base.complianceRequired),
      fields.enforceMandatory.GetOr(base.enforceMandatory),
      fields.financialMethod.GetOr(base.financialMethod),
      fields.capFinancialScoreAt.GetOr(base.capFinancialScoreAt))
  }

  const NoFields := ConfigFields(None, None, None, None, None, None, None)

  /** The configuration loaded: the defaults overridden by the server's
      fields; a missing answer leaves the defaults. */
  function LoadedConfig(answer: Option<ConfigFields>): (c: Config)
    ensures answer.None? ==> c == DefaultConfig
  {
    Override(DefaultConfig, answer.GetOr(NoFields))
  }

  /** Overriding with no fields changes nothing, and overriding twice is
      overriding with the later answer's fields on top of the earlier's. */
  lemma OverrideLaws(base: Config, a: ConfigFields, b: ConfigFields)
    ensures Override(base, NoFields) == base
    ensures Override(Override(base, a), b) == Override(base, Merge(a, b))
  {
  }

  /** `{ ...a, ...b }` on two answers. */
  function Merge(a: ConfigFields, b: ConfigFields): ConfigFields
  {
    ConfigFields(
      if b.technicalWeight.Some? then b.technicalWeight else a.technicalWeight,
      if b.financialWeight.Some? then b.financialWeight else a.financialWeight,
      if b.technicalPassMark.Some? then b.technicalPassMark else a.technicalPassMark,
      if b.complianceRequired.Some? then b.complianceRequired else a.complianceRequired,
      if b.enforceMandatory.Some? then b.enforceMandatory else a.enforceMandatory,
      if b.financialMethod.Some? then b.financialMethod else a.financialMethod,
      if b.capFinancialScoreAt.Some? then b.capFinancialScoreAt else a.capFinancialScoreAt)
  }

  // ----- the weight total and the save check -----

  /** `parseFloat(text || 0)` with NaN read as 0. */
  function WeightOf(text: string, parse: string -> Option<real>): real
  {
    if text == "" then 0.0 else parse(text).GetOr(0.0)
  }

  /** `weightTotal`. */
  function WeightTotal(c: Config, parse: string -> Option<real>): real
  {
    WeightOf(c.technicalWeight, parse) + WeightOf(c.financialWeight, parse)
  }

  /** An empty or non-numeric weight counts as 0, a numeric one as its
      value. */
  lemma WeightTotalParts(c: Config, parse: string -> Option<real>)
    ensures c.technicalWeight != "" && parse(c.technicalWeight).Some? && c.financialWeight != "" && parse(c.financialWeight).Some?
            ==> WeightTotal(c, parse) == parse(c.technicalWeight).value + parse(c.financialWeight).value
    ensures (c.technicalWeight == "" || parse(c.technicalWeight).None?)
            ==> WeightTotal(c, parse) == WeightOf(c.financialWeight, parse)
    ensures (c.financialWeight == "" || parse(c.financialWeight).None?)
            ==> WeightTotal(c, parse) == WeightOf(c.technicalWeight, parse)
  {
  }

  /** `Math.round(total * 100) / 100 === 100`. */
  predicate WeightsBalance(total: real)
  {
    Round(total * 100.0) as real / 100.0 == 100.0
  }

  /** The save check accepts exactly the totals within half a hundredth of
      100: from 99.995 inclusive to 100.005 exclusive. */
  lemma BalanceWindow(total: real)
    ensures WeightsBalance(total) <==> 99.995 <= total < 100.005
  {
    var k := Round(total * 100.0);
    assert k == (total * 100.0 + 0.5).Floor;
    assert WeightsBalance(total) <==> k == 10000;
    if 99.995 <= total < 100.005 {
      assert 10000.0 <= total * 100.0 + 0.5 < 10001.0;
    }
  }

  /** The configuration sent on save; NaN is sent as null (None). */
  datatype ConfigPayload = ConfigPayload(
    technicalWeight: Option<real>,
    financialWeight: Option<real>,
    technicalPassMark: Option<real>,
    complianceRequired: bool,
    enforceMandatory: bool,
    financialMethod: string,
    capFinancialScoreAt: Option<real>)

  const WeightsMessage := "Technical weight + Financial weight must equal 100%."

  /** `Number(text)`: the empty text is 0. */
  function NumberOf(text: string, toNumber: string -> Option<real>): Option<real>
  {
    if text == "" then Some(0.0) else toNumber(text)
  }

  /** `Number(value ?? fallback)`: the fallback only for a null value; a
      text, even an empty one, goes through `Number`. */
  function NumberOr(value: Option<string>, fallback: real, toNumber: string -> Option<real>): (n: Option<real>)
    ensures value.None? ==> n == Some(fallback)
    ensures value == Some("") ==> n == Some(0.0)
    ensures value.Some? && value.value != "" ==> n == toNumber(value.value)
  {
    if value.None? then Some(fallback) else NumberOf(value.value, toNumber)
  }

  /** `saveConfig` up to the request: refused with the weights message
      unless the weights balance; otherwise the payload, every number read
      with `Number`, a null pass mark sent as 0 and a null cap as 100. */
  function SaveConfig(c: Config, parse: string -> Option<real>, toNumber: string -> Option<real>): (r: Result<ConfigPayload, string>)
    ensures r.Err? <==> !(99.995 <= WeightTotal(c, parse) < 100.005)
    ensures r.Err? ==> r.error == WeightsMessage
    ensures r.Ok? ==> r.value.technicalWeight == NumberOf(c.technicalWeight, toNumber)
                      && r.value.financialWeight == NumberOf(c.financialWeight, toNumber)
    ensures r.Ok? ==> r.value.technicalPassMark == NumberOr(c.technicalPassMark, 0.0, toNumber)
    ensures r.Ok? ==> r.value.capFinancialScoreAt == NumberOr(c.capFinancialScoreAt, 100.0, toNumber)
    ensures r.Ok? ==> r.value.complianceRequired == c.complianceRequired && r.value.enforceMandatory == c.enforceMandatory
    ensures r.Ok? ==> r.value.financialMethod == c.financialMethod
  {
    BalanceWindow(WeightTotal(c, parse));
    if !WeightsBalance(WeightTotal(c, parse)) then Err(WeightsMessage)
    else
      Ok(ConfigPayload(
        NumberOf(c.technicalWeight, toNumber),
        NumberOf(c.financialWeight, toNumber),
        NumberOr(c.technicalPassMark, 0.0, toNumber),
        c.complianceRequired,
        c.enforceMandatory,
        c.financialMethod,
        NumberOr(c.capFinancialScoreAt, 100.0, toNumber)))
  }

  /** A cap the user cleared is the empty text, not null, so it is sent as
      0 rather than the fallback 100; a null cap is sent as 100. */
  lemma ClearedCapSendsZero(c: Config, parse: string -> Option<real>, toNumber: string -> Option<real>)
    requires 99.995 <= WeightTotal(c, parse) < 100.005
    ensures SaveConfig(c.(capFinancialScoreAt := Some("")), parse, toNumber).Ok?
    ensures SaveConfig(c.(capFinancialScoreAt := Some("")), parse, toNumber).value.capFinancialScoreAt == Some(0.0)
    ensures SaveConfig(c.(capFinancialScoreAt := None), parse, toNumber).Ok?
    ensures SaveConfig(c.(capFinancialScoreAt := None), parse, toNumber).value.capFinancialScoreAt == Some(100.0)
  {
    assert WeightTotal(c.(capFinancialScoreAt := Some("")), parse) == WeightTotal(c, parse);
    assert WeightTotal(c.(capFinancialScoreAt := None), parse) == WeightTotal(c, parse);
  }

  /** `setCfg(prev => ({ ...prev, ...res.data }))` after a save: the
      server's answer laid over the configuration being edited; no answer
      leaves it as it was. */
  function AfterSave(prev: Config, answer: Option<ConfigFields>): (c: Config)
    ensures answer.None? ==> c == prev
  {
    Override(prev, answer.GetOr(NoFields))
  }

  /** Loading and then saving is loading the two answers merged: what the
      save answer carries wins, and every other field is as loaded. */
  lemma LoadThenSave(loaded: ConfigFields, saved: Option<ConfigFields>)
    ensures AfterSave(LoadedConfig(Some(loaded)), saved) == LoadedConfig(Some(Merge(loaded, saved.GetOr(NoFields))))
  {
    OverrideLaws(DefaultConfig, loaded, saved.GetOr(NoFields));
  }

  /** The defaults save as they are. */
  lemma DefaultsSave(parse: string -> Option<real>, toNumber: string -> Option<real>)
    requires parse("70") == Some(70.0) && parse("30") == Some(30.0)
    ensures SaveConfig(DefaultConfig, parse, toNumber).Ok?
  {
    assert WeightTotal(DefaultConfig, parse) == 100.0;
  }

  // ----- criteria -----

  /** A criterion as the server returns it. */
  datatype Criterion = Criterion(
    id: int,
    section: string,
    criterionType: string,
    name: string,
    description: string,
    weight: real,
    maxPoints: real,
    mandatory: bool,
    order: int)

  predicate InSection(c: Criterion, key: string) { c.section == key }

  predicate IsSection(key: string) { key == "compliance" || key == "technical" || key == "financial" }

  /** `grouped`: the criteria of each section, in their order. */
  datatype Groups = Groups(compliance: seq<Criterion>, technical: seq<Criterion>, financial: seq<Criterion>)

  /** The criteria of one section, in their order. */
  function Section(criteria: seq<Criterion>, key: string): seq<Criterion>
  {
    Filter(criteria, (c: Criterion) => InSection(c, key))
  }

  /** One more criterion joins its own section's list at the end. */
  lemma SectionGrows(criteria: seq<Criterion>, created: Criterion, key: string)
    ensures Section(criteria + [created], key) == Section(criteria, key) + (if created.section == key then [created] else [])
  {
    FilterAppend(criteria, [created], (c: Criterion) => InSection(c, key));
  }

  function Grouped(criteria: seq<Criterion>): (g: Groups)
    ensures forall c :: c in g.compliance <==> c in criteria && c.section == "compliance"
    ensures forall c :: c in g.technical <==> c in criteria && c.section == "technical"
    ensures forall c :: c in g.financial <==> c in criteria && c.section == "financial"
    ensures forall c :: c in criteria && !IsSection(c.section) ==> c !in g.compliance && c !in g.technical && c !in g.financial
    ensures IsSubsequence(g.compliance, criteria) && IsSubsequence(g.technical, criteria) && IsSubsequence(g.financial, criteria)
  {
    FilterIsSubsequence(criteria, (c: Criterion) => InSection(c, "compliance"));
    FilterIsSubsequence(criteria, (c: Criterion) => InSection(c, "technical"));
    FilterIsSubsequence(criteria, (c: Criterion) => InSection(c, "financial"));
    Groups(Section(criteria, "compliance"), Section(criteria, "technical"), Section(criteria, "financial"))
  }

  /** The group of a key, as `grouped[key]`; a key that is not a section
      has none. */
  function GroupOf(g: Groups, key: string): Option<seq<Criterion>>
  {
    if key == "compliance" then Some(g.compliance)
    else if key == "technical" then Some(g.technical)
    else if key == "financial" then Some(g.financial)
    else None
  }

  /** The groups together hold exactly the criteria of the three sections:
      one entry for each. */
  lemma {:induction false} GroupSizes(criteria: seq<Criterion>)
    ensures var g := Grouped(criteria);
            |g.compliance| + |g.technical| + |g.financial| == Count(criteria, (c: Criterion) => IsSection(c.section))
  {
    if criteria != [] {
      GroupSizes(criteria[1..]);
    }
  }

  /** What a section's "add" button posts. */
  datatype NewCriterion = NewCriterion(
    section: string,
    criterionType: string,
    name: string,
    description: string,
    weight: real,
    maxPoints: real,
    mandatory: bool,
    order: int)

  /** `addCriterion(key)`: a compliance criterion is a mandatory yes/no
      check of weight 0, a technical one a scored criterion of weight 10,
      any other a scored criterion of weight 0; all are out of 100 and come
      after the section's current criteria. */
  function NewCriterionFor(criteria: seq<Criterion>, key: string): (p: NewCriterion)
    ensures p.section == key && p.maxPoints == 100.0 && p.description == ""
    ensures p.criterionType == (if key == "compliance" then "boolean" else "score")
    ensures p.mandatory <==> key == "compliance"
    ensures p.weight == (if key == "technical" then 10.0 else 0.0)
    ensures IsSection(key) ==> p.order == Count(criteria, (c: Criterion) => InSection(c, key)) + 1
    ensures !IsSection(key) ==> p.order == 1
  {
    var existing := GroupOf(Grouped(criteria), key);
    NewCriterion(
      key,
      if key == "compliance" then "boolean" else "score",
      if key == "compliance" then "Compliance check" else "New criterion",
      "",
      if key == "technical" then 10.0 else 0.0,
      100.0,
      key == "compliance",
      (if existing.Some? then |existing.value| else 0) + 1)
  }

  /** A request's outcome: the server's answer, or the `detail` and `error`
      of its error response. */
  datatype Outcome<T> = Succeeded(value: T) | Failed(detail: string, error: string)

  /** `detail || error || fallback`. */
  function FailureMessage<T>(o: Outcome<T>, fallback: string): (m: string)
    requires o.Failed? && fallback != ""
    ensures m != ""
    ensures o.detail != "" ==> m == o.detail
    ensures o.detail == "" && o.error == "" ==> m == fallback
  {
    if o.detail != "" then o.detail else if o.error != "" then o.error else fallback
  }

  /** The list and the error shown after an action. */
  datatype Screen = Screen(criteria: seq<Criterion>, error: Option<string>)

  /** After adding: the created criterion is appended, or the list stays
      and the error is shown. */
  function AfterAdd(criteria: seq<Criterion>, o: Outcome<Criterion>): (s: Screen)
    ensures o.Succeeded? ==> s.criteria == criteria + [o.value] && s.error.None?
    ensures o.Failed? ==> s.criteria == criteria && s.error.Some?
  {
    if o.Succeeded? then Screen(criteria + [o.value], None)
    else Screen(criteria, Some(FailureMessage(o, "Failed to add criterion")))
  }

  /** `removeCriterion(c)`: once the delete succeeds every criterion with
      that id goes and the rest stay in order; a failed delete keeps the
      list. */
  function AfterRemove(criteria: seq<Criterion>, id: int, o: Outcome<()>): (s: Screen)
    ensures o.Succeeded? ==> (forall x :: x in s.criteria <==> x in criteria && x.id != id)
    ensures o.Succeeded? ==> IsSubsequence(s.criteria, criteria) && s.error.None?
    ensures o.Failed? ==> s.criteria == criteria && s.error.Some?
  {
    if o.Succeeded? then
      FilterIsSubsequence(criteria, (x: Criterion) => x.id != id);
      Screen(Filter(criteria, (x: Criterion) => x.id != id), None)
    else Screen(criteria, Some(FailureMessage(o, "Failed to delete criterion")))
  }

  /** Adding a criterion to a section grows that section's group by one and
      leaves the others. */
  lemma AddGrowsGroup(criteria: seq<Criterion>, created: Criterion)
    ensures var before := Grouped(criteria);
            var after := Grouped(AfterAdd(criteria, Succeeded(created)).criteria);
            && after.compliance == before.compliance + (if created.section == "compliance" then [created] else [])
            && after.technical == before.technical + (if created.section == "technical" then [created] else [])
            && after.financial == before.financial + (if created.section == "financial" then [created] else [])
  {
    SectionGrows(criteria, created, "compliance");
    SectionGrows(criteria, created, "technical");
    SectionGrows(criteria, created, "financial");
  }
}
