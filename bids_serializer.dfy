/** The bid evaluation engine of backend/bids/serializer.py: validation of
    per-criterion score uploads, coercion of a submitted score, the required
    uploads check, the weight-normalised sum, lowest-price financial scoring
    and the recomputation of an evaluation with its compliance gates. */
module BidScoring {
  import opened Common
  import opened BidModels
  import opened TenderModels

  datatype Section = Compliance | Technical | Financial
  datatype CriterionType = ScoreCriterion | BooleanCriterion | UploadCriterion

  // ----------------------------------------------------- payload values

  /** A JSON scalar as it arrives in a request payload. Python's `float()` on a
      text is not modelled: `asFloat` carries its outcome (None: it raises). */
  datatype Json = JNull | JBool(b: bool) | JNum(n: real) | JText(text: string, asFloat: Option<real>)

  /** Python truthiness. */
  predicate Truthy(v: Json)
  {
    match v
    case JNull => false
    case JBool(b) => b
    case JNum(n) => n != 0.0
    case JText(t, _) => t != []
  }

  /** Python's `float(v)`; None when it raises `ValueError`/`TypeError`. */
  function ToFloat(v: Json): (r: Option<real>)
    ensures v.JNum? ==> r == Some(v.n)
    ensures v.JNull? ==> r == None
  {
    match v
    case JNull => None
    case JBool(b) => Some(if b then 1.0 else 0.0)
    case JNum(n) => Some(n)
    case JText(_, f) => f
  }

  // ------------------------------------- UpsertBidCriterionScoresSerializer

  datatype UpsertError = EmptyItems | MissingCriterion | InvalidCriteria(ids: seq<nat>)

  /** The ids among `ids` that are not criteria of the tender, in order. */
  function UnknownIds(ids: seq<nat>, tenderCriteria: set<nat>): (r: seq<nat>)
    ensures forall x :: x in r <==> x in ids && x !in tenderCriteria
  {
    if ids == [] then []
    else
      var rest := UnknownIds(ids[..|ids| - 1], tenderCriteria);
      assert ids == ids[..|ids| - 1] + [ids[|ids| - 1]];
      if ids[|ids| - 1] in tenderCriteria then rest else rest + [ids[|ids| - 1]]
  }

  function Values(items: seq<Option<nat>>): (r: seq<nat>)
    requires forall i :: 0 <= i < |items| ==> items[i].Some?
    ensures |r| == |items| && forall i :: 0 <= i < |items| ==> r[i] == items[i].value
  {
    if items == [] then [] else [items[0].value] + Values(items[1..])
  }

  /** `validate`: the items list must be non-empty, every item must name a
      criterion (a falsy id counts as missing), and every named criterion must
      belong to the evaluated bid's tender; the error lists the foreign ids. */
  function ValidateUpsert(items: seq<Option<nat>>, tenderCriteria: set<nat>): (r: Option<UpsertError>)
    ensures r == None <==>
      |items| > 0 && forall i :: 0 <= i < |items| ==> items[i].Some? && items[i].value != 0 && items[i].value in tenderCriteria
    ensures r == Some(EmptyItems) <==> items == []
    ensures r == Some(MissingCriterion) <==>
      items != [] && exists i :: 0 <= i < |items| && (items[i].None? || items[i].value == 0)
    ensures r.Some? && r.value.InvalidCriteria? ==>
      && |r.value.ids| > 0 && (forall x :: x in r.value.ids ==> x !in tenderCriteria)
      && (forall i :: 0 <= i < |items| ==> items[i].Some?)
      && r.value.ids == UnknownIds(Values(items), tenderCriteria)
  {
    if items == [] then Some(EmptyItems)
    else if exists i :: 0 <= i < |items| && (items[i].None? || items[i].value == 0) then Some(MissingCriterion)
    else
      var ids := Values(items);
      var missing := UnknownIds(ids, tenderCriteria);
      if missing == [] then
        assert forall i :: 0 <= i < |items| ==> ids[i] in ids;
        None
      else
        assert missing[0] in missing;
        Some(InvalidCriteria(missing))
  }

  // ------------------------------------------------------------ coerce_score

  /** What a score submission carries; `None` is a key absent from the dict. */
  datatype Payload = Payload(score: Option<Json>, pass: Option<Json>)

  /** The criterion fields `coerce_score` reads; `expectedUpload` is the file
      type of the linked upload requirement, if any. */
  datatype CriterionSpec = CriterionSpec(ctype: CriterionType, maxPoints: real, expectedUpload: Option<string>)

  /** `pass` is present and truthy. */
  predicate PassGiven(p: Payload) { p.pass.Some? && Truthy(p.pass.value) }

  /** The score sent converts to a positive number. */
  predicate PositiveScore(s: Json) { ToFloat(s).Some? && ToFloat(s).value > 0.0 }

  /** `coerce_score` (defined inside `UpsertBidCriterionScoresSerializer.save`,
      which persists nothing). None is the one case where it raises: an upload
      criterion without a linked requirement, no truthy `pass`, and a truthy
      `score` that `float()` cannot read.
      - score criterion: the number read, capped at `max_points`; an absent
        or unreadable score reads as 0;
      - boolean criterion: full marks exactly when the `score` key, if sent,
        converts to a positive number, and otherwise exactly when `pass` is
        truthy;
      - upload criterion: full marks exactly when the bid holds a document of
        the linked requirement's type; without a linked requirement, when
        `pass` is truthy or `score or 0` converts to a positive number. */
  function CoerceScore(c: CriterionSpec, p: Payload, bidDocumentTypes: set<string>): (r: Option<real>)
    ensures c.ctype != ScoreCriterion && r.Some? ==> r.value == 0.0 || r.value == c.maxPoints
    ensures c.ctype == ScoreCriterion ==> r.Some? && r.value <= c.maxPoints
    ensures c.ctype == ScoreCriterion && p.score.Some? && ToFloat(p.score.value).Some? ==>
              var x := ToFloat(p.score.value).value;
              r == Some(if x <= c.maxPoints then x else c.maxPoints)
    ensures c.ctype == ScoreCriterion && (p.score.None? || ToFloat(p.score.value).None?) ==>
              r == Some(if 0.0 <= c.maxPoints then 0.0 else c.maxPoints)
    ensures c.ctype == BooleanCriterion && p.score.Some? ==>
              r == Some(if PositiveScore(p.score.value) then c.maxPoints else 0.0)
    ensures c.ctype == BooleanCriterion && p.score.None? ==>
              r == Some(if PassGiven(p) then c.maxPoints else 0.0)
    ensures r.None? <==>
              && c.ctype == UploadCriterion && c.expectedUpload.None? && !PassGiven(p)
              && p.score.Some? && Truthy(p.score.value) && ToFloat(p.score.value).None?
    ensures c.ctype == UploadCriterion && c.expectedUpload.None? && r.Some? ==>
              r.value == (if PassGiven(p) || (p.score.Some? && Truthy(p.score.value) && PositiveScore(p.score.value))
                          then c.maxPoints else 0.0)
    ensures c.ctype == UploadCriterion && c.expectedUpload.Some? ==>
      r == Some(if c.expectedUpload.value in bidDocumentTypes then c.maxPoints else 0.0)
  {
    match c.ctype
    case UploadCriterion =>
      if c.expectedUpload.Some? then
        Some(if c.expectedUpload.value in bidDocumentTypes then c.maxPoints else 0.0)
      else if p.pass.Some? && Truthy(p.pass.value) then
        Some(c.maxPoints)
      else
        var raw := p.score.GetOr(JNum(0.0));
        var v := if Truthy(raw) then raw else JNum(0.0);
        var f := ToFloat(v);
        if f.None? then None
        else Some(if f.value > 0.0 then c.maxPoints else 0.0)
    case BooleanCriterion =>
      var passed :=
        if p.score.Some? then
          var f := ToFloat(p.score.value);
          f.Some? && f.value > 0.0
        else
          Truthy(p.pass.GetOr(JBool(false)));
      Some(if passed then c.maxPoints else 0.0)
    case ScoreCriterion =>
      var f := ToFloat(p.score.GetOr(JNum(0.0)));
      Some(Min(f.GetOr(0.0), c.maxPoints))
  }

  /** A boolean criterion with a `score` key is decided by that score alone:
      `pass` is ignored. */
  lemma BooleanScoreOverridesPass(c: CriterionSpec, s: Json, pass1: Option<Json>, pass2: Option<Json>, docs: set<string>)
    requires c.ctype == BooleanCriterion
    ensures CoerceScore(c, Payload(Some(s), pass1), docs) == CoerceScore(c, Payload(Some(s), pass2), docs)
  {
  }

  /** Score criteria are clamped from above only: a numeric score at or below
      `max_points`, negative ones included, is kept as it is, one above it
      gives exactly `max_points`, and a null or unreadable one becomes 0. */
  lemma ScoreCriterionKeepsValue(c: CriterionSpec, x: real, t: string, docs: set<string>)
    requires c.ctype == ScoreCriterion
    ensures x <= c.maxPoints ==> CoerceScore(c, Payload(Some(JNum(x)), None), docs) == Some(x)
    ensures x > c.maxPoints ==> CoerceScore(c, Payload(Some(JNum(x)), None), docs) == Some(c.maxPoints)
    ensures c.maxPoints >= 0.0 ==> CoerceScore(c, Payload(Some(JNull), None), docs) == Some(0.0)
    ensures c.maxPoints >= 0.0 ==> CoerceScore(c, Payload(Some(JText(t, None)), None), docs) == Some(0.0)
  {
  }

  /** An upload criterion without a linked requirement: a truthy `pass`
      gives full marks whatever the score, even one `float()` cannot read;
      without it an unreadable text score raises, and a missing score gives
      0. */
  lemma UnlinkedUploadFallback(c: CriterionSpec, pass: Json, t: string, docs: set<string>)
    requires c.ctype == UploadCriterion && c.expectedUpload.None?
    ensures Truthy(pass) ==> CoerceScore(c, Payload(Some(JText(t, None)), Some(pass)), docs) == Some(c.maxPoints)
    ensures t != [] ==> CoerceScore(c, Payload(Some(JText(t, None)), None), docs).None?
    ensures CoerceScore(c, Payload(None, None), docs) == Some(0.0)
  {
  }

  // ------------------------------------------ ensure_bid_has_required_uploads

  /** `"<name> (<file_type>)"`, the entry reported for a missing upload. */
  function Label(r: UploadRequirement): string
  {
    r.name + " (" + r.fileType + ")"
  }

  /** A mandatory requirement none of whose type the bid has uploaded. */
  predicate Unmet(r: UploadRequirement, present: set<string>)
  {
    r.mandatory && r.fileType !in present
  }

  /** The labels of the unmet requirements, in requirement order. */
  function MissingUploads(reqs: seq<UploadRequirement>, present: set<string>): seq<string>
  {
    if reqs == [] then []
    else
      var rest := MissingUploads(reqs[..|reqs| - 1], present);
      if Unmet(reqs[|reqs| - 1], present) then rest + [Label(reqs[|reqs| - 1])] else rest
  }

  /** `MissingUploads` lists exactly the unmet requirements: it is empty iff
      none is unmet, and each unmet requirement's label is in it. */
  lemma {:induction false} MissingUploadsExact(reqs: seq<UploadRequirement>, present: set<string>)
    ensures MissingUploads(reqs, present) == [] <==> forall i :: 0 <= i < |reqs| ==> !Unmet(reqs[i], present)
    ensures forall i :: 0 <= i < |reqs| && Unmet(reqs[i], present) ==> Label(reqs[i]) in MissingUploads(reqs, present)
    ensures |MissingUploads(reqs, present)| <= |reqs|
  {
    if reqs != [] {
      var init := reqs[..|reqs| - 1];
      MissingUploadsExact(init, present);
      assert forall i :: 0 <= i < |init| ==> reqs[i] == init[i];
    }
  }

  /** `ensure_bid_has_required_uploads`: walks the tender's requirements and
      collects the label of every mandatory one whose file type the bid has
      not uploaded; `ok` iff nothing was collected. */
  method EnsureRequiredUploads(reqs: seq<UploadRequirement>, present: set<string>) returns (ok: bool, missing: seq<string>)
    ensures missing == MissingUploads(reqs, present)
    ensures ok <==> forall i :: 0 <= i < |reqs| ==> !Unmet(reqs[i], present)
  {
    missing := [];
    var i := 0;
    while i < |reqs|
      invariant 0 <= i <= |reqs|
      invariant missing == MissingUploads(reqs[..i], present)
    {
      assert reqs[..i + 1][..i] == reqs[..i];
      if reqs[i].mandatory && reqs[i].fileType !in present {
        missing := missing + [Label(reqs[i])];
      }
      i := i + 1;
    }
    assert reqs[..i] == reqs;
    MissingUploadsExact(reqs, present);
    ok := |missing| == 0;
  }

  // ------------------------------------------------------------ _weighted_sum

  /** A row `(score, max_points, weight)`. */
  datatype ScoreRow = ScoreRow(score: real, maxPoints: real, weight: real)

  /** A row takes part only when both `max_points` and the weight are non-zero. */
  predicate Counted(r: ScoreRow)
  {
    r.maxPoints != 0.0 && r.weight != 0.0
  }

  function Contribution(r: ScoreRow): real
  {
    if Counted(r) then r.score / r.maxPoints * r.weight else 0.0
  }

  function CountedWeight(r: ScoreRow): real
  {
    if Counted(r) then r.weight else 0.0
  }

  /** `acc` after the loop: Σ score/max × weight over the counted rows. */
  function Acc(rows: seq<ScoreRow>): real
  {
    if rows == [] then 0.0 else Acc(rows[..|rows| - 1]) + Contribution(rows[|rows| - 1])
  }

  /** `total_weight` after the loop: Σ weight over the counted rows. */
  function TotalWeight(rows: seq<ScoreRow>): real
  {
    if rows == [] then 0.0 else TotalWeight(rows[..|rows| - 1]) + CountedWeight(rows[|rows| - 1])
  }

  /** The value `_weighted_sum` returns: the weight-normalised mean of the
      score ratios, × 100, or 0 when no weight was counted. */
  function WeightedSum(rows: seq<ScoreRow>): real
  {
    if TotalWeight(rows) == 0.0 then 0.0 else Acc(rows) / TotalWeight(rows) * 100.0
  }

  /** `_weighted_sum`. */
  method ComputeWeightedSum(rows: seq<ScoreRow>) returns (r: real)
    ensures r == WeightedSum(rows)
  {
    var totalWeight := 0.0;
    var acc := 0.0;
    var i := 0;
    while i < |rows|
      invariant 0 <= i <= |rows|
      invariant acc == Acc(rows[..i]) && totalWeight == TotalWeight(rows[..i])
    {
      assert rows[..i + 1][..i] == rows[..i];
      var row := rows[i];
      if row.maxPoints != 0.0 && row.weight != 0.0 {
        acc := acc + (row.score / row.maxPoints) * row.weight;
        totalWeight := totalWeight + row.weight;
      }
      i := i + 1;
    }
    assert rows[..i] == rows;
    if totalWeight == 0.0 {
      r := 0.0;
    } else {
      r := (acc / totalWeight) * 100.0;
    }
  }

  /** Rows that are not counted contribute nothing; with none counted the
      result is 0. */
  lemma {:induction false} WeightedSumNoneCounted(rows: seq<ScoreRow>)
    requires forall i :: 0 <= i < |rows| ==> !Counted(rows[i])
    ensures TotalWeight(rows) == 0.0 && WeightedSum(rows) == 0.0
  {
    if rows != [] {
      WeightedSumNoneCounted(rows[..|rows| - 1]);
    }
  }

  /** Every counted row is a well-formed score: positive maximum, positive
      weight, score within [0, max_points]. */
  predicate WellFormed(r: ScoreRow)
  {
    Counted(r) ==> r.maxPoints > 0.0 && r.weight > 0.0 && 0.0 <= r.score <= r.maxPoints
  }

  lemma {:induction false} AccBounds(rows: seq<ScoreRow>)
    requires forall i :: 0 <= i < |rows| ==> WellFormed(rows[i])
    ensures 0.0 <= Acc(rows) <= TotalWeight(rows)
  {
    if rows != [] {
      AccBounds(rows[..|rows| - 1]);
      var r := rows[|rows| - 1];
      assert WellFormed(r);
      if Counted(r) {
        assert 0.0 <= r.score / r.maxPoints <= 1.0;
        assert 0.0 <= r.score / r.maxPoints * r.weight <= r.weight;
      }
    }
  }

  /** A quotient of a non-negative number by one at least as large. */
  lemma FractionAtMostOne(a: real, b: real)
    requires 0.0 <= a <= b && b > 0.0
    ensures 0.0 <= a / b <= 1.0
  {
    assert a / b * b == a;
  }

  /** With well-formed rows the weighted sum is a percentage in [0, 100]. */
  lemma WeightedSumBounds(rows: seq<ScoreRow>)
    requires forall i :: 0 <= i < |rows| ==> WellFormed(rows[i])
    ensures 0.0 <= WeightedSum(rows) <= 100.0
  {
    AccBounds(rows);
    if TotalWeight(rows) != 0.0 {
      FractionAtMostOne(Acc(rows), TotalWeight(rows));
    }
  }

  /** When every counted row scores the same fraction `q` of its maximum, the
      weighted sum is exactly `q × 100`: it is a normalised mean, not a plain
      sum of weighted ratios. */
  lemma {:induction false} AccUniformRatio(rows: seq<ScoreRow>, q: real)
    requires forall i :: 0 <= i < |rows| ==> Counted(rows[i]) ==> rows[i].score == q * rows[i].maxPoints
    ensures Acc(rows) == q * TotalWeight(rows)
  {
    if rows != [] {
      AccUniformRatio(rows[..|rows| - 1], q);
      var r := rows[|rows| - 1];
      if Counted(r) {
        assert r.score / r.maxPoints == q;
      }
    }
  }

  lemma WeightedSumUniformRatio(rows: seq<ScoreRow>, q: real)
    requires forall i :: 0 <= i < |rows| ==> Counted(rows[i]) ==> rows[i].score == q * rows[i].maxPoints
    requires TotalWeight(rows) != 0.0
    ensures WeightedSum(rows) == q * 100.0
  {
    AccUniformRatio(rows, q);
  }

  // ------------------------------------------ compute_financial_lowest_price

  function MinOf(xs: seq<real>): (m: real)
    requires |xs| > 0
    ensures m in xs && forall i :: 0 <= i < |xs| ==> m <= xs[i]
  {
    if |xs| == 1 then xs[0]
    else
      var m := MinOf(xs[1..]);
      assert forall i :: 1 <= i < |xs| ==> xs[i] == xs[1..][i - 1];
      if xs[0] <= m then xs[0] else m
  }

  /** `compute_financial_lowest_price`: `prices` holds the amounts of every bid
      of the tender, drafts included; `own` is the evaluated bid's amount. */
  function FinancialLowestPrice(prices: seq<Option<real>>, own: real): (r: real)
    ensures Present(prices) == [] || own == 0.0 ==> r == 0.0
    ensures Present(prices) != [] && MinOf(Present(prices)) == 0.0 ==> r == 0.0
  {
    if prices == [] then 0.0
    else
      var valid := Present(prices);
      if valid == [] then 0.0
      else
        var lowest := MinOf(valid);
        if lowest == 0.0 || own == 0.0 then 0.0
        else lowest / own * 100.0
  }

  /** The bid with the lowest non-zero price scores exactly 100. */
  lemma LowestBidScoresFull(prices: seq<Option<real>>, own: real)
    requires Some(own) in prices && own != 0.0
    requires forall i :: 0 <= i < |prices| && prices[i].Some? ==> own <= prices[i].value
    ensures FinancialLowestPrice(prices, own) == 100.0
  {
    var valid := Present(prices);
    PresentMembers(prices);
    assert own in valid;
    var m := MinOf(valid);
    assert Some(m) in prices;
    assert m == own;
    assert own / own == 1.0;
  }

  /** With positive prices, every bid of the tender scores in (0, 100]. */
  lemma FinancialScoreAtMostFull(prices: seq<Option<real>>, own: real)
    requires Some(own) in prices
    requires forall i :: 0 <= i < |prices| && prices[i].Some? ==> prices[i].value > 0.0
    ensures 0.0 < FinancialLowestPrice(prices, own) <= 100.0
  {
    var valid := Present(prices);
    PresentMembers(prices);
    assert own in valid;
    var m := MinOf(valid);
    assert Some(m) in prices;
    assert 0.0 < m <= own;
    FractionAtMostOne(m, own);
    assert m / own > 0.0;
  }

  // ------------------------------------------ RecomputeEvaluationSerializer

  datatype FinMethod = LowestPrice | CriteriaBased

  /** `TenderEvaluationConfig`. */
  datatype EvalConfig = EvalConfig(
    technicalWeight: real,
    financialWeight: real,
    complianceRequired: bool,
    enforceMandatory: bool,
    technicalPassMark: real,
    financialMethod: FinMethod,
    capFinancialScoreAt: real)

  /** The model defaults: weights 70/30, pass mark 70, both gates on, lowest
      price, cap 100. */
  function DefaultConfig(): (c: EvalConfig)
    ensures c.technicalWeight + c.financialWeight == 100.0
  {
    EvalConfig(70.0, 30.0, true, true, 70.0, LowestPrice, 100.0)
  }

  /** One `BidCriterionScore` of the evaluation with its criterion's fields. */
  datatype CriterionScore = CriterionScore(section: Section, mandatory: bool, score: real, maxPoints: real, weight: real)

  function SectionRows(scores: seq<CriterionScore>, s: Section): (r: seq<CriterionScore>)
    ensures forall c :: c in r <==> c in scores && c.section == s
  {
    if scores == [] then []
    else
      var rest := SectionRows(scores[..|scores| - 1], s);
      assert scores == scores[..|scores| - 1] + [scores[|scores| - 1]];
      if scores[|scores| - 1].section == s then rest + [scores[|scores| - 1]] else rest
  }

  /** `(score, max_points, weight or 1)`: a zero weight counts as 1. */
  function AsRow(c: CriterionScore): (r: ScoreRow)
    ensures r.weight != 0.0 && (c.weight != 0.0 ==> r.weight == c.weight)
  {
    ScoreRow(c.score, c.maxPoints, if c.weight == 0.0 then 1.0 else c.weight)
  }

  function AsRows(cs: seq<CriterionScore>): (r: seq<ScoreRow>)
    ensures |r| == |cs| && forall i :: 0 <= i < |cs| ==> r[i] == AsRow(cs[i])
  {
    if cs == [] then [] else [AsRow(cs[0])] + AsRows(cs[1..])
  }

  /** A mandatory compliance criterion that did not score above 0. */
  predicate FailsMandatory(c: CriterionScore)
  {
    c.mandatory && !(c.score > 0.0)
  }

  /** The outcome of the compliance loop. */
  predicate ComplianceOk(comp: seq<CriterionScore>, enforceMandatory: bool)
  {
    !(enforceMandatory && exists i :: 0 <= i < |comp| && FailsMandatory(comp[i]))
  }

  /** The four fields `save` writes. */
  datatype Scores = Scores(technicalCompliance: bool, technicalScore: real, financialScore: real, overallScore: real)

  /** The technical sub-score: the weighted sum of the technical rows. */
  function TechnicalScoreOf(scores: seq<CriterionScore>): real
  {
    WeightedSum(AsRows(SectionRows(scores, Technical)))
  }

  /** The financial sub-score by the configured method, before the cap. */
  function UncappedFinancial(cfg: EvalConfig, scores: seq<CriterionScore>, prices: seq<Option<real>>, own: real): real
  {
    if cfg.financialMethod == LowestPrice then FinancialLowestPrice(prices, own)
    else WeightedSum(AsRows(SectionRows(scores, Financial)))
  }

  /** A non-zero cap bounds the financial sub-score from above. */
  function Capped(fin: real, cap: real): (r: real)
    ensures cap != 0.0 ==> r <= cap
    ensures r <= fin
  {
    if cap != 0.0 then Min(fin, cap) else fin
  }

  /** The weighted overall score, with denominator 1 when both weights are 0. */
  function Overall(tech: real, fin: real, tw: real, fw: real): (r: real)
    ensures fw == 0.0 && tw != 0.0 ==> r == tech
  {
    if fw == 0.0 && tw != 0.0 then
      assert tech * tw + fin * fw == tech * tw;
      (tech * tw + fin * fw) / (tw + fw)
    else
      (tech * tw + fin * fw) / (if tw + fw != 0.0 then tw + fw else 1.0)
  }

  /** The scores `RecomputeEvaluationSerializer.save` computes for an
      evaluation with criterion scores `scores`, under config `cfg`, where
      `prices` are the tender's bid amounts and `own` this bid's. */
  function Recomputed(cfg: EvalConfig, scores: seq<CriterionScore>, prices: seq<Option<real>>, own: real): (r: Scores)
    ensures r.technicalCompliance <==>
      ComplianceOk(SectionRows(scores, Compliance), cfg.enforceMandatory) && r.technicalScore >= cfg.technicalPassMark
    ensures cfg.capFinancialScoreAt != 0.0 ==> r.financialScore <= cfg.capFinancialScoreAt
    ensures cfg.complianceRequired && !r.technicalCompliance ==> r.overallScore == 0.0
    ensures cfg.financialWeight == 0.0 && cfg.technicalWeight != 0.0 && (r.technicalCompliance || !cfg.complianceRequired) ==>
      r.overallScore == r.technicalScore
  {
    var compOk := ComplianceOk(SectionRows(scores, Compliance), cfg.enforceMandatory);
    var tech := TechnicalScoreOf(scores);
    var compliant := compOk && !(tech < cfg.technicalPassMark);
    var fin := Capped(UncappedFinancial(cfg, scores, prices, own), cfg.capFinancialScoreAt);
    var overall :=
      if cfg.complianceRequired && !compliant then 0.0
      else Overall(tech, fin, cfg.technicalWeight, cfg.financialWeight);
    Scores(compliant, tech, fin, overall)
  }

  /** Criterion scores as the models allow them: non-negative, not above a
      positive `max_points`, with non-negative weights. */
  predicate ValidCriterionScore(c: CriterionScore)
  {
    c.maxPoints > 0.0 && 0.0 <= c.score <= c.maxPoints && c.weight >= 0.0
  }

  lemma SectionRowsWellFormed(scores: seq<CriterionScore>, s: Section)
    requires forall i :: 0 <= i < |scores| ==> ValidCriterionScore(scores[i])
    ensures forall i :: 0 <= i < |AsRows(SectionRows(scores, s))| ==> WellFormed(AsRows(SectionRows(scores, s))[i])
  {
    var rs := SectionRows(scores, s);
    forall i | 0 <= i < |AsRows(rs)| ensures WellFormed(AsRows(rs)[i]) {
      assert rs[i] in rs;
      assert rs[i] in scores;
    }
  }

  /** The overall score is a convex combination of the two sub-scores. */
  lemma WeightedAverageBounds(tech: real, fin: real, tw: real, fw: real)
    requires 0.0 <= tech <= 100.0 && 0.0 <= fin <= 100.0
    requires tw >= 0.0 && fw >= 0.0 && tw + fw != 0.0
    ensures 0.0 <= (tech * tw + fin * fw) / (tw + fw) <= 100.0
  {
    ScaledBounds(tech, tw);
    ScaledBounds(fin, fw);
    AddBounds(tech * tw, fin * fw, tw, fw);
    QuotientBounds(tech * tw + fin * fw, tw + fw, 100.0);
  }

  lemma AddBounds(a: real, b: real, tw: real, fw: real)
    requires 0.0 <= a <= 100.0 * tw && 0.0 <= b <= 100.0 * fw
    ensures 0.0 <= a + b <= 100.0 * (tw + fw)
  {
  }

  lemma ScaledBounds(x: real, w: real)
    requires 0.0 <= x <= 100.0 && w >= 0.0
    ensures 0.0 <= x * w <= 100.0 * w
  {
    assert (100.0 - x) * w >= 0.0;
  }

  /** 0 ≤ num ≤ c·den with den > 0 gives 0 ≤ num/den ≤ c. */
  lemma QuotientBounds(num: real, den: real, c: real)
    requires den > 0.0 && 0.0 <= num <= c * den
    ensures 0.0 <= num / den <= c
  {
    var q := num / den;
    assert q * den == num;
    assert (c - q) * den == c * den - num;
    ProductSign(c - q, den);
    ProductSign(q, den);
  }

  lemma ProductSign(x: real, y: real)
    requires y > 0.0 && x * y >= 0.0
    ensures x >= 0.0
  {
  }

  /** The financial sub-score before the cap is in [0, 100]. */
  lemma UncappedFinancialInRange(cfg: EvalConfig, scores: seq<CriterionScore>, prices: seq<Option<real>>, own: real)
    requires forall i :: 0 <= i < |scores| ==> ValidCriterionScore(scores[i])
    requires Some(own) in prices
    requires forall i :: 0 <= i < |prices| && prices[i].Some? ==> prices[i].value > 0.0
    ensures 0.0 <= UncappedFinancial(cfg, scores, prices, own) <= 100.0
  {
    if cfg.financialMethod == LowestPrice {
      FinancialScoreAtMostFull(prices, own);
    } else {
      SectionRowsWellFormed(scores, Financial);
      WeightedSumBounds(AsRows(SectionRows(scores, Financial)));
    }
  }

  /** Under valid criterion scores, positive bid prices, a non-negative cap and
      non-negative config weights, the three recomputed scores satisfy the
      [0, 100] validators of `BidEvaluation`. */
  lemma RecomputedInRange(cfg: EvalConfig, scores: seq<CriterionScore>, prices: seq<Option<real>>, own: real)
    requires forall i :: 0 <= i < |scores| ==> ValidCriterionScore(scores[i])
    requires Some(own) in prices
    requires forall i :: 0 <= i < |prices| && prices[i].Some? ==> prices[i].value > 0.0
    requires cfg.capFinancialScoreAt >= 0.0 && cfg.technicalWeight >= 0.0 && cfg.financialWeight >= 0.0
    ensures var r := Recomputed(cfg, scores, prices, own);
      0.0 <= r.technicalScore <= 100.0 && 0.0 <= r.financialScore <= 100.0 && 0.0 <= r.overallScore <= 100.0
  {
    var tech := TechnicalScoreOf(scores);
    SectionRowsWellFormed(scores, Technical);
    WeightedSumBounds(AsRows(SectionRows(scores, Technical)));
    UncappedFinancialInRange(cfg, scores, prices, own);
    var fin := Capped(UncappedFinancial(cfg, scores, prices, own), cfg.capFinancialScoreAt);
    assert 0.0 <= fin <= 100.0;
    OverallInRange(tech, fin, cfg.technicalWeight, cfg.financialWeight);
    var r := Recomputed(cfg, scores, prices, own);
    assert r.technicalScore == tech && r.financialScore == fin;
    assert r.overallScore == 0.0 || r.overallScore == Overall(tech, fin, cfg.technicalWeight, cfg.financialWeight);
  }

  /** The overall score of in-range sub-scores under non-negative weights is in [0, 100]. */
  lemma OverallInRange(tech: real, fin: real, tw: real, fw: real)
    requires 0.0 <= tech <= 100.0 && 0.0 <= fin <= 100.0
    requires tw >= 0.0 && fw >= 0.0
    ensures 0.0 <= Overall(tech, fin, tw, fw) <= 100.0
  {
    if tw + fw != 0.0 {
      WeightedAverageBounds(tech, fin, tw, fw);
    } else {
      assert tw == 0.0 && fw == 0.0;
    }
  }

  /** `RecomputeEvaluationSerializer.save`: refuses when the tender has no
      evaluation config; otherwise runs the compliance loop (stopping at the
      first failing mandatory criterion), the technical pass-mark gate, the
      financial method and cap, and writes the four fields. */
  method Recompute(ev: BidEvaluation, cfg: Option<EvalConfig>, scores: seq<CriterionScore>, prices: seq<Option<real>>, own: real)
    returns (ok: bool)
    modifies ev
    ensures ok <==> cfg.Some?
    ensures !ok ==> unchanged(ev)
    ensures ok ==>
      var r := Recomputed(cfg.value, scores, prices, own);
      ev.technicalCompliance == r.technicalCompliance &&
      ev.technicalScore == Some(r.technicalScore) &&
      ev.financialScore == Some(r.financialScore) &&
      ev.overallScore == Some(r.overallScore)
  {
    if cfg.None? {
      return false;
    }
    var c := cfg.value;
    var comp := SectionRows(scores, Compliance);
    var compOk := true;
    var i := 0;
    while i < |comp|
      invariant 0 <= i <= |comp|
      invariant forall j :: 0 <= j < i ==> !(c.enforceMandatory && FailsMandatory(comp[j]))
    {
      var passed := comp[i].score > 0.0;
      if c.enforceMandatory && comp[i].mandatory && !passed {
        compOk := false;
        break;
      }
      i := i + 1;
    }
    assert compOk == ComplianceOk(comp, c.enforceMandatory);
    ev.technicalCompliance := compOk;

    var technicalScore := ComputeWeightedSum(AsRows(SectionRows(scores, Technical)));
    if technicalScore < c.technicalPassMark {
      ev.technicalCompliance := false;
    }

    var financialScore;
    if c.financialMethod == LowestPrice {
      financialScore := FinancialLowestPrice(prices, own);
    } else {
      financialScore := ComputeWeightedSum(AsRows(SectionRows(scores, Financial)));
    }
    if c.capFinancialScoreAt != 0.0 {
      financialScore := Min(financialScore, c.capFinancialScoreAt);
    }

    var overall := Overall(technicalScore, financialScore, c.technicalWeight, c.financialWeight);
    if c.complianceRequired && !ev.technicalCompliance {
      overall := 0.0;
    }
    ev.technicalScore := Some(technicalScore);
    ev.financialScore := Some(financialScore);
    ev.overallScore := Some(overall);
    ok := true;
  }
}
