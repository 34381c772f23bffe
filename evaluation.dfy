/** The evaluation screen's client-side scorer
    (frontend/src/components/Evaluation.jsx): the summary rows with their
    technical, financial and combined scores and ranks, the score input
    clamp, the non-compliance reasons, and the per-bid update of the
    evaluation state. */
module EvaluationScreen {
  import opened Common
  import BidScoring

  /** A technical criterion as configured: weight and maximum may be unset. */
  datatype TechCriterion = TechCriterion(id: nat, weight: Option<real>, max: Option<real>)

  /** One bid's evaluation state: the compliance verdict and reasons, the
      technical score per criterion id (null when cleared), and the
      financial price entered, if any. */
  datatype BidEval = BidEval(
    compliance: Option<bool>,
    reasons: seq<string>,
    technical: map<nat, Option<real>>,
    price: Option<real>)

  datatype Bid = Bid(id: nat, bidderName: string, submittedAmount: Option<real>)

  /** A summary row; `rank` is 0 until the rows are ranked. */
  datatype Row = Row(bidder: string, techScore: int, financialScore: int, combinedScore: int,
                     price: Option<real>, id: nat, rank: nat)

  /** JavaScript truthiness of an optional number. */
  predicate Truthy(x: Option<real>) { x.Some? && x.value != 0.0 }

  // ----- compliant bids -----

  /** Only a bid whose verdict is exactly `pass === true` is compliant. */
  predicate Compliant(b: Bid, evaluation: map<nat, BidEval>)
  {
    b.id in evaluation && evaluation[b.id].compliance == Some(true)
  }

  /** `bids.filter(b => compliance.pass === true)`. */
  function CompliantBids(bids: seq<Bid>, evaluation: map<nat, BidEval>): (r: seq<Bid>)
    ensures |r| <= |bids|
    ensures forall b :: b in r <==> b in bids && Compliant(b, evaluation)
  {
    if bids == [] then []
    else
      var rest := CompliantBids(bids[..|bids| - 1], evaluation);
      var last := bids[|bids| - 1];
      assert bids == bids[..|bids| - 1] + [last];
      if Compliant(last, evaluation) then rest + [last] else rest
  }

  // ----- the technical score -----

  function TechOf(b: Bid, evaluation: map<nat, BidEval>): map<nat, Option<real>>
  {
    if b.id in evaluation then evaluation[b.id].technical else map[]
  }

  /** `techData[crit.id]?.score || 0`. */
  function ScoreOf(tech: map<nat, Option<real>>, id: nat): real
  {
    if id in tech && tech[id].Some? then tech[id].value else 0.0
  }

  function WeightOf(c: TechCriterion): real { c.weight.GetOr(0.0) }

  /** `crit.max || 100`: an unset or zero maximum counts as 100. */
  function MaxOf(c: TechCriterion): (m: real)
    ensures m != 0.0
    ensures !Truthy(c.max) ==> m == 100.0
  {
    if Truthy(c.max) then c.max.value else 100.0
  }

  function Term(c: TechCriterion, tech: map<nat, Option<real>>): real
  {
    ScoreOf(tech, c.id) / MaxOf(c) * WeightOf(c)
  }

  /** `weightedTechScore` after the loop: Σ score/max × weight. */
  function WeightedTech(criteria: seq<TechCriterion>, tech: map<nat, Option<real>>): real
  {
    if criteria == [] then 0.0
    else WeightedTech(criteria[..|criteria| - 1], tech) + Term(criteria[|criteria| - 1], tech)
  }

  /** `maxPossibleTech` after the loop: Σ weight. */
  function MaxPossible(criteria: seq<TechCriterion>): real
  {
    if criteria == [] then 0.0
    else MaxPossible(criteria[..|criteria| - 1]) + WeightOf(criteria[|criteria| - 1])
  }

  /** The technical score of a bid: the rounded weighted sum, not divided by
      the total weight, or 0 when the total weight is not positive. */
  function TechScore(criteria: seq<TechCriterion>, tech: map<nat, Option<real>>): int
  {
    if MaxPossible(criteria) > 0.0 then Round(WeightedTech(criteria, tech)) else 0
  }

  /** The accumulation loop over the technical criteria. */
  method ComputeTechScore(criteria: seq<TechCriterion>, tech: map<nat, Option<real>>) returns (score: int)
    ensures score == TechScore(criteria, tech)
    ensures MaxPossible(criteria) <= 0.0 ==> score == 0
  {
    var weighted := 0.0;
    var maxPossible := 0.0;
    for i := 0 to |criteria|
      invariant weighted == WeightedTech(criteria[..i], tech)
      invariant maxPossible == MaxPossible(criteria[..i])
    {
      assert criteria[..i + 1][..i] == criteria[..i];
      var c := criteria[i];
      var s := ScoreOf(tech, c.id);
      var w := WeightOf(c);
      var m := MaxOf(c);
      weighted := weighted + (s / m) * w;
      maxPossible := maxPossible + w;
    }
    assert criteria[..|criteria|] == criteria;
    score := if maxPossible > 0.0 then Round(weighted) else 0;
  }

  /** With every score in [0, max] under positive maxima and non-negative
      weights, the weighted sum lies between 0 and the total weight. */
  lemma {:induction false} WeightedTechBounds(criteria: seq<TechCriterion>, tech: map<nat, Option<real>>)
    requires forall i :: 0 <= i < |criteria| ==> WeightOf(criteria[i]) >= 0.0 && MaxOf(criteria[i]) > 0.0
    requires forall i :: 0 <= i < |criteria| ==> 0.0 <= ScoreOf(tech, criteria[i].id) <= MaxOf(criteria[i])
    ensures 0.0 <= WeightedTech(criteria, tech) <= MaxPossible(criteria)
  {
    if criteria != [] {
      var init := criteria[..|criteria| - 1];
      var c := criteria[|criteria| - 1];
      assert forall i :: 0 <= i < |init| ==> init[i] == criteria[i];
      WeightedTechBounds(init, tech);
      assert 0.0 <= ScoreOf(tech, c.id) <= 1.0 * MaxOf(c);
      QuotientRange(ScoreOf(tech, c.id), MaxOf(c), 1.0);
      ScaleUp(ScoreOf(tech, c.id) / MaxOf(c), 1.0, WeightOf(c));
      assert 0.0 <= Term(c, tech) <= WeightOf(c);
    }
  }

  /** Full marks on every criterion give the total weight itself: the score
      is not normalised to 100. */
  lemma {:induction false} FullMarksGiveTotalWeight(criteria: seq<TechCriterion>, tech: map<nat, Option<real>>)
    requires forall i :: 0 <= i < |criteria| ==> ScoreOf(tech, criteria[i].id) == MaxOf(criteria[i])
    ensures WeightedTech(criteria, tech) == MaxPossible(criteria)
  {
    if criteria != [] {
      var init := criteria[..|criteria| - 1];
      var c := criteria[|criteria| - 1];
      assert forall i :: 0 <= i < |init| ==> init[i] == criteria[i];
      FullMarksGiveTotalWeight(init, tech);
      assert ScoreOf(tech, c.id) / MaxOf(c) == 1.0;
      assert Term(c, tech) == WeightOf(c);
    }
  }

  /** The two scorers disagree: one criterion of weight 50 scored at its
      maximum gives 50 here, while the server's weighted sum of the same
      row, normalised by the total weight, gives 100. */
  lemma ScorersDisagree()
    ensures TechScore([TechCriterion(1, Some(50.0), Some(100.0))], map[1 := Some(100.0)]) == 50
    ensures BidScoring.WeightedSum([BidScoring.ScoreRow(100.0, 100.0, 50.0)]) == 100.0
  {
    var cs := [TechCriterion(1, Some(50.0), Some(100.0))];
    assert cs[..0] == [];
    assert MaxPossible(cs) == 50.0;
    assert WeightedTech(cs, map[1 := Some(100.0)]) == 50.0;
    var rows := [BidScoring.ScoreRow(100.0, 100.0, 50.0)];
    assert rows[..0] == [];
    assert BidScoring.TotalWeight(rows) == 50.0;
    assert BidScoring.Acc(rows) == 50.0;
  }

  // ----- the financial score -----

  /** `financial.price ?? submitted_amount`. */
  function PriceOf(b: Bid, evaluation: map<nat, BidEval>): Option<real>
  {
    if b.id in evaluation && evaluation[b.id].price.Some? then evaluation[b.id].price else b.submittedAmount
  }

  /** The truthy prices of the compliant bids. */
  function Prices(compliant: seq<Bid>, evaluation: map<nat, BidEval>): (ps: seq<real>)
    ensures forall x :: x in ps ==> x != 0.0
    ensures forall b :: b in compliant && Truthy(PriceOf(b, evaluation)) ==> PriceOf(b, evaluation).value in ps
  {
    if compliant == [] then []
    else
      var rest := Prices(compliant[..|compliant| - 1], evaluation);
      var last := compliant[|compliant| - 1];
      assert compliant == compliant[..|compliant| - 1] + [last];
      if Truthy(PriceOf(last, evaluation)) then rest + [PriceOf(last, evaluation).value] else rest
  }

  /** `Math.min(...prices)`, or 0 without prices. */
  function Lowest(ps: seq<real>): (m: real)
    ensures ps == [] ==> m == 0.0
    ensures ps != [] ==> m in ps && forall x :: x in ps ==> m <= x
  {
    if ps == [] then 0.0 else BidScoring.MinOf(ps)
  }

  /** `round(lowest / price × 100)`, or 0 when the price or the lowest price
      is falsy. */
  function FinancialScore(price: Option<real>, lowest: real): (f: int)
    ensures !Truthy(price) || lowest == 0.0 ==> f == 0
  {
    if Truthy(price) && lowest != 0.0 then Round(lowest / price.value * 100.0) else 0
  }

  /** The cheapest compliant bid scores 100, and every compliant bid with a
      positive price, when all prices are positive, scores at most 100. */
  lemma LowestPriceScoresFull(compliant: seq<Bid>, evaluation: map<nat, BidEval>, b: Bid)
    requires b in compliant && Truthy(PriceOf(b, evaluation))
    requires forall x :: x in Prices(compliant, evaluation) ==> x > 0.0
    ensures var low := Lowest(Prices(compliant, evaluation));
            && 0 <= FinancialScore(PriceOf(b, evaluation), low) <= 100
            && (PriceOf(b, evaluation).value == low ==> FinancialScore(PriceOf(b, evaluation), low) == 100)
  {
    var ps := Prices(compliant, evaluation);
    var p := PriceOf(b, evaluation).value;
    assert p in ps;
    PriceRatioScore(Lowest(ps), p);
  }

  /** The score of a price against a positive lowest price not above it. */
  lemma PriceRatioScore(low: real, p: real)
    requires 0.0 < low <= p
    ensures 0 <= FinancialScore(Some(p), low) <= 100
    ensures p == low ==> FinancialScore(Some(p), low) == 100
  {
    QuotientRange(low, p, 1.0);
    ScaleUp(low / p, 1.0, 100.0);
    RoundWithin(low / p * 100.0, 100);
    if p == low {
      assert low / p == 1.0 by {
        assert (low / p) * p == p;
        NonNegativeFactor(low / p - 1.0, p);
        NonNegativeFactor(1.0 - low / p, p);
      }
    }
  }

  /** `round(0.6 × tech + 0.4 × financial)`. */
  function Combined(tech: int, fin: int): int
  {
    Round(tech as real * 0.6 + fin as real * 0.4)
  }

  /** The combined score of two scores in [0, 100] is in [0, 100] too. */
  lemma CombinedBounds(tech: int, fin: int)
    requires 0 <= tech <= 100 && 0 <= fin <= 100
    ensures 0 <= Combined(tech, fin) <= 100
  {
  }

  // ----- the summary rows -----

  /** The unranked row of one compliant bid. */
  function RowFor(b: Bid, criteria: seq<TechCriterion>, evaluation: map<nat, BidEval>, lowest: real): Row
  {
    var tech := TechScore(criteria, TechOf(b, evaluation));
    var fin := FinancialScore(PriceOf(b, evaluation), lowest);
    Row(b.bidderName, tech, fin, Combined(tech, fin), PriceOf(b, evaluation), b.id, 0)
  }

  /** The comparator `b.combinedScore - a.combinedScore`: higher first. */
  function RowGeq(a: Row, b: Row): bool { a.combinedScore >= b.combinedScore }

  lemma RowGeqIsPreorder()
    ensures TotalPreorder(RowGeq)
  {
  }

  /** The unranked rows, one per compliant bid, in the bids' order. */
  function Unranked(compliant: seq<Bid>, criteria: seq<TechCriterion>, evaluation: map<nat, BidEval>): seq<Row>
  {
    var low := Lowest(Prices(compliant, evaluation));
    seq(|compliant|, i requires 0 <= i < |compliant| => RowFor(compliant[i], criteria, evaluation, low))
  }

  /** `rows.forEach((r, i) => r.rank = i + 1)`. */
  function Ranked(rows: seq<Row>): seq<Row>
  {
    seq(|rows|, i requires 0 <= i < |rows| => rows[i].(rank := i + 1))
  }

  /** The rows with their ranks cleared. */
  function Erased(rows: seq<Row>): seq<Row>
  {
    seq(|rows|, i requires 0 <= i < |rows| => rows[i].(rank := 0))
  }

  /** `computeEvaluationRows`: the rows of the compliant bids, stably sorted
      by combined score and ranked. */
  method ComputeEvaluationRows(bids: seq<Bid>, criteria: seq<TechCriterion>, evaluation: map<nat, BidEval>)
    returns (rows: seq<Row>)
    ensures rows == Ranked(SortBy(Unranked(CompliantBids(bids, evaluation), criteria, evaluation), RowGeq))
  {
    var compliant := CompliantBids(bids, evaluation);
    var low := Lowest(Prices(compliant, evaluation));
    var unranked: seq<Row> := [];
    for k := 0 to |compliant|
      invariant unranked == seq(k, i requires 0 <= i < k => RowFor(compliant[i], criteria, evaluation, low))
    {
      var b := compliant[k];
      var tech := ComputeTechScore(criteria, TechOf(b, evaluation));
      var price := PriceOf(b, evaluation);
      var fin := FinancialScore(price, low);
      var combined := Combined(tech, fin);
      unranked := unranked + [Row(b.bidderName, tech, fin, combined, price, b.id, 0)];
    }
    var sorted := SortBy(unranked, RowGeq);
    rows := AssignRanks(sorted);
  }

  /** The ranking loop. */
  method AssignRanks(sorted: seq<Row>) returns (rows: seq<Row>)
    ensures rows == Ranked(sorted)
  {
    rows := sorted;
    for i := 0 to |rows|
      invariant |rows| == |sorted|
      invariant forall j :: 0 <= j < i ==> rows[j] == sorted[j].(rank := j + 1)
      invariant forall j :: i <= j < |rows| ==> rows[j] == sorted[j]
    {
      rows := rows[i := rows[i].(rank := i + 1)];
    }
  }

  /** What the summary shows: exactly the compliant bids' rows (as a
      multiset), highest combined score first, ranked 1, 2, 3, ... with no
      shared ranks. */
  lemma EvaluationRowsMeaning(bids: seq<Bid>, criteria: seq<TechCriterion>, evaluation: map<nat, BidEval>)
    ensures var compliant := CompliantBids(bids, evaluation);
            var rows := Ranked(SortBy(Unranked(compliant, criteria, evaluation), RowGeq));
            && |rows| == |compliant|
            && (forall i :: 0 <= i < |rows| ==> rows[i].rank == i + 1)
            && (forall i, j :: 0 <= i < j < |rows| ==> rows[i].combinedScore >= rows[j].combinedScore)
            && multiset(Erased(rows)) == multiset(Unranked(compliant, criteria, evaluation))
  {
    var unranked := Unranked(CompliantBids(bids, evaluation), criteria, evaluation);
    var sorted := SortBy(unranked, RowGeq);
    RowGeqIsPreorder();
    SortBySorted(unranked, RowGeq);
    UnrankedHaveNoRank(CompliantBids(bids, evaluation), criteria, evaluation);
    RankingErases(unranked, sorted);
    RankingKeepsOrder(sorted);
  }

  lemma UnrankedHaveNoRank(compliant: seq<Bid>, criteria: seq<TechCriterion>, evaluation: map<nat, BidEval>)
    ensures forall x :: x in Unranked(compliant, criteria, evaluation) ==> x.rank == 0
  {
  }

  /** Ranking rows that carried no rank and erasing the ranks again gives
      the rows back. */
  lemma RankingErases(unranked: seq<Row>, sorted: seq<Row>)
    requires forall x :: x in unranked ==> x.rank == 0
    requires multiset(sorted) == multiset(unranked)
    ensures Erased(Ranked(sorted)) == sorted
  {
    forall i | 0 <= i < |sorted| ensures sorted[i].rank == 0 {
      assert sorted[i] in multiset(unranked);
    }
  }

  /** Ranking keeps a sorted order and numbers the rows from 1. */
  lemma RankingKeepsOrder(sorted: seq<Row>)
    requires SortedBy(sorted, RowGeq)
    ensures var rows := Ranked(sorted);
            && |rows| == |sorted|
            && (forall i :: 0 <= i < |rows| ==> rows[i].rank == i + 1)
            && (forall i, j :: 0 <= i < j < |rows| ==> rows[i].combinedScore >= rows[j].combinedScore)
  {
    var rows := Ranked(sorted);
    forall i, j | 0 <= i < j < |rows| ensures rows[i].combinedScore >= rows[j].combinedScore {
      assert RowGeq(sorted[i], sorted[j]);
    }
  }

  // ----- inputs and state updates -----

  /** The score input: empty clears it, otherwise the number is clamped
      into [0, max]. */
  function ClampScore(input: Option<real>, max: real): (v: Option<real>)
    ensures v.None? <==> input.None?
    ensures v.Some? && max >= 0.0 ==> 0.0 <= v.value <= max
    ensures v.Some? && 0.0 <= input.value <= max ==> v.value == input.value
  {
    if input.None? then None else Some(Min(Max(0.0, input.value), max))
  }

  /** The reasons textarea: split on newlines, each line trimmed, empty
      lines dropped. The result is exactly the trimmed lines that are not
      empty, in order. */
  function Reasons(text: string): (r: seq<string>)
    ensures forall i :: 0 <= i < |r| ==> r[i] != "" && '\n' !in r[i] && Trim(r[i]) == r[i]
    ensures r == Filter(TrimAll(Split(text, '\n')), NonEmptyLine)
  {
    SplitPieces(text, '\n');
    NonEmptyTrimmedMeaning(Split(text, '\n'));
    NonEmptyTrimmed(Split(text, '\n'))
  }

  /** Each line trimmed, in order. */
  function TrimAll(lines: seq<string>): (r: seq<string>)
    ensures |r| == |lines| && forall i :: 0 <= i < |lines| ==> r[i] == Trim(lines[i])
  {
    if lines == [] then [] else [Trim(lines[0])] + TrimAll(lines[1..])
  }

  predicate NonEmptyLine(t: string) { t != "" }

  /** Trimming then dropping the empty lines: the lines that are blank
      go, and every other line is kept, trimmed, in its place. */
  lemma {:induction false} NonEmptyTrimmedMeaning(lines: seq<string>)
    requires forall i :: 0 <= i < |lines| ==> '\n' !in lines[i]
    ensures NonEmptyTrimmed(lines) == Filter(TrimAll(lines), NonEmptyLine)
  {
    if lines != [] {
      NonEmptyTrimmedMeaning(lines[1..]);
      assert TrimAll(lines)[1..] == TrimAll(lines[1..]);
    }
  }

  function NonEmptyTrimmed(lines: seq<string>): (r: seq<string>)
    requires forall i :: 0 <= i < |lines| ==> '\n' !in lines[i]
    ensures |r| <= |lines|
    ensures forall i :: 0 <= i < |r| ==> r[i] != "" && '\n' !in r[i] && Trim(r[i]) == r[i]
  {
    if lines == [] then []
    else
      var t := Trim(lines[0]);
      CleanLine(lines[0]);
      var rest := NonEmptyTrimmed(lines[1..]);
      if t == "" then rest else [t] + rest
  }

  lemma CleanLine(s: string)
    requires '\n' !in s
    ensures '\n' !in Trim(s) && Trim(Trim(s)) == Trim(s)
  {
    TrimIdempotent(s);
    TrimKeepsOut(s, '\n');
  }

  lemma TrimKeepsOut(s: string, c: char)
    requires c !in s
    ensures c !in Trim(s)
  {
    var a := TrimStart(s);
    assert forall x :: x in a ==> x in s;
    var b := TrimEnd(a);
    assert forall x :: x in b ==> x in a;
  }

  /** `updateBidEval`: the bid's entry (empty when absent) passes through
      the updater; no other bid's entry changes. */
  function UpdateBidEval(prev: map<nat, BidEval>, bidId: nat, updater: BidEval -> BidEval): (next: map<nat, BidEval>)
    ensures next.Keys == prev.Keys + {bidId}
    ensures forall id :: id in prev && id != bidId ==> next[id] == prev[id]
    ensures next[bidId] == updater(if bidId in prev then prev[bidId] else BidEval(None, [], map[], None))
  {
    prev[bidId := updater(if bidId in prev then prev[bidId] else BidEval(None, [], map[], None))]
  }
}
