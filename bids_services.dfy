/** Bid-level services of the bids application (backend/bids/services.py):
    folding the evaluations of one bid into its final scores and status, and
    ranking the bids of a tender by total score. */
module BidServices {
  import opened Common
  import opened BidModels
  import opened BidScoring

  // ------------------------------------------------------------ aggregation

  /** The compliance policies; `OtherPolicy` stands for any other string,
      which leaves the bid compliant. */
  datatype Policy = AnyFail | Majority | Unanimous | OtherPolicy

  /** The columns of one `BidEvaluation` row that aggregation reads. */
  datatype EvaluationRow = EvaluationRow(
    technicalCompliance: bool,
    technicalScore: Option<real>,
    financialScore: Option<real>,
    overallScore: Option<real>)

  /** `Count('id', filter=Q(technical_compliance=True))`. */
  function PassedCount(evaluations: seq<EvaluationRow>): (r: nat)
    ensures r <= |evaluations|
  {
    if evaluations == [] then 0
    else PassedCount(evaluations[..|evaluations| - 1])
         + (if evaluations[|evaluations| - 1].technicalCompliance then 1 else 0)
  }

  /** Every evaluation passed exactly when the passed count is the total. */
  lemma {:induction false} PassedCountAll(evaluations: seq<EvaluationRow>)
    ensures PassedCount(evaluations) == |evaluations|
            <==> forall i :: 0 <= i < |evaluations| ==> evaluations[i].technicalCompliance
  {
    if evaluations != [] {
      var init := evaluations[..|evaluations| - 1];
      PassedCountAll(init);
      assert forall i :: 0 <= i < |init| ==> init[i] == evaluations[i];
    }
  }

  /** The compliance decision for `passed` of `total` evaluations. */
  function Compliant(policy: Policy, passed: nat, total: nat): (c: bool)
    ensures policy == AnyFail || policy == Unanimous ==> (c <==> passed == total)
    ensures policy == Majority ==> (c <==> 2 * passed > total)
    ensures policy == OtherPolicy ==> c
  {
    match policy
    case AnyFail => passed == total
    case Majority => passed as real > total as real / 2.0
    case Unanimous => passed == total
    case OtherPolicy => true
  }

  /** What `aggregate_bid_scores` reports. */
  datatype Aggregate =
    | NotFinalized(required: int, have: nat)
    | Finalized(technical: real, financial: real, total: real, compliant: bool, count: nat)

  /** Python's `avg or 0`: a missing average reads as 0. */
  function AverageOrZero(xs: seq<Option<real>>): (r: real)
    ensures Average(xs).None? ==> r == 0.0
    ensures Average(xs).Some? ==> r == Average(xs).value
  {
    Average(xs).GetOr(0.0)
  }

  function TechnicalColumn(evaluations: seq<EvaluationRow>): (r: seq<Option<real>>)
    ensures |r| == |evaluations| && forall i :: 0 <= i < |r| ==> r[i] == evaluations[i].technicalScore
  {
    seq(|evaluations|, i requires 0 <= i < |evaluations| => evaluations[i].technicalScore)
  }

  function FinancialColumn(evaluations: seq<EvaluationRow>): (r: seq<Option<real>>)
    ensures |r| == |evaluations| && forall i :: 0 <= i < |r| ==> r[i] == evaluations[i].financialScore
  {
    seq(|evaluations|, i requires 0 <= i < |evaluations| => evaluations[i].financialScore)
  }

  function OverallColumn(evaluations: seq<EvaluationRow>): (r: seq<Option<real>>)
    ensures |r| == |evaluations| && forall i :: 0 <= i < |r| ==> r[i] == evaluations[i].overallScore
  {
    seq(|evaluations|, i requires 0 <= i < |evaluations| => evaluations[i].overallScore)
  }

  /** The evaluation rows pass the score validators of `BidEvaluation`. */
  predicate RowsValid(evaluations: seq<EvaluationRow>)
  {
    forall i :: 0 <= i < |evaluations| ==>
      ScoreInRange(evaluations[i].technicalScore) &&
      ScoreInRange(evaluations[i].financialScore) &&
      ScoreInRange(evaluations[i].overallScore)
  }

  /** Averages of validated columns stay within [0, 100]. */
  lemma AverageOrZeroInRange(xs: seq<Option<real>>)
    requires forall i :: 0 <= i < |xs| ==> ScoreInRange(xs[i])
    ensures 0.0 <= AverageOrZero(xs) <= 100.0
  {
    AverageBounds(xs, 0.0, 100.0);
  }

  /** `aggregate_bid_scores`: too few evaluations leave the bid untouched;
      otherwise the averages (missing ones read as 0) and the compliance
      decision are written to the bid's three score fields and its status,
      the total being forced to 0 when the tender's configuration requires
      compliance and the bid is not compliant. */
  method AggregateBidScores(bid: Bid, evaluations: seq<EvaluationRow>, policy: Policy,
                            minEvaluations: int, cfg: Option<EvalConfig>) returns (r: Aggregate)
    modifies bid`technicalScore, bid`financialScore, bid`totalScore, bid`status
    ensures |evaluations| < minEvaluations ==>
              r == NotFinalized(minEvaluations, |evaluations|) && unchanged(bid)
    ensures |evaluations| >= minEvaluations ==> r.Finalized? && r.count == |evaluations|
    ensures r.Finalized? ==>
              && r.compliant == Compliant(policy, PassedCount(evaluations), |evaluations|)
              && r.technical == AverageOrZero(TechnicalColumn(evaluations))
              && r.financial == AverageOrZero(FinancialColumn(evaluations))
              && r.total == (if cfg.Some? && cfg.value.complianceRequired && !r.compliant then 0.0
                             else AverageOrZero(OverallColumn(evaluations)))
              && bid.technicalScore == Some(r.technical)
              && bid.financialScore == Some(r.financial)
              && bid.totalScore == Some(r.total)
              && bid.status == (if r.compliant then Qualified else Disqualified)
    ensures r.Finalized? && RowsValid(evaluations) ==> bid.ScoresValid()
  {
    var total := |evaluations|;
    if total < minEvaluations {
      return NotFinalized(minEvaluations, total);
    }
    var passed := PassedCount(evaluations);
    var compliant := Compliant(policy, passed, total);
    var finalTotal := AverageOrZero(OverallColumn(evaluations));
    var finalTech := AverageOrZero(TechnicalColumn(evaluations));
    var finalFin := AverageOrZero(FinancialColumn(evaluations));
    if cfg.Some? && cfg.value.complianceRequired && !compliant {
      finalTotal := 0.0;
    }
    if RowsValid(evaluations) {
      AverageOrZeroInRange(TechnicalColumn(evaluations));
      AverageOrZeroInRange(FinancialColumn(evaluations));
      AverageOrZeroInRange(OverallColumn(evaluations));
    }
    bid.technicalScore := Some(finalTech);
    bid.financialScore := Some(finalFin);
    bid.totalScore := Some(finalTotal);
    bid.status := if compliant then Qualified else Disqualified;
    r := Finalized(finalTech, finalFin, finalTotal, compliant, total);
  }

  /** Under `any_fail` and `unanimous` a single failed evaluation disqualifies;
      under `majority` it takes more passes than fails. */
  lemma CompliancePolicies(evaluations: seq<EvaluationRow>)
    ensures Compliant(AnyFail, PassedCount(evaluations), |evaluations|)
            <==> forall i :: 0 <= i < |evaluations| ==> evaluations[i].technicalCompliance
    ensures Compliant(Unanimous, PassedCount(evaluations), |evaluations|)
            == Compliant(AnyFail, PassedCount(evaluations), |evaluations|)
    ensures Compliant(Majority, PassedCount(evaluations), |evaluations|)
            <==> PassedCount(evaluations) > |evaluations| - PassedCount(evaluations)
  {
    PassedCountAll(evaluations);
  }

  // ---------------------------------------------------------------- ranking

  /** A bid of the tender as ranking sees it. */
  datatype TenderBid = TenderBid(id: nat, totalScore: Option<real>)

  /** `float(b.total_score or 0)`. */
  function ScoreKey(b: TenderBid): (r: real)
    ensures b.totalScore.Some? ==> r == b.totalScore.value
    ensures b.totalScore.None? ==> r == 0.0
  {
    b.totalScore.GetOr(0.0)
  }

  /** The order of `sort(key=…, reverse=True)`. */
  predicate ScoreAtLeast(a: TenderBid, b: TenderBid)
  {
    ScoreKey(a) >= ScoreKey(b)
  }

  lemma ScoreAtLeastIsPreorder()
    ensures TotalPreorder(ScoreAtLeast)
  {
  }

  /** The bids ordered by descending score, ties in their original order. */
  function RankOrder(bids: seq<TenderBid>): (r: seq<TenderBid>)
    ensures multiset(r) == multiset(bids)
    ensures forall i, j :: 0 <= i < j < |r| ==> ScoreKey(r[i]) >= ScoreKey(r[j])
  {
    ScoreAtLeastIsPreorder();
    SortBySorted(bids, ScoreAtLeast);
    SortBy(bids, ScoreAtLeast)
  }

  /** One entry of the returned list. */
  datatype RankEntry = RankEntry(bidId: nat, totalScore: real, ranking: nat)

  /** Competition ranking ("1, 2, 2, 4"): each entry's rank is one more than
      the position of the first entry with the same score, and every entry
      before that position scores strictly higher. */
  ghost predicate CompetitionRanked(entries: seq<RankEntry>)
  {
    forall i :: 0 <= i < |entries| ==> RankedAt(entries, i)
  }

  /** Entry `i`'s rank is a position no later than its own, where the
      first entry with its score stands, every earlier one scoring more. */
  ghost predicate RankedAt(entries: seq<RankEntry>, i: nat)
    requires i < |entries|
  {
    && 1 <= entries[i].ranking <= i + 1
    && entries[entries[i].ranking - 1].totalScore == entries[i].totalScore
    && (forall j :: 0 <= j < entries[i].ranking - 1 ==> entries[j].totalScore > entries[i].totalScore)
  }

  /** `rank_tender_bids`: one entry per bid, in descending score order,
      carrying competition ranks. */
  method RankTenderBids(bids: seq<TenderBid>) returns (entries: seq<RankEntry>)
    ensures |entries| == |bids|
    ensures forall i :: 0 <= i < |entries| ==>
              entries[i].bidId == RankOrder(bids)[i].id && entries[i].totalScore == ScoreKey(RankOrder(bids)[i])
    ensures forall i, j :: 0 <= i < j < |entries| ==> entries[i].totalScore >= entries[j].totalScore
    ensures CompetitionRanked(entries)
  {
    var sorted := RankOrder(bids);
    assert |sorted| == |bids| by {
      assert |multiset(sorted)| == |multiset(bids)|;
    }
    entries := RankSorted(sorted);
  }

  /** The ranking loop of `rank_tender_bids` over the bids already in
      descending score order: a lower score than the previous one takes the
      1-based position as its rank, an equal one the previous rank. */
  method RankSorted(sorted: seq<TenderBid>) returns (entries: seq<RankEntry>)
    requires forall i, j :: 0 <= i < j < |sorted| ==> ScoreKey(sorted[i]) >= ScoreKey(sorted[j])
    ensures |entries| == |sorted|
    ensures forall i :: 0 <= i < |entries| ==>
              entries[i].bidId == sorted[i].id && entries[i].totalScore == ScoreKey(sorted[i])
    ensures forall i, j :: 0 <= i < j < |entries| ==> entries[i].totalScore >= entries[j].totalScore
    ensures CompetitionRanked(entries)
  {
    var prev: Option<real> := None;
    var rank := 0;
    entries := [];
    var idx := 0;
    while idx < |sorted|
      invariant 0 <= idx <= |sorted|
      invariant |entries| == idx
      invariant forall i :: 0 <= i < idx ==>
                  entries[i].bidId == sorted[i].id && entries[i].totalScore == ScoreKey(sorted[i])
      invariant idx == 0 <==> prev.None?
      invariant idx > 0 ==> prev == Some(entries[idx - 1].totalScore) && rank == entries[idx - 1].ranking
      invariant CompetitionRanked(entries)
    {
      var score := ScoreKey(sorted[idx]);
      if prev.None? || score < prev.value {
        rank := idx + 1;
      }
      prev := Some(score);
      RankAppend(entries, RankEntry(sorted[idx].id, score, rank));
      entries := entries + [RankEntry(sorted[idx].id, score, rank)];
      idx := idx + 1;
    }
  }

  /** An entry scoring no more than those before it keeps the ranking a
      competition ranking when it takes the next position's rank after a
      lower score and the previous entry's rank on a tie. */
  lemma RankAppend(entries: seq<RankEntry>, e: RankEntry)
    requires CompetitionRanked(entries)
    requires forall i, j :: 0 <= i < j < |entries| ==> entries[i].totalScore >= entries[j].totalScore
    requires forall i :: 0 <= i < |entries| ==> entries[i].totalScore >= e.totalScore
    requires |entries| == 0 ==> e.ranking == 1
    requires |entries| > 0 && e.totalScore < entries[|entries| - 1].totalScore ==> e.ranking == |entries| + 1
    requires |entries| > 0 && e.totalScore == entries[|entries| - 1].totalScore
             ==> e.ranking == entries[|entries| - 1].ranking
    ensures CompetitionRanked(entries + [e])
  {
    var n := |entries|;
    forall i | 0 <= i < n ensures RankedAt(entries + [e], i) {
      RankedKept(entries, e, i);
    }
    RankedLast(entries, e);
  }

  /** Appending keeps the rank of an earlier entry correct. */
  lemma RankedKept(entries: seq<RankEntry>, e: RankEntry, i: nat)
    requires i < |entries| && RankedAt(entries, i)
    ensures RankedAt(entries + [e], i)
  {
    var after := entries + [e];
    assert after[i] == entries[i];
    assert after[entries[i].ranking - 1] == entries[entries[i].ranking - 1];
    assert forall j :: 0 <= j < after[i].ranking - 1 ==> after[j] == entries[j];
  }

  /** The appended entry's rank is correct under the conditions of
      `RankAppend`. */
  lemma RankedLast(entries: seq<RankEntry>, e: RankEntry)
    requires CompetitionRanked(entries)
    requires forall i, j :: 0 <= i < j < |entries| ==> entries[i].totalScore >= entries[j].totalScore
    requires forall i :: 0 <= i < |entries| ==> entries[i].totalScore >= e.totalScore
    requires |entries| == 0 ==> e.ranking == 1
    requires |entries| > 0 && e.totalScore < entries[|entries| - 1].totalScore ==> e.ranking == |entries| + 1
    requires |entries| > 0 && e.totalScore == entries[|entries| - 1].totalScore
             ==> e.ranking == entries[|entries| - 1].ranking
    ensures RankedAt(entries + [e], |entries|)
  {
    var after := entries + [e];
    var n := |entries|;
    if n == 0 {
    } else if e.totalScore < entries[n - 1].totalScore {
      assert forall j :: 0 <= j < n ==> after[j] == entries[j] && entries[j].totalScore >= entries[n - 1].totalScore;
    } else {
      var r := entries[n - 1].ranking;
      assert RankedAt(entries, n - 1);
      assert after[r - 1] == entries[r - 1];
      assert forall j :: 0 <= j < r - 1 ==> after[j] == entries[j];
    }
  }

  /** What competition ranking of a descending list guarantees: the first
      entry is ranked 1, equal scores share a rank, a strictly lower score
      is ranked at its 1-based position, ranks never decrease along the
      list and never exceed the position. */
  lemma CompetitionRankFacts(entries: seq<RankEntry>)
    requires forall i, j :: 0 <= i < j < |entries| ==> entries[i].totalScore >= entries[j].totalScore
    requires CompetitionRanked(entries)
    ensures |entries| > 0 ==> entries[0].ranking == 1
    ensures forall i, j :: 0 <= i < |entries| && 0 <= j < |entries| && entries[i].totalScore == entries[j].totalScore
              ==> entries[i].ranking == entries[j].ranking
    ensures forall i :: 0 < i < |entries| && entries[i].totalScore < entries[i - 1].totalScore
              ==> entries[i].ranking == i + 1
    ensures forall i, j :: 0 <= i < j < |entries| ==> entries[i].ranking <= entries[j].ranking
  {
    if |entries| > 0 {
      assert RankedAt(entries, 0);
    }
    forall i, j | 0 <= i < |entries| && 0 <= j < |entries| && entries[i].totalScore == entries[j].totalScore
      ensures entries[i].ranking == entries[j].ranking
    {
      assert RankedAt(entries, i) && RankedAt(entries, j);
      var ri, rj := entries[i].ranking, entries[j].ranking;
      assert entries[ri - 1].totalScore == entries[j].totalScore;
      assert entries[rj - 1].totalScore == entries[i].totalScore;
    }
    forall i, j | 0 <= i < j < |entries| ensures entries[i].ranking <= entries[j].ranking {
      assert RankedAt(entries, i) && RankedAt(entries, j);
      var rj := entries[j].ranking;
      assert entries[rj - 1].totalScore == entries[j].totalScore <= entries[i].totalScore;
    }
    forall i | 0 < i < |entries| && entries[i].totalScore < entries[i - 1].totalScore
      ensures entries[i].ranking == i + 1
    {
      assert RankedAt(entries, i) && RankedAt(entries, i - 1);
    }
  }
}
