/** The bid endpoints of backend/bids/views.py: the camelCase key
    normalisation applied to request bodies, the lifecycle handlers that move
    a bid between draft, submitted and withdrawn, the edit guard, and the
    supplier performance report. */
module BidViews {
  import opened Common
  import opened BidModels
  import opened BidScoring
  import opened TenderModels

  // ------------------------------------------------------ key normalisation

  /** The request keys the handlers rename, with their snake_case names. */
  const CamelToSnake: map<string, string> := map[
    "totalBidAmount" := "total_bid_amount",
    "vatAmount" := "vat_amount",
    "vatInclusive" := "vat_inclusive",
    "bidValidityDays" := "bid_validity_days",
    "deliveryPeriod" := "delivery_period",
    "paymentTerms" := "payment_terms",
    "warrantyPeriod" := "warranty_period",
    "technicalProposal" := "technical_proposal",
    "projectTimeline" := "project_timeline"]

  /** The same pairs read the other way. */
  const SnakeToCamel: map<string, string> := map[
    "total_bid_amount" := "totalBidAmount",
    "vat_amount" := "vatAmount",
    "vat_inclusive" := "vatInclusive",
    "bid_validity_days" := "bidValidityDays",
    "delivery_period" := "deliveryPeriod",
    "payment_terms" := "paymentTerms",
    "warranty_period" := "warrantyPeriod",
    "technical_proposal" := "technicalProposal",
    "project_timeline" := "projectTimeline"]

  /** `inverse` reads `table` backwards, and no name it maps from is
      itself a key of `table`, so copying never feeds further copying. */
  predicate InverseTables(table: map<string, string>, inverse: map<string, string>)
  {
    && (forall c :: c in table ==> table[c] in inverse && inverse[table[c]] == c)
    && (forall s :: s in inverse ==> inverse[s] in table && table[inverse[s]] == s)
    && (forall s :: s in inverse ==> s !in table)
  }

  /** The renaming table of the handlers has that shape. */
  lemma RenamingTables()
    ensures InverseTables(CamelToSnake, SnakeToCamel)
  {
    CamelToSnakeInverted();
    SnakeToCamelInverted();
  }

  lemma CamelToSnakeInverted()
    ensures forall c :: c in CamelToSnake ==> CamelToSnake[c] in SnakeToCamel && SnakeToCamel[CamelToSnake[c]] == c
  {
  }

  lemma SnakeToCamelInverted()
    ensures forall s :: s in SnakeToCamel ==> SnakeToCamel[s] in CamelToSnake && CamelToSnake[SnakeToCamel[s]] == s
    ensures forall s :: s in SnakeToCamel ==> s !in CamelToSnake
  {
  }

  /** `data` after the copying loop has visited the keys in `done`: each
      visited key of `table` has had its value written under its new name;
      every original key is still there. */
  function Renamed<V>(table: map<string, string>, inverse: map<string, string>, data: map<string, V>, done: set<string>)
    : (r: map<string, V>)
    requires done <= data.Keys
  {
    map k | k in data.Keys + (set s | s in inverse && inverse[s] in done)
      :: if k in inverse && inverse[k] in done then data[inverse[k]] else data[k]
  }

  /** The request body once every key has been visited. */
  function Normalized<V>(data: map<string, V>): (r: map<string, V>)
  {
    Renamed(CamelToSnake, SnakeToCamel, data, data.Keys)
  }

  /** After the loop the body keeps every key it had, carries each renamed
      key's value under the snake_case name as well, leaves every other
      original value alone, and gains nothing else. */
  lemma NormalizedMeaning<V>(data: map<string, V>)
    ensures var r := Normalized(data);
            && data.Keys <= r.Keys
            && (forall c :: c in data && c in CamelToSnake ==> CamelToSnake[c] in r && r[CamelToSnake[c]] == data[c])
            && (forall k :: k in data && k !in SnakeToCamel ==> r[k] == data[k])
            && (forall k :: k in r ==> k in data || (k in SnakeToCamel && SnakeToCamel[k] in data))
  {
    RenamingTables();
    RenamedMeaning(CamelToSnake, SnakeToCamel, data);
  }

  lemma RenamedMeaning<V>(table: map<string, string>, inverse: map<string, string>, data: map<string, V>)
    requires InverseTables(table, inverse)
    ensures var r := Renamed(table, inverse, data, data.Keys);
            && data.Keys <= r.Keys
            && (forall c :: c in data && c in table ==> table[c] in r && r[table[c]] == data[c])
            && (forall k :: k in data && k !in inverse ==> r[k] == data[k])
            && (forall k :: k in r ==> k in data || (k in inverse && inverse[k] in data))
  {
  }

  /** The loop of the create and PATCH handlers: for each key of the body, a
      renamed key gets its value copied under the snake_case name. */
  method NormalizeKeys<V>(data: map<string, V>) returns (out: map<string, V>)
    ensures out == Normalized(data)
  {
    RenamingTables();
    out := RenameLoop(CamelToSnake, SnakeToCamel, data);
  }

  /** The copying loop over a given table. */
  method RenameLoop<V>(table: map<string, string>, inverse: map<string, string>, data: map<string, V>)
    returns (out: map<string, V>)
    requires InverseTables(table, inverse)
    ensures out == Renamed(table, inverse, data, data.Keys)
  {
    out := data;
    var todo := data.Keys;
    ghost var done: set<string> := {};
    RenamedNone(table, inverse, data);
    while todo != {}
      invariant todo + done == data.Keys && todo !! done
      invariant out == Renamed(table, inverse, data, done)
      decreases todo
    {
      var k :| k in todo;
      RenamedStep(table, inverse, data, done, k);
      if k in table {
        out := out[table[k] := data[k]];
      }
      todo := todo - {k};
      done := done + {k};
    }
  }

  /** Before any key is visited nothing has been copied. */
  lemma RenamedNone<V>(table: map<string, string>, inverse: map<string, string>, data: map<string, V>)
    ensures Renamed(table, inverse, data, {}) == data
  {
  }

  /** Visiting one more key adds at most the copy of that key's value. */
  lemma RenamedStep<V>(table: map<string, string>, inverse: map<string, string>, data: map<string, V>, done: set<string>, k: string)
    requires InverseTables(table, inverse)
    requires done <= data.Keys && k in data && k !in done
    ensures k in table ==> Renamed(table, inverse, data, done + {k}) == Renamed(table, inverse, data, done)[table[k] := data[k]]
    ensures k !in table ==> Renamed(table, inverse, data, done + {k}) == Renamed(table, inverse, data, done)
  {
    var before, after := Renamed(table, inverse, data, done), Renamed(table, inverse, data, done + {k});
    if k in table {
      var s := table[k];
      assert after.Keys == before.Keys + {s};
      forall j | j in after ensures after[j] == before[s := data[k]][j] {
      }
    } else {
      assert after.Keys == before.Keys;
      forall j | j in after ensures after[j] == before[j] {
      }
    }
  }

  /** Normalising twice changes nothing more: the copies are made from
      camelCase keys, which normalisation never overwrites. */
  lemma NormalizedIdempotent<V>(data: map<string, V>)
    ensures Normalized(Normalized(data)) == Normalized(data)
  {
    RenamingTables();
    RenamedIdempotent(CamelToSnake, SnakeToCamel, data);
  }

  lemma RenamedIdempotent<V>(table: map<string, string>, inverse: map<string, string>, data: map<string, V>)
    requires InverseTables(table, inverse)
    ensures var once := Renamed(table, inverse, data, data.Keys);
            Renamed(table, inverse, once, once.Keys) == once
  {
    RenamedMeaning(table, inverse, data);
    var once := Renamed(table, inverse, data, data.Keys);
    RenamedMeaning(table, inverse, once);
    var twice := Renamed(table, inverse, once, once.Keys);
    assert twice.Keys == once.Keys;
    forall k | k in once ensures twice[k] == once[k] {
      if k in inverse && inverse[k] in once {
        var c := inverse[k];
        assert c !in inverse;
        assert c in data;
      }
    }
  }

  // --------------------------------------------------------------- lifecycle

  /** Who is asking. */
  datatype Requester = Requester(userId: nat, isSuperuser: bool)

  /** Why a lifecycle request is refused with 400. */
  datatype Refusal =
    | AlreadySubmitted
    | MissingDocuments(missing: seq<string>)
    | NotSubmitted
    | TenderClosed
    | TenderNotOpen
    | InvalidStatus
    | SubmittedLocked

  /** The handlers' answers. `NotFound` is what the supplier-scoped lookup
      gives to anyone but the bid's supplier. */
  datatype BidResponse = Done(state: BidState) | NotFound | Forbidden | Refused(why: Refusal)

  /** The `status` a change-status or PATCH request names. */
  datatype Target = ToDraft | ToSubmitted | ToWithdrawn | ToOther

  /** A handler's answer together with the bid's lifecycle state after it. */
  datatype Outcome = Outcome(response: BidResponse, state: BidState)

  /** `SubmitBidView.post`: only the supplier or a superuser; an already
      submitted bid and a bid missing mandatory uploads are refused; the
      tender's own state is not consulted. */
  function Submit(s: BidState, who: Requester, supplierId: nat, missing: seq<string>, now: int): (o: Outcome)
    ensures o.response.Done? <==> (who.userId == supplierId || who.isSuperuser) && s.status != Submitted && missing == []
    ensures o.response.Done? ==> o.state == BidState(Submitted, Some(now)) && o.response.state == o.state
    ensures !o.response.Done? ==> o.state == s
    ensures (who.userId == supplierId || who.isSuperuser) && s.status != Submitted && missing != []
            ==> o.response == Refused(MissingDocuments(missing))
  {
    if who.userId != supplierId && !who.isSuperuser then Outcome(Forbidden, s)
    else if s.status == Submitted then Outcome(Refused(AlreadySubmitted), s)
    else if missing != [] then Outcome(Refused(MissingDocuments(missing)), s)
    else
      var t := BidState(Submitted, Some(now));
      Outcome(Done(t), t)
  }

  /** `UnsubmitBidView.post`: a submitted bid of the requesting supplier goes
      back to draft while the tender is open. */
  function Unsubmit(s: BidState, who: Requester, supplierId: nat, open: bool): (o: Outcome)
    ensures o.response.Done? <==> who.userId == supplierId && s.status == Submitted && open
    ensures o.response.Done? ==> o.state == BidState(Draft, None) && o.response.state == o.state
    ensures !o.response.Done? ==> o.state == s
  {
    if who.userId != supplierId then Outcome(NotFound, s)
    else if s.status != Submitted then Outcome(Refused(NotSubmitted), s)
    else if !open then Outcome(Refused(TenderClosed), s)
    else
      var t := BidState(Draft, None);
      Outcome(Done(t), t)
  }

  /** `ChangeBidStatusView.post`, as written: submitting needs an open tender
      but no upload check; withdrawing is always allowed and keeps the
      submission instant; back to draft from submitted needs an open tender
      and clears the instant. */
  function ChangeStatus(s: BidState, who: Requester, supplierId: nat, target: Target, open: bool, now: int): (o: Outcome)
    ensures o.response.Done? <==>
              who.userId == supplierId && target != ToOther &&
              (target == ToSubmitted ==> open) &&
              (target == ToDraft && s.status == Submitted ==> open)
    ensures o.response.Done? ==> o.response.state == o.state
    ensures !o.response.Done? ==> o.state == s
    ensures o.response.Done? && target == ToSubmitted ==> o.state == BidState(Submitted, Some(now))
    ensures o.response.Done? && target == ToWithdrawn ==> o.state == BidState(Withdrawn, s.submittedAt)
    ensures o.response.Done? && target == ToDraft ==>
              o.state == BidState(Draft, if s.status == Submitted then None else s.submittedAt)
  {
    if who.userId != supplierId then Outcome(NotFound, s)
    else
      match target
      case ToOther => Outcome(Refused(InvalidStatus), s)
      case ToSubmitted =>
        if !open then Outcome(Refused(TenderNotOpen), s)
        else
          var t := BidState(Submitted, Some(now));
          Outcome(Done(t), t)
      case ToDraft =>
        if s.status != Submitted then
          var t := BidState(Draft, s.submittedAt);
          Outcome(Done(t), t)
        else if !open then Outcome(Refused(TenderClosed), s)
        else
          var t := BidState(Draft, None);
          Outcome(Done(t), t)
      case ToWithdrawn =>
        var t := BidState(Withdrawn, s.submittedAt);
        Outcome(Done(t), t)
  }

  /** Every handler keeps a submitted bid's submission instant. */
  lemma LifecycleKeepsConsistency(s: BidState, who: Requester, supplierId: nat, missing: seq<string>,
                                  target: Target, open: bool, now: int)
    requires Consistent(s)
    ensures Consistent(Submit(s, who, supplierId, missing, now).state)
    ensures Consistent(Unsubmit(s, who, supplierId, open).state)
    ensures Consistent(ChangeStatus(s, who, supplierId, target, open, now).state)
  {
  }

  /** The change-status endpoint lets a bid with missing mandatory uploads
      become submitted: a draft whose tender demands one unmet upload. */
  lemma ChangeStatusSkipsUploadCheck()
    ensures var o := ChangeStatus(BidState(Draft, None), Requester(1, false), 1, ToSubmitted, true, 0);
            o.response.Done? && o.state.status == Submitted
            && Submit(BidState(Draft, None), Requester(1, false), 1, ["Tax certificate (pdf)"], 0).response
               == Refused(MissingDocuments(["Tax certificate (pdf)"]))
  {
  }

  /** Change-status with the upload check that `SubmitBidView` applies. */
  function ChangeStatusChecked(s: BidState, who: Requester, supplierId: nat, target: Target, open: bool,
                               missing: seq<string>, now: int): (o: Outcome)
    ensures target != ToSubmitted || missing == [] ==> o == ChangeStatus(s, who, supplierId, target, open, now)
  {
    if target == ToSubmitted && who.userId == supplierId && open && missing != [] then
      Outcome(Refused(MissingDocuments(missing)), s)
    else ChangeStatus(s, who, supplierId, target, open, now)
  }

  /** With the check in place, no endpoint submits a bid whose mandatory
      uploads are missing. */
  lemma SubmissionRequiresUploads(s: BidState, who: Requester, supplierId: nat, target: Target, open: bool,
                                  missing: seq<string>, now: int)
    requires s.status != Submitted
    ensures Submit(s, who, supplierId, missing, now).state.status == Submitted ==> missing == []
    ensures ChangeStatusChecked(s, who, supplierId, target, open, missing, now).state.status == Submitted ==> missing == []
  {
  }

  /** `SubmitBidView.post` on a stored bid. */
  method SubmitBidView(bid: Bid, who: Requester, reqs: seq<UploadRequirement>, present: set<string>, now: int)
    returns (resp: BidResponse)
    modifies bid`status, bid`submittedAt
    ensures var o := Submit(old(bid.State()), who, bid.supplierId, MissingUploads(reqs, present), now);
            resp == o.response && bid.State() == o.state
  {
    if who.userId != bid.supplierId && !who.isSuperuser {
      return Forbidden;
    }
    if bid.status == Submitted {
      return Refused(AlreadySubmitted);
    }
    var ok, missing := EnsureRequiredUploads(reqs, present);
    MissingUploadsExact(reqs, present);
    if !ok {
      return Refused(MissingDocuments(missing));
    }
    bid.status := Submitted;
    bid.submittedAt := Some(now);
    resp := Done(bid.State());
  }

  /** `UnsubmitBidView.post` on a stored bid. */
  method UnsubmitBidView(bid: Bid, who: Requester, tender: Tender, now: int) returns (resp: BidResponse)
    modifies bid`status, bid`submittedAt
    ensures var o := Unsubmit(old(bid.State()), who, bid.supplierId, IsOpen(tender, now));
            resp == o.response && bid.State() == o.state
  {
    if who.userId != bid.supplierId {
      return NotFound;
    }
    if bid.status != Submitted {
      return Refused(NotSubmitted);
    }
    if !IsOpen(tender, now) {
      return Refused(TenderClosed);
    }
    bid.status := Draft;
    bid.submittedAt := None;
    resp := Done(bid.State());
  }

  /** `ChangeBidStatusView.post` on a stored bid. */
  method ChangeBidStatusView(bid: Bid, who: Requester, target: Target, tender: Tender, now: int)
    returns (resp: BidResponse)
    modifies bid`status, bid`submittedAt
    ensures var o := ChangeStatus(old(bid.State()), who, bid.supplierId, target, IsOpen(tender, now), now);
            resp == o.response && bid.State() == o.state
  {
    if who.userId != bid.supplierId {
      return NotFound;
    }
    if target == ToOther {
      return Refused(InvalidStatus);
    }
    if target == ToSubmitted {
      if !IsOpen(tender, now) {
        return Refused(TenderNotOpen);
      }
      bid.status := Submitted;
      bid.submittedAt := Some(now);
    } else if target == ToDraft {
      if bid.status != Submitted {
        bid.status := Draft;
      } else {
        if !IsOpen(tender, now) {
          return Refused(TenderClosed);
        }
        bid.status := Draft;
        bid.submittedAt := None;
      }
    } else {
      bid.status := Withdrawn;
    }
    resp := Done(bid.State());
  }

  /** `BidDetailView.patch`'s guard: a submitted bid can only be patched by a
      request that moves it to draft or withdrawn. */
  predicate PatchAllowed(status: BidStatus, requested: Option<Target>)
  {
    status != Submitted || requested == Some(ToDraft) || requested == Some(ToWithdrawn)
  }

  /** The guard only ever refuses submitted bids, and for those it refuses
      exactly the requests that do not name draft or withdrawn. */
  lemma PatchGuard(status: BidStatus, requested: Option<Target>)
    ensures status != Submitted ==> PatchAllowed(status, requested)
    ensures status == Submitted ==>
              (PatchAllowed(status, requested) <==> requested.Some? && requested.value in {ToDraft, ToWithdrawn})
  {
  }

  // ---------------------------------------------------- supplier performance

  /** The columns of one bid the report reads. */
  datatype BidRecord = BidRecord(supplierId: nat, submittedAt: Option<int>, totalScore: Option<real>, status: BidStatus)

  /** An evaluation's overall score, attributed to its bid's supplier. */
  datatype EvaluationRecord = EvaluationRecord(supplierId: nat, overallScore: Option<real>)

  function SubmittedBids(bids: seq<BidRecord>, sid: nat): (r: nat)
    ensures r <= |bids|
  {
    if bids == [] then 0
    else SubmittedBids(bids[..|bids| - 1], sid)
         + (if bids[|bids| - 1].supplierId == sid && bids[|bids| - 1].submittedAt.Some? then 1 else 0)
  }

  function WinningBids(bids: seq<BidRecord>, sid: nat): (r: nat)
    ensures r <= |bids|
  {
    if bids == [] then 0
    else WinningBids(bids[..|bids| - 1], sid)
         + (if bids[|bids| - 1].supplierId == sid && bids[|bids| - 1].status == Winning then 1 else 0)
  }

  /** The number of contracts whose supplier is `sid`. */
  function ContractsOf(contractSuppliers: seq<nat>, sid: nat): (r: nat)
    ensures r <= |contractSuppliers|
    ensures r == 0 <==> sid !in contractSuppliers
  {
    if contractSuppliers == [] then 0
    else ContractsOf(contractSuppliers[..|contractSuppliers| - 1], sid)
         + (if contractSuppliers[|contractSuppliers| - 1] == sid then 1 else 0)
  }

  function BidScoresOf(bids: seq<BidRecord>, sid: nat): seq<Option<real>>
  {
    if bids == [] then []
    else BidScoresOf(bids[..|bids| - 1], sid)
         + (if bids[|bids| - 1].supplierId == sid then [bids[|bids| - 1].totalScore] else [])
  }

  function EvaluationScoresOf(evals: seq<EvaluationRecord>, sid: nat): seq<Option<real>>
  {
    if evals == [] then []
    else EvaluationScoresOf(evals[..|evals| - 1], sid)
         + (if evals[|evals| - 1].supplierId == sid then [evals[|evals| - 1].overallScore] else [])
  }

  /** One row of the per-supplier bid aggregate (`sums_map`). */
  datatype BidTotals = BidTotals(totalBids: nat, avgBidScore: Option<real>, winsFromBids: nat)

  /** The three aggregates the report is built from, as the database
      computes them: per supplier with bids, its submitted count, average
      total score and winning count; per supplier with contracts, the
      contract count; per supplier with evaluations, the average overall
      score. */
  datatype Aggregates = Aggregates(sums: map<nat, BidTotals>, wins: map<nat, nat>, evalAvg: map<nat, Option<real>>)

  function AggregatesOf(bids: seq<BidRecord>, contractSuppliers: seq<nat>, evals: seq<EvaluationRecord>): (a: Aggregates)
    ensures forall sid :: sid in a.wins ==> a.wins[sid] > 0
  {
    Aggregates(
      map sid | sid in (set i | 0 <= i < |bids| :: bids[i].supplierId) ::
        BidTotals(SubmittedBids(bids, sid), Average(BidScoresOf(bids, sid)), WinningBids(bids, sid)),
      map sid | sid in (set i | 0 <= i < |contractSuppliers| :: contractSuppliers[i]) ::
        ContractsOf(contractSuppliers, sid),
      map sid | sid in (set i | 0 <= i < |evals| :: evals[i].supplierId) ::
        Average(EvaluationScoresOf(evals, sid)))
  }

  /** One line of the report. */
  datatype PerformanceRow = PerformanceRow(
    supplierId: nat,
    bidsWon: nat,
    totalBids: nat,
    successRate: Option<real>,
    performanceScore: Option<real>)

  /** One supplier's line, read off the aggregates with Python's `dict.get`
      defaults (its meaning: SupplierRowMeaning). */
  function SupplierRow(sid: nat, a: Aggregates): PerformanceRow
  {
    var total := if sid in a.sums then a.sums[sid].totalBids else 0;
    var won := if sid in a.wins then a.wins[sid] else if sid in a.sums then a.sums[sid].winsFromBids else 0;
    var rate := if total > 0 then Some(RoundTo(won as real / total as real * 100.0, 2)) else None;
    var perf := if sid in a.sums && a.sums[sid].avgBidScore.Some? then a.sums[sid].avgBidScore
                else if sid in a.evalAvg then a.evalAvg[sid] else None;
    PerformanceRow(sid, won, total, rate, if perf.Some? then Some(RoundTo(perf.value, 2)) else None)
  }

  /** A supplier's line in terms of the stored records: wins come from
      contracts when the supplier has any, else from winning bids; the
      success rate exists only when something was submitted; the
      performance score comes from the bids' total scores, else from the
      evaluations' overall scores. */
  lemma SupplierRowMeaning(sid: nat, bids: seq<BidRecord>, contractSuppliers: seq<nat>, evals: seq<EvaluationRecord>)
    ensures var r := SupplierRow(sid, AggregatesOf(bids, contractSuppliers, evals));
            && r.supplierId == sid && r.totalBids == SubmittedBids(bids, sid)
            && (sid in contractSuppliers ==> r.bidsWon == ContractsOf(contractSuppliers, sid))
            && (sid !in contractSuppliers ==> r.bidsWon == WinningBids(bids, sid))
            && (r.successRate.None? <==> r.totalBids == 0)
            && (r.performanceScore.None? <==>
                  Average(BidScoresOf(bids, sid)).None? && Average(EvaluationScoresOf(evals, sid)).None?)
            && (Average(BidScoresOf(bids, sid)).Some? ==>
                  r.performanceScore == Some(RoundTo(Average(BidScoresOf(bids, sid)).value, 2)))
  {
    AggregatesMeaning(sid, bids, contractSuppliers, evals);
  }

  /** What the aggregates hold for one supplier. */
  lemma AggregatesMeaning(sid: nat, bids: seq<BidRecord>, contractSuppliers: seq<nat>, evals: seq<EvaluationRecord>)
    ensures var a := AggregatesOf(bids, contractSuppliers, evals);
            && (sid in a.sums ==> a.sums[sid] == BidTotals(SubmittedBids(bids, sid), Average(BidScoresOf(bids, sid)), WinningBids(bids, sid)))
            && (sid !in a.sums ==> SubmittedBids(bids, sid) == 0 && WinningBids(bids, sid) == 0 && BidScoresOf(bids, sid) == [])
            && (sid in a.wins <==> sid in contractSuppliers)
            && (sid in a.wins ==> a.wins[sid] == ContractsOf(contractSuppliers, sid))
            && (sid in a.evalAvg ==> a.evalAvg[sid] == Average(EvaluationScoresOf(evals, sid)))
            && (sid !in a.evalAvg ==> EvaluationScoresOf(evals, sid) == [])
  {
    var a := AggregatesOf(bids, contractSuppliers, evals);
    NoBidsNoTotals(bids, sid);
    NoEvaluationsNoScores(evals, sid);
    if sid in contractSuppliers {
      var i :| 0 <= i < |contractSuppliers| && contractSuppliers[i] == sid;
      assert sid in a.wins;
    }
  }

  /** A supplier without bids has nothing submitted, won or scored. */
  lemma {:induction false} NoBidsNoTotals(bids: seq<BidRecord>, sid: nat)
    ensures (forall i :: 0 <= i < |bids| ==> bids[i].supplierId != sid) ==>
              SubmittedBids(bids, sid) == 0 && WinningBids(bids, sid) == 0 && BidScoresOf(bids, sid) == []
    ensures (exists i :: 0 <= i < |bids| && bids[i].supplierId == sid) ==>
              sid in (set i | 0 <= i < |bids| :: bids[i].supplierId)
  {
    if bids != [] {
      NoBidsNoTotals(bids[..|bids| - 1], sid);
    }
  }

  lemma {:induction false} NoEvaluationsNoScores(evals: seq<EvaluationRecord>, sid: nat)
    ensures (forall i :: 0 <= i < |evals| ==> evals[i].supplierId != sid) ==> EvaluationScoresOf(evals, sid) == []
  {
    if evals != [] {
      NoEvaluationsNoScores(evals[..|evals| - 1], sid);
    }
  }

  /** The sort key `(bids_won or 0, performance_score or 0)`, descending. */
  predicate RanksAbove(a: PerformanceRow, b: PerformanceRow)
  {
    a.bidsWon > b.bidsWon ||
    (a.bidsWon == b.bidsWon && a.performanceScore.GetOr(0.0) >= b.performanceScore.GetOr(0.0))
  }

  lemma RanksAboveIsPreorder()
    ensures TotalPreorder(RanksAbove)
  {
  }

  /** `SupplierPerformanceView.get`: one line per supplier that has bids or
      contracts, built in the (unspecified) iteration order `ids` of that
      set, then sorted by wins and then performance, both descending. */
  method SupplierPerformance(ids: seq<nat>, a: Aggregates) returns (out: seq<PerformanceRow>)
    requires forall i, j :: 0 <= i < j < |ids| ==> ids[i] != ids[j]
    requires forall sid :: sid in ids <==> sid in a.sums || sid in a.wins
    ensures |out| == |ids|
    ensures forall sid :: sid in ids ==> SupplierRow(sid, a) in out
    ensures forall r :: r in out ==> r.supplierId in ids && r == SupplierRow(r.supplierId, a)
    ensures forall i, j :: 0 <= i < j < |out| ==> RanksAbove(out[i], out[j])
  {
    var rows: seq<PerformanceRow> := [];
    var i := 0;
    while i < |ids|
      invariant 0 <= i <= |ids|
      invariant |rows| == i
      invariant forall k :: 0 <= k < i ==> rows[k] == SupplierRow(ids[k], a)
    {
      rows := rows + [SupplierRow(ids[i], a)];
      i := i + 1;
    }
    RanksAboveIsPreorder();
    SortBySorted(rows, RanksAbove);
    out := SortBy(rows, RanksAbove);
    ReportLines(ids, rows, out, a);
  }

  /** Sorting lines built one per id keeps exactly those lines. */
  lemma ReportLines(ids: seq<nat>, rows: seq<PerformanceRow>, out: seq<PerformanceRow>, a: Aggregates)
    requires |rows| == |ids| && forall k :: 0 <= k < |ids| ==> rows[k] == SupplierRow(ids[k], a)
    requires multiset(out) == multiset(rows)
    ensures |out| == |ids|
    ensures forall sid :: sid in ids ==> SupplierRow(sid, a) in out
    ensures forall r :: r in out ==> r.supplierId in ids && r == SupplierRow(r.supplierId, a)
  {
    assert |out| == |multiset(out)| == |multiset(rows)| == |rows|;
    forall sid | sid in ids ensures SupplierRow(sid, a) in out {
      var k :| 0 <= k < |ids| && ids[k] == sid;
      assert rows[k] in multiset(rows);
    }
    forall r | r in out ensures r.supplierId in ids && r == SupplierRow(r.supplierId, a) {
      assert r in multiset(out);
      var k :| 0 <= k < |rows| && rows[k] == r;
    }
  }

  /** With no more wins than submitted bids, the success rate is a percentage. */
  lemma SuccessRateBounds(sid: nat, a: Aggregates)
    requires SupplierRow(sid, a).bidsWon <= SupplierRow(sid, a).totalBids
    ensures SupplierRow(sid, a).successRate.Some? ==> 0.0 <= SupplierRow(sid, a).successRate.value <= 100.0
  {
    var r := SupplierRow(sid, a);
    if r.totalBids > 0 {
      FractionAtMostOne(r.bidsWon as real, r.totalBids as real);
      RoundToPercent(r.bidsWon as real / r.totalBids as real * 100.0, 2);
    }
  }
}
