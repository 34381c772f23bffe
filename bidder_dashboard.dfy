/** The supplier's dashboard summary
    (frontend/src/components/bidder/dashboard/BidderDashboard.jsx): the
    counts over the bids loaded and the most recent ones. */
module BidderDashboard {
  import opened Common

  /** A bid as listed; a missing status is None. */
  datatype ListedBid = ListedBid(id: int, status: Option<string>)

  /** `(b.status || '').toLowerCase()`. */
  function StatusKey(b: ListedBid): string { Lower(b.status.GetOr("")) }

  predicate IsDraft(b: ListedBid) { StatusKey(b) == "draft" }

  predicate IsSubmitted(b: ListedBid) { StatusKey(b) == "submitted" }

  /** The three cards. */
  datatype Stats = Stats(total: nat, drafts: nat, submitted: nat)

  /** The statistics of the loaded list: its length and the
      case-insensitive counts of drafts and of submitted bids, which never
      add up to more than the length. */
  function StatsOf(bids: seq<ListedBid>): (s: Stats)
    ensures s.total == |bids|
    ensures s.drafts + s.submitted <= s.total
    ensures s.drafts == Count(bids, IsDraft) && s.submitted == Count(bids, IsSubmitted)
  {
    DisjointCounts(bids, IsDraft, IsSubmitted);
    Stats(|bids|, Count(bids, IsDraft), Count(bids, IsSubmitted))
  }

  /** `bids.slice(0, 5)`: the first five bids, or all of them when fewer. */
  function Recent(bids: seq<ListedBid>): (r: seq<ListedBid>)
    ensures |r| <= 5 && |r| <= |bids|
    ensures |bids| <= 5 ==> r == bids
    ensures r == bids[..|r|]
  {
    if |bids| <= 5 then bids else bids[..5]
  }

  /** The dashboard after a load: an answer with `results` is read from
      there, a bare list as it is, anything else as no bids. */
  function Dashboard(results: Option<seq<ListedBid>>, bare: Option<seq<ListedBid>>): (d: (Stats, seq<ListedBid>))
    ensures var bids := ListOf(results, bare);
            d.0 == StatsOf(bids) && d.1 == Recent(bids)
    ensures results.None? && bare.None? ==> d.0 == Stats(0, 0, 0) && d.1 == []
  {
    var bids := ListOf(results, bare);
    (StatsOf(bids), Recent(bids))
  }
}
