/** The page frame (frontend/src/components/base/AppLayout.jsx): bidder
    mode, the tab derived from the address, the navigation items and the
    routes of the bidder tabs. */
module AppLayout {
  import opened Common
  import SideBar

  /** The address is in the bidder area when it starts with `/bidder`. */
  predicate IsBidder(path: string) { StartsWith(path, "/bidder") }

  /** Every address below a bidder address is in the bidder area too, and
      the administrator's `/dashboard` is not. */
  lemma BidderAreaIsPrefix(path: string, rest: string)
    ensures IsBidder(path) ==> IsBidder(path + rest)
    ensures !IsBidder("/dashboard")
  {
    if IsBidder(path) {
      assert (path + rest)[..7] == path[..7];
    }
    DiffersAt("/dashboard", "/bidder", 1);
  }

  const BidderIds: seq<string> := ["bidder-dashboard", "opportunities", "my-bids"]

  /** The navigation items: the three bidder tabs in bidder mode, the six
      administrator items otherwise. */
  function NavigationIds(bidder: bool): (ids: seq<string>)
    ensures bidder ==> ids == BidderIds && |ids| == 3
    ensures !bidder ==> ids == SideBar.AdminIds && |ids| == 6
    ensures forall p, q :: 0 <= p < q < |ids| ==> ids[p] != ids[q]
  {
    if bidder then BidderIds else SideBar.AdminIds
  }

  /** The active tab for an address: in the bidder area it follows the
      address (`/bidder/opportunities…`, `/bidder/bids…`, else the bidder
      dashboard); elsewhere it is the page title, `dashboard` when there is
      none. */
  function ActiveTab(path: string, title: string): (t: string)
    ensures IsBidder(path) ==> t in BidderIds
    ensures IsBidder(path) && StartsWith(path, "/bidder/opportunities") ==> t == "opportunities"
    ensures IsBidder(path) && !StartsWith(path, "/bidder/opportunities") && StartsWith(path, "/bidder/bids") ==> t == "my-bids"
    ensures !IsBidder(path) ==> t == (if title != "" then title else "dashboard")
  {
    if IsBidder(path) then
      if StartsWith(path, "/bidder/opportunities") then "opportunities"
      else if StartsWith(path, "/bidder/bids") then "my-bids"
      else "bidder-dashboard"
    else if title != "" then title
    else "dashboard"
  }

  /** `bidderRouteFor`: each bidder tab's own route, the bidder dashboard
      for anything else; every route is in the bidder area. */
  function BidderRouteFor(id: string): (r: string)
    ensures id == "opportunities" ==> r == "/bidder/opportunities"
    ensures id == "my-bids" ==> r == "/bidder/bids"
    ensures id != "opportunities" && id != "my-bids" ==> r == "/bidder/dashboard"
    ensures IsBidder(r)
  {
    match id
    case "bidder-dashboard" => "/bidder/dashboard"
    case "opportunities" => "/bidder/opportunities"
    case "my-bids" => "/bidder/bids"
    case _ => "/bidder/dashboard"
  }

  /** Going to a bidder tab's route makes that tab the active one. */
  lemma BidderRouteRoundTrip(id: string, title: string)
    requires id in BidderIds
    ensures ActiveTab(BidderRouteFor(id), title) == id
  {
    if id == "bidder-dashboard" {
      DiffersAt("/bidder/dashboard", "/bidder/bids", 8);
    }
  }

  /** In bidder mode the active tab is always one of the items shown. */
  lemma BidderTabShown(path: string, title: string)
    requires IsBidder(path)
    ensures ActiveTab(path, title) in NavigationIds(IsBidder(path))
  {
  }

  /** As the side bar is written, a bidder who clicks `My Bids` is sent to
      `/dashboard`, out of the bidder area: the bidder table the layout
      passes is ignored. */
  lemma BidderClickLeavesBidderArea(title: string)
    ensures var e := SideBar.HandleClickAsWritten("my-bids", true, Some(BidderRouteFor));
            e[|e| - 1] == SideBar.Navigated("/dashboard") && !IsBidder("/dashboard")
  {
    DiffersAt("/dashboard", "/bidder", 1);
  }

  /** When the table is honoured, a click on any bidder tab lands in the
      bidder area on an address whose derived tab is the one clicked. */
  lemma BidderClickStaysOnTab(id: string, title: string)
    requires id in BidderIds
    ensures var e := SideBar.HandleClick(id, true, Some(BidderRouteFor));
            e[|e| - 1] == SideBar.Navigated(BidderRouteFor(id))
            && IsBidder(BidderRouteFor(id)) && ActiveTab(BidderRouteFor(id), title) == id
  {
    BidderRouteRoundTrip(id, title);
  }
}
