/** The side navigation (frontend/src/components/base/SideBar.jsx): the
    route each item leads to, what a click does, and which item is
    highlighted. */
module SideBar {
  import opened Common

  /** The six administrator items, in the order the layout lists them. */
  const AdminIds: seq<string> := ["dashboard", "tenders", "evaluation", "contracts", "reports", "settings"]

  /** `routeFor`: an administrator item leads to `/` followed by its id;
      any other id leads to `/dashboard`. */
  function RouteFor(id: string): (r: string)
    ensures id in AdminIds ==> r == "/" + id
    ensures id !in AdminIds ==> r == "/dashboard"
  {
    match id
    case "dashboard" => "/dashboard"
    case "tenders" => "/tenders"
    case "evaluation" => "/evaluation"
    case "contracts" => "/contracts"
    case "reports" => "/reports"
    case "settings" => "/settings"
    case _ => "/dashboard"
  }

  /** The route table is one-to-one on the administrator items. */
  lemma RouteForInjective(a: string, b: string)
    requires a in AdminIds && b in AdminIds && RouteFor(a) == RouteFor(b)
    ensures a == b
  {
    assert ("/" + a)[1..] == a && ("/" + b)[1..] == b;
  }

  /** What a click causes, in order. */
  datatype Effect = Selected(id: string) | Navigated(path: string)

  /** A click as the component is written: `onSelect` (when it is a
      function) is told first, then the browser goes to `routeFor(id)`.
      The `routeFor` the parent passes is never read, since only three
      props are taken. */
  function HandleClickAsWritten(id: string, hasOnSelect: bool, given: Option<string -> string>): (e: seq<Effect>)
    ensures |e| >= 1 && e[|e| - 1] == Navigated(RouteFor(id))
    ensures Selected(id) in e <==> hasOnSelect
    ensures hasOnSelect ==> e[0] == Selected(id)
  {
    (if hasOnSelect then [Selected(id)] else []) + [Navigated(RouteFor(id))]
  }

  /** The route a click leads to when the parent's `routeFor` is honoured:
      the given table when there is one, the built-in one otherwise. */
  function RouteWith(id: string, given: Option<string -> string>): (r: string)
    ensures given.Some? ==> r == given.value(id)
    ensures given.None? ==> r == RouteFor(id)
  {
    if given.Some? then given.value(id) else RouteFor(id)
  }

  /** A click that honours the parent's `routeFor`: `onSelect` first, then
      the route of `RouteWith`. */
  function HandleClick(id: string, hasOnSelect: bool, given: Option<string -> string>): (e: seq<Effect>)
    ensures |e| >= 1 && e[|e| - 1] == Navigated(RouteWith(id, given))
    ensures Selected(id) in e <==> hasOnSelect
    ensures hasOnSelect ==> e[0] == Selected(id)
  {
    (if hasOnSelect then [Selected(id)] else []) + [Navigated(RouteWith(id, given))]
  }

  /** Without a table from the parent the two agree. */
  lemma HandleClickWithoutTable(id: string, hasOnSelect: bool)
    ensures HandleClick(id, hasOnSelect, None) == HandleClickAsWritten(id, hasOnSelect, None)
  {
  }

  /** An item is highlighted when its id is the active tab. */
  predicate IsActive(activeTab: string, id: string) { activeTab == id }

  /** With distinct ids, at most one item is highlighted. */
  lemma AtMostOneActive(ids: seq<string>, activeTab: string, i: nat, j: nat)
    requires forall p, q :: 0 <= p < q < |ids| ==> ids[p] != ids[q]
    requires i < |ids| && j < |ids| && IsActive(activeTab, ids[i]) && IsActive(activeTab, ids[j])
    ensures i == j
  {
  }
}
