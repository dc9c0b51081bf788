/** The application shell: the three route guards, `getRoutes` turning the
    route table into router entries, the split of the table between the
    user and the admin side navigation, and which side navigation shows. */
module AppRoutes {
  import opened Wrappers
  import opened Text
  import opened Seqs
  import opened Storage

  /** What a guard renders: the guarded page, or a redirect. */
  datatype Element = Children | Redirect(to: string)

  /** `PrivateRoute`: signed-in users only. */
  function PrivateRoute(items: map<string, string>): (e: Element)
    ensures e == Children <==> AccessToken in items && items[AccessToken] != ""
    ensures e != Children ==> e == Redirect("/sign-in")
  {
    if AccessToken in items && items[AccessToken] != "" then Children else Redirect("/sign-in")
  }

  /** `PublicRoute`: visitors only; a user token sends to the user
      dashboard even when an admin token is present too. */
  function PublicRoute(items: map<string, string>): (e: Element)
    ensures AccessToken in items && items[AccessToken] != "" ==> e == Redirect("/dashboard")
    ensures !(AccessToken in items && items[AccessToken] != "") && AdminToken in items && items[AdminToken] != "" ==>
      e == Redirect("/admin/dashboard")
    ensures e == Children <==> !(AccessToken in items && items[AccessToken] != "") && !(AdminToken in items && items[AdminToken] != "")
  {
    if AccessToken in items && items[AccessToken] != "" then Redirect("/dashboard")
    else if AdminToken in items && items[AdminToken] != "" then Redirect("/admin/dashboard")
    else Children
  }

  /** `AdminRoute`: administrators only. */
  function AdminRoute(items: map<string, string>): (e: Element)
    ensures e == Children <==> AdminToken in items && items[AdminToken] != ""
    ensures e != Children ==> e == Redirect("/admin/sign-in")
  {
    if AdminToken in items && items[AdminToken] != "" then Children else Redirect("/admin/sign-in")
  }

  /** No storage state shows both a signed-in page and a visitors' page. */
  lemma PrivateAndPublicExclusive(items: map<string, string>)
    ensures PrivateRoute(items) == Children ==> PublicRoute(items) == Redirect("/dashboard")
    ensures PublicRoute(items) == Children ==> PrivateRoute(items) == Redirect("/sign-in") && AdminRoute(items) != Children
  {
  }

  /** Signing in as a user, which stores a non-empty access token, opens
      the guarded pages and closes the visitors' pages whatever else is
      stored. */
  lemma TokenOpensPrivate(items: map<string, string>, access: string)
    requires access != ""
    ensures PrivateRoute(items[AccessToken := access]) == Children
    ensures PublicRoute(items[AccessToken := access]) == Redirect("/dashboard")
  {
  }

  /** An entry of the route table, with the fields `getRoutes` reads;
      `hasCollapse` says whether `collapse` is set at all. */
  datatype RouteEntry = RouteEntry(key: string, route: Option<string>, component: string,
                                   admin: bool, protected: bool, publicOnly: bool,
                                   hasCollapse: bool, collapse: seq<RouteEntry>)

  datatype Guard = AdminGuard | PrivateGuard | PublicGuard | Unguarded

  /** What `getRoutes` yields for one entry: the router entries of a
      collapse group, one guarded `Route`, or `null`. */
  datatype Rendered = Group(items: seq<Rendered>) | RouteElement(key: string, path: string, component: string, guard: Guard) | Null

  /** The first flag that applies, in the order admin, protected, public-only. */
  function GuardOf(e: RouteEntry): (g: Guard)
    ensures g == AdminGuard <==> e.admin
    ensures g == PrivateGuard <==> !e.admin && e.protected
    ensures g == PublicGuard <==> !e.admin && !e.protected && e.publicOnly
  {
    if e.admin then AdminGuard
    else if e.protected then PrivateGuard
    else if e.publicOnly then PublicGuard
    else Unguarded
  }

  /** The element a guard puts around a page. */
  function Guarded(g: Guard, items: map<string, string>): Element {
    match g
    case AdminGuard => AdminRoute(items)
    case PrivateGuard => PrivateRoute(items)
    case PublicGuard => PublicRoute(items)
    case Unguarded => Children
  }

  /** `getRoutes(allRoutes)`: one output per entry, in order. */
  function GetRoutes(entries: seq<RouteEntry>): (r: seq<Rendered>)
    ensures |r| == |entries|
    ensures forall k :: 0 <= k < |entries| ==> r[k] == RenderEntry(entries[k])
    decreases entries, 1
  {
    if entries == [] then []
    else
      var rest := GetRoutes(entries[1..]);
      var r := [RenderEntry(entries[0])] + rest;
      assert forall k :: 1 <= k < |entries| ==> r[k] == rest[k - 1] && entries[k] == entries[1..][k - 1];
      r
  }

  /** One entry: `collapse` first (any array, even an empty one, is
      truthy), then a non-empty `route`, else `null`. */
  function RenderEntry(e: RouteEntry): (r: Rendered)
    ensures e.hasCollapse ==> r.Group? && |r.items| == |e.collapse|
    ensures e.hasCollapse ==> forall k :: 0 <= k < |e.collapse| ==> r.items[k] == RenderEntry(e.collapse[k])
    ensures !e.hasCollapse && Truthy(e.route) ==> r == RouteElement(e.key, e.route.value, e.component, GuardOf(e))
    ensures !e.hasCollapse && !Truthy(e.route) ==> r == Null
    decreases e, 0
  {
    if e.hasCollapse then Group(GetRoutes(e.collapse))
    else if Truthy(e.route) then RouteElement(e.key, e.route.value, e.component, GuardOf(e))
    else Null
  }

  /** `routes.filter((r) => !r.admin)` and `routes.filter((r) => r.admin)`. */
  function UserRoutes(entries: seq<RouteEntry>): seq<RouteEntry> {
    Filter(entries, (e: RouteEntry) => !e.admin)
  }

  function AdminRoutes(entries: seq<RouteEntry>): seq<RouteEntry> {
    Filter(entries, (e: RouteEntry) => e.admin)
  }

  /** The two side navigations split the table: each keeps the table's
      order, each has only its own side's entries, and every entry is in
      exactly one of them exactly as often as in the table. */
  lemma RoutesPartition(entries: seq<RouteEntry>)
    ensures IsSubsequence(UserRoutes(entries), entries) && IsSubsequence(AdminRoutes(entries), entries)
    ensures forall k :: 0 <= k < |UserRoutes(entries)| ==> !UserRoutes(entries)[k].admin
    ensures forall k :: 0 <= k < |AdminRoutes(entries)| ==> AdminRoutes(entries)[k].admin
    ensures multiset(UserRoutes(entries)) + multiset(AdminRoutes(entries)) == multiset(entries)
  {
    FilterPartition(entries, (e: RouteEntry) => !e.admin, (e: RouteEntry) => e.admin);
  }

  datatype Sidenav = Sidenav(brandName: string, routes: seq<RouteEntry>)

  /** The side navigations shown for a layout and a path. */
  function Sidenavs(layout: string, pathname: string, entries: seq<RouteEntry>): (r: seq<Sidenav>)
    ensures layout != "dashboard" ==> r == []
    ensures layout == "dashboard" ==> |r| == 1
    ensures layout == "dashboard" && !HasPrefix(pathname, "/admin") ==> r == [Sidenav("Video Clip", UserRoutes(entries))]
    ensures layout == "dashboard" && HasPrefix(pathname, "/admin") ==> r == [Sidenav("Admin Panel", AdminRoutes(entries))]
  {
    (if layout == "dashboard" && !HasPrefix(pathname, "/admin") then [Sidenav("Video Clip", UserRoutes(entries))] else [])
    + (if layout == "dashboard" && HasPrefix(pathname, "/admin") then [Sidenav("Admin Panel", AdminRoutes(entries))] else [])
  }

  /** The repository's route table. */
  const Table: seq<RouteEntry> := [
    RouteEntry("dashboard", Some("/dashboard"), "Dashboard", false, true, false, false, []),
    RouteEntry("upload", Some("/upload"), "Upload", false, false, false, false, []),
    RouteEntry("subscription", Some("/subscription"), "Billing", false, false, false, false, []),
    RouteEntry("faq", Some("/FAQ"), "FAQ", false, false, false, false, []),
    RouteEntry("profile", Some("/contact"), "Profile", false, false, false, false, [])
  ]

  /** With that table only the dashboard is guarded. */
  lemma TableRoutes()
    ensures forall k :: 0 <= k < |Table| ==>
      GetRoutes(Table)[k] == RouteElement(Table[k].key, Table[k].route.value, Table[k].component,
                                          if k == 0 then PrivateGuard else Unguarded)
  {
    forall k | 0 <= k < |Table|
      ensures !Table[k].hasCollapse && Truthy(Table[k].route) && !Table[k].admin && !Table[k].publicOnly
      ensures Table[k].protected <==> k == 0
    {
    }
  }

  /** The admin side navigation is empty, and the user one lists all five pages. */
  lemma TableSides()
    ensures AdminRoutes(Table) == [] && UserRoutes(Table) == Table
  {
    assert forall k :: 0 <= k < |Table| ==> !Table[k].admin;
    FilterAll(Table, (e: RouteEntry) => !e.admin);
    FilterNone(Table, (e: RouteEntry) => e.admin);
  }

  lemma {:induction false} FilterAll(s: seq<RouteEntry>, p: RouteEntry -> bool)
    requires forall k :: 0 <= k < |s| ==> p(s[k])
    ensures Filter(s, p) == s
  {
    if s != [] {
      FilterAll(s[1..], p);
    }
  }

  lemma {:induction false} FilterNone(s: seq<RouteEntry>, p: RouteEntry -> bool)
    requires forall k :: 0 <= k < |s| ==> !p(s[k])
    ensures Filter(s, p) == []
  {
    if s != [] {
      FilterNone(s[1..], p);
    }
  }
}
