/**
 * The route table and the navigation guard that runs before each route is
 * entered: routes may require a signed-in user and, further, a row for that
 * user in the `admin_users` table.
 */
module Router {
  import opened Wrappers
  import Auth

  /** The flags a route declares. */
  datatype Meta = Meta(requiresAuth: bool, requiresAdmin: bool)

  const NoMeta := Meta(false, false)

  /** A route: its path, where it redirects to (if it is a redirect), and its flags. */
  datatype Route = Route(path: string, redirect: Option<string>, meta: Meta)

  const LoginPath := "/login"
  const DashboardPath := "/dashboard"

  function Routes(): seq<Route> {
    [ Route("/", Some(DashboardPath), NoMeta),
      Route(LoginPath, None, NoMeta),
      Route(DashboardPath, None, Meta(true, false)),
      Route("/profile", None, Meta(true, false)),
      Route("/admin", None, Meta(true, true)) ]
  }

  /** A letter in lower case; every other character as it is. */
  function LowerChar(c: char): (l: char)
    ensures 'A' <= c <= 'Z' ==> l as int == c as int + 32
    ensures !('A' <= c <= 'Z') ==> l == c
  {
    if 'A' <= c <= 'Z' then (c as int + 32) as char else c
  }

  function Lower(s: string): (r: string)
    ensures |r| == |s| && forall i :: 0 <= i < |s| ==> r[i] == LowerChar(s[i])
  {
    seq(|s|, i requires 0 <= i < |s| => LowerChar(s[i]))
  }

  /**
   * The form in which the router compares paths: case is ignored and one
   * trailing slash is optional, the router's defaults when a route sets
   * neither `sensitive` nor `strict`.
   */
  function Normalize(path: string): (n: string)
    ensures |path| > 1 && path[|path| - 1] == '/' ==> n == Lower(path[..|path| - 1])
    ensures !(|path| > 1 && path[|path| - 1] == '/') ==> n == Lower(path)
  {
    if |path| > 1 && path[|path| - 1] == '/' then Lower(path[..|path| - 1]) else Lower(path)
  }

  /** The first route of `routes` whose path is `path` up to case and a trailing slash. */
  function Match(routes: seq<Route>, path: string): (r: Option<Route>)
    ensures r.Some? ==> r.value in routes && Normalize(r.value.path) == Normalize(path)
    ensures r.None? ==> forall i :: 0 <= i < |routes| ==> Normalize(routes[i].path) != Normalize(path)
  {
    if routes == [] then None
    else if Normalize(routes[0].path) == Normalize(path) then Some(routes[0])
    else Match(routes[1..], path)
  }

  /** The path the guard sees for a navigation to `path`: a redirect route is replaced by its target. */
  function Target(path: string): (t: string)
    ensures t != path ==> Match(Routes(), path).Some? && Match(Routes(), path).value.redirect == Some(t)
    ensures Match(Routes(), path).Some? && Match(Routes(), path).value.redirect.Some? ==>
      t == Match(Routes(), path).value.redirect.value
  {
    match Match(Routes(), path)
    case Some(r) => r.redirect.GetOr(path)
    case None => path
  }

  /** The flags of the route at `path`; a path no route matches has none. */
  function MetaOf(path: string): (m: Meta)
    ensures Match(Routes(), path).None? ==> m == NoMeta
    ensures Match(Routes(), path).Some? ==> m == Match(Routes(), path).value.meta
  {
    match Match(Routes(), path)
    case Some(r) => r.meta
    case None => NoMeta
  }

  /** A text without upper-case letters is its own lower case. */
  lemma LowerOfLowercase(s: string)
    requires forall i :: 0 <= i < |s| ==> !('A' <= s[i] <= 'Z')
    ensures Lower(s) == s
  {
    assert forall i :: 0 <= i < |s| ==> Lower(s)[i] == s[i];
  }

  /** The paths of the table are already in the form the router compares. */
  lemma TablePathsNormal()
    ensures Normalize("/") == "/" && Normalize(LoginPath) == LoginPath
    ensures Normalize(DashboardPath) == DashboardPath && Normalize("/profile") == "/profile"
    ensures Normalize("/admin") == "/admin"
  {
    LowerOfLowercase("/");
    LowerOfLowercase(LoginPath);
    LowerOfLowercase(DashboardPath);
    LowerOfLowercase("/profile");
    LowerOfLowercase("/admin");
  }

  lemma MatchCons(r: Route, rest: seq<Route>, path: string)
    ensures Match([r] + rest, path) == if Normalize(r.path) == Normalize(path) then Some(r) else Match(rest, path)
  {
    assert ([r] + rest)[0] == r && ([r] + rest)[1..] == rest;
  }

  /** The route a path resolves to, by the form of the path the router compares. */
  lemma MatchTable(path: string)
    ensures var n, R := Normalize(path), Routes();
      Match(R, path) ==
        if n == "/" then Some(R[0])
        else if n == LoginPath then Some(R[1])
        else if n == DashboardPath then Some(R[2])
        else if n == "/profile" then Some(R[3])
        else if n == "/admin" then Some(R[4])
        else None
  {
    TablePathsNormal();
    var R := Routes();
    var t4 := [R[4]] + [];
    var t3 := [R[3]] + t4;
    var t2 := [R[2]] + t3;
    var t1 := [R[1]] + t2;
    assert R == [R[0]] + t1;
    MatchCons(R[0], t1, path);
    MatchCons(R[1], t2, path);
    MatchCons(R[2], t3, path);
    MatchCons(R[3], t4, path);
    MatchCons(R[4], [], path);
  }

  /**
   * The flags of the route table, for every spelling of each path: `/`
   * redirects to the dashboard, the login page is public, the dashboard and
   * the profile need a user, and the admin page needs a user and an admin.
   */
  lemma RouteTable(path: string)
    ensures Normalize(path) == "/" ==> Target(path) == DashboardPath
    ensures Normalize(path) != "/" ==> Target(path) == path
    ensures Normalize(path) == LoginPath ==> MetaOf(path) == NoMeta
    ensures Normalize(path) == DashboardPath ==> MetaOf(path) == Meta(true, false)
    ensures Normalize(path) == "/profile" ==> MetaOf(path) == Meta(true, false)
    ensures Normalize(path) == "/admin" ==> MetaOf(path) == Meta(true, true)
    ensures Normalize(path) !in {"/", LoginPath, DashboardPath, "/profile", "/admin"} ==> MetaOf(path) == NoMeta
  {
    MatchTable(path);
  }

  /** No route of the table requires admin without requiring a signed-in user. */
  lemma AdminRoutesRequireAuth(path: string)
    ensures MetaOf(path).requiresAdmin ==> MetaOf(path).requiresAuth
  {
    MatchTable(path);
  }

  /** The guard lets a navigation reach an admin route only for a signed-in user with an `admin_users` row. */
  lemma AdminRouteNeedsAdminUser(path: string, u: Option<Auth.User>, adminOf: string -> AdminLookup)
    ensures MetaOf(Target(path)).requiresAdmin && Guard(MetaOf(Target(path)), u, adminOf).outcome == Proceed ==>
      u.Some? && adminOf(u.value.id) == Found
  {
    AdminRoutesRequireAuth(Target(path));
  }

  /** Upper-case letters and a trailing slash do not change the route a path reaches. */
  lemma CaseAndSlashVariants()
    ensures Normalize("/Admin") == "/admin" && Normalize("/admin/") == "/admin"
    ensures Normalize("/Dashboard/") == DashboardPath
  {
    assert Lower("/Admin") == "/admin" by {
      assert forall i :: 0 <= i < 6 ==> Lower("/Admin")[i] == "/admin"[i];
    }
    assert "/admin/"[..6] == "/admin";
    LowerOfLowercase("/admin");
    assert "/Dashboard/"[..10] == "/Dashboard";
    assert Lower("/Dashboard") == DashboardPath by {
      assert forall i :: 0 <= i < 10 ==> Lower("/Dashboard")[i] == DashboardPath[i];
    }
  }

  /** How the `admin_users` lookup for one user id ended: a row, no row, or an exception. */
  datatype AdminLookup = Found | NotFound | Throws

  datatype Outcome = Proceed | Redirect(path: string)

  /**
   * The guard's verdict, with the lookups it made: whether it asked for the
   * current user, and for which user id (if any) it asked `admin_users`.
   */
  datatype Decision = Decision(outcome: Outcome, askedForUser: bool, askedAdminFor: Option<string>)

  /**
   * The guard for a route with flags `meta`, given the user the identity
   * refresh returns and the `admin_users` answer for each user id.
   */
  function Guard(meta: Meta, currentUser: Option<Auth.User>, adminOf: string -> AdminLookup): (d: Decision)
    ensures d.outcome == Proceed <==>
      !meta.requiresAuth || (currentUser.Some? && (!meta.requiresAdmin || adminOf(currentUser.value.id) == Found))
    ensures d.outcome == Redirect(LoginPath) <==> meta.requiresAuth && currentUser.None?
    ensures d.outcome == Redirect(DashboardPath) <==>
      meta.requiresAuth && currentUser.Some? && meta.requiresAdmin && adminOf(currentUser.value.id) != Found
    ensures d.askedForUser == meta.requiresAuth
    ensures d.askedAdminFor.Some? <==> meta.requiresAuth && meta.requiresAdmin && currentUser.Some?
    ensures d.askedAdminFor.Some? ==> d.askedAdminFor.value == currentUser.value.id
  {
    if meta.requiresAuth then
      match currentUser
      case None => Decision(Redirect(LoginPath), true, None)
      case Some(u) =>
        if meta.requiresAdmin then
          match adminOf(u.id)
          case Found => Decision(Proceed, true, Some(u.id))
          case NotFound => Decision(Redirect(DashboardPath), true, Some(u.id))
          case Throws => Decision(Redirect(DashboardPath), true, Some(u.id))
        else Decision(Proceed, true, None)
    else Decision(Proceed, false, None)
  }

  /** A route with no flags is entered whoever asks, and no one is asked. */
  lemma PublicRoutesIgnoreIdentity(meta: Meta, u1: Option<Auth.User>, u2: Option<Auth.User>,
                                   a1: string -> AdminLookup, a2: string -> AdminLookup)
    requires !meta.requiresAuth
    ensures Guard(meta, u1, a1) == Guard(meta, u2, a2) == Decision(Proceed, false, None)
  {
  }

  /** Without a user, the admin answer does not matter. */
  lemma NoUserIgnoresAdmin(meta: Meta, a1: string -> AdminLookup, a2: string -> AdminLookup)
    ensures Guard(meta, None, a1) == Guard(meta, None, a2)
  {
  }

  /** A non-admin sent to the admin route lands on the dashboard. */
  lemma NonAdminToAdmin(u: Auth.User, adminOf: string -> AdminLookup)
    requires adminOf(u.id) != Found
    ensures Guard(MetaOf(Target("/admin")), Some(u), adminOf).outcome == Redirect(DashboardPath)
  {
    TablePathsNormal();
    RouteTable("/admin");
  }

  /** With no one signed in, the dashboard sends to the login page. */
  lemma SignedOutToDashboard(adminOf: string -> AdminLookup)
    ensures Guard(MetaOf(Target(DashboardPath)), None, adminOf).outcome == Redirect(LoginPath)
  {
    TablePathsNormal();
    RouteTable(DashboardPath);
  }

  /** `/Admin` and `/admin/` reach the admin route, so a visitor with no user is sent to the login page. */
  lemma VariantsOfAdminGuarded(adminOf: string -> AdminLookup)
    ensures Guard(MetaOf(Target("/Admin")), None, adminOf).outcome == Redirect(LoginPath)
    ensures Guard(MetaOf(Target("/admin/")), None, adminOf).outcome == Redirect(LoginPath)
  {
    CaseAndSlashVariants();
    RouteTable("/Admin");
    RouteTable("/admin/");
  }

  /**
   * One navigation to `path`: when the route requires a user, the identity is
   * refreshed through the auth store (which stores what it finds), then the
   * guard decides. A public route leaves the auth store untouched.
   */
  method Navigate(auth: Auth.AuthStore, path: string, lookup: Auth.UserLookup, adminOf: string -> AdminLookup)
    returns (outcome: Outcome)
    modifies auth
    ensures auth.loading == old(auth.loading)
    ensures MetaOf(Target(path)).requiresAuth ==>
      auth.user == (if lookup.Reported? then lookup.user else None)
    ensures !MetaOf(Target(path)).requiresAuth ==> auth.user == old(auth.user)
    ensures outcome == Guard(MetaOf(Target(path)), auth.user, adminOf).outcome
  {
    var meta := MetaOf(Target(path));
    var current: Option<Auth.User> := None;
    if meta.requiresAuth {
      current := auth.GetCurrentUser(lookup);
    }
    outcome := Guard(meta, current, adminOf).outcome;
  }
}
