/** The front end's navigation guard (router/index.ts): which routes need a
    signed-in user or a guest, and the beforeEach decision, including the
    case where it waits for the auth state to finish loading. */
module Router {
  import opened Wrappers

  /** A route's meta flags; an absent flag is false. */
  datatype RouteMeta = RouteMeta(requiresAuth: bool, requiresGuest: bool)

  datatype Route = Route(path: string, name: string, meta: RouteMeta)

  const NoMeta: RouteMeta := RouteMeta(false, false)
  const GuestOnly: RouteMeta := RouteMeta(false, true)
  const AuthOnly: RouteMeta := RouteMeta(true, false)

  /** The route table. */
  const Routes: seq<Route> := [
    Route("/", "Home", NoMeta),
    Route("/login", "Login", GuestOnly),
    Route("/register", "Register", GuestOnly),
    Route("/diagnose", "Diagnose", AuthOnly),
    Route("/history", "History", AuthOnly)
  ]

  function LowerChar(c: char): char {
    if 'A' <= c <= 'Z' then (c as int + 32) as char else c
  }

  /** The form vue-router's default matcher compares paths in: it is not
      case-sensitive and not strict, so letter case and one trailing '/' do
      not matter. */
  function Normalize(path: string): string {
    var p := if |path| > 1 && path[|path| - 1] == '/' then path[..|path| - 1] else path;
    seq(|p|, i requires 0 <= i < |p| => LowerChar(p[i]))
  }

  /** The meta of the first route matching `path`; a path matching no route
      has none. */
  function MetaOf(path: string): RouteMeta {
    MetaIn(Routes, Normalize(path))
  }

  /** The table's paths are already in matching form. */
  lemma NormalizeFixes(path: string)
    requires forall i :: 0 <= i < |path| ==> !('A' <= path[i] <= 'Z')
    requires |path| <= 1 || path[|path| - 1] != '/'
    ensures Normalize(path) == path
  {
    var n := Normalize(path);
    assert |n| == |path|;
    forall i | 0 <= i < |path| ensures n[i] == path[i] {
      assert LowerChar(path[i]) == path[i];
    }
  }

  /** A trailing '/' does not change which route a path reaches. */
  lemma MetaOfIgnoresTrailingSlash(path: string)
    requires |path| >= 1 && path[|path| - 1] != '/'
    ensures MetaOf(path + "/") == MetaOf(path)
  {
    assert (path + "/")[..|path|] == path;
    assert Normalize(path + "/") == Normalize(path);
  }

  /** Neither does letter case. */
  lemma MetaOfIgnoresCase(p: string, q: string)
    requires |p| == |q| && forall i :: 0 <= i < |p| ==> LowerChar(p[i]) == LowerChar(q[i])
    ensures MetaOf(p) == MetaOf(q)
  {
    if |p| > 1 {
      assert p[|p| - 1] == '/' <==> q[|q| - 1] == '/';
    }
    assert Normalize(p) == Normalize(q);
  }

  /** Each table entry's own meta is the one its path looks up. */
  lemma MetaOfTable()
    ensures MetaOf("/") == NoMeta
    ensures MetaOf("/login") == GuestOnly
    ensures MetaOf("/register") == GuestOnly
    ensures MetaOf("/diagnose") == AuthOnly
    ensures MetaOf("/history") == AuthOnly
  {
    NormalizeFixes("/");
    NormalizeFixes("/login");
    NormalizeFixes("/register");
    NormalizeFixes("/diagnose");
    NormalizeFixes("/history");
    var r := Routes;
    assert r[1..][1..][1..] == Routes[3..];
    assert MetaIn(r[4..], "/history") == AuthOnly;
    assert MetaIn(r[3..], "/history") == AuthOnly by { assert r[3].path != "/history"; assert r[3..][1..] == r[4..]; }
    assert MetaIn(r[2..], "/history") == AuthOnly by { assert r[2].path != "/history"; assert r[2..][1..] == r[3..]; }
    assert MetaIn(r[1..], "/history") == AuthOnly by { assert r[1].path != "/history"; assert r[1..][1..] == r[2..]; }
    assert r[0].path != "/history";
    assert MetaIn(r[3..], "/diagnose") == AuthOnly;
    assert MetaIn(r[2..], "/diagnose") == AuthOnly by { assert r[2].path != "/diagnose"; assert r[2..][1..] == r[3..]; }
    assert MetaIn(r[1..], "/diagnose") == AuthOnly by { assert r[1].path != "/diagnose"; assert r[1..][1..] == r[2..]; }
    assert r[0].path != "/diagnose";
    assert MetaIn(r[2..], "/register") == GuestOnly;
    assert MetaIn(r[1..], "/register") == GuestOnly by { assert r[1].path != "/register"; assert r[1..][1..] == r[2..]; }
    assert r[0].path != "/register";
    assert MetaIn(r[1..], "/login") == GuestOnly;
    assert r[0].path != "/login" by { assert |r[0].path| != |"/login"|; }
  }

  function MetaIn(routes: seq<Route>, path: string): RouteMeta {
    if routes == [] then NoMeta
    else if routes[0].path == path then routes[0].meta
    else MetaIn(routes[1..], path)
  }

  /** What the guard passes to `next`. */
  datatype Navigation = Proceed | Redirect(path: string)

  /** The auth store's flags the guard reads. */
  datatype AuthState = AuthState(loading: bool, isAuthenticated: bool)

  /** The three-way decision, the auth check first. */
  function Decide(meta: RouteMeta, isAuthenticated: bool): Navigation {
    if meta.requiresAuth && !isAuthenticated then Redirect("/login")
    else if meta.requiresGuest && isAuthenticated then Redirect("/")
    else Proceed
  }

  /** The decision in words: to the login page exactly when signing in is
      needed and missing, home exactly when a signed-in user opens a guest
      page, and on otherwise. */
  lemma DecideCases(meta: RouteMeta, isAuthenticated: bool)
    ensures Decide(meta, isAuthenticated) == Redirect("/login") <==> meta.requiresAuth && !isAuthenticated
    ensures Decide(meta, isAuthenticated) == Redirect("/") <==>
              meta.requiresGuest && isAuthenticated
    ensures Decide(meta, isAuthenticated) == Proceed <==>
              !(meta.requiresAuth && !isAuthenticated) && !(meta.requiresGuest && isAuthenticated)
  {
  }

  /** Both redirect targets are routes the same session may enter, so a
      navigation is redirected at most once. */
  lemma RedirectSettles(path: string, isAuthenticated: bool)
    ensures Decide(MetaOf(path), isAuthenticated).Redirect? ==>
              Decide(MetaOf(Decide(MetaOf(path), isAuthenticated).path), isAuthenticated) == Proceed
  {
    MetaOfTable();
  }

  /** The protected pages of the table send a signed-out user to the login
      page, and the guest pages send a signed-in user home. */
  lemma RouteTableDecisions()
    ensures Decide(MetaOf("/diagnose"), false) == Redirect("/login")
    ensures Decide(MetaOf("/history"), false) == Redirect("/login")
    ensures Decide(MetaOf("/login"), true) == Redirect("/")
    ensures Decide(MetaOf("/register"), true) == Redirect("/")
    ensures Decide(MetaOf("/"), false) == Proceed && Decide(MetaOf("/"), true) == Proceed
  {
    MetaOfTable();
  }

  /** One call of the guard: decided now, or deferred until the store changes. */
  datatype GuardStep = Deferred | Decided(navigation: Navigation)

  function BeforeEach(meta: RouteMeta, auth: AuthState): GuardStep {
    if auth.loading then Deferred else Decided(Decide(meta, auth.isAuthenticated))
  }

  /** A signed-out user asking for a protected page in another letter case
      or with a trailing '/' is still sent to the login page. */
  lemma VariantPathsGuarded()
    ensures Decide(MetaOf("/Diagnose"), false) == Redirect("/login")
    ensures Decide(MetaOf("/diagnose/"), false) == Redirect("/login")
    ensures Decide(MetaOf("/HISTORY/"), false) == Redirect("/login")
  {
    MetaOfTable();
    MetaOfIgnoresCase("/Diagnose", "/diagnose");
    MetaOfIgnoresTrailingSlash("/diagnose");
    assert "/diagnose" + "/" == "/diagnose/";
    MetaOfIgnoresTrailingSlash("/HISTORY");
    assert "/HISTORY" + "/" == "/HISTORY/";
    MetaOfIgnoresCase("/HISTORY", "/history");
  }

  /** The subscription of a deferred guard: on each store change it decides
      and unsubscribes once loading is over; None while every change so far
      still shows loading. */
  function AfterChanges(meta: RouteMeta, changes: seq<AuthState>): Option<Navigation> {
    if changes == [] then None
    else if !changes[0].loading then Some(Decide(meta, changes[0].isAuthenticated))
    else AfterChanges(meta, changes[1..])
  }

  /** The navigation a guard started in state `initial` ends in, after the
      store goes through `changes`. */
  function Navigate(meta: RouteMeta, initial: AuthState, changes: seq<AuthState>): Option<Navigation> {
    match BeforeEach(meta, initial)
    case Decided(nav) => Some(nav)
    case Deferred => AfterChanges(meta, changes)
  }

  /** A deferred guard applies the same decision as an immediate one, to the
      first state in which loading is over; later changes do not matter. */
  lemma {:induction false} DeferredDecision(meta: RouteMeta, changes: seq<AuthState>, k: nat)
    requires k < |changes| && !changes[k].loading
    requires forall j :: 0 <= j < k ==> changes[j].loading
    ensures AfterChanges(meta, changes) == Some(Decide(meta, changes[k].isAuthenticated))
    ensures AfterChanges(meta, changes) == Navigate(meta, changes[k], [])
  {
    if k > 0 {
      DeferredDecision(meta, changes[1..], k - 1);
    }
  }

  /** The guard defers exactly while the store is loading, and waiting does
      not change the outcome: a navigation that starts during loading and
      sees some still-loading states before `settled` ends where one starting
      in `settled` ends at once. */
  lemma GuardOutcome(meta: RouteMeta, initial: AuthState, pending: seq<AuthState>,
                     settled: AuthState, later: seq<AuthState>)
    requires initial.loading && !settled.loading
    requires forall j :: 0 <= j < |pending| ==> pending[j].loading
    ensures BeforeEach(meta, initial) == Deferred
    ensures BeforeEach(meta, settled) == Decided(Decide(meta, settled.isAuthenticated))
    ensures Navigate(meta, initial, pending + [settled] + later) == Navigate(meta, settled, later)
  {
    var changes := pending + [settled] + later;
    assert changes[|pending|] == settled;
    forall j | 0 <= j < |pending| ensures changes[j].loading {
      assert changes[j] == pending[j];
    }
    DeferredDecision(meta, changes, |pending|);
  }

  /** While the store keeps loading, the guard has not called `next`. */
  lemma {:induction false} StillLoadingPending(meta: RouteMeta, changes: seq<AuthState>)
    requires forall j :: 0 <= j < |changes| ==> changes[j].loading
    ensures AfterChanges(meta, changes) == None
  {
    if changes != [] {
      StillLoadingPending(meta, changes[1..]);
    }
  }
}
