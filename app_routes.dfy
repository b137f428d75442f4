/** The route guards of the SkillSwap client (project/src/App.js): which
    element a guarded route renders for the current session, and which guard
    each route of the route table carries. */
module AppRoutes {
  import opened Wrappers
  import opened Domain

  /** What a guard renders: the wrapped page, or a redirect. */
  datatype View = Children | RedirectTo(path: string)

  /** `PrivateRoute`: the page when a user is signed in, else `/login`. */
  function PrivateRoute(user: Option<User>): (v: View)
    ensures v == Children <==> user.Some?
    ensures v != Children ==> v == RedirectTo("/login")
  {
    if user.Some? then Children else RedirectTo("/login")
  }

  /** `PublicRoute`: the page when nobody is signed in, else `/dashboard`. */
  function PublicRoute(user: Option<User>): (v: View)
    ensures v == Children <==> user.None?
    ensures v != Children ==> v == RedirectTo("/dashboard")
  {
    if user.None? then Children else RedirectTo("/dashboard")
  }

  /** For every session exactly one of the two guards renders its page. */
  lemma ExactlyOneGuardRenders(user: Option<User>)
    ensures (PrivateRoute(user) == Children) != (PublicRoute(user) == Children)
  {
  }

  datatype Guard = Private | Public | Unguarded

  datatype Page = HomePage | LoginPage | RegisterPage | DashboardPage | ProfilePage | ConversationsPage | MessagesPage

  datatype Route = Route(pattern: string, guard: Guard, page: Page)

  /** The route table in the order it is declared. */
  const RouteTable: seq<Route> := [
    Route("/", Unguarded, HomePage),
    Route("/login", Public, LoginPage),
    Route("/register", Public, RegisterPage),
    Route("/dashboard", Private, DashboardPage),
    Route("/profile", Private, ProfilePage),
    Route("/messages", Private, ConversationsPage),
    Route("/messages/:recipientId", Private, MessagesPage)
  ]

  /** The guard of the first route at or after position `from` declared
      with `pattern`. */
  function GuardFrom(table: seq<Route>, pattern: string, from: nat): (g: Option<Guard>)
    requires from <= |table|
    ensures g.Some? <==> exists i :: from <= i < |table| && table[i].pattern == pattern
    ensures g.Some? ==> exists i :: from <= i < |table| && table[i].pattern == pattern && table[i].guard == g.value
    decreases |table| - from
  {
    if from == |table| then None
    else if table[from].pattern == pattern then Some(table[from].guard)
    else GuardFrom(table, pattern, from + 1)
  }

  /** The guard of the first route declared with `pattern`. */
  function GuardOf(table: seq<Route>, pattern: string): (g: Option<Guard>)
    ensures g.Some? <==> exists i :: 0 <= i < |table| && table[i].pattern == pattern
    ensures g.Some? ==> exists i :: 0 <= i < |table| && table[i].pattern == pattern && table[i].guard == g.value
  {
    GuardFrom(table, pattern, 0)
  }

  /** Among routes declared with the same path string, the first one wins:
      from position `from` on, the guard is that of the earliest route with
      the path, whatever later routes declare. The router ranks different
      paths by specificity and falls back on declaration order only for
      ties; the table's paths are all distinct, and no two of its patterns
      match the same location with equal rank. */
  lemma {:induction false} GuardFromFirstMatch(table: seq<Route>, pattern: string, from: nat, i: nat)
    requires from <= i < |table| && table[i].pattern == pattern
    requires forall j :: from <= j < i ==> table[j].pattern != pattern
    ensures GuardFrom(table, pattern, from) == Some(table[i].guard)
    decreases i - from
  {
    if from < i {
      GuardFromFirstMatch(table, pattern, from + 1, i);
    }
  }

  /** `GuardOf` picks the first route declared with the path. */
  lemma GuardOfFirstMatch(table: seq<Route>, pattern: string, i: nat)
    requires i < |table| && table[i].pattern == pattern
    requires forall j :: 0 <= j < i ==> table[j].pattern != pattern
    ensures GuardOf(table, pattern) == Some(table[i].guard)
  {
    GuardFromFirstMatch(table, pattern, 0, i);
  }

  /** What a route renders for the session: its page, or the redirect its
      guard chooses. */
  function Render(r: Route, user: Option<User>): (v: Option<Page>)
    ensures r.guard == Unguarded ==> v == Some(r.page)
    ensures r.guard == Private ==> (v == Some(r.page) <==> user.Some?)
    ensures r.guard == Public ==> (v == Some(r.page) <==> user.None?)
    ensures v.Some? ==> v == Some(r.page)
  {
    match r.guard
    case Unguarded => Some(r.page)
    case Private => if PrivateRoute(user) == Children then Some(r.page) else None
    case Public => if PublicRoute(user) == Children then Some(r.page) else None
  }

  /** The dashboard, profile and message pages are private, login and
      register are public, and `/` is open to everyone. */
  lemma RouteGuards()
    ensures GuardOf(RouteTable, "/") == Some(Unguarded)
    ensures GuardOf(RouteTable, "/login") == Some(Public)
    ensures GuardOf(RouteTable, "/register") == Some(Public)
    ensures GuardOf(RouteTable, "/dashboard") == Some(Private)
    ensures GuardOf(RouteTable, "/profile") == Some(Private)
    ensures GuardOf(RouteTable, "/messages") == Some(Private)
    ensures GuardOf(RouteTable, "/messages/:recipientId") == Some(Private)
  {
  }

  /** Signed out, every private route redirects and every other route
      renders; signed in, every public route redirects and every other
      route renders. */
  lemma RenderBySession(user: Option<User>)
    ensures forall r :: r in RouteTable ==> (Render(r, user).None? <==>
      (r.guard == Private && user.None?) || (r.guard == Public && user.Some?))
  {
  }
}
