/**
 * The page middleware (`middleware.ts`): which page requests pass, and
 * where the others are redirected, from the path and the "token" cookie.
 */
module PageGuard {
  import opened Wrappers
  import opened Strings
  import opened Tokens
  import SessionAuth

  /** `isAuthPage`: any path starting with "/login" or "/register" (so "/login-help" too). */
  predicate IsAuthPage(path: string): (r: bool)
    ensures r <==> exists k :: 0 <= k <= |path| && path[..k] in {"/login", "/register"}
  {
    if StartsWith(path, "/login") then
      assert path[..|"/login"|] in {"/login", "/register"};
      true
    else if StartsWith(path, "/register") then
      assert path[..|"/register"|] in {"/login", "/register"};
      true
    else
      assert forall k :: 0 <= k <= |path| ==> path[..k] !in {"/login", "/register"} by {
        forall k | 0 <= k <= |path| ensures path[..k] !in {"/login", "/register"} {
          assert |path[..k]| == k;
        }
      }
      false
  }

  /** `NextResponse.next()`, or a redirect; `next` is the `?next=` parameter of a login redirect. */
  datatype Decision = Next | Redirect(to: string, next: Option<string>)

  /** The role-prefix checks, in the source's order: the first failing one sends to "/unauthorized". */
  function RoleDecision(path: string, role: string): (d: Decision)
    ensures d == Next || d == Redirect("/unauthorized", None)
  {
    if StartsWith(path, "/admin") && role != "admin" then Redirect("/unauthorized", None)
    else if StartsWith(path, "/designer-dashboard") && role != "designer" then Redirect("/unauthorized", None)
    else if StartsWith(path, "/worker-dashboard") && role != "worker" then Redirect("/unauthorized", None)
    else if StartsWith(path, "/dashboard") && role != "user" && role !in {"admin", "designer", "worker"} then
      Redirect("/unauthorized", None)
    else Next
  }

  /** `middleware` for a path and the request's "token" cookie value. */
  function Middleware(path: string, cookie: Option<string>, decode: string -> Option<Token>, env: Option<string>, now: int): (d: Decision)
    ensures IsAuthPage(path) ==>
      (d == if cookie.Some? && cookie.value != "" && SessionAuth.VerifyJWT(cookie.value, decode, env, now).Some?
            then Redirect("/dashboard", None) else Next)
    ensures !IsAuthPage(path) && (cookie.None? || cookie.value == "" || SessionAuth.VerifyJWT(cookie.value, decode, env, now).None?) ==>
      d == Redirect("/login", Some(path))
    ensures !IsAuthPage(path) && cookie.Some? && cookie.value != "" && SessionAuth.VerifyJWT(cookie.value, decode, env, now).Some? ==>
      d == RoleDecision(path, SessionAuth.VerifyJWT(cookie.value, decode, env, now).value.role)
  {
    var hasToken := cookie.Some? && cookie.value != "";
    if IsAuthPage(path) then
      if hasToken && SessionAuth.VerifyJWT(cookie.value, decode, env, now).Some? then Redirect("/dashboard", None)
      else Next
    else if !hasToken then Redirect("/login", Some(path))
    else
      match SessionAuth.VerifyJWT(cookie.value, decode, env, now)
      case None => Redirect("/login", Some(path))
      case Some(claims) => RoleDecision(path, claims.role)
  }

  /** The access table the checks implement, stated prefix by prefix. */
  predicate Permitted(path: string, role: string) {
    (StartsWith(path, "/admin") ==> role == "admin") &&
    (StartsWith(path, "/designer-dashboard") ==> role == "designer") &&
    (StartsWith(path, "/worker-dashboard") ==> role == "worker") &&
    (StartsWith(path, "/dashboard") ==> role in {"user", "admin", "designer", "worker"})
  }

  /** A signed-in request to a guarded page passes exactly when the table permits its role. */
  lemma RoleDecisionTable(path: string, role: string)
    ensures RoleDecision(path, role) == Next <==> Permitted(path, role)
    ensures !Permitted(path, role) ==> RoleDecision(path, role) == Redirect("/unauthorized", None)
  {
  }

  /** The role pages belong to their own role only: an admin is turned away from the designer and worker dashboards. */
  lemma RolePagesExclusive(path: string)
    ensures StartsWith(path, "/designer-dashboard") ==> RoleDecision(path, "admin") == Redirect("/unauthorized", None)
    ensures StartsWith(path, "/worker-dashboard") ==> RoleDecision(path, "admin") == Redirect("/unauthorized", None)
    ensures StartsWith(path, "/admin") ==> RoleDecision(path, "designer") == Redirect("/unauthorized", None)
  {
  }

  /** Every one of the four roles may open "/dashboard" and the pages below it. */
  lemma DashboardOpenToAllRoles(path: string, role: string)
    requires StartsWith(path, "/dashboard") && role in {"user", "admin", "designer", "worker"}
    ensures RoleDecision(path, role) == Next
  {
    assert !StartsWith(path, "/admin") by { assert path[1] == 'd'; }
    assert !StartsWith(path, "/designer-dashboard") by { assert path[2] == 'a'; }
    assert !StartsWith(path, "/worker-dashboard") by { assert path[1] == 'd'; }
  }

  /** A `base/:path*` matcher entry: `base` itself or anything below it. */
  predicate Below(path: string, base: string) {
    path == base || StartsWith(path, base + "/")
  }

  /** `config.matcher`: the paths on which the middleware runs at all. */
  predicate MatcherMatches(path: string) {
    Below(path, "/dashboard") || Below(path, "/admin") || Below(path, "/designer-dashboard") ||
    Below(path, "/worker-dashboard") || path == "/login" || path == "/register"
  }

  /** A page request as the framework routes it: paths outside the matcher are never guarded. */
  function Route(path: string, cookie: Option<string>, decode: string -> Option<Token>, env: Option<string>, now: int): (d: Decision)
    ensures !MatcherMatches(path) ==> d == Next
    ensures MatcherMatches(path) ==> d == Middleware(path, cookie, decode, env, now)
  {
    if MatcherMatches(path) then Middleware(path, cookie, decode, env, now) else Next
  }

  /** On a matched page, a visitor without a verifiable cookie is sent to "/login", remembering the page. */
  lemma GuardedPagesNeedLogin(path: string, cookie: Option<string>, decode: string -> Option<Token>, env: Option<string>, now: int)
    requires MatcherMatches(path) && !IsAuthPage(path)
    requires cookie.None? || cookie.value == "" || SessionAuth.VerifyJWT(cookie.value, decode, env, now).None?
    ensures Route(path, cookie, decode, env, now) == Redirect("/login", Some(path))
  {
  }
}
