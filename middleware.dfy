/** The request middleware's routing decision over the request path, the
    signed-in user (if any) and that user's profile role (if any). */
module Middleware {
  import opened Base
  import opened Text

  datatype Response = PassThrough | Redirect(path: string)

  const PublicRoutes: seq<string> := ["/login", "/register", "/auth/callback"]

  /** `publicRoutes.some(route => pathname.startsWith(route))`: a prefix test. */
  predicate IsPublicRoute(path: string)
  {
    exists k :: 0 <= k < |PublicRoutes| && StartsWith(path, PublicRoutes[k])
  }

  /** The dashboard a signed-in user is sent to from the sign-in pages. */
  function Home(role: Option<string>): string
  {
    if role == Some("host") then "/host" else "/participant"
  }

  /** `middleware(request)` after the session has been read. */
  function Route(path: string, user: Option<string>, role: Option<string>): (r: Response)
    ensures r == Redirect("/login") <==> user.None? && !IsPublicRoute(path) && path != "/"
    ensures user.Some? && (path == "/login" || path == "/register") ==>
              r == Redirect(if role == Some("host") then "/host" else "/participant")
    ensures r == PassThrough <==>
              (user.None? && (IsPublicRoute(path) || path == "/"))
              || (user.Some? && path != "/login" && path != "/register")
  {
    if user.None? && !IsPublicRoute(path) && path != "/" then Redirect("/login")
    else if user.Some? && (path == "/login" || path == "/register") then Redirect(Home(role))
    else PassThrough
  }

  /** The three public prefixes, and only paths that start with one of them. */
  lemma PublicRouteIff(path: string)
    ensures IsPublicRoute(path) <==>
              StartsWith(path, "/login") || StartsWith(path, "/register") || StartsWith(path, "/auth/callback")
  {
    if StartsWith(path, "/login") { assert StartsWith(path, PublicRoutes[0]); }
    if StartsWith(path, "/register") { assert StartsWith(path, PublicRoutes[1]); }
    if StartsWith(path, "/auth/callback") { assert StartsWith(path, PublicRoutes[2]); }
  }

  /** Being a prefix test, any path that extends a public route is public too. */
  lemma PublicExtends(route: string, rest: string)
    requires route in PublicRoutes
    ensures IsPublicRoute(route + rest)
  {
    var k :| 0 <= k < |PublicRoutes| && PublicRoutes[k] == route;
    assert (route + rest)[..|route|] == route;
    assert StartsWith(route + rest, PublicRoutes[k]);
  }

  /** The landing page is open to visitors who are not signed in. */
  lemma LandingPageOpen(role: Option<string>)
    ensures Route("/", None, role) == PassThrough
  {
  }

  /** A signed-in user on a page below a sign-in page is not redirected. */
  lemma SignedInBelowSignInPasses(user: string, role: Option<string>, rest: string)
    requires rest != []
    ensures Route("/register" + rest, Some(user), role) == PassThrough
    ensures Route("/login" + rest, Some(user), role) == PassThrough
  {
    assert |"/register" + rest| > |"/register"|;
    assert |"/login" + rest| > |"/login"|;
    assert ("/login" + rest)[1] != "/register"[1];
    assert ("/register" + rest)[1] != "/login"[1];
  }

  /** A redirect never leads to a page that redirects again. */
  lemma NoRedirectChain(path: string, user: Option<string>, role: Option<string>)
    ensures Route(path, user, role).Redirect? ==> Route(Route(path, user, role).path, user, role) == PassThrough
  {
    if user.None? {
      assert StartsWith("/login", PublicRoutes[0]);
    } else {
      assert Home(role) != "/login" && Home(role) != "/register";
    }
  }
}
