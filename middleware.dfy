/**
 * `PlayerSetupMiddleware` of `core/middleware.py`: an authenticated user who
 * has not created a player yet is sent to the setup page, one who has is kept
 * away from it, and everyone else goes on to the next handler. HTMX requests
 * get the redirect as an `HX-Redirect` header instead of a 302.
 */
module Middleware {
  import opened Wrappers

  /** What the middleware reads of a request. */
  datatype Request = Request(authenticated: bool, hasPlayer: bool, path: string, hxRequest: Option<string>)

  /** The URLs `reverse` gives for the names 'player', 'logout' and 'home'. */
  datatype Routes = Routes(setup: string, logout: string, home: string)

  /** What the middleware answers. */
  datatype Response =
    | Next                         // `self.get_response(request)`
    | HxRedirect(target: string)   // an empty response with the `HX-Redirect` header
    | Redirect(location: string)   // `redirect(url)`

  /** The path prefixes that never need a player. */
  const ExemptPrefixes: seq<string> := ["/admin/", "/__debug__/"]

  predicate StartsWith(s: string, prefix: string)
  {
    |prefix| <= |s| && s[..|prefix|] == prefix
  }

  /** `any(path.startswith(prefix) for prefix in prefixes)`. */
  function AnyPrefix(path: string, prefixes: seq<string>): (b: bool)
    ensures b <==> exists k | 0 <= k < |prefixes| :: StartsWith(path, prefixes[k])
  {
    if prefixes == [] then false
    else StartsWith(path, prefixes[0]) || AnyPrefix(path, prefixes[1..])
  }

  /** A path is exempt when it is the setup or logout URL or lies under /admin/ or /__debug__/. */
  function IsExempt(path: string, routes: Routes): (b: bool)
    ensures b <==> path == routes.setup || path == routes.logout
                   || StartsWith(path, "/admin/") || StartsWith(path, "/__debug__/")
  {
    assert |ExemptPrefixes| == 2 && ExemptPrefixes[0] == "/admin/" && ExemptPrefixes[1] == "/__debug__/";
    assert StartsWith(path, "/admin/") ==> StartsWith(path, ExemptPrefixes[0]);
    assert StartsWith(path, "/__debug__/") ==> StartsWith(path, ExemptPrefixes[1]);
    path in [routes.setup, routes.logout] || AnyPrefix(path, ExemptPrefixes)
  }

  /** `request.headers.get('HX-Request')` is truthy: present and not empty. */
  predicate IsHx(req: Request)
  {
    req.hxRequest.Some? && req.hxRequest.value != ""
  }

  /** `_handle_redirect`: the same target, as a header for HTMX and as a redirect otherwise. */
  function HandleRedirect(req: Request, url: string): (r: Response)
    ensures r != Next && Target(r) == url
    ensures r.HxRedirect? <==> IsHx(req)
  {
    if IsHx(req) then HxRedirect(url) else Redirect(url)
  }

  /** The URL a response sends the browser to, or "" when it passes the request on. */
  function Target(r: Response): string
  {
    match r
    case Next => ""
    case HxRedirect(t) => t
    case Redirect(t) => t
  }

  /**
   * `PlayerSetupMiddleware.__call__`: only an authenticated user is ever
   * redirected, only to the setup URL or to home, and in the form the
   * `HX-Request` header asks for.
   */
  function Call(req: Request, routes: Routes): (r: Response)
    ensures r != Next ==> req.authenticated
    ensures r != Next ==> Target(r) == routes.setup || Target(r) == routes.home
    ensures r != Next ==> (r.HxRedirect? <==> IsHx(req))
  {
    if !req.authenticated then Next
    else if !req.hasPlayer && !IsExempt(req.path, routes) then HandleRedirect(req, routes.setup)
    else if req.hasPlayer && req.path == routes.setup then HandleRedirect(req, routes.home)
    else Next
  }

  /** Unauthenticated requests always go on to the next handler. */
  lemma AnonymousPassesThrough(req: Request, routes: Routes)
    requires !req.authenticated
    ensures Call(req, routes) == Next
  {
  }

  /**
   * An authenticated user without a player is redirected exactly when the
   * path is not exempt, and then always to the setup URL.
   */
  lemma NoPlayerGoesToSetup(req: Request, routes: Routes)
    requires req.authenticated && !req.hasPlayer
    ensures Call(req, routes) != Next <==> !IsExempt(req.path, routes)
    ensures Call(req, routes) != Next ==> Target(Call(req, routes)) == routes.setup
  {
  }

  /**
   * An authenticated user with a player is redirected exactly when asking for
   * the setup URL itself, and then always to home.
   */
  lemma PlayerKeptFromSetup(req: Request, routes: Routes)
    requires req.authenticated && req.hasPlayer
    ensures Call(req, routes) != Next <==> req.path == routes.setup
    ensures Call(req, routes) != Next ==> Target(Call(req, routes)) == routes.home
  {
  }

  /**
   * No redirect loop: as long as home and setup are different URLs, the
   * middleware never redirects a request to the path it asked for; in
   * particular a user without a player is never redirected from the setup page.
   */
  lemma NoSelfRedirect(req: Request, routes: Routes)
    requires routes.home != routes.setup
    ensures Call(req, routes) != Next ==> Target(Call(req, routes)) != req.path
    ensures req.path == routes.setup && !req.hasPlayer ==> Call(req, routes) == Next
  {
  }

  /** Whether a redirect happens and where it goes do not depend on the HX-Request header; only its form does. */
  lemma HxOnlyChangesForm(req: Request, routes: Routes, hx: Option<string>)
    ensures var other := req.(hxRequest := hx);
            (Call(req, routes) == Next <==> Call(other, routes) == Next)
            && Target(Call(req, routes)) == Target(Call(other, routes))
    ensures Call(req, routes) != Next ==> (Call(req, routes).HxRedirect? <==> IsHx(req))
  {
    assert IsExempt(req.path, routes) == IsExempt(req.(hxRequest := hx).path, routes);
  }
}
