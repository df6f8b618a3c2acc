/** The request middleware of the client (src/middleware.ts): redirect to the login page
    for a protected path without a token, and otherwise forward the request with the
    token as a bearer header and the cookie re-set. */
module Middleware {
  import opened Wrappers
  import opened Text

  const ProtectedRoutes: seq<string> := ["/dashboard", "/profile", "/appointments", "/challenges"]
  const AuthRoutes: seq<string> := ["/login", "/register"]

  /** `maxAge: 60 * 60 * 24 * 7`, one week in seconds. */
  const CookieMaxAge: int := 60 * 60 * 24 * 7

  datatype Cookie = Cookie(name: string, value: string, httpOnly: bool, secure: bool, maxAge: int, path: string)

  /** The parts of a request that are read: its path, the `authToken` cookie value and
      the request headers. `Headers` compares names without regard to case, so the map is
      keyed by lowercased names. */
  datatype Request = Request(pathname: string, authToken: Option<string>, headers: map<string, string>)

  /** A redirect to `pathname`, or pass-through with the forwarded headers and the cookie
      set on the response, if any. */
  datatype Outcome = Redirect(pathname: string) | Next(headers: map<string, string>, cookie: Option<Cookie>)

  /** The name `headers.set('Authorization', ...)` writes, as `Headers` stores it. */
  const AuthorizationHeader: string := "authorization"

  /** Every header name is in the lowercase form `Headers` stores. */
  predicate LowerKeyed(headers: map<string, string>) {
    forall name :: name in headers ==> Lower(name) == name
  }

  /** The stored name of the authorization header is its own lowercase form. */
  lemma AuthorizationHeaderIsLower()
    ensures Lower(AuthorizationHeader) == AuthorizationHeader
  {
    var h := AuthorizationHeader;
    forall i | 0 <= i < |h| ensures Lower(h)[i] == h[i] {
      assert 'a' <= h[i] <= 'z';
    }
  }

  /** `routes.some(route => pathname.startsWith(route))`. */
  function AnyPrefix(routes: seq<string>, pathname: string): (r: bool)
    ensures r <==> exists i :: 0 <= i < |routes| && StartsWith(pathname, routes[i])
  {
    if routes == [] then false
    else StartsWith(pathname, routes[0]) || AnyPrefix(routes[1..], pathname)
  }

  /** `isProtectedRoute`: the path starts with one of the four protected prefixes. */
  function IsProtectedRoute(pathname: string): (r: bool)
    ensures r <==> StartsWith(pathname, "/dashboard") || StartsWith(pathname, "/profile")
                   || StartsWith(pathname, "/appointments") || StartsWith(pathname, "/challenges")
  {
    assert |ProtectedRoutes| == 4 && ProtectedRoutes[0] == "/dashboard" && ProtectedRoutes[1] == "/profile"
           && ProtectedRoutes[2] == "/appointments" && ProtectedRoutes[3] == "/challenges";
    AnyPrefix(ProtectedRoutes, pathname)
  }

  /** Computed by the source and never used afterwards. */
  predicate IsAuthRoute(pathname: string) {
    AnyPrefix(AuthRoutes, pathname)
  }

  /** `request.cookies.get('authToken')?.value` is truthy. */
  predicate HasToken(req: Request) {
    req.authToken.Some? && req.authToken.value != ""
  }

  /** `middleware(request)`, where `production` is `NODE_ENV === 'production'`. */
  function Handle(req: Request, production: bool): (r: Outcome)
    ensures r.Redirect? <==> IsProtectedRoute(req.pathname) && !HasToken(req)
    ensures r.Redirect? ==> r.pathname == "/login"
    ensures r.Next? && HasToken(req) ==>
              && r.headers == req.headers[AuthorizationHeader := "Bearer " + req.authToken.value]
              && r.cookie == Some(Cookie("authToken", req.authToken.value, true, production, 604800, "/"))
    ensures r.Next? && !HasToken(req) ==> r.headers == req.headers && r.cookie.None?
    ensures r.Next? && LowerKeyed(req.headers) ==> LowerKeyed(r.headers)
  {
    AuthorizationHeaderIsLower();
    if IsProtectedRoute(req.pathname) && !HasToken(req) then Redirect("/login")
    else if HasToken(req) then
      Next(req.headers[AuthorizationHeader := "Bearer " + req.authToken.value],
           Some(Cookie("authToken", req.authToken.value, true, production, CookieMaxAge, "/")))
    else Next(req.headers, None)
  }

  /** The protection test is a plain prefix test: `/profilex` is protected too. */
  lemma PrefixIsEnough(token: Option<string>, headers: map<string, string>, production: bool)
    ensures IsProtectedRoute("/profilex")
    ensures (token.None? || token == Some("")) ==> Handle(Request("/profilex", token, headers), production) == Redirect("/login")
  {
    assert StartsWith("/profilex", ProtectedRoutes[1]);
  }

  /** Paths under `/familyGroup` and `/messages` are not protected, so they are never
      redirected, with or without a token. */
  lemma UnlistedPagesNeverRedirected(req: Request, production: bool)
    requires StartsWith(req.pathname, "/familyGroup") || StartsWith(req.pathname, "/messages")
    ensures Handle(req, production).Next?
  {
    var p := req.pathname;
    assert forall i :: 0 <= i < |ProtectedRoutes| ==> p[1] != ProtectedRoutes[i][1];
  }

  /** The login and register pages are never redirected: being an auth route has no
      effect of its own. */
  lemma AuthRoutesNeverRedirected(req: Request, production: bool)
    requires IsAuthRoute(req.pathname)
    ensures Handle(req, production).Next?
  {
    var p := req.pathname;
    assert StartsWith(p, "/login") || StartsWith(p, "/register");
    assert forall i :: 0 <= i < |ProtectedRoutes| ==> p[1] != ProtectedRoutes[i][1];
  }

  /** An incoming `authorization` header is replaced, not joined by a second one: the
      forwarded request carries the same header names and only the bearer token. */
  lemma BearerReplacesIncoming(req: Request, production: bool)
    requires HasToken(req) && AuthorizationHeader in req.headers
    ensures Handle(req, production).Next?
    ensures Handle(req, production).headers.Keys == req.headers.Keys
    ensures Handle(req, production).headers[AuthorizationHeader] == "Bearer " + req.authToken.value
  {
  }
}
