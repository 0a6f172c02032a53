/**
 * The session gate of `frontend/middleware.ts`: a request whose path starts with a public
 * prefix passes; any other request passes only when the session token can be read,
 * and is otherwise redirected to the login page. No cookie is touched.
 */
module Middleware {
  import opened Wrappers
  import opened JsString
  import opened NextServer

  /** A decoded session token as `getToken` returns it; the gate looks only at its presence. */
  datatype Token = Token(claims: string)

  const PublicPaths: seq<string> := ["/login", "/signup", "/api/auth"]

  const LoginPath: string := "/login"

  /** `config.matcher`: the path patterns the framework runs the gate for. */
  const MatcherBases: seq<string> := ["/dashboard", "/api"]

  /**
   * A path matches `<base>/:path*` when it is the base itself or continues it with
   * a `/` and zero or more further segments.
   */
  predicate MatchesPattern(base: string, path: string) {
    path == base || StartsWith(path, base + "/")
  }

  predicate MatcherApplies(path: string) {
    exists i :: 0 <= i < |MatcherBases| && MatchesPattern(MatcherBases[i], path)
  }

  /** Public paths are classified by a raw prefix test on the pathname. */
  predicate IsPublic(path: string) {
    SomeStartsWith(PublicPaths, path)
  }

  /**
   * `middleware(req)`: `token` is what `getToken` yields for the request, `None` when
   * the cookie is missing, malformed or fails verification.
   */
  function Middleware(pathname: string, token: Option<Token>): (r: Response)
    ensures IsPublic(pathname) ==> r == Next()
    ensures !IsPublic(pathname) && token.None? ==> r == Redirect(LoginPath)
    ensures !IsPublic(pathname) && token.Some? ==> r == Next()
    ensures r.cookies == map[]
  {
    if SomeStartsWith(PublicPaths, pathname) then Next()
    else if token.None? then Redirect(LoginPath)
    else Next()
  }

  /** What the application sees for a request: the gate runs only on matched paths. */
  function Gate(pathname: string, token: Option<Token>): (r: Response)
    ensures !MatcherApplies(pathname) ==> r == Next()
    ensures MatcherApplies(pathname) ==> r == Middleware(pathname, token)
  {
    if MatcherApplies(pathname) then Middleware(pathname, token) else Next()
  }

  /**
   * The public test is a plain prefix test: whatever follows a public prefix, with or
   * without a `/` in between (`/api/authorize`, `/signup-extra`), the path is public.
   */
  lemma {:induction false} PublicPrefixHasNoSegmentBoundary(i: nat, rest: string)
    requires i < |PublicPaths|
    ensures IsPublic(PublicPaths[i] + rest)
  {
    var p := PublicPaths[i] + rest;
    PrefixOfExtension(PublicPaths[i], rest);
    SomeStartsWithIff(PublicPaths, p);
  }

  /** The two examples of prefix matching without a segment boundary. */
  lemma PublicExamples()
    ensures IsPublic("/api/authorize") && IsPublic("/signup-extra")
    ensures Gate("/api/authorize", None) == Next()
  {
    PublicPrefixHasNoSegmentBoundary(2, "orize");
    assert "/api/auth" + "orize" == "/api/authorize";
    PublicPrefixHasNoSegmentBoundary(1, "-extra");
    assert "/signup" + "-extra" == "/signup-extra";
  }

  /**
   * Because the gate runs only under `/dashboard` and `/api`, the `/login` and `/signup`
   * entries never decide anything: on a matched path, public means starting with `/api/auth`.
   */
  lemma MatchedPublicMeansAuthApi(path: string)
    requires MatcherApplies(path)
    ensures IsPublic(path) <==> StartsWith(path, "/api/auth")
  {
    SomeStartsWithIff(PublicPaths, path);
    assert |path| >= 4 && path[0] == '/';
    assert path[1] == 'd' || path[1] == 'a';
    if StartsWith(path, "/api/auth") { assert StartsWith(path, PublicPaths[2]); }
  }

  /** A protected path under the matcher with no readable token is always sent to the login page. */
  lemma ProtectedWithoutTokenRedirects(path: string)
    requires MatcherApplies(path) && !StartsWith(path, "/api/auth")
    ensures Gate(path, None) == Redirect(LoginPath)
  {
    MatchedPublicMeansAuthApi(path);
  }
}
