/**
 * The second variant of the session gate, `frontend/proxy.ts`. It adds `/api/auth/callback`
 * to the public list and prepares a redirect carrying two expired session cookies, but it
 * returns that redirect only when no token could be read; with a token it passes through
 * and the prepared cookies are dropped with the discarded response.
 */
module Proxy {
  import opened Wrappers
  import opened JsString
  import opened NextServer
  import Middleware

  const PublicPaths: seq<string> := ["/login", "/signup", "/api/auth", "/api/auth/callback"]

  const SecureSessionCookie: string := "__Secure-next-auth.session-token"

  const SessionCookie: string := "next-auth.session-token"

  /** The instruction that deletes a cookie: empty value, root path, zero max-age. */
  const Expired: Cookie := Cookie("", "/", 0)

  predicate IsPublic(path: string) {
    SomeStartsWith(PublicPaths, path)
  }

  /**
   * The fourth prefix is redundant: `/api/auth` is a prefix of `/api/auth/callback`,
   * so this list classifies every path as the three-entry list of the middleware does.
   */
  lemma CallbackPrefixRedundant(path: string)
    ensures IsPublic(path) <==> Middleware.IsPublic(path)
  {
    SomeStartsWithIff(PublicPaths, path);
    SomeStartsWithIff(Middleware.PublicPaths, path);
    if StartsWith(path, PublicPaths[3]) {
      assert PublicPaths[3] == Middleware.PublicPaths[2] + "/callback";
      assert StartsWith(path, Middleware.PublicPaths[2]);
    }
    if exists i :: 0 <= i < |Middleware.PublicPaths| && StartsWith(path, Middleware.PublicPaths[i]) {
      var i :| 0 <= i < |Middleware.PublicPaths| && StartsWith(path, Middleware.PublicPaths[i]);
      assert StartsWith(path, PublicPaths[i]);
    }
  }

  /**
   * `proxy(req)`, with `token` the result of `getToken`. The redirect is built first and
   * given the two cookie deletions, then returned only when there is no token.
   */
  method Proxy(pathname: string, token: Option<Middleware.Token>) returns (r: Response)
    ensures IsPublic(pathname) ==> r == Next()
    ensures !IsPublic(pathname) && token.None? ==>
              r.action == RedirectTo(Middleware.LoginPath)
              && r.cookies.Keys == {SecureSessionCookie, SessionCookie}
              && r.cookies[SecureSessionCookie] == Expired && r.cookies[SessionCookie] == Expired
    ensures !IsPublic(pathname) && token.Some? ==> r == Next()
    ensures r.cookies != map[] <==> r.action.RedirectTo?
    ensures r.action == Middleware.Middleware(pathname, token).action
  {
    CallbackPrefixRedundant(pathname);
    if SomeStartsWith(PublicPaths, pathname) {
      return Next();
    }
    var response := Redirect(Middleware.LoginPath);
    response := response.SetCookie(SecureSessionCookie, Expired);
    response := response.SetCookie(SessionCookie, Expired);
    if token.None? {
      return response;
    }
    return Next();
  }
}
