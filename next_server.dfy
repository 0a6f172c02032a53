/**
 * The parts of the `next/server` response API the request gate uses:
 * `NextResponse.next()`, `NextResponse.redirect(url)` and `response.cookies.set(...)`.
 * A response is a value: whether the request goes on to the application or is
 * redirected, and the cookie instructions attached to it, keyed by cookie name.
 */
module NextServer {

  /** A `Set-Cookie` instruction: the value, the path and the max-age in seconds. */
  datatype Cookie = Cookie(value: string, path: string, maxAge: int)

  /** Pass the request through to the application, or redirect the browser. */
  datatype Action = Continue | RedirectTo(location: string)

  datatype Response = Response(action: Action, cookies: map<string, Cookie>) {

    /** `response.cookies.set({ name, ...cookie })`: a later set of the same name replaces the earlier one. */
    function SetCookie(name: string, cookie: Cookie): (r: Response)
      ensures r.action == action
      ensures r.cookies.Keys == cookies.Keys + {name} && r.cookies[name] == cookie
      ensures forall n :: n in cookies && n != name ==> r.cookies[n] == cookies[n]
    {
      Response(action, cookies[name := cookie])
    }
  }

  /** `NextResponse.next()`: pass through, with no cookie instruction. */
  function Next(): Response {
    Response(Continue, map[])
  }

  /**
   * `NextResponse.redirect(new URL(location, req.url))`; the location is kept as the
   * path, which the URL constructor resolves against the request's origin.
   */
  function Redirect(location: string): Response {
    Response(RedirectTo(location), map[])
  }
}
