/**
 * The two route guards: `RequireAuth` lets signed-in visitors through and
 * sends everyone else to the login page, `RedirectIfAuth` does the opposite
 * for the login page itself. Both look only at the token cookie.
 */
module Guards {
  import opened Wrappers
  import opened Storage

  /** The router location a redirect remembers; only its path is used later. */
  datatype Location = Location(pathname: string, search: string, hash: string)

  datatype Rendered =
    | Outlet
    | Navigate(to: string, replace: bool, from: Option<Location>)

  const LoginPath: string := "/login"
  const HomePath: string := "/"

  function RequireAuth(token: Option<string>, location: Location): (r: Rendered)
    ensures r.Outlet? <==> Present(token)
    ensures !Present(token) ==> r == Navigate(LoginPath, true, Some(location))
  {
    if !Present(token) then Navigate(LoginPath, true, Some(location)) else Outlet
  }

  function RedirectIfAuth(token: Option<string>): (r: Rendered)
    ensures r.Outlet? <==> !Present(token)
    ensures Present(token) ==> r == Navigate(HomePath, true, None)
  {
    if Present(token) then Navigate(HomePath, true, None) else Outlet
  }

  /** Whatever the cookie holds, exactly one of the two guards renders its page. */
  lemma ExactlyOneOutlet(token: Option<string>, location: Location)
    ensures RequireAuth(token, location).Outlet? != RedirectIfAuth(token).Outlet?
  {
  }

  /**
   * Both decisions depend on the cookie's truthiness alone: a missing cookie
   * and an empty one are treated alike, and any two non-empty tokens alike.
   */
  lemma OnlyTruthinessMatters(a: Option<string>, b: Option<string>, location: Location)
    requires Present(a) == Present(b)
    ensures RequireAuth(a, location) == RequireAuth(b, location)
    ensures RedirectIfAuth(a) == RedirectIfAuth(b)
  {
  }

  /** The guards read the same cookie the login call writes. */
  lemma GuardsReadTheTokenCookie(browser: Browser, location: Location)
    ensures RequireAuth(browser.Token(), location).Outlet? <==>
      TokenCookieName in browser.cookies && browser.cookies[TokenCookieName].value != ""
  {
  }
}
