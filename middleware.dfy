/** The edge middleware of src/middleware.ts: a route guard deciding, from
    the path and the presence of the session cookie, whether a request goes
    through or is redirected. */
module Middleware {
  import opened Js

  datatype Decision = Next | Redirect(path: string)

  /** `config.matcher`: the only paths the middleware runs on. */
  const Matcher: seq<string> := ["/", "/login"]

  /** `process.env.COOKIE_NAME || ""`: an unset name is the empty name. */
  function CookieName(configured: Option<string>): (name: string)
    ensures configured.Some? ==> name == configured.value
    ensures configured.None? ==> name == ""
  {
    OrEmpty(configured)
  }

  /** `req.cookies.get(cookieName)` is a cookie object exactly when the
      cookie is present, whatever its value: even an empty value counts. */
  function IsAuthenticated(cookies: map<string, string>, cookieName: string): (b: bool)
    ensures b <==> cookieName in cookies.Keys
    ensures cookieName in cookies && cookies[cookieName] == "" ==> b
  {
    cookieName in cookies
  }

  /** `middleware(req)` for a request that the matcher let through, with
      `COOKIE_NAME` as configured (`None`: unset). */
  function Middleware(pathname: string, cookies: map<string, string>, configured: Option<string>): (d: Decision)
    ensures pathname == "/login" && IsAuthenticated(cookies, CookieName(configured)) ==> d == Redirect("/")
    ensures pathname == "/login" && !IsAuthenticated(cookies, CookieName(configured)) ==> d == Next
    ensures pathname != "/login" && !IsAuthenticated(cookies, CookieName(configured)) ==> d == Redirect("/login")
    ensures pathname != "/login" && IsAuthenticated(cookies, CookieName(configured)) ==> d == Next
  {
    var cookieName := CookieName(configured);
    var isAuthenticated := IsAuthenticated(cookies, cookieName);
    var loginPage := pathname == "/login";
    if loginPage then
      if isAuthenticated then Redirect("/") else Next
    else if !isAuthenticated then Redirect("/login")
    else Next
  }

  /** A request as the edge runtime handles it: unmatched paths skip the
      middleware altogether. */
  function Route(pathname: string, cookies: map<string, string>, configured: Option<string>): (d: Decision)
    ensures pathname !in Matcher ==> d == Next
    ensures d.Redirect? ==> pathname in Matcher && d.path in Matcher
  {
    if pathname in Matcher then Middleware(pathname, cookies, configured) else Next
  }

  /** Only presence matters: two cookie jars that agree on whether the
      configured cookie is there get the same decision, whatever its value. */
  lemma PresenceOnly(pathname: string, c1: map<string, string>, c2: map<string, string>, configured: Option<string>)
    requires (CookieName(configured) in c1) == (CookieName(configured) in c2)
    ensures Route(pathname, c1, configured) == Route(pathname, c2, configured)
  {
  }

  /** An unset `COOKIE_NAME` behaves as the empty name. */
  lemma UnsetNameIsEmptyName(pathname: string, cookies: map<string, string>)
    ensures Route(pathname, cookies, None) == Route(pathname, cookies, Some(""))
  {
  }

  /** No redirect loop: with the cookies unchanged, the target of a redirect
      lets the request through. */
  lemma NoRedirectLoop(pathname: string, cookies: map<string, string>, configured: Option<string>)
    requires Route(pathname, cookies, configured).Redirect?
    ensures Route(Route(pathname, cookies, configured).path, cookies, configured) == Next
  {
  }

  /** Every path of the site settles after at most one redirect. */
  lemma SettlesInOneStep(pathname: string, cookies: map<string, string>, configured: Option<string>)
    ensures var d := Route(pathname, cookies, configured);
      d == Next || Route(d.path, cookies, configured) == Next
  {
    if Route(pathname, cookies, configured).Redirect? {
      NoRedirectLoop(pathname, cookies, configured);
    }
  }
}
