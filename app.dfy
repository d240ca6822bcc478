/** The application shell of src/pages/_app.tsx: the layout choice and the
    server-side initial user. */
module App {
  import opened Js
  import opened Http
  import opened AuthContext

  datatype Layout = BoxLayout | DrawerLayout

  /** `App`'s `Layout`: a bare `Box` on the login page, the drawer elsewhere. */
  function LayoutFor(pathname: string): (l: Layout)
    ensures l == BoxLayout <==> pathname == "/login"
  {
    var isLoginPage := pathname == "/login";
    if !isLoginPage then DrawerLayout else BoxLayout
  }

  /** `getInitialProps`' result: all of `appProps` plus `detailUser`. */
  datatype InitialProps<P> = InitialProps(appProps: P, detailUser: UserDetail)

  /** The non-login user the `catch` branch builds, written out in place. */
  const AnonymousUser := UserDetail(0, "", "", "", false, false, "", "", Some(""))

  /** The `Authorization` header of the profile request: made whenever the
      cookie request succeeded, even for an absent or empty token. */
  function ProfileRequestOf(tokenFetch: Outcome<Option<string>>): (h: Option<string>)
    ensures h.Some? <==> tokenFetch.Ok?
    ensures tokenFetch.Ok? ==> h.value == "Bearer " + Template(tokenFetch.body)
  {
    if tokenFetch.Ok? then Some("Bearer " + Template(tokenFetch.body)) else None
  }

  /** `WrapperApp.getInitialProps`, given how the cookie request and the
      profile request ended. */
  function GetInitialProps<P>(appProps: P, tokenFetch: Outcome<Option<string>>, profileFetch: Outcome<UserDetail>)
    : (r: InitialProps<P>)
    ensures r.appProps == appProps
    ensures tokenFetch.Ok? && profileFetch.Ok? ==> r.detailUser == profileFetch.body.(jwt := tokenFetch.body)
    ensures tokenFetch.Err? || profileFetch.Err? ==> r.detailUser == AnonymousUser
  {
    match (tokenFetch, profileFetch)
    case (Ok(getJwt), Ok(user)) => InitialProps(appProps, user.(jwt := getJwt))
    case _ => InitialProps(appProps, AnonymousUser)
  }

  /** The server-side fallback user is the context's sentinel. */
  lemma AnonymousIsSentinel()
    ensures AnonymousUser == DetailUserEmpty
  {
  }

  /** The two refresh paths differ: the server merges the cookie token into
      the profile, the client context keeps the profile body as it came. */
  lemma ServerMergesTokenClientDoesNot(token: string, profile: UserDetail, appProps: int)
    requires token != "" && profile.jwt != Some(token)
    ensures GetInitialProps(appProps, Ok(Some(token)), Ok(profile)).detailUser.jwt == Some(token)
    ensures RefetchedUser(Ok(Some(token)), Ok(profile)) == profile
    ensures GetInitialProps(appProps, Ok(Some(token)), Ok(profile)).detailUser != RefetchedUser(Ok(Some(token)), Ok(profile))
  {
  }

  /** No empty-token short-cut on the server: an empty or missing cookie
      token still sends a profile request ("Bearer " or "Bearer undefined")
      and, if that succeeds, yields the profile, where the client context
      sends nothing and falls back to the sentinel. */
  lemma EmptyTokenStillQueries(token: Option<string>, profile: UserDetail, appProps: int)
    requires !Truthy(token)
    ensures ProfileRequestOf(Ok(token)) == Some(if token.None? then "Bearer undefined" else "Bearer ")
    ensures ProfileRequest(Ok(token)).None?
    ensures GetInitialProps(appProps, Ok(token), Ok(profile)).detailUser == profile.(jwt := token)
    ensures RefetchedUser(Ok(token), Ok(profile)) == DetailUserEmpty
  {
    assert "Bearer " + "" == "Bearer ";
    assert "Bearer " + "undefined" == "Bearer undefined";
  }

  /** `WrapperApp`: the provider starts from `getInitialProps`' user. */
  method WrapperApp<P>(props: InitialProps<P>) returns (auth: AuthProvider)
    ensures auth.detailUser == props.detailUser
  {
    auth := new AuthProvider(props.detailUser);
  }
}
