/** The current-user holder of src/contexts/authContext.tsx. */
module AuthContext {
  import opened Js
  import opened Http

  /** `UserDetail`. `jwt` is optional: it is whatever the profile response
      carried, which need not include a token. */
  datatype UserDetail = UserDetail(
    id: int, username: string, email: string, provider: string,
    confirmed: bool, blocked: bool, createdAt: string, updatedAt: string,
    jwt: Option<string>)

  /** `detailUserEmpty`: the "not logged in" sentinel. */
  const DetailUserEmpty := UserDetail(0, "", "", "", false, false, "", "", Some(""))

  /** The `Authorization` header sent to the profile endpoint, if that
      request is made at all: only for a truthy cookie token. */
  function ProfileRequest(tokenFetch: Outcome<Option<string>>): (h: Option<string>)
    ensures h.Some? <==> tokenFetch.Ok? && Truthy(tokenFetch.body)
    ensures h.Some? ==> h.value == "Bearer " + tokenFetch.body.value
  {
    if tokenFetch.Ok? && Truthy(tokenFetch.body) then Some("Bearer " + tokenFetch.body.value) else None
  }

  /** The `detailUser` that `refetchDetailUser` leaves behind, given how the
      cookie request and (if made) the profile request ended. */
  function RefetchedUser(tokenFetch: Outcome<Option<string>>, profileFetch: Outcome<UserDetail>): (u: UserDetail)
    ensures tokenFetch.Err? ==> u == DetailUserEmpty
    ensures tokenFetch.Ok? && !Truthy(tokenFetch.body) ==> u == DetailUserEmpty
    ensures ProfileRequest(tokenFetch).Some? && profileFetch.Err? ==> u == DetailUserEmpty
    ensures ProfileRequest(tokenFetch).Some? && profileFetch.Ok? ==> u == profileFetch.body
  {
    match tokenFetch
    case Err(_) => DetailUserEmpty
    case Ok(getJwt) =>
      if !Truthy(getJwt) then DetailUserEmpty
      else
        match profileFetch
        case Ok(user) => user
        case Err(_) => DetailUserEmpty
  }

  /** Whatever happens, the result is the sentinel or the profile body. */
  lemma RefetchedIsSentinelOrProfile(tokenFetch: Outcome<Option<string>>, profileFetch: Outcome<UserDetail>)
    ensures var u := RefetchedUser(tokenFetch, profileFetch);
      u == DetailUserEmpty || (profileFetch.Ok? && u == profileFetch.body)
  {
  }

  /** `AuthProvider`. */
  class AuthProvider {
    var detailUser: UserDetail

    /** `useState(initDetailUser)`. */
    constructor (initDetailUser: UserDetail)
      ensures detailUser == initDetailUser
    {
      detailUser := initDetailUser;
    }

    /** `refetchDetailUser()`; returns the `Authorization` header of the
        profile request, or `None` when none was made. */
    method RefetchDetailUser(tokenFetch: Outcome<Option<string>>, profileFetch: Outcome<UserDetail>)
      returns (profileRequest: Option<string>)
      modifies this
      ensures detailUser == RefetchedUser(tokenFetch, profileFetch)
      ensures profileRequest == ProfileRequest(tokenFetch)
    {
      profileRequest := None;
      if tokenFetch.Err? {
        detailUser := DetailUserEmpty;
        return;
      }
      var getJwt := tokenFetch.body;
      if !Truthy(getJwt) {
        detailUser := DetailUserEmpty;
        return;
      }
      profileRequest := Some("Bearer " + getJwt.value);
      match profileFetch
      case Ok(user) =>
        detailUser := user;
      case Err(_) =>
        detailUser := DetailUserEmpty;
    }
  }
}
