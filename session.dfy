/** The session-relay API routes src/pages/api/get-jwt-cookie.ts,
    set-jwt-cookie.ts and logout.ts, over an abstract session record
    (the cookie's sealing is not modelled). */
module SessionRelay {
  import opened Js

  /** The session's fields: the bearer token and the user id. */
  datatype SessionData = SessionData(jwt: Option<string>, userId: Option<string>)

  const EmptySession := SessionData(None, None)

  /** A JSON response body; absent optional fields are left out of the JSON. */
  datatype Body =
    | JwtBody(success: bool, jwt: Option<string>, userId: Option<string>)
    | MessageBody(success: bool, message: string)
    | ErrorBody(success: bool, errorMessage: string)

  datatype Response = Response(status: int, body: Body)

  /** The parsed body of a set-jwt-cookie request; `NoBody` makes reading
      `bodyData.jwt` throw. */
  datatype SetJwtRequest = NoBody | JsonBody(jwt: Option<string>)

  const GetJwtFailed := "Gagal mendapatkan jwt, silahkan coba lagi"
  const LoginSucceeded := "Login berhasil"
  const LoginFailed := "Login gagal, silahkan coba kembali!"
  const LogoutSucceeded := "Logout berhasil"
  const LogoutFailed := "Logout gagal, silahkan coba kembali!"

  /** `req.session` for one request, and the cookie the browser holds. */
  class Session {
    /** The session as decoded for this request. */
    var data: SessionData
    /** The session the browser's cookie carries; `save` writes it and
        `destroy` clears it. */
    var cookie: Option<SessionData>

    /** A request arriving with `cookie`. */
    constructor FromCookie(cookie: Option<SessionData>)
      ensures data == cookie.GetOr(EmptySession)
      ensures this.cookie == cookie
    {
      data := cookie.GetOr(EmptySession);
      this.cookie := cookie;
    }

    /** `req.session.save()`; `ok` tells whether it completed. */
    method Save(ok: bool)
      modifies this
      ensures data == old(data)
      ensures cookie == if ok then Some(data) else old(cookie)
    {
      if ok {
        cookie := Some(data);
      }
    }

    /** `req.session.destroy()`; `ok` tells whether it completed. */
    method Destroy(ok: bool)
      modifies this
      ensures ok ==> data == EmptySession && cookie.None?
      ensures !ok ==> data == old(data) && cookie == old(cookie)
    {
      if ok {
        data := EmptySession;
        cookie := None;
      }
    }
  }

  /** `getJwtCookie`; `fault` tells whether the handler threw. It reads the
      session and never writes it. */
  method GetJwtCookie(session: Session, fault: bool) returns (res: Response)
    ensures !fault ==> res == Response(200, JwtBody(true, session.data.jwt, session.data.userId))
    ensures fault ==> res == Response(500, ErrorBody(false, GetJwtFailed))
  {
    if fault {
      return Response(500, ErrorBody(false, GetJwtFailed));
    }
    var getJwt := session.data.jwt;
    var getUserId := session.data.userId;
    res := Response(200, JwtBody(true, getJwt, getUserId));
  }

  /** `SetJwtCookie`: stores the request's `jwt` and saves. */
  method SetJwtCookie(session: Session, body: SetJwtRequest, saveOk: bool) returns (res: Response)
    modifies session
    ensures body.JsonBody? ==> session.data == old(session.data).(jwt := body.jwt)
    ensures body.NoBody? ==> session.data == old(session.data) && session.cookie == old(session.cookie)
    ensures body.JsonBody? ==> session.cookie == if saveOk then Some(session.data) else old(session.cookie)
    ensures body.JsonBody? && saveOk ==> res == Response(200, MessageBody(true, LoginSucceeded))
    ensures body.NoBody? || !saveOk ==> res == Response(500, ErrorBody(false, LoginFailed))
  {
    if body.NoBody? {
      return Response(500, ErrorBody(false, LoginFailed));
    }
    session.data := session.data.(jwt := body.jwt);
    session.Save(saveOk);
    if saveOk {
      res := Response(200, MessageBody(true, LoginSucceeded));
    } else {
      res := Response(500, ErrorBody(false, LoginFailed));
    }
  }

  /** `logoutAccount`: destroys the session; both outcomes answer 200. */
  method LogoutAccount(session: Session, destroyOk: bool) returns (res: Response)
    modifies session
    ensures destroyOk ==> session.data == EmptySession && session.cookie.None?
    ensures !destroyOk ==> session.data == old(session.data) && session.cookie == old(session.cookie)
    ensures destroyOk ==> res == Response(200, MessageBody(true, LogoutSucceeded))
    ensures !destroyOk ==> res == Response(200, ErrorBody(false, LogoutFailed))
  {
    session.Destroy(destroyOk);
    if destroyOk {
      res := Response(200, MessageBody(true, LogoutSucceeded));
    } else {
      res := Response(200, ErrorBody(false, LogoutFailed));
    }
  }

  /** Set with X, then get on the next request: the token read back is X and
      the user id is whatever the cookie held before. */
  method SetThenGet(cookie: Option<SessionData>, x: string) returns (res: Response)
    ensures res == Response(200, JwtBody(true, Some(x), cookie.GetOr(EmptySession).userId))
  {
    var login := new Session.FromCookie(cookie);
    var _ := SetJwtCookie(login, JsonBody(Some(x)), true);
    var next := new Session.FromCookie(login.cookie);
    res := GetJwtCookie(next, false);
  }

  /** Logout, then get on the next request: success with no token. */
  method LogoutThenGet(cookie: Option<SessionData>) returns (res: Response)
    ensures res == Response(200, JwtBody(true, None, None))
  {
    var logout := new Session.FromCookie(cookie);
    var _ := LogoutAccount(logout, true);
    var next := new Session.FromCookie(logout.cookie);
    res := GetJwtCookie(next, false);
  }

  /** No session at all is not an error. */
  method GetWithoutSession() returns (res: Response)
    ensures res.status == 200 && res.body.JwtBody? && res.body.success && res.body.jwt.None?
  {
    var anonymous := new Session.FromCookie(None);
    res := GetJwtCookie(anonymous, false);
  }
}
