/** The request-interceptor registration of src/hooks/useAxios.ts. */
module UseAxios {
  import opened Js

  /** Request headers; a key mapped to `None` was set to `undefined`. */
  type Headers = map<string, Option<string>>

  /** The `Authorization` value the interceptor writes for a token. */
  function AuthorizationFor(token: Option<string>): (v: Option<string>)
    ensures v.Some? <==> Truthy(token)
    ensures Truthy(token) ==> v == Some("Bearer " + token.value)
  {
    if Truthy(token) then Some("Bearer " + token.value) else None
  }

  /** The headers after the interceptor ran on them. */
  function Intercepted(headers: Headers, token: Option<string>): (h: Headers)
    ensures "Authorization" in h && h["Authorization"] == AuthorizationFor(token)
    ensures h.Keys == headers.Keys + {"Authorization"}
    ensures forall k :: k in headers && k != "Authorization" ==> h[k] == headers[k]
  {
    headers["Authorization" := AuthorizationFor(token)]
  }

  /** An interceptor closes over the `detailUser.jwt` of the render that
      registered it. */
  datatype RequestInterceptor = RequestInterceptor(token: Option<string>)

  /** The request config an interceptor receives and returns. */
  class RequestConfig {
    var headers: Headers

    constructor (headers: Headers)
      ensures this.headers == headers
    {
      this.headers := headers;
    }
  }

  /** The shared axios instance and its request-interceptor list. */
  class Axios {
    var interceptors: seq<RequestInterceptor>

    constructor ()
      ensures interceptors == []
    {
      interceptors := [];
    }

    /** `axios.interceptors.request.use(...)`: appends, never removes. */
    method Use(i: RequestInterceptor)
      modifies this
      ensures interceptors == old(interceptors) + [i]
    {
      interceptors := interceptors + [i];
    }
  }

  /** The interceptor body: writes `Authorization` into the config's headers
      in place and hands back the same config. */
  method Intercept(i: RequestInterceptor, config: RequestConfig) returns (c: RequestConfig)
    modifies config
    ensures c == config
    ensures config.headers == Intercepted(old(config.headers), i.token)
  {
    var token := i.token;
    if Truthy(token) {
      config.headers := config.headers["Authorization" := Some("Bearer " + token.value)];
    } else {
      config.headers := config.headers["Authorization" := None];
    }
    c := config;
  }

  /** `getAxios()` as returned by `useAxios` in a render whose
      `detailUser.jwt` is `jwt`: registers one more interceptor and returns
      the shared instance. */
  method GetAxios(ax: Axios, jwt: Option<string>) returns (r: Axios)
    modifies ax
    ensures r == ax
    ensures ax.interceptors == old(ax.interceptors) + [RequestInterceptor(jwt)]
  {
    ax.Use(RequestInterceptor(jwt));
    r := ax;
  }
}
