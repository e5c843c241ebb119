/** The HTTP side of the backend handlers: the exceptions a handler can see,
    the outcome of a call into an external client, cookies, and the response
    FastAPI sends back. */
module Http {
  import opened Options
  import opened Text
  import opened Schemas

  /** An exception as the handlers distinguish them. */
  datatype Exception =
    | AuthApiError(message: string)            // the identity provider's API error
    | HttpException(status: int, detail: string) // raised by a handler itself
    | OtherError(message: string)              // any other exception

  /** `str(e)`. Other exceptions print as their message; Starlette's
      `HTTPException` prints as its status code in decimal, `": "` and its
      detail, so both the status and the detail can be read back. */
  function Str(e: Exception): (r: string)
    ensures !e.HttpException? ==> r == e.message
    ensures e.HttpException? ==>
      var n := |r| - |e.detail|;
      && n >= 3
      && r[n..] == e.detail
      && r[n - 2..n] == ": "
      && DecimalValue(r[..n - 2]) == e.status
  {
    match e
    case AuthApiError(m) => m
    case HttpException(status, detail) =>
      var code := DecimalString(status);
      DecimalRoundTrip(status);
      assert (code + ": " + detail)[..|code|] == code;
      code + ": " + detail
    case OtherError(m) => m
  }

  /** What a call into an external client did: returned a value or raised. */
  datatype Outcome<+T> = Returned(value: T) | Raised(error: Exception)

  /** The `samesite` argument of Starlette's `set_cookie` and
      `delete_cookie`: `"lax"`, `"strict"` or `"none"` write
      `SameSite=Lax`, `SameSite=Strict` or `SameSite=None`; Python `None`
      (`Omitted`) writes no `SameSite` attribute at all. */
  datatype SameSite = Lax | Strict | SameSiteNone | Omitted

  /** A `Set-Cookie` directive. `maxAge == Some(0)` expires the cookie. */
  datatype Cookie = Cookie(
    name: string,
    value: string,
    path: string,
    domain: Option<string>,
    maxAge: Option<int>,
    httpOnly: bool,
    secure: bool,
    sameSite: SameSite)

  /** The JSON body of a response. */
  datatype Payload =
    | Message(message: string)
    | Detail(detail: string)
    | TokenPair(accessToken: string, refreshToken: string, tokenType: string)
    | Results(search: SearchResponse)
    | ValidationFailed

  datatype Response = Response(
    status: int,
    payload: Payload,
    headers: seq<(string, string)>,
    cookies: seq<Cookie>)

  /** A handler's successful return: status 200 with the cookies it set on
      the injected response. */
  function Success(payload: Payload, cookies: seq<Cookie>): Response
  {
    Response(200, payload, [], cookies)
  }

  /** The response FastAPI builds for an uncaught `HTTPException`: its
      status, `{"detail": ...}`, its headers, and none of the cookies set on
      the injected response. */
  function Raise(status: int, detail: string, headers: seq<(string, string)>): Response
  {
    Response(status, Detail(detail), headers, [])
  }
}
