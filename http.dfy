/** The slice of Express the core touches: the `ApiError` handlers pass to
    `next`, what a handler ends with, the cookies a request carries (as
    `cookie-parser` exposes them) and the cookie jar of a response, which
    `res.cookie` and `res.clearCookie` update in place. */
module Http {
  import opened Common
  import opened Jwt

  /** `new ApiError(statusCode, message)`. */
  datatype ApiError = ApiError(statusCode: int, message: string)

  /** What reaches the error middleware: an `ApiError` passed to `next`, or any
      other error thrown inside a handler (a schema validation error of the
      store, say), with its detail. */
  datatype Failure = Api(error: ApiError) | Internal(detail: string)

  /** How a handler ends: `res.status(status).json(body)`, or `next(failure)`. */
  datatype Outcome<+B> = Reply(status: int, body: B) | Next(failure: Failure)

  function Fail<B>(statusCode: int, message: string): Outcome<B> {
    Next(Api(ApiError(statusCode, message)))
  }

  /** The verdict of a Joi schema on a request body: accepted, or rejected
      with the message of its first error detail. The schemas themselves are
      not modelled; a body lacking a field the schema requires is rejected. */
  datatype Verdict = Accepted | Rejected(message: string)

  datatype SameSite = Strict | Lax | NoRestriction

  /** Options of `res.cookie` / `res.clearCookie`; `maxAgeMs` in milliseconds. */
  datatype CookieOptions = CookieOptions(httpOnly: bool, secure: bool, sameSite: SameSite, maxAgeMs: Option<nat>)

  /** One `Set-Cookie` directive of a response. */
  datatype CookieDirective = SetCookie(value: Token, options: CookieOptions) | ExpireCookie(options: CookieOptions)

  const ACCESS_COOKIE: string := "accessToken"
  const REFRESH_COOKIE: string := "refreshToken"

  /** `req.cookies.accessToken` and `req.cookies.refreshToken`. */
  datatype RequestCookies = RequestCookies(accessToken: Option<Token>, refreshToken: Option<Token>)

  /** JavaScript truthiness of a cookie value: missing and empty are falsy. */
  predicate Present(cookie: Option<Token>) {
    cookie.Some? && cookie.value != Malformed("")
  }

  /** The value a browser that honours the directive sends back `elapsed`
      seconds after receiving it. */
  function Carried(d: CookieDirective, elapsed: nat): (r: Option<Token>)
    ensures r.Some? <==> d.SetCookie? && (d.options.maxAgeMs.None? || elapsed * 1000 < d.options.maxAgeMs.value)
    ensures r.Some? ==> r.value == d.value
  {
    match d
    case ExpireCookie(_) => None
    case SetCookie(v, o) =>
      if o.maxAgeMs.None? || elapsed * 1000 < o.maxAgeMs.value then Some(v) else None
  }

  /** The response object; only its cookie jar is state in this model (status
      and body are what a handler returns). */
  class Response {
    var cookies: map<string, CookieDirective>

    constructor ()
      ensures cookies == map[]
    {
      cookies := map[];
    }

    /** `res.cookie(name, value, options)`. */
    method Cookie(name: string, value: Token, options: CookieOptions)
      modifies this
      ensures cookies == old(cookies)[name := SetCookie(value, options)]
    {
      cookies := cookies[name := SetCookie(value, options)];
    }

    /** `res.clearCookie(name, options)`. */
    method ClearCookie(name: string, options: CookieOptions)
      modifies this
      ensures cookies == old(cookies)[name := ExpireCookie(options)]
    {
      cookies := cookies[name := ExpireCookie(options)];
    }
  }
}
