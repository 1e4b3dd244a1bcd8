/** src/utils/tokenUtils.js: minting the two kinds of token and attaching
    both to a response as cookies. */
module TokenUtils {
  import opened Common
  import opened Jwt
  import opened Http

  /** The process environment the module reads: `ACCESS_TOKEN_SECRET`,
      `REFRESH_TOKEN_SECRET` and `NODE_ENV`. */
  datatype Config = Config(accessTokenSecret: Secret, refreshTokenSecret: Secret, nodeEnv: string) {
    predicate Production() {
      nodeEnv == "production"
    }
  }

  /** The `user` argument: a stored principal's `_id`, `email` and `role`. */
  datatype TokenSubject = TokenSubject(id: Id, email: string, role: string)

  /** `expiresIn: "40m"`, in seconds. */
  const ACCESS_TOKEN_EXPIRES_IN: nat := 40 * 60
  /** `expiresIn: "2d"`, in seconds. */
  const REFRESH_TOKEN_EXPIRES_IN: nat := 2 * 24 * 60 * 60
  /** The access cookie's `maxAge`, 15 minutes in milliseconds. */
  const ACCESS_COOKIE_MAX_AGE_MS: nat := 15 * 60 * 1000
  /** The refresh cookie's `maxAge`, 2 days in milliseconds. */
  const REFRESH_COOKIE_MAX_AGE_MS: nat := 2 * 24 * 60 * 60 * 1000

  /** `generateAccessToken(user)`: verifying it with the access secret gives
      back exactly `{id, email, role}`, unexpired for 40 minutes. */
  function GenerateAccessToken(user: TokenSubject, cfg: Config, now: nat): (t: Token)
    ensures Verify(t, cfg.accessTokenSecret, now) ==
            Valid(Payload(Claims(user.id, Some(user.email), user.role), now, now + ACCESS_TOKEN_EXPIRES_IN))
  {
    Sign(Claims(user.id, Some(user.email), user.role), cfg.accessTokenSecret, now, ACCESS_TOKEN_EXPIRES_IN)
  }

  /** `generateRefreshToken(user)`: verifying it with the refresh secret gives
      back exactly `{id, role}` (no email), unexpired for 2 days. */
  function GenerateRefreshToken(user: TokenSubject, cfg: Config, now: nat): (t: Token)
    ensures Verify(t, cfg.refreshTokenSecret, now) ==
            Valid(Payload(Claims(user.id, None, user.role), now, now + REFRESH_TOKEN_EXPIRES_IN))
  {
    Sign(Claims(user.id, None, user.role), cfg.refreshTokenSecret, now, REFRESH_TOKEN_EXPIRES_IN)
  }

  /** The options both cookies share, plus the given `maxAge`. */
  function TokenCookieOptions(cfg: Config, maxAgeMs: nat): (o: CookieOptions)
    ensures o.httpOnly && o.sameSite == Strict && o.maxAgeMs == Some(maxAgeMs)
    ensures o.secure <==> cfg.nodeEnv == "production"
  {
    CookieOptions(true, cfg.Production(), Strict, Some(maxAgeMs))
  }

  /** A cookie jar after `setTokenCookies`: both token cookies replaced,
      every other cookie kept. */
  function WithTokenCookies(jar: map<string, CookieDirective>, accessToken: Token, refreshToken: Token, cfg: Config)
    : (r: map<string, CookieDirective>)
    ensures r.Keys == jar.Keys + {ACCESS_COOKIE, REFRESH_COOKIE}
    ensures r[ACCESS_COOKIE] == SetCookie(accessToken, TokenCookieOptions(cfg, ACCESS_COOKIE_MAX_AGE_MS))
    ensures r[REFRESH_COOKIE] == SetCookie(refreshToken, TokenCookieOptions(cfg, REFRESH_COOKIE_MAX_AGE_MS))
    ensures forall name | name in jar && name != ACCESS_COOKIE && name != REFRESH_COOKIE :: r[name] == jar[name]
  {
    jar[ACCESS_COOKIE := SetCookie(accessToken, TokenCookieOptions(cfg, ACCESS_COOKIE_MAX_AGE_MS))]
       [REFRESH_COOKIE := SetCookie(refreshToken, TokenCookieOptions(cfg, REFRESH_COOKIE_MAX_AGE_MS))]
  }

  /** `setTokenCookies(res, accessToken, refreshToken)`: sets both cookies,
      each httpOnly and sameSite strict, secure exactly in production. */
  method SetTokenCookies(res: Response, accessToken: Token, refreshToken: Token, cfg: Config)
    modifies res
    ensures res.cookies == WithTokenCookies(old(res.cookies), accessToken, refreshToken, cfg)
  {
    res.Cookie(ACCESS_COOKIE, accessToken, TokenCookieOptions(cfg, ACCESS_COOKIE_MAX_AGE_MS));
    res.Cookie(REFRESH_COOKIE, refreshToken, TokenCookieOptions(cfg, REFRESH_COOKIE_MAX_AGE_MS));
  }

  /** Over its whole life: an access token is valid for exactly 40 minutes,
      a refresh token for exactly 2 days, and each is expired (never invalid)
      afterwards when checked with its own secret. */
  lemma TokenLifetimes(user: TokenSubject, cfg: Config, now: nat, t: nat)
    requires now <= t
    ensures Verify(GenerateAccessToken(user, cfg, now), cfg.accessTokenSecret, t).Valid?
            <==> t < now + ACCESS_TOKEN_EXPIRES_IN
    ensures !Verify(GenerateAccessToken(user, cfg, now), cfg.accessTokenSecret, t).Invalid?
    ensures Verify(GenerateRefreshToken(user, cfg, now), cfg.refreshTokenSecret, t).Valid?
            <==> t < now + REFRESH_TOKEN_EXPIRES_IN
    ensures !Verify(GenerateRefreshToken(user, cfg, now), cfg.refreshTokenSecret, t).Invalid?
    ensures REFRESH_TOKEN_EXPIRES_IN == 172800 && ACCESS_TOKEN_EXPIRES_IN == 2400
  {
  }

  /** With two distinct secrets, a token of one kind never verifies against
      the other kind's secret, at any instant. */
  lemma SecretsSeparateKinds(user: TokenSubject, cfg: Config, now: nat, t: nat)
    requires cfg.accessTokenSecret != cfg.refreshTokenSecret
    ensures Verify(GenerateAccessToken(user, cfg, now), cfg.refreshTokenSecret, t) == Invalid
    ensures Verify(GenerateRefreshToken(user, cfg, now), cfg.accessTokenSecret, t) == Invalid
  {
  }

  /** The cookie lifetimes against the token lifetimes: the refresh cookie
      lasts exactly as long as its token's "2d", while the access cookie
      (900000 ms) is dropped well before its token's 40 minutes run out, so
      a browser stops sending an access token while it is still valid. */
  lemma CookieLifetimes(user: TokenSubject, cfg: Config, now: nat, elapsed: nat)
    ensures ACCESS_COOKIE_MAX_AGE_MS == 900000 && REFRESH_COOKIE_MAX_AGE_MS == 172800000
    ensures REFRESH_COOKIE_MAX_AGE_MS == REFRESH_TOKEN_EXPIRES_IN * 1000
    ensures ACCESS_COOKIE_MAX_AGE_MS < ACCESS_TOKEN_EXPIRES_IN * 1000
    ensures Carried(SetCookie(GenerateRefreshToken(user, cfg, now), TokenCookieOptions(cfg, REFRESH_COOKIE_MAX_AGE_MS)), elapsed).Some?
            <==> Verify(GenerateRefreshToken(user, cfg, now), cfg.refreshTokenSecret, now + elapsed).Valid?
    ensures Carried(SetCookie(GenerateAccessToken(user, cfg, now), TokenCookieOptions(cfg, ACCESS_COOKIE_MAX_AGE_MS)), elapsed).Some?
            ==> Verify(GenerateAccessToken(user, cfg, now), cfg.accessTokenSecret, now + elapsed).Valid?
  {
  }
}
