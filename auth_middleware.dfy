/** src/middleware/authMiddleware.js (the active revision): the per-request
    session check. The decision is a function of the request's cookies, the
    ledger and the clock; `Authenticate` applies it to the response. */
module AuthMiddleware {
  import opened Common
  import opened Jwt
  import opened Http
  import opened TokenModel
  import TokenUtils

  /** `expiresIn: "15m"` of this module's own `generateAccessToken`. */
  const ROTATED_ACCESS_EXPIRES_IN: nat := 15 * 60
  /** `maxAge: 15 * 60 * 1000` of the rotated access cookie. */
  const ROTATED_COOKIE_MAX_AGE_MS: nat := 15 * 60 * 1000

  const UNAUTHORIZED: ApiError := ApiError(401, "Unauthorized")
  const INVALID_ACCESS: ApiError := ApiError(403, "Invalid Access Token")
  const REFRESH_NOT_FOUND: ApiError := ApiError(403, "Refresh token not found, please login again")
  const INVALID_REFRESH: ApiError := ApiError(403, "Invalid Refresh Token")

  /** This module's `generateAccessToken({ _id, email, role })`: the same
      claims, signed with the access secret, valid for 15 minutes. */
  function GenerateAccessToken(user: Claims, cfg: TokenUtils.Config, now: nat): (t: Token)
    ensures Verify(t, cfg.accessTokenSecret, now) == Valid(Payload(user, now, now + ROTATED_ACCESS_EXPIRES_IN))
  {
    Sign(Claims(user.id, user.email, user.role), cfg.accessTokenSecret, now, ROTATED_ACCESS_EXPIRES_IN)
  }

  function RotatedCookieOptions(cfg: TokenUtils.Config): CookieOptions {
    TokenUtils.TokenCookieOptions(cfg, ROTATED_COOKIE_MAX_AGE_MS)
  }

  /** The three ways the middleware ends: `next()` with `req.user` set, the
      same after setting a new access cookie, or `next(ApiError)`. */
  datatype Decision =
    | Proceed(user: Payload)
    | Rotate(user: Payload, accessToken: Token)
    | Reject(error: ApiError)

  /** The decision for a request. `ledgerFails` stands for the ledger lookup
      throwing (the store unreachable). A request proceeds only on a valid
      access token, and is rotated only on an expired one with a recorded,
      valid refresh token; every refusal is 401 (no access cookie) or 403. */
  function Decide(req: RequestCookies, cfg: TokenUtils.Config, entries: seq<Entry>, now: nat, ledgerFails: bool): (d: Decision)
    ensures (d.Reject? && d.error.statusCode == 401) <==> !Present(req.accessToken)
    ensures d.Reject? ==> d.error.statusCode == 401 || d.error.statusCode == 403
    ensures d.Proceed? ==> Present(req.accessToken) && Verify(req.accessToken.value, cfg.accessTokenSecret, now) == Valid(d.user)
    ensures d.Rotate? ==>
              && Present(req.accessToken) && Verify(req.accessToken.value, cfg.accessTokenSecret, now).Expired?
              && Present(req.refreshToken) && !ledgerFails
              && Lookup(entries, ByRefreshToken(req.refreshToken.value), now).Some?
              && Verify(req.refreshToken.value, cfg.refreshTokenSecret, now) == Valid(d.user)
              && Verify(d.accessToken, cfg.accessTokenSecret, now) == Valid(Payload(d.user.claims, now, now + ROTATED_ACCESS_EXPIRES_IN))
  {
    if !Present(req.accessToken) then Reject(UNAUTHORIZED)
    else match Verify(req.accessToken.value, cfg.accessTokenSecret, now)
      case Valid(p) => Proceed(p)
      case Invalid => Reject(INVALID_ACCESS)
      case Expired(_) =>
        if !Present(req.refreshToken) then Reject(INVALID_ACCESS)
        else if ledgerFails then Reject(INVALID_REFRESH)
        else if Lookup(entries, ByRefreshToken(req.refreshToken.value), now).None? then Reject(REFRESH_NOT_FOUND)
        else match Verify(req.refreshToken.value, cfg.refreshTokenSecret, now)
          case Valid(r) => Rotate(r, GenerateAccessToken(r.claims, cfg, now))
          case _ => Reject(INVALID_REFRESH)
  }

  /** `authMiddleware(req, res, next)`: decides, and on rotation sets only the
      `accessToken` cookie; the ledger is only read. */
  method Authenticate(req: RequestCookies, cfg: TokenUtils.Config, ledger: Ledger, res: Response, ledgerFails: bool)
    returns (d: Decision)
    requires ledger.Valid()
    modifies res
    ensures d == Decide(req, cfg, ledger.entries, ledger.now, ledgerFails)
    ensures d.Rotate? ==> res.cookies == old(res.cookies)[ACCESS_COOKIE := SetCookie(d.accessToken, RotatedCookieOptions(cfg))]
    ensures !d.Rotate? ==> res.cookies == old(res.cookies)
  {
    if !Present(req.accessToken) {
      return Reject(UNAUTHORIZED);
    }
    var access := Verify(req.accessToken.value, cfg.accessTokenSecret, ledger.now);
    if access.Valid? {
      return Proceed(access.payload);
    }
    if !(access.Expired? && Present(req.refreshToken)) {
      return Reject(INVALID_ACCESS);
    }
    if ledgerFails {
      return Reject(INVALID_REFRESH);
    }
    var stored := ledger.FindOne(ByRefreshToken(req.refreshToken.value));
    if stored.None? {
      return Reject(REFRESH_NOT_FOUND);
    }
    var refresh := Verify(req.refreshToken.value, cfg.refreshTokenSecret, ledger.now);
    if !refresh.Valid? {
      return Reject(INVALID_REFRESH);
    }
    var newAccessToken := GenerateAccessToken(refresh.payload.claims, cfg, ledger.now);
    res.Cookie(ACCESS_COOKIE, newAccessToken, RotatedCookieOptions(cfg));
    d := Rotate(refresh.payload, newAccessToken);
  }

  /** Without an access cookie the request is unauthorised, whatever refresh
      cookie it carries, and the ledger plays no part. */
  lemma NoAccessCookieIsUnauthorized(req: RequestCookies, cfg: TokenUtils.Config, entries: seq<Entry>, now: nat, ledgerFails: bool)
    requires !Present(req.accessToken)
    ensures Decide(req, cfg, entries, now, ledgerFails) == Reject(ApiError(401, "Unauthorized"))
  {
  }

  /** A valid access token proceeds with its own payload as `req.user`, with
      no cookie and no ledger involved. */
  lemma ValidAccessProceeds(req: RequestCookies, cfg: TokenUtils.Config, entries: seq<Entry>, now: nat, ledgerFails: bool)
    requires req.accessToken.Some? && Verify(req.accessToken.value, cfg.accessTokenSecret, now).Valid?
    ensures Decide(req, cfg, entries, now, ledgerFails) == Proceed(Verify(req.accessToken.value, cfg.accessTokenSecret, now).payload)
  {
  }

  /** A forged or garbled access token, or an expired one without a refresh
      cookie, is rejected as an invalid access token; refresh is not tried. */
  lemma BadAccessIsTerminal(req: RequestCookies, cfg: TokenUtils.Config, entries: seq<Entry>, now: nat, ledgerFails: bool)
    requires Present(req.accessToken)
    requires Verify(req.accessToken.value, cfg.accessTokenSecret, now).Invalid?
             || (Verify(req.accessToken.value, cfg.accessTokenSecret, now).Expired? && !Present(req.refreshToken))
    ensures Decide(req, cfg, entries, now, ledgerFails) == Reject(ApiError(403, "Invalid Access Token"))
  {
  }

  /** On the refresh path (access expired, refresh cookie present), each
      rejection has exactly one cause, in this order: the ledger lookup
      throwing, no live ledger entry for the token, the token failing
      verification with the refresh secret. */
  lemma RefreshPathRejections(req: RequestCookies, cfg: TokenUtils.Config, entries: seq<Entry>, now: nat, ledgerFails: bool)
    requires Present(req.accessToken) && Verify(req.accessToken.value, cfg.accessTokenSecret, now).Expired?
    requires Present(req.refreshToken)
    ensures ledgerFails ==> Decide(req, cfg, entries, now, ledgerFails) == Reject(INVALID_REFRESH)
    ensures !ledgerFails && Lookup(entries, ByRefreshToken(req.refreshToken.value), now).None?
            ==> Decide(req, cfg, entries, now, ledgerFails) == Reject(ApiError(403, "Refresh token not found, please login again"))
    ensures !ledgerFails && Lookup(entries, ByRefreshToken(req.refreshToken.value), now).Some?
            && !Verify(req.refreshToken.value, cfg.refreshTokenSecret, now).Valid?
            ==> Decide(req, cfg, entries, now, ledgerFails) == Reject(ApiError(403, "Invalid Refresh Token"))
  {
  }

  /** The core contract: an expired access token is recovered exactly when
      the refresh cookie is present, has a live ledger entry, and verifies
      against the refresh secret. Rotation never happens from any other
      state. */
  lemma RotationIff(req: RequestCookies, cfg: TokenUtils.Config, entries: seq<Entry>, now: nat, ledgerFails: bool)
    ensures Decide(req, cfg, entries, now, ledgerFails).Rotate? <==>
            && Present(req.accessToken)
            && Verify(req.accessToken.value, cfg.accessTokenSecret, now).Expired?
            && Present(req.refreshToken)
            && !ledgerFails
            && Lookup(entries, ByRefreshToken(req.refreshToken.value), now).Some?
            && Verify(req.refreshToken.value, cfg.refreshTokenSecret, now).Valid?
  {
  }

  /** What rotation yields: `req.user` is the decoded refresh payload (its
      own `iat`/`exp`), and the new access token carries the refresh token's
      claims, verifies for the next 15 minutes and is then expired. */
  lemma RotationResult(req: RequestCookies, cfg: TokenUtils.Config, entries: seq<Entry>, now: nat, ledgerFails: bool, t: nat)
    requires Decide(req, cfg, entries, now, ledgerFails).Rotate?
    requires now <= t
    ensures var d := Decide(req, cfg, entries, now, ledgerFails);
            && Verify(req.refreshToken.value, cfg.refreshTokenSecret, now) == Valid(d.user)
            && Verify(d.accessToken, cfg.accessTokenSecret, t) ==
               (if t < now + 15 * 60 then Valid(Payload(d.user.claims, now, now + 15 * 60)) else Expired(now + 15 * 60))
  {
  }

  /** Rotating a refresh token minted by `generateRefreshToken` gives a
      session whose claims have no email, while login sessions carry one. */
  lemma RotatedSessionLosesEmail(user: TokenUtils.TokenSubject, cfg: TokenUtils.Config, issuedAt: nat,
                                 access: Token, entries: seq<Entry>, now: nat)
    requires issuedAt <= now < issuedAt + TokenUtils.REFRESH_TOKEN_EXPIRES_IN
    requires Verify(access, cfg.accessTokenSecret, now).Expired?
    requires Lookup(entries, ByRefreshToken(TokenUtils.GenerateRefreshToken(user, cfg, issuedAt)), now).Some?
    ensures var refresh := TokenUtils.GenerateRefreshToken(user, cfg, issuedAt);
            var d := Decide(RequestCookies(Some(access), Some(refresh)), cfg, entries, now, false);
            && d.Rotate?
            && d.user == Payload(Claims(user.id, None, user.role), issuedAt, issuedAt + TokenUtils.REFRESH_TOKEN_EXPIRES_IN)
            && Verify(d.accessToken, cfg.accessTokenSecret, now) == Valid(Payload(Claims(user.id, None, user.role), now, now + 15 * 60))
    ensures Verify(TokenUtils.GenerateAccessToken(user, cfg, issuedAt), cfg.accessTokenSecret, issuedAt).payload.claims.email == Some(user.email)
  {
  }

  /** A refresh token with no ledger entry (as after signup) never rotates:
      once the access token expires the request is told to log in again. */
  lemma UnrecordedRefreshNeverRotates(req: RequestCookies, cfg: TokenUtils.Config, entries: seq<Entry>, now: nat)
    requires Present(req.accessToken) && Verify(req.accessToken.value, cfg.accessTokenSecret, now).Expired?
    requires Present(req.refreshToken) && Lookup(entries, ByRefreshToken(req.refreshToken.value), now).None?
    ensures Decide(req, cfg, entries, now, false) == Reject(ApiError(403, "Refresh token not found, please login again"))
  {
  }

  /** A browser that honours the cookies' `maxAge` never reaches the refresh
      path with the tokens `setTokenCookies` sets: for 15 minutes it sends a
      valid access token, and from then on no access token at all (while the
      refresh cookie lives on), which is rejected as unauthorised. */
  lemma BrowserSessionNeverRotates(user: TokenUtils.TokenSubject, cfg: TokenUtils.Config, issuedAt: nat,
                                   refresh: Token, entries: seq<Entry>, elapsed: nat, ledgerFails: bool)
    ensures var access := TokenUtils.GenerateAccessToken(user, cfg, issuedAt);
            var jar := TokenUtils.WithTokenCookies(map[], access, refresh, cfg);
            var req := RequestCookies(Carried(jar[ACCESS_COOKIE], elapsed), Carried(jar[REFRESH_COOKIE], elapsed));
            var d := Decide(req, cfg, entries, issuedAt + elapsed, ledgerFails);
            && !d.Rotate?
            && (elapsed < 15 * 60 ==> d == Proceed(Payload(Claims(user.id, Some(user.email), user.role), issuedAt, issuedAt + TokenUtils.ACCESS_TOKEN_EXPIRES_IN)))
            && (elapsed >= 15 * 60 ==> d == Reject(ApiError(401, "Unauthorized")))
            && (elapsed < 2 * 24 * 60 * 60 ==> req.refreshToken == Some(refresh))
  {
  }
}
