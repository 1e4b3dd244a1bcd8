/** src/Controllers/authController.js: the four session handlers `signup`,
    `login`, `changePassword` and `logout`, over the principal directory, the
    refresh-token ledger (whose clock is the server clock) and the response's
    cookie jar. */
module AuthController {
  import opened Common
  import opened Jwt
  import opened Bcrypt
  import opened Http
  import opened AuthModel
  import opened InspectorModel
  import opened TokenModel
  import opened Principals
  import TokenUtils
  import AuthMiddleware

  /** A `{ success, message }` JSON body. */
  datatype Message = Message(success: bool, message: string)

  /** The signup body; the fields the schema requires are plain strings. */
  datatype SignupRequest = SignupRequest(
    fullName: string,
    email: string,
    password: string,
    role: Option<string>,
    phoneNumber: Option<string>,
    dob: Option<string>,
    gender: Option<string>,
    nationality: Option<string>)

  /** The fields signup passes to `AuthModel.create`: the body's, with the
      password replaced by its hash. */
  function SignupFields(req: SignupRequest, salt: nat): (f: AccountFields)
    ensures f.password == Hash(req.password, salt) && f.email == req.email
  {
    AccountFields(req.fullName, req.email, Hash(req.password, salt), req.role,
                  req.phoneNumber, req.dob, req.gender, req.nationality)
  }

  /** `signup`. The verdict is the signup schema's; `salt` stands for the
      salt bcrypt draws. A failed `create` (an empty required string, or a
      role outside the enum) escapes to the error middleware. */
  method Signup(dir: Directory, ledger: Ledger, res: Response, cfg: TokenUtils.Config,
                verdict: Verdict, req: SignupRequest, salt: nat) returns (out: Outcome<Message>)
    requires dir.Valid() && ledger.Valid()
    modifies dir, res
    ensures dir.Valid()
    ensures dir.inspectors == old(dir.inspectors)
    ensures verdict.Rejected? ==>
              out == Fail(400, verdict.message) && unchanged(dir) && res.cookies == old(res.cookies)
    ensures verdict.Accepted? && FindAccountByEmail(old(dir.accounts), req.email).Some? ==>
              out == Fail(400, "User already exists") && unchanged(dir) && res.cookies == old(res.cookies)
    ensures verdict.Accepted? && FindAccountByEmail(old(dir.accounts), req.email).None? &&
            NewAccount(old(dir.nextId), SignupFields(req, salt)).None? ==>
              out.Next? && out.failure.Internal? && unchanged(dir) && res.cookies == old(res.cookies)
    ensures verdict.Accepted? && FindAccountByEmail(old(dir.accounts), req.email).None? &&
            NewAccount(old(dir.nextId), SignupFields(req, salt)).Some? ==>
              out.Reply?
    ensures out.Reply? ==>
              && verdict.Accepted? && FindAccountByEmail(old(dir.accounts), req.email).None?
              && NewAccount(old(dir.nextId), SignupFields(req, salt)).Some?
              && out == Reply(201, Message(true, "Registered Successfully"))
              && dir.accounts == old(dir.accounts) + [NewAccount(old(dir.nextId), SignupFields(req, salt)).value]
              && dir.nextId == old(dir.nextId) + 1
    ensures out.Reply? ==>
              var user := AccountPrincipal(dir.accounts[|dir.accounts| - 1]).Subject();
              && res.cookies == TokenUtils.WithTokenCookies(old(res.cookies),
                                  TokenUtils.GenerateAccessToken(user, cfg, ledger.now),
                                  TokenUtils.GenerateRefreshToken(user, cfg, ledger.now), cfg)
  {
    if verdict.Rejected? {
      return Fail(400, verdict.message);
    }
    var existingUser := FindAccountByEmail(dir.accounts, req.email);
    if existingUser.Some? {
      return Fail(400, "User already exists");
    }
    var created := dir.InsertAccount(SignupFields(req, salt));
    if created.None? {
      return Next(Internal("ValidationError"));
    }
    var user := AccountPrincipal(created.value);
    assert dir.accounts[|dir.accounts| - 1] == created.value;
    var accessToken := TokenUtils.GenerateAccessToken(user.Subject(), cfg, ledger.now);
    var refreshToken := TokenUtils.GenerateRefreshToken(user.Subject(), cfg, ledger.now);
    TokenUtils.SetTokenCookies(res, accessToken, refreshToken, cfg);
    out := Reply(201, Message(true, "Registered Successfully"));
  }

  /** The login body; either field may be missing. */
  datatype LoginRequest = LoginRequest(email: Option<string>, password: Option<string>)

  /** The credential check of `login`: whom it signs in (with the success
      message), or the error it refuses with. */
  datatype LoginStep = SignIn(principal: Principal, message: string) | Refuse(error: ApiError)

  const INVALID_CREDENTIALS: ApiError := ApiError(400, "Invalid email or password")

  function ResolveLogin(accounts: seq<Account>, inspectors: seq<Inspector>, req: LoginRequest): (r: LoginStep)
    ensures r.SignIn? ==> req.email.Some? && Some(r.principal) == FindByEmail(accounts, inspectors, req.email.value)
  {
    if !Truthy(req.email) || !Truthy(req.password) then Refuse(ApiError(400, "Please provide email and password"))
    else match FindAccountByEmail(accounts, req.email.value)
      case Some(user) =>
        if Compare(req.password.value, user.password) then SignIn(AccountPrincipal(user), "Login successful as regular user")
        else Refuse(INVALID_CREDENTIALS)
      case None =>
        match FindInspectorByEmail(inspectors, req.email.value)
        case Some(inspector) =>
          if Compare(req.password.value, inspector.password) then SignIn(InspectorPrincipal(inspector), "Login successful as inspector officer")
          else Refuse(INVALID_CREDENTIALS)
        case None => Refuse(INVALID_CREDENTIALS)
  }

  /** A missing or empty email or password is refused before any lookup:
      the stores play no part. */
  lemma LoginNeedsBothFields(accounts: seq<Account>, inspectors: seq<Inspector>, req: LoginRequest)
    requires !Truthy(req.email) || !Truthy(req.password)
    ensures ResolveLogin(accounts, inspectors, req) == Refuse(ApiError(400, "Please provide email and password"))
  {
  }

  /** Login succeeds exactly when both fields are given, the email resolves
      to a principal (accounts first) and the password matches that
      principal's hash; the message says which store it came from. */
  lemma LoginSucceedsIff(accounts: seq<Account>, inspectors: seq<Inspector>, req: LoginRequest)
    ensures ResolveLogin(accounts, inspectors, req).SignIn? <==>
            && Truthy(req.email) && Truthy(req.password)
            && FindByEmail(accounts, inspectors, req.email.value).Some?
            && Compare(req.password.value, FindByEmail(accounts, inspectors, req.email.value).value.Password())
    ensures ResolveLogin(accounts, inspectors, req).SignIn? ==>
            ResolveLogin(accounts, inspectors, req).message ==
            if ResolveLogin(accounts, inspectors, req).principal.AccountPrincipal? then "Login successful as regular user"
            else "Login successful as inspector officer"
  {
  }

  /** No account enumeration: once both fields are given, every refusal is
      the same 400 "Invalid email or password", whether the email is unknown
      or the password wrong, in either store. */
  lemma LoginRefusalsAreUniform(accounts: seq<Account>, inspectors: seq<Inspector>, req: LoginRequest)
    requires Truthy(req.email) && Truthy(req.password)
    requires ResolveLogin(accounts, inspectors, req).Refuse?
    ensures ResolveLogin(accounts, inspectors, req).error == ApiError(400, "Invalid email or password")
  {
  }

  /** An account with the email shadows any inspector with it: the outcome
      does not depend on the inspector store at all, so a wrong account
      password is refused even when an inspector would have matched. */
  lemma AccountShadowsInspector(accounts: seq<Account>, inspectors: seq<Inspector>, others: seq<Inspector>, req: LoginRequest)
    requires Truthy(req.email) && FindAccountByEmail(accounts, req.email.value).Some?
    ensures ResolveLogin(accounts, inspectors, req) == ResolveLogin(accounts, others, req)
  {
  }

  /** `login`. On success the access token is fresh; the refresh token is
      the one in the principal's first live ledger entry when there is one,
      otherwise a fresh one recorded in exactly one new entry. */
  method Login(dir: Directory, ledger: Ledger, res: Response, cfg: TokenUtils.Config, req: LoginRequest)
    returns (out: Outcome<Message>)
    requires dir.Valid() && ledger.Valid() && LedgerTracks(ledger.entries, dir.nextId, cfg)
    requires AtMostOneLive(ledger.entries, ledger.now)
    modifies ledger, res
    ensures ledger.Valid() && LedgerTracks(ledger.entries, dir.nextId, cfg) && ledger.now == old(ledger.now)
    ensures AtMostOneLive(ledger.entries, ledger.now)
    ensures var step := ResolveLogin(dir.accounts, dir.inspectors, req);
            step.Refuse? ==>
              out == Next(Api(step.error)) && ledger.entries == old(ledger.entries) && res.cookies == old(res.cookies)
    ensures var step := ResolveLogin(dir.accounts, dir.inspectors, req);
            step.SignIn? ==>
              var user := step.principal;
              var prior := Lookup(old(ledger.entries), ByUserId(user.UserId()), ledger.now);
              var refreshToken := if prior.Some? then prior.value.refreshToken
                                  else TokenUtils.GenerateRefreshToken(user.Subject(), cfg, ledger.now);
              && out == Reply(200, Message(true, step.message))
              && ledger.entries == (if prior.Some? then old(ledger.entries)
                                    else old(ledger.entries) + [Entry(user.UserId(), refreshToken, ledger.now)])
              && res.cookies == TokenUtils.WithTokenCookies(old(res.cookies),
                                  TokenUtils.GenerateAccessToken(user.Subject(), cfg, ledger.now), refreshToken, cfg)
              // the refresh cookie always verifies and is always on record
              && Verify(refreshToken, cfg.refreshTokenSecret, ledger.now).Valid?
              && Verify(refreshToken, cfg.refreshTokenSecret, ledger.now).payload.claims.id == user.UserId()
              && Lookup(ledger.entries, ByRefreshToken(refreshToken), ledger.now).Some?
              // and it is the principal's one live session, which the next login reuses
              && Lookup(ledger.entries, ByUserId(user.UserId()), ledger.now).Some?
              && Lookup(ledger.entries, ByUserId(user.UserId()), ledger.now).value.refreshToken == refreshToken
  {
    var step := ResolveLogin(dir.accounts, dir.inspectors, req);
    if step.Refuse? {
      return Next(Api(step.error));
    }
    var user := step.principal;
    assert user.UserId() < dir.nextId;
    var accessToken := TokenUtils.GenerateAccessToken(user.Subject(), cfg, ledger.now);
    var refreshTokenData := ledger.FindOne(ByUserId(user.UserId()));
    var refreshToken;
    if refreshTokenData.Some? {
      refreshToken := refreshTokenData.value.refreshToken;
      assert Live(refreshTokenData.value, ledger.now) && Selects(ByRefreshToken(refreshToken), refreshTokenData.value);
    } else {
      refreshToken := TokenUtils.GenerateRefreshToken(user.Subject(), cfg, ledger.now);
      var before := ledger.entries;
      var e := ledger.Create(user.UserId(), refreshToken);
      assert e in ledger.entries && Selects(ByRefreshToken(refreshToken), e);
      AppendKeepsAtMostOneLive(before, e, ledger.now);
      LookupAfterCreate(before, e, ByUserId(user.UserId()), ledger.now);
    }
    TokenUtils.SetTokenCookies(res, accessToken, refreshToken, cfg);
    out := Reply(200, Message(true, step.message));
  }

  /** A session whose refresh token is on record is recovered by the
      middleware once its access token expires, for as long as the entry
      lives. Logout clears only the browser's cookies and leaves the entry,
      so a copy of the refresh cookie kept past logout still rotates. */
  lemma RecordedSessionRotates(entries: seq<Entry>, nextId: nat, cfg: TokenUtils.Config, e: Entry, access: Token, now: nat)
    requires LedgerTracks(entries, nextId, cfg)
    requires e in entries && Live(e, now)
    requires Present(Some(access)) && Verify(access, cfg.accessTokenSecret, now).Expired?
    ensures AuthMiddleware.Decide(RequestCookies(Some(access), Some(e.refreshToken)), cfg, entries, now, false).Rotate?
  {
    assert Selects(ByRefreshToken(e.refreshToken), e);
  }

  /** Signup records nothing in the ledger, so the middleware rotates its
      refresh token only when some entry holds that very token: an entry for
      the same principal created in the same second (a login right after
      signup mints the identical token). Without such an entry (in particular
      while the principal's id is not yet allocated in the ledger), the
      client is told to log in again once the 40-minute access token expires. */
  lemma SignupSessionCannotRotate(entries: seq<Entry>, nextId: nat, cfg: TokenUtils.Config,
                                  user: TokenUtils.TokenSubject, issuedAt: nat, access: Token, now: nat)
    requires LedgerTracks(entries, nextId, cfg)
    requires forall e | e in entries :: !(e.userId == user.id && e.createdAt == issuedAt)
    requires Present(Some(access)) && Verify(access, cfg.accessTokenSecret, now).Expired?
    ensures AuthMiddleware.Decide(RequestCookies(Some(access), Some(TokenUtils.GenerateRefreshToken(user, cfg, issuedAt))),
                                  cfg, entries, now, false)
            == AuthMiddleware.Reject(ApiError(403, "Refresh token not found, please login again"))
  {
  }

  /** The `changePassword` body; any field may be missing. */
  datatype PasswordChange = PasswordChange(oldPassword: Option<string>, newPassword: Option<string>, confirmPassword: Option<string>)

  /** `changePassword` for the caller whose `req.user.id` is `callerId`.
      Only account principals are looked up. The ledger is not touched. */
  method ChangePassword(dir: Directory, callerId: Id, req: PasswordChange, salt: nat) returns (out: Outcome<Message>)
    requires dir.Valid()
    modifies dir
    ensures dir.Valid()
    ensures !Truthy(req.oldPassword) || !Truthy(req.newPassword) || !Truthy(req.confirmPassword) ==>
              out == Fail(400, "Old password, new password, and confirm password are required.") && unchanged(dir)
    ensures Truthy(req.oldPassword) && Truthy(req.newPassword) && Truthy(req.confirmPassword) && req.newPassword != req.confirmPassword ==>
              out == Fail(400, "New password and confirm password do not match.") && unchanged(dir)
    ensures Truthy(req.oldPassword) && Truthy(req.newPassword) && req.newPassword == req.confirmPassword
            && FindAccountById(old(dir.accounts), Some(callerId)).None? ==>
              out == Fail(404, "User not found.") && unchanged(dir)
    ensures Truthy(req.oldPassword) && Truthy(req.newPassword) && req.newPassword == req.confirmPassword
            && FindAccountById(old(dir.accounts), Some(callerId)).Some?
            && !Compare(req.oldPassword.value, FindAccountById(old(dir.accounts), Some(callerId)).value.password) ==>
              out == Fail(400, "Incorrect old password.") && unchanged(dir)
    ensures Truthy(req.oldPassword) && Truthy(req.newPassword) && req.newPassword == req.confirmPassword
            && FindAccountById(old(dir.accounts), Some(callerId)).Some?
            && Compare(req.oldPassword.value, FindAccountById(old(dir.accounts), Some(callerId)).value.password) ==>
              out.Reply?
    ensures out.Reply? ==>
              && Truthy(req.oldPassword) && Truthy(req.newPassword) && req.newPassword == req.confirmPassword
              && FindAccountById(old(dir.accounts), Some(callerId)).Some?
              && Compare(req.oldPassword.value, FindAccountById(old(dir.accounts), Some(callerId)).value.password)
              && out == Reply(200, Message(true, "Password changed successfully."))
              && dir.accounts == WithPassword(old(dir.accounts), callerId, Hash(req.newPassword.value, salt))
              && dir.inspectors == old(dir.inspectors) && dir.nextId == old(dir.nextId)
  {
    if !Truthy(req.oldPassword) || !Truthy(req.newPassword) || !Truthy(req.confirmPassword) {
      return Fail(400, "Old password, new password, and confirm password are required.");
    }
    if req.newPassword != req.confirmPassword {
      return Fail(400, "New password and confirm password do not match.");
    }
    var user := FindAccountById(dir.accounts, Some(callerId));
    if user.None? {
      return Fail(404, "User not found.");
    }
    if !Compare(req.oldPassword.value, user.value.password) {
      return Fail(400, "Incorrect old password.");
    }
    var hashedPassword := Hash(req.newPassword.value, salt);
    dir.SetAccountPassword(callerId, hashedPassword);
    out := Reply(200, Message(true, "Password changed successfully."));
  }

  /** After a password change the account logs in with the new password and
      with no other: the old one stops working. */
  lemma {:induction false} LoginAfterPasswordChange(accounts: seq<Account>, inspectors: seq<Inspector>, id: Id,
                                                    newPassword: string, salt: nat, email: string, password: string)
    requires email != "" && password != ""
    requires FindAccountByEmail(accounts, email).Some? && FindAccountByEmail(accounts, email).value.id == id
    ensures ResolveLogin(WithPassword(accounts, id, Hash(newPassword, salt)), inspectors,
                         LoginRequest(Some(email), Some(password))).SignIn?
            <==> password == newPassword
  {
    var changed := WithPassword(accounts, id, Hash(newPassword, salt));
    FindFirstPointwise(accounts, (a: Account) => a.email == email, changed, (a: Account) => a.email == email);
    var k := FindFirst(accounts, (a: Account) => a.email == email).value;
    assert FindAccountByEmail(changed, email) == Some(changed[k]);
    assert changed[k].password == Hash(newPassword, salt);
  }

  /** The options `logout` clears both cookies with: those of
      `setTokenCookies`, without `maxAge`. */
  function LogoutCookieOptions(cfg: TokenUtils.Config): (o: CookieOptions)
    ensures o == TokenUtils.TokenCookieOptions(cfg, 0).(maxAgeMs := None)
  {
    CookieOptions(true, cfg.Production(), Strict, None)
  }

  /** `logout`: clears both cookies and nothing else; the ledger is not
      touched (it is not even an argument). */
  method Logout(res: Response, cfg: TokenUtils.Config) returns (out: Outcome<Message>)
    modifies res
    ensures res.cookies == old(res.cookies)[ACCESS_COOKIE := ExpireCookie(LogoutCookieOptions(cfg))]
                                           [REFRESH_COOKIE := ExpireCookie(LogoutCookieOptions(cfg))]
    ensures out == Reply(200, Message(true, "Logged out successfully."))
  {
    res.ClearCookie(ACCESS_COOKIE, LogoutCookieOptions(cfg));
    res.ClearCookie(REFRESH_COOKIE, LogoutCookieOptions(cfg));
    out := Reply(200, Message(true, "Logged out successfully."));
  }

  /** A browser that obeys logout's directives sends neither cookie, so its
      next request is unauthorised. */
  lemma LoggedOutBrowserIsUnauthorized(jar: map<string, CookieDirective>, cfg: TokenUtils.Config,
                                       entries: seq<Entry>, now: nat, elapsed: nat)
    ensures var after := jar[ACCESS_COOKIE := ExpireCookie(LogoutCookieOptions(cfg))][REFRESH_COOKIE := ExpireCookie(LogoutCookieOptions(cfg))];
            var req := RequestCookies(Carried(after[ACCESS_COOKIE], elapsed), Carried(after[REFRESH_COOKIE], elapsed));
            req == RequestCookies(None, None)
            && AuthMiddleware.Decide(req, cfg, entries, now, false) == AuthMiddleware.Reject(ApiError(401, "Unauthorized"))
  {
  }
}
