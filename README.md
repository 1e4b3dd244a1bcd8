# Restroom-Backend sessions and credentials, in Dafny

This project models the session and credential lifecycle of the Restroom-Backend
Express/Mongoose service, and proves properties of it. It also covers three smaller
cores the same requests pass through: the sensor table, the error middleware and the
response envelope helper.

In the service, a principal is either an **account** (`AuthModel`) or an
**inspector officer** (`InspectorOfficer`). `signup`, `login` and
`addInspectorOfficer` issue a session as two JWT cookies:

- a 40-minute **access token** carrying `{id, email, role}`;
- a 2-day **refresh token** carrying `{id, role}`.

`login` and `addInspectorOfficer` also record the refresh token in a ledger
(`TokenModel`), whose entries expire 172800 s after creation. On every protected
request, `authMiddleware` does one of three things:

- accepts a valid access token;
- rotates an expired one, using a refresh cookie that is on record and verifies;
- rejects the request with 401 or 403.

`changePassword` replaces an account's hash. `logout` clears both cookies.

How the model is built:

- **Tokens and hashes are symbolic.** A token is a payload signed with a secret. `Verify` checks the signature first, then expiry (`now >= exp` means expired, as in section 4.1.4 of RFC 7519). A bcrypt hash names the salt and the plaintext it was made from. None of the cryptography is modelled.
- **Stores and the response are objects updated in place.** The principal directory (`Principals.Directory`), the ledger with the server clock (`TokenModel.Ledger`), the report store, the sensor table and the response's cookie jar (`Http.Response`) are classes. Handlers are methods with `modifies` clauses. Each method's postcondition states the whole new state and the reply.
- **Decisions are pure functions with lemmas.** The middleware's decision, the login credential check, the guards that run before a write, the read-only report and building queries, error rendering and the response envelope are all functions. Lemmas state their properties.
- **Queries are first-match.** Every `findOne` is "first document in insertion order that the filter selects" (`Common.FindOne`). Every `find` is the in-order selection (`Common.Filter`).
- **Schemas are inputs.** A Joi schema's verdict is a parameter (`Http.Verdict`). So is the salt bcrypt draws. A Mongoose validation failure of `create` is modelled: an empty required string, a role outside the account enum, or a missing report `inspectorId`. The store then writes nothing and the handler's outcome is an internal error, which the error middleware renders as 500.

Four behaviours of the code are easy to misread; the model follows the code:

- the middleware's own `generateAccessToken` gives rotated tokens a 15-minute life, not 40;
- a request with a refresh cookie but no access cookie is refused with 401;
- signup records nothing in the ledger;
- logout (itself reachable only through the middleware) does not delete the ledger entry.

Some consequences are proved outright:

- `AuthMiddleware.BrowserSessionNeverRotates`: because the access cookie's `maxAge` (15 min) is shorter than the token it carries (40 min), a browser that honours `maxAge` never reaches the rotation path. For 15 minutes it is accepted. After that it only gets 401, while its refresh cookie lives on.
- `AuthMiddleware.RotatedSessionLosesEmail`: a rotated session has no email.
- `AuthController.SignupSessionCannotRotate`: a signup session cannot be rotated unless a login by the same principal in the same second recorded the same token.
- `AuthController.RecordedSessionRotates`: a refresh cookie copied before logout still rotates.

## Model

| member | source | states |
|---|---|---|
| Jwt.SignThenVerify | src/utils/tokenUtils.js:3-17 | a signed token verifies with its own secret, giving back the signed claims with `iat`/`exp`, until `expiresIn` has passed, then it is expired; with any other secret it is invalid |
| Jwt.ExpiryIsMonotone | src/middleware/authMiddleware.js:71-76 | an expired token stays expired with the same `exp`, a token valid now was valid earlier, and a signature failure does not depend on time |
| Bcrypt.CompareHash | src/Controllers/authController.js:72-74 | `compare` accepts the hashed plaintext whatever the salt and rejects every other password |
| TokenUtils.GenerateAccessToken | src/utils/tokenUtils.js:3-9 | the access token verifies with the access secret to exactly `{id, email, role}`, valid for 40 minutes |
| TokenUtils.GenerateRefreshToken | src/utils/tokenUtils.js:11-17 | the refresh token verifies with the refresh secret to exactly `{id, role}` (no email), valid for 2 days |
| TokenUtils.TokenCookieOptions | src/utils/tokenUtils.js:20-31 | the cookies are httpOnly and sameSite strict, `secure` exactly when NODE_ENV is "production", with the given maxAge |
| TokenUtils.WithTokenCookies | src/utils/tokenUtils.js:19-33 | after `setTokenCookies` the jar holds both token cookies with their options and maxAges, and every other cookie unchanged |
| TokenUtils.SetTokenCookies | src/utils/tokenUtils.js:19-33 | the response's cookie jar becomes `WithTokenCookies` of the old jar |
| TokenUtils.TokenLifetimes | src/utils/tokenUtils.js:3-17 | an access token is valid exactly for its first 2400 s and a refresh token for its first 172800 s, both expired (never invalid) afterwards under their own secret |
| TokenUtils.SecretsSeparateKinds | src/utils/tokenUtils.js:3-17 | with distinct secrets, a token of one kind verified with the other kind's secret is invalid at every instant |
| TokenUtils.CookieLifetimes | src/utils/tokenUtils.js:3-33 | the refresh cookie's maxAge equals its token's 2 days, so it is carried exactly while the token verifies; the access cookie (900000 ms) dies before its 40-minute token |
| TokenModel.Lookup | src/models/tokenModel.js:3-18 | a ledger `findOne` yields a live entry the filter selects, and nothing only when no live entry is selected |
| TokenModel.LookupIgnoresPurge | src/models/tokenModel.js:13-17 | reads do not depend on when the TTL monitor deletes expired entries |
| TokenModel.AbsentStaysAbsent | src/models/tokenModel.js:16 | a query that finds nothing keeps finding nothing as the clock advances |
| TokenModel.LookupAfterCreate | src/models/tokenModel.js:3-18 | with no unique index, a new entry never displaces an existing first match and is found only when no live selected entry existed |
| TokenModel.TtlMatchesRefreshToken | src/models/tokenModel.js:13-17 | with one clock per request (the entry's `createdAt` equals the token's `iat`), an entry created with a refresh token lives exactly as long as that token verifies |
| TokenModel.AppendKeepsAtMostOneLive | src/Controllers/authController.js:80-93 | appending an entry for a principal with no live entry keeps "at most one live entry per principal", which is why login's read-then-create keeps it |
| TokenModel.AtMostOneLiveLater | src/models/tokenModel.js:13-17 | the invariant survives the clock advancing, because entries only expire |
| TokenModel.LiveEntryIsTheLookup | src/Controllers/authController.js:80-83 | under the invariant, the lookup by principal finds that principal's one live entry, so a second login reuses it |
| TokenModel.Ledger.Create | src/models/tokenModel.js:3-17 | `create` always appends one entry stamped with the current instant, keeping `createdAt <= now` |
| TokenModel.Ledger.Tick | src/models/tokenModel.js:13-16 | the clock advances and no entry is deleted; at most one live entry per principal still holds |
| TokenModel.Ledger.FindOne | src/models/tokenModel.js:3-18 | the ledger's `findOne` returns `Lookup` of its entries at the current instant, so the entry is less than 172800 s old |
| AuthModel.ParseRole | src/models/authModel.js:8-12 | an absent role defaults to "user", a given role is kept only when it is one of "user", "admin", "inspector", and anything else is refused |
| AuthModel.NewAccount | src/models/authModel.js:3-26 | an account document exists exactly when fullName and email are non-empty and the role is valid; fields are copied, and profile images and `OwnerId` default to null |
| InspectorModel.NormalizeEmailIdempotent | src/models/inspectorModel.js:10-16 | trimming and lowercasing an email twice is doing it once, so a stored email matches a query for itself |
| InspectorModel.NewInspector | src/models/inspectorModel.js:3-32 | an inspector document exists exactly when the trimmed name and normalised email are non-empty; the name is stored trimmed, the email trimmed and lowercased, the role defaults to "inspector", and the owner is the one given |
| InspectorModel.NewInspectorNormalized | src/models/inspectorModel.js:5-16 | a stored inspector's name and email are already in normal form |
| Principals.FindAccountByEmail | src/Controllers/authController.js:70 | the account lookup matches the email exactly and finds nothing only when no account has it |
| Principals.FindInspectorByEmail | src/Controllers/authController.js:99 | the inspector lookup matches the normalised query email and finds nothing only when no inspector has it |
| Principals.FindAccountById | src/Controllers/authController.js:235 | `findById` finds the account with that id, and nothing for an absent id |
| Principals.FindInspectorById | src/Controllers/inspectionReportController.js:169 | `findById` finds the inspector with that id, and nothing for an absent id |
| Principals.FindByEmail | src/Controllers/authController.js:70-99 | login resolves an email in the account store first and in the inspector store only when no account has it |
| Principals.WithPassword | src/Controllers/authController.js:244-245 | replacing the hash changes only the password of the account with that id; ids and emails everywhere are kept |
| Principals.Directory.InsertAccount | src/Controllers/authController.js:41-50 | `AuthModel.create` stores the new account under a fresh id, or stores nothing on a duplicate email or validation failure; ids and emails stay unique |
| Principals.Directory.InsertInspector | src/Controllers/inspectionReportController.js:45-51 | `InspectorOfficer.create` stores the new inspector under a fresh id, or stores nothing on a duplicate normalised email or validation failure |
| Principals.Directory.SetAccountPassword | src/Controllers/authController.js:244-245 | saving the new hash turns the accounts into `WithPassword` of the old ones; the directory stays valid |
| Principals.LedgerTracksMonotone | src/models/tokenModel.js:4-8 | allocating more principal ids keeps every ledger entry tied to an allocated id |
| Principals.LedgerEntryFacts | src/models/tokenModel.js:3-18 | under the ledger invariant, a token minted for an unallocated id has no entry, and, with `createdAt` equal to the token's `iat`, a token with a live entry verifies with the refresh secret |
| AuthMiddleware.GenerateAccessToken | src/middleware/authMiddleware.js:53-59 | the middleware's own access token verifies to the given claims for 15 minutes |
| AuthMiddleware.Decide | src/middleware/authMiddleware.js:61-115 | 401 exactly when the access cookie is missing, every other refusal 403; proceeding needs a valid access token and yields its payload; rotation needs an expired access token and a present, recorded, valid refresh token, yields the refresh payload and a 15-minute access token with its claims (lemmas `RotationIff`, `RefreshPathRejections`, `BadAccessIsTerminal` give each case) |
| AuthMiddleware.Authenticate | src/middleware/authMiddleware.js:61-115 | the middleware's decision is `Decide`; on rotation only the `accessToken` cookie is set (maxAge 15 min) and the ledger is only read; otherwise the jar is unchanged |
| AuthMiddleware.NoAccessCookieIsUnauthorized | src/middleware/authMiddleware.js:62-69 | no access cookie means 401 "Unauthorized", whatever the refresh cookie and the ledger |
| AuthMiddleware.ValidAccessProceeds | src/middleware/authMiddleware.js:71-74 | a valid access token proceeds with its own decoded payload as `req.user` |
| AuthMiddleware.BadAccessIsTerminal | src/middleware/authMiddleware.js:75-113 | a forged or garbled access token, or an expired one without a refresh cookie, gives 403 "Invalid Access Token" |
| AuthMiddleware.RefreshPathRejections | src/middleware/authMiddleware.js:76-110 | on the refresh path: a ledger fault gives 403 "Invalid Refresh Token", no live entry gives 403 "Refresh token not found, please login again", and a recorded token that fails the refresh secret gives 403 "Invalid Refresh Token" |
| AuthMiddleware.RotationIff | src/middleware/authMiddleware.js:67-107 | rotation happens exactly when the access token is expired and the refresh cookie is present, on record and verifies |
| AuthMiddleware.RotationResult | src/middleware/authMiddleware.js:86-107 | after rotation `req.user` is the decoded refresh payload, and the new access token carries its claims for exactly 15 minutes |
| AuthMiddleware.RotatedSessionLosesEmail | src/middleware/authMiddleware.js:90-94 | rotating a minted refresh token yields a session with the same id and role but no email, while a login token has one |
| AuthMiddleware.UnrecordedRefreshNeverRotates | src/middleware/authMiddleware.js:79-84 | a refresh token with no live entry is answered "Refresh token not found, please login again" |
| AuthMiddleware.BrowserSessionNeverRotates | src/middleware/authMiddleware.js:67-74 | a browser honouring the cookies' maxAge is accepted for 15 minutes and then gets 401, never a rotation, while the refresh cookie is still carried |
| AuthController.SignupFields | src/Controllers/authController.js:39-50 | signup stores the bcrypt hash of the password, not the plaintext, under the body's email |
| AuthController.Signup | src/Controllers/authController.js:21-61 | signup's outcome for each case: 400 with the schema message; 400 "User already exists" with nothing created; a failed create writing nothing; or, exactly when the body is accepted, the email is new and the document valid, 201 "Registered Successfully" with the account appended and both cookies set; the ledger is not touched |
| AuthController.ResolveLogin | src/Controllers/authController.js:63-128 | a signed-in principal is the one the email resolves to |
| AuthController.LoginNeedsBothFields | src/Controllers/authController.js:66-68 | a missing or empty email or password gives 400 "Please provide email and password" whatever the stores hold |
| AuthController.LoginSucceedsIff | src/Controllers/authController.js:70-126 | login succeeds exactly when the email resolves (accounts first) and the password matches that principal's hash; the message names the store |
| AuthController.LoginRefusalsAreUniform | src/Controllers/authController.js:70-128 | an unknown email and a wrong password in either store give the identical 400 "Invalid email or password" |
| AuthController.AccountShadowsInspector | src/Controllers/authController.js:70-99 | when an account has the email, the inspector store does not affect the outcome |
| AuthController.Login | src/Controllers/authController.js:63-129 | on success the principal's first live entry's token is reused, or exactly one new entry is created; both cookies are set; the refresh cookie is on record and (one clock per request) verifies, and is the principal's one live entry, so at most one live entry per principal is kept; refusals change nothing |
| AuthController.RecordedSessionRotates | src/Controllers/authController.js:79-87 | a refresh token in a live ledger entry rotates an expired access token; logout leaves such entries in place |
| AuthController.SignupSessionCannotRotate | src/Controllers/authController.js:52-55 | signup records no ledger entry, so unless some entry for the same principal was created in the same second (and so holds the identical token), once its access token expires the middleware answers "Refresh token not found" |
| AuthController.ChangePassword | src/Controllers/authController.js:216-251 | in order: all three fields are required (400), new and confirm must agree (400), only an account is found (404), the old password must match (400); when all pass, the reply is 200 "Password changed successfully." and exactly that account's hash is replaced |
| AuthController.LoginAfterPasswordChange | src/Controllers/authController.js:241-245 | after a change, the account logs in with the new password and with no other |
| AuthController.LogoutCookieOptions | src/Controllers/authController.js:269-279 | logout clears with the cookies' own options, minus maxAge |
| AuthController.Logout | src/Controllers/authController.js:268-285 | both cookies are expired, nothing else in the jar changes, and the reply is 200 "Logged out successfully." |
| AuthController.LoggedOutBrowserIsUnauthorized | src/Controllers/authController.js:268-279 | a browser obeying logout sends no cookies, and the middleware answers 401 |
| InspectionReportController.View | src/Controllers/inspectionReportController.js:66-71 | the response echoes only fullName, email, role and OwnerId, with no password |
| InspectionReportController.AddInspectorGuard | src/Controllers/inspectionReportController.js:20-43 | in order: a rejected body gives 401 with its message, a missing password 400, an existing email 400, and no caller id 400 |
| InspectionReportController.IssueInspectorSession | src/Controllers/inspectionReportController.js:53-61 | a new ledger entry is always appended for the new inspector and both cookies are overwritten with its tokens; at most one live entry per principal is kept when the inspector had no live entry |
| InspectionReportController.AddInspectorOfficer | src/Controllers/inspectionReportController.js:17-73 | a failed guard changes nothing; otherwise the inspector is stored with `OwnerId` equal to the caller's id, gets a ledger entry and cookies, and 201 echoes it; at most one live entry per principal is kept, its id being new |
| InspectionReportController.InspectorMayOwnInspector | src/Controllers/inspectionReportController.js:45-51 | an inspector caller passes the guard, and the inspector it creates has an `OwnerId` that names that inspector and no account |
| InspectionReportController.FindPrincipalById | src/Controllers/inspectionReportController.js:78-80 | the account store is tried before the inspector store |
| InspectionReportController.GetBuildingsByOwner | src/Controllers/inspectionReportController.js:75-108 | 200 exactly when the caller is an "inspector" with an owner that has buildings, returning that owner's buildings in store order (all of them and only them) and their count |
| InspectionReportController.BuildingAccessRefusals | src/Controllers/inspectionReportController.js:82-101 | a non-inspector gets 403, an inspector with no owner 400, and an owner with no buildings 404 |
| InspectionReportController.InspectorAccountHasNoOwner | src/Controllers/inspectionReportController.js:82-92 | an account appended with the "inspector" role under an id no earlier account has, as signup does, passes the role check but is refused with 400 for having no owner |
| InspectionReportController.ProjectIssues | src/Controllers/inspectionReportController.js:126-130 | stored issues keep, in input order, only restroomId, the trimmed title and rating |
| InspectionReportController.ReportStore.Create | src/models/inspectionReportModel.js:3-33 | a report is stored exactly when the caller id is present and every issue passes the schema, under a fresh id, so report ids stay distinct |
| InspectionReportController.CreateInspectionReports | src/Controllers/inspectionReportController.js:110-138 | a schema rejection gives 400, a non-array `issues` 400, and otherwise the report is appended under the caller with the next id and the request's instant (201), the id allocator advancing by one and the clock unchanged, or the create fails with nothing stored |
| InspectionReportController.ReportViews | src/Controllers/inspectionReportController.js:151-155 | each listed report keeps its id, inspectorId and issues, in order |
| InspectionReportController.GetAllReports | src/Controllers/inspectionReportController.js:140-163 | a caller that is not an inspector-store "inspector" gets 403; otherwise the list is the views of the caller's reports in insertion order (all of them and only them), with their count |
| InspectionReportController.GetSingleReport | src/Controllers/inspectionReportController.js:165-190 | 403 for non-inspectors; otherwise the report is returned exactly when one with that id was filed by the caller, else 404; the report travels under the `singleReport` key |
| InspectionReportController.ReportsArePrivate | src/Controllers/inspectionReportController.js:140-183 | another inspector's report is neither listed nor found by id |
| SensorController.NewSensor | src/Controllers/sensorController.js:26-37 | a created sensor is owned by the caller, with status "inactive" and isConnected false unless given |
| SensorController.Updated | src/Controllers/sensorController.js:126-130 | the update overwrites the body's fields and keeps `_id` and `userId` |
| SensorController.GetSingleSensor | src/Controllers/sensorController.js:81-96 | a sensor is returned exactly when one matches both the id and the owner, else 404 "Sensor not found"; the reply's message key is `Message`, capitalised |
| SensorController.GetAllSensors | src/Controllers/sensorController.js:46-57 | the caller's sensors in table order (all of them and only them), or 404 when there are none |
| SensorController.UpdateRows | src/Controllers/sensorController.js:126-130 | only the sensor matching the id and the owner changes |
| SensorController.UpdateGuard | src/Controllers/sensorController.js:100-124 | in order: a schema rejection gives 400, then a sensor not the caller's 404, then a uniqueId held by another sensor 400 |
| SensorController.UpdateKeepsKeysDistinct | src/Controllers/sensorController.js:117-130 | an update that passed the uniqueId check keeps ids and uniqueIds pairwise distinct |
| SensorController.SensorTable.AddSensor | src/Controllers/sensorController.js:6-44 | a schema rejection gives 400, a uniqueId held by any sensor 400 with nothing stored, otherwise the sensor is appended as the caller's and can be read back; uniqueIds stay distinct |
| SensorController.SensorTable.DeleteSensor | src/Controllers/sensorController.js:59-79 | the record is removed only when both the id and the owner match, else 404 with the table unchanged; afterwards nobody finds it |
| SensorController.SensorTable.UpdateSensor | src/Controllers/sensorController.js:98-137 | a failed guard changes nothing; otherwise only the caller's sensor is updated, the reply is 200 with `success` true, and uniqueIds stay distinct |
| ErrorMiddleware.Render | src/middleware/errorMiddleware.js:23-39 | an `ApiError` is rendered with its own status and message, anything else as 500 "Internal Server Error"; `success` is always false and there is no `errors` field |
| ErrorMiddleware.InternalDetailNeverLeaks | src/middleware/errorMiddleware.js:33-38 | any two unexpected errors render identically |
| ResponseHandler.Respond | src/utils/responseHandler.js:1-7 | `success` exactly for 2xx; status and message copied; `error` sent exactly when truthy, otherwise `data` exactly when truthy, otherwise neither |
| ResponseHandler.ErrorTakesPrecedence | src/utils/responseHandler.js:4-5 | with a truthy error the data makes no difference; a falsy error is the same as none |
| ResponseHandler.SuccessFollowsStatus | src/utils/responseHandler.js:2 | `success` depends on the status alone |

## Left out

- Cryptography: JWT signatures and bcrypt are symbolic. The 72-byte password truncation of bcrypt is not modelled, nor is a token that parses but carries other claims.
- Joi validation: each schema is an opaque verdict given to the handler. Format checks (email, IP, URI, lengths) are not modelled.
- I/O and libraries: cookie parsing, JSON bodies, `console.log`, Cloudinary, multer and moment are not modelled. Randomness (the bcrypt salt) and the clock are inputs.
- Login's body is modelled as optional strings. `login` runs no schema, so the service passes `req.body.email` straight into `AuthModel.findOne` and `InspectorOfficer.findOne`. A query object such as `{"$ne": null}` would then match the first stored principal; the model cannot express it.
- A non-string `password` in login makes `bcrypt.compare` throw, and the client gets 500 rather than 400 "Invalid email or password". The model has no such value.
- The inspector's `OwnerId` is only a populate hint (`ref: "Auth"`). Nothing checks that it names an account, and `/create-inspector` admits any authenticated caller, so an inspector can own an inspector (`InspectionReportController.InspectorMayOwnInspector`).
- `editProfile` and `getProfile` of src/Controllers/authController.js are not part of this model (file upload and date parsing).
- src/Controllers/buildingController.js, src/Controllers/inspectionController.js and the superseded commented-out revisions of the middleware and models are not part of this model. Buildings appear only as the read-only collection `getBuildingsByOwner` filters.
- Concurrency: each request is one sequential step. The non-atomic read-then-create of `login` is not modelled.
- Store faults: only the ledger lookup inside the middleware may fail (`ledgerFails`). Other store exceptions, for example a malformed id raising a cast error, are not modelled.
- Mongo TTL timing: an entry is treated as absent once `now >= createdAt + 172800`, whenever the monitor actually deletes it.
- Text normalisation is on ASCII. JavaScript's `trim` also strips other Unicode whitespace, and `toLowerCase` also maps non-ASCII letters.
- Numbers are unbounded integers. Fractional ratings and ports are not modelled.
- JsValue (ResponseHandler): floating-point numbers are modelled as integers plus `NaN`; `-0` is not modelled.
- SensorController.SensorTable.AddSensor: once the schema has accepted the body, `create` is assumed to succeed. The schema requires every field the model requires.
- AuthController.ResolveLogin: its own contract only names the principal. The outcomes are stated by `LoginSucceedsIff`, `LoginRefusalsAreUniform`, `LoginNeedsBothFields` and `AccountShadowsInspector`.
- TokenModel.TtlMatchesRefreshToken: uses one whole-second clock per request, so an entry's `createdAt` equals its token's `iat`. In the service, `jsonwebtoken` stamps `iat` in floored seconds and Mongoose stamps `createdAt` in milliseconds a moment later, so an entry can outlive its token by up to about a second.
- Principals.LedgerEntryFacts: rests on the same one-clock assumption. In that sub-second window the middleware finds the entry and then answers 403 "Invalid Refresh Token"; the model does not capture that.
- AuthController.Login: on the same assumption, it promises that the reused refresh token verifies. In the sub-second window the service would reuse an expired one.
- The building populate of `getBuildingsByOwner`, and the timestamps Mongoose adds, are not modelled.
