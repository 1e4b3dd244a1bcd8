/** The JSON Web Token library (jsonwebtoken, RFC 7519) as a symbolic
    signing scheme. A token is either a payload signed with a secret or a
    string that does not parse as a token. No cryptography is modelled: a
    signature checks exactly when the verifying secret is the signing one. */
module Jwt {
  import opened Common

  datatype Secret = Secret(key: string)

  /** The claims the application puts in its tokens. `email` is `None` when
      the signed object had no `email` property (JSON drops `undefined`). */
  datatype Claims = Claims(id: Id, email: Option<string>, role: string)

  /** The decoded payload: the claims plus the registered `iat` and `exp`
      claims (RFC 7519 sections 4.1.6 and 4.1.4), in seconds. */
  datatype Payload = Payload(claims: Claims, iat: nat, exp: nat)

  datatype Token = Signed(payload: Payload, key: Secret) | Malformed(text: string)

  /** What `jwt.verify` yields: the payload, a `TokenExpiredError`, or a
      `JsonWebTokenError` (bad signature or not a token at all). */
  datatype Verification = Valid(payload: Payload) | Expired(expiredAt: nat) | Invalid

  /** `jwt.sign(claims, key, { expiresIn })` at clock `now`. */
  function Sign(claims: Claims, key: Secret, now: nat, expiresIn: nat): Token {
    Signed(Payload(claims, now, now + expiresIn), key)
  }

  /** `jwt.verify(token, key)` at clock `now`: the signature is checked first,
      then expiry; a token is rejected on or after its `exp` (section 4.1.4 of
      RFC 7519). */
  function Verify(token: Token, key: Secret, now: nat): Verification {
    match token
    case Malformed(_) => Invalid
    case Signed(p, k) =>
      if k != key then Invalid
      else if now >= p.exp then Expired(p.exp)
      else Valid(p)
  }

  /** Round trip: a signed token verifies with its own secret, yielding the
      signed claims, until `expiresIn` seconds have passed; from then on it is
      expired. With any other secret it is invalid. */
  lemma SignThenVerify(claims: Claims, key: Secret, other: Secret, now: nat, expiresIn: nat, t: nat)
    ensures Verify(Sign(claims, key, now, expiresIn), key, t) ==
            if t < now + expiresIn then Valid(Payload(claims, now, now + expiresIn))
            else Expired(now + expiresIn)
    ensures other != key ==> Verify(Sign(claims, key, now, expiresIn), other, t) == Invalid
  {
  }

  /** Expiry is permanent and never turns into a signature failure: a token
      expired at `t` is expired at every later instant, with the same `exp`;
      and a token valid at `t` was valid at every earlier instant. */
  lemma ExpiryIsMonotone(token: Token, key: Secret, t: nat, later: nat)
    requires t <= later
    ensures Verify(token, key, t).Expired? ==> Verify(token, key, later) == Verify(token, key, t)
    ensures Verify(token, key, later).Valid? ==> Verify(token, key, t) == Verify(token, key, later)
    ensures Verify(token, key, t).Invalid? <==> Verify(token, key, later).Invalid?
  {
  }
}
