/** src/models/tokenModel.js: the refresh-token ledger. An entry records a
    principal's id, a refresh token and its creation instant; the store's TTL
    index removes it 172800 s after creation. Neither field is unique, so a
    principal may have several entries; the handlers append one only when
    the principal has no live entry, so at most one of them is live at a time
    (`AtMostOneLive`). Expiry is folded into every read: an
    entry is absent from the moment `now >= createdAt + 172800`, whenever the
    background deletion actually runs. */
module TokenModel {
  import opened Common
  import opened Jwt
  import TokenUtils

  /** `expires: 172800` on `createdAt`. */
  const TTL_SECONDS: nat := 172800

  /** A ledger document; both fields required, `createdAt` defaulted. */
  datatype Entry = Entry(userId: Id, refreshToken: Token, createdAt: nat)

  predicate Live(e: Entry, now: nat) {
    now < e.createdAt + TTL_SECONDS
  }

  /** The two filters the application queries the ledger with. */
  datatype Query = ByUserId(userId: Id) | ByRefreshToken(refreshToken: Token)

  predicate Selects(q: Query, e: Entry) {
    match q
    case ByUserId(u) => e.userId == u
    case ByRefreshToken(t) => e.refreshToken == t
  }

  /** `TokenModel.findOne(q)` at clock `now`: the first live entry the filter
      selects, in insertion order. */
  function Lookup(entries: seq<Entry>, q: Query, now: nat): (r: Option<Entry>)
    ensures r.Some? ==> r.value in entries && Live(r.value, now) && Selects(q, r.value)
    ensures r.None? <==> forall e | e in entries :: !(Live(e, now) && Selects(q, e))
  {
    FindOne(entries, (e: Entry) => Live(e, now) && Selects(q, e))
  }

  /** The server side of the TTL index: the entries still stored once the
      background monitor has deleted every expired one. */
  function Purged(entries: seq<Entry>, now: nat): seq<Entry> {
    Filter(entries, (e: Entry) => Live(e, now))
  }

  /** Reads do not depend on when the TTL monitor runs. */
  lemma LookupIgnoresPurge(entries: seq<Entry>, q: Query, now: nat)
    ensures Lookup(Purged(entries, now), q, now) == Lookup(entries, q, now)
  {
    FindOneIgnoresFiltered(entries, (e: Entry) => Live(e, now), (e: Entry) => Live(e, now) && Selects(q, e));
  }

  /** An expired entry never comes back: a query that finds nothing keeps
      finding nothing as the clock advances. */
  lemma AbsentStaysAbsent(entries: seq<Entry>, q: Query, now: nat, later: nat)
    requires now <= later
    requires Lookup(entries, q, now).None?
    ensures Lookup(entries, q, later).None?
  {
  }

  /** Adding an entry leaves any existing first match in place; the new entry
      is found only when no live selected entry existed before. */
  lemma LookupAfterCreate(entries: seq<Entry>, e: Entry, q: Query, now: nat)
    ensures Lookup(entries + [e], q, now) ==
            if Lookup(entries, q, now).Some? then Lookup(entries, q, now)
            else if Live(e, now) && Selects(q, e) then Some(e) else None
  {
    FindOneAppend(entries, e, (x: Entry) => Live(x, now) && Selects(q, x));
  }

  /** An entry created together with a refresh token lives exactly as long as
      the token verifies: the TTL is the token's "2d". */
  lemma TtlMatchesRefreshToken(user: TokenUtils.TokenSubject, cfg: TokenUtils.Config, now: nat, t: nat)
    requires now <= t
    ensures Live(Entry(user.id, TokenUtils.GenerateRefreshToken(user, cfg, now), now), t)
            <==> Verify(TokenUtils.GenerateRefreshToken(user, cfg, now), cfg.refreshTokenSecret, t).Valid?
  {
  }

  /** The session invariant the handlers keep: no two entries live at `now`
      belong to the same principal. */
  predicate AtMostOneLive(entries: seq<Entry>, now: nat) {
    forall i, j | 0 <= i < j < |entries| && Live(entries[i], now) && Live(entries[j], now) ::
      entries[i].userId != entries[j].userId
  }

  /** Appending an entry for a principal with no live entry keeps the
      invariant. */
  lemma AppendKeepsAtMostOneLive(entries: seq<Entry>, e: Entry, now: nat)
    requires AtMostOneLive(entries, now)
    requires Lookup(entries, ByUserId(e.userId), now).None?
    ensures AtMostOneLive(entries + [e], now)
  {
  }

  /** Entries only expire as the clock advances, so the invariant survives it. */
  lemma AtMostOneLiveLater(entries: seq<Entry>, now: nat, later: nat)
    requires AtMostOneLive(entries, now) && now <= later
    ensures AtMostOneLive(entries, later)
  {
  }

  /** Under the invariant, a lookup by principal finds that principal's one
      live entry, whichever entry a handler has in hand. */
  lemma LiveEntryIsTheLookup(entries: seq<Entry>, e: Entry, now: nat)
    requires AtMostOneLive(entries, now)
    requires e in entries && Live(e, now)
    ensures Lookup(entries, ByUserId(e.userId), now) == Some(e)
  {
  }

  /** The ledger collection, together with the server clock (in seconds)
      that stamps `createdAt` and against which TTL expiry is read. */
  class Ledger {
    var entries: seq<Entry>
    var now: nat

    /** No entry is stamped in the future. */
    ghost predicate Valid()
      reads this
    {
      forall e | e in entries :: e.createdAt <= now
    }

    constructor (start: nat)
      ensures Valid() && entries == [] && now == start
    {
      entries := [];
      now := start;
    }

    /** `TokenModel.create({ userId, refreshToken })`: always appends, even when
        the principal already has an entry; `createdAt` is the current instant. */
    method Create(userId: Id, refreshToken: Token) returns (e: Entry)
      requires Valid()
      modifies this
      ensures Valid() && now == old(now)
      ensures e == Entry(userId, refreshToken, now) && Live(e, now)
      ensures entries == old(entries) + [e]
    {
      e := Entry(userId, refreshToken, now);
      entries := entries + [e];
    }

    /** The clock advances; nothing is deleted (expiry is read, not stored). */
    method Tick(seconds: nat)
      requires Valid()
      modifies this
      ensures Valid() && now == old(now) + seconds && entries == old(entries)
      ensures AtMostOneLive(old(entries), old(now)) ==> AtMostOneLive(entries, now)
    {
      now := now + seconds;
      if AtMostOneLive(entries, old(now)) {
        AtMostOneLiveLater(entries, old(now), now);
      }
    }

    /** `TokenModel.findOne(q)`. */
    method FindOne(q: Query) returns (r: Option<Entry>)
      requires Valid()
      ensures r == Lookup(entries, q, now)
      ensures r.Some? ==> r.value.createdAt <= now < r.value.createdAt + TTL_SECONDS
    {
      r := Lookup(entries, q, now);
    }
  }
}
