/** The two principal collections (accounts and inspectors) as one
    directory, the tagged union of the two kinds of principal, and the
    queries the handlers run against them. Ids come from one counter, so an
    id names at most one principal across both collections. */
module Principals {
  import opened Common
  import opened Jwt
  import opened Bcrypt
  import opened AuthModel
  import opened InspectorModel
  import opened TokenModel
  import TokenUtils

  datatype Principal = AccountPrincipal(account: Account) | InspectorPrincipal(inspector: Inspector) {
    function UserId(): Id {
      match this
      case AccountPrincipal(a) => a.id
      case InspectorPrincipal(n) => n.id
    }
    function Email(): string {
      match this
      case AccountPrincipal(a) => a.email
      case InspectorPrincipal(n) => n.email
    }
    function RoleName(): string {
      match this
      case AccountPrincipal(a) => AuthModel.RoleName(a.role)
      case InspectorPrincipal(n) => n.role
    }
    function Password(): PasswordHash {
      match this
      case AccountPrincipal(a) => a.password
      case InspectorPrincipal(n) => n.password
    }
    function OwnerId(): Option<Id> {
      match this
      case AccountPrincipal(a) => a.ownerId
      case InspectorPrincipal(n) => Some(n.ownerId)
    }
    /** What the token generators read from the document. */
    function Subject(): TokenUtils.TokenSubject {
      TokenUtils.TokenSubject(UserId(), Email(), RoleName())
    }
  }

  /** `AuthModel.findOne({ email })`: exact match. */
  function FindAccountByEmail(accounts: seq<Account>, email: string): (r: Option<Account>)
    ensures r.Some? ==> r.value in accounts && r.value.email == email
    ensures r.None? <==> forall a | a in accounts :: a.email != email
  {
    FindOne(accounts, (a: Account) => a.email == email)
  }

  /** `InspectorOfficer.findOne({ email })`: the query value goes through the
      schema's trim and lowercase setters first. */
  function FindInspectorByEmail(inspectors: seq<Inspector>, email: string): (r: Option<Inspector>)
    ensures r.Some? ==> r.value in inspectors && r.value.email == NormalizeEmail(email)
    ensures r.None? <==> forall n | n in inspectors :: n.email != NormalizeEmail(email)
  {
    FindOne(inspectors, (n: Inspector) => n.email == NormalizeEmail(email))
  }

  /** `AuthModel.findById(id)`; an absent id finds nothing. */
  function FindAccountById(accounts: seq<Account>, id: Option<Id>): (r: Option<Account>)
    ensures r.Some? ==> id.Some? && r.value in accounts && r.value.id == id.value
    ensures r.None? <==> id.None? || forall a | a in accounts :: a.id != id.value
  {
    if id.None? then None else FindOne(accounts, (a: Account) => a.id == id.value)
  }

  /** `InspectorOfficer.findById(id)`; an absent id finds nothing. */
  function FindInspectorById(inspectors: seq<Inspector>, id: Option<Id>): (r: Option<Inspector>)
    ensures r.Some? ==> id.Some? && r.value in inspectors && r.value.id == id.value
    ensures r.None? <==> id.None? || forall n | n in inspectors :: n.id != id.value
  {
    if id.None? then None else FindOne(inspectors, (n: Inspector) => n.id == id.value)
  }

  /** Login's principal resolution: the account collection first, then the
      inspector collection. */
  function FindByEmail(accounts: seq<Account>, inspectors: seq<Inspector>, email: string): (r: Option<Principal>)
    ensures FindAccountByEmail(accounts, email).Some? ==> r == Some(AccountPrincipal(FindAccountByEmail(accounts, email).value))
    ensures FindAccountByEmail(accounts, email).None? ==>
              r == if FindInspectorByEmail(inspectors, email).Some?
                   then Some(InspectorPrincipal(FindInspectorByEmail(inspectors, email).value)) else None
  {
    match FindAccountByEmail(accounts, email)
    case Some(a) => Some(AccountPrincipal(a))
    case None =>
      match FindInspectorByEmail(inspectors, email)
      case Some(n) => Some(InspectorPrincipal(n))
      case None => None
  }

  /** The account collection after `user.password = hash; user.save()` on the
      account with id `id`: that account's hash replaced, all else kept. */
  function WithPassword(accounts: seq<Account>, id: Id, hash: PasswordHash): (r: seq<Account>)
    ensures |r| == |accounts|
    ensures forall k | 0 <= k < |r| :: r[k].email == accounts[k].email && r[k].id == accounts[k].id
    ensures forall k | 0 <= k < |r| :: r[k].password == if accounts[k].id == id then hash else accounts[k].password
    ensures forall k | 0 <= k < |r| :: r[k] == accounts[k].(password := r[k].password)
  {
    seq(|accounts|, k requires 0 <= k < |accounts| =>
      if accounts[k].id == id then accounts[k].(password := hash) else accounts[k])
  }

  /** The directory's invariant. Ids are allocated and distinct across both
      collections; emails are unique within each (the schemas' unique
      indexes); inspector emails are stored normalised. */
  predicate DirectoryValid(accounts: seq<Account>, inspectors: seq<Inspector>, nextId: nat) {
    && (forall a | a in accounts :: a.id < nextId)
    && (forall n | n in inspectors :: n.id < nextId)
    && (forall i, j | 0 <= i < j < |accounts| :: accounts[i].id != accounts[j].id && accounts[i].email != accounts[j].email)
    && (forall i, j | 0 <= i < j < |inspectors| :: inspectors[i].id != inspectors[j].id && inspectors[i].email != inspectors[j].email)
    && (forall a, n | a in accounts && n in inspectors :: a.id != n.id)
    && (forall n | n in inspectors :: NormalizeEmail(n.email) == n.email)
  }

  /** Storing an account under the next id with an email no account has
      keeps the invariant. */
  lemma AddAccountKeepsValid(accounts: seq<Account>, inspectors: seq<Inspector>, nextId: nat, a: Account)
    requires DirectoryValid(accounts, inspectors, nextId)
    requires a.id == nextId && forall b | b in accounts :: b.email != a.email
    ensures DirectoryValid(accounts + [a], inspectors, nextId + 1)
  {
    var all := accounts + [a];
    forall i, j | 0 <= i < j < |all| ensures all[i].id != all[j].id && all[i].email != all[j].email {
      assert all[i] == accounts[i] && accounts[i] in accounts;
    }
  }

  /** Storing an inspector under the next id, with a normalised email no
      inspector has, keeps the invariant. */
  lemma AddInspectorKeepsValid(accounts: seq<Account>, inspectors: seq<Inspector>, nextId: nat, n: Inspector)
    requires DirectoryValid(accounts, inspectors, nextId)
    requires n.id == nextId && NormalizeEmail(n.email) == n.email
    requires forall m | m in inspectors :: m.email != n.email
    ensures DirectoryValid(accounts, inspectors + [n], nextId + 1)
  {
    var all := inspectors + [n];
    forall i, j | 0 <= i < j < |all| ensures all[i].id != all[j].id && all[i].email != all[j].email {
      assert all[i] == inspectors[i] && inspectors[i] in inspectors;
    }
  }

  /** So does the document `InspectorOfficer.create` builds, once the
      duplicate check has passed. */
  lemma InsertInspectorKeepsValid(accounts: seq<Account>, inspectors: seq<Inspector>, nextId: nat,
                                  fullName: string, email: string, password: PasswordHash, role: Option<string>, ownerId: Id)
    requires DirectoryValid(accounts, inspectors, nextId)
    requires FindInspectorByEmail(inspectors, email).None?
    requires NewInspector(nextId, fullName, email, password, role, ownerId).Some?
    ensures DirectoryValid(accounts, inspectors + [NewInspector(nextId, fullName, email, password, role, ownerId).value], nextId + 1)
  {
    NewInspectorNormalized(nextId, fullName, email, password, role, ownerId);
    AddInspectorKeepsValid(accounts, inspectors, nextId, NewInspector(nextId, fullName, email, password, role, ownerId).value);
  }

  /** Replacing a password keeps every id and email, so the invariant. */
  lemma PasswordChangeKeepsValid(accounts: seq<Account>, inspectors: seq<Inspector>, nextId: nat, id: Id, hash: PasswordHash)
    requires DirectoryValid(accounts, inspectors, nextId)
    ensures DirectoryValid(WithPassword(accounts, id, hash), inspectors, nextId)
  {
    var r := WithPassword(accounts, id, hash);
    forall a | a in r ensures a.id < nextId && forall n | n in inspectors :: a.id != n.id {
      var k :| 0 <= k < |r| && r[k] == a;
      assert accounts[k] in accounts;
    }
  }

  class Directory {
    var accounts: seq<Account>
    var inspectors: seq<Inspector>
    var nextId: nat

    ghost predicate Valid()
      reads this
    {
      DirectoryValid(accounts, inspectors, nextId)
    }

    constructor ()
      ensures Valid() && accounts == [] && inspectors == [] && nextId == 0
    {
      accounts, inspectors, nextId := [], [], 0;
    }

    /** `AuthModel.create(fields)`: fails (None, nothing stored) on a schema
        validation error or when the unique email index already holds the
        email; otherwise stores the new document under a fresh id. */
    method InsertAccount(fields: AccountFields) returns (r: Option<Account>)
      requires Valid()
      modifies this
      ensures Valid()
      ensures r == if FindAccountByEmail(old(accounts), fields.email).Some? then None
                   else NewAccount(old(nextId), fields)
      ensures r.Some? ==> accounts == old(accounts) + [r.value] && nextId == old(nextId) + 1
      ensures r.None? ==> unchanged(this)
      ensures inspectors == old(inspectors)
    {
      if FindAccountByEmail(accounts, fields.email).Some? {
        return None;
      }
      r := NewAccount(nextId, fields);
      if r.Some? {
        AddAccountKeepsValid(accounts, inspectors, nextId, r.value);
        accounts := accounts + [r.value];
        nextId := nextId + 1;
      }
    }

    /** `InspectorOfficer.create(...)`, likewise; uniqueness is on the
        normalised email. */
    method InsertInspector(fullName: string, email: string, password: PasswordHash,
                           role: Option<string>, ownerId: Id) returns (r: Option<Inspector>)
      requires Valid()
      modifies this
      ensures Valid()
      ensures r == if FindInspectorByEmail(old(inspectors), email).Some? then None
                   else NewInspector(old(nextId), fullName, email, password, role, ownerId)
      ensures r.Some? ==> inspectors == old(inspectors) + [r.value] && nextId == old(nextId) + 1
      ensures r.None? ==> unchanged(this)
      ensures accounts == old(accounts)
    {
      if FindInspectorByEmail(inspectors, email).Some? {
        return None;
      }
      r := NewInspector(nextId, fullName, email, password, role, ownerId);
      if r.Some? {
        InsertInspectorKeepsValid(accounts, inspectors, nextId, fullName, email, password, role, ownerId);
        inspectors := inspectors + [r.value];
        nextId := nextId + 1;
      }
    }

    /** `user.password = hash; await user.save()` on a found account: only
        that account's password changes. */
    method SetAccountPassword(id: Id, hash: PasswordHash)
      requires Valid()
      requires FindAccountById(accounts, Some(id)).Some?
      modifies this
      ensures Valid()
      ensures accounts == WithPassword(old(accounts), id, hash)
      ensures inspectors == old(inspectors) && nextId == old(nextId)
    {
      PasswordChangeKeepsValid(accounts, inspectors, nextId, id, hash);
      var k := FindFirst(accounts, (a: Account) => a.id == id).value;
      accounts := accounts[k := accounts[k].(password := hash)];
      assert forall j | 0 <= j < |accounts| && j != k :: old(accounts)[j].id != id;
    }
  }

  /** Every ledger entry belongs to an allocated principal id (one below
      `nextId`) and holds a refresh token minted for that id when the entry
      was created: signed with the refresh secret, expiring when the entry
      does. */
  predicate LedgerTracks(entries: seq<Entry>, nextId: nat, cfg: TokenUtils.Config) {
    forall e | e in entries ::
      && e.userId < nextId
      && e.refreshToken.Signed?
      && e.refreshToken.key == cfg.refreshTokenSecret
      && e.refreshToken.payload.claims.id == e.userId
      && e.refreshToken.payload.exp == e.createdAt + TokenUtils.REFRESH_TOKEN_EXPIRES_IN
  }

  /** Allocating more ids keeps the ledger tracked. */
  lemma LedgerTracksMonotone(entries: seq<Entry>, nextId: nat, later: nat, cfg: TokenUtils.Config)
    requires LedgerTracks(entries, nextId, cfg) && nextId <= later
    ensures LedgerTracks(entries, later, cfg)
  {
  }

  /** An id not yet allocated has no ledger entry, live or not. */
  lemma UnallocatedHasNoEntry(entries: seq<Entry>, nextId: nat, cfg: TokenUtils.Config, id: Id, now: nat)
    requires LedgerTracks(entries, nextId, cfg) && nextId <= id
    ensures Lookup(entries, ByUserId(id), now).None?
  {
  }

  /** So a token minted for an id not yet allocated has no ledger entry, and
      the token of every live entry verifies against the refresh secret. */
  lemma LedgerEntryFacts(entries: seq<Entry>, nextId: nat, cfg: TokenUtils.Config, token: Token, now: nat)
    requires LedgerTracks(entries, nextId, cfg)
    ensures token.Signed? && token.payload.claims.id >= nextId ==> Lookup(entries, ByRefreshToken(token), now).None?
    ensures Lookup(entries, ByRefreshToken(token), now).Some? ==>
              Verify(token, cfg.refreshTokenSecret, now) == Valid(token.payload)
  {
  }
}
