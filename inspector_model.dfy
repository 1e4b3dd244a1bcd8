/** src/models/inspectorModel.js: the inspector principal. `fullName` is
    stored trimmed, `email` trimmed and lowercased (and unique among
    inspectors), `role` defaults to "inspector" with no enum, and `OwnerId`
    is required. */
module InspectorModel {
  import opened Common
  import opened Text
  import opened Bcrypt

  datatype Inspector = Inspector(
    id: Id,
    fullName: string,
    email: string,
    password: PasswordHash,
    role: string,
    ownerId: Id)

  /** The `trim` and `lowercase` setters on `email`; Mongoose also applies them
      to the value of an `email` query filter. */
  function NormalizeEmail(email: string): string {
    Lower(Trim(email))
  }

  /** Normalising twice is normalising once, so a stored email matches a
      query for itself. */
  lemma NormalizeEmailIdempotent(email: string)
    ensures NormalizeEmail(NormalizeEmail(email)) == NormalizeEmail(email)
  {
    var t := Trim(email);
    LowerTrim(t);
    TrimIdempotent(email);
    LowerIdempotent(t);
  }

  /** The document `InspectorOfficer.create` builds, or None when validation
      fails (a required string is empty after trimming). */
  function NewInspector(id: Id, fullName: string, email: string, password: PasswordHash,
                        role: Option<string>, ownerId: Id): (r: Option<Inspector>)
    ensures r.Some? <==> Trim(fullName) != "" && NormalizeEmail(email) != ""
    ensures r.Some? ==> r.value.id == id && r.value.password == password && r.value.ownerId == ownerId
    ensures r.Some? ==> r.value.role == role.GetOr("inspector")
    ensures r.Some? ==> r.value.fullName == Trim(fullName) && r.value.email == NormalizeEmail(email)
  {
    if Trim(fullName) == "" || NormalizeEmail(email) == "" then None
    else Some(Inspector(id, Trim(fullName), NormalizeEmail(email), password, role.GetOr("inspector"), ownerId))
  }

  /** A stored inspector is already in normal form: trimming its name or
      normalising its email again changes nothing. */
  lemma NewInspectorNormalized(id: Id, fullName: string, email: string, password: PasswordHash,
                               role: Option<string>, ownerId: Id)
    requires NewInspector(id, fullName, email, password, role, ownerId).Some?
    ensures var n := NewInspector(id, fullName, email, password, role, ownerId).value;
            Trim(n.fullName) == n.fullName && NormalizeEmail(n.email) == n.email
  {
    NormalizeEmailIdempotent(email);
    TrimIdempotent(fullName);
  }
}
