/** src/Controllers/inspectionReportController.js: creating inspector
    officers (which also issues them a session), the buildings an inspector
    may inspect, and the inspection reports an inspector files and reads. */
module InspectionReportController {
  import opened Common
  import opened Text
  import opened Jwt
  import opened Bcrypt
  import opened Http
  import opened AuthModel
  import opened InspectorModel
  import opened TokenModel
  import opened Principals
  import TokenUtils

  /** The `inspector` object of the creation response. */
  datatype InspectorView = InspectorView(fullName: string, email: string, role: string, ownerId: Id)

  datatype CreatedInspector = CreatedInspector(success: bool, message: string, inspector: InspectorView)

  /** The body of `addInspectorOfficer`; every field may be missing. */
  datatype InspectorRequest = InspectorRequest(fullName: Option<string>, email: Option<string>,
                                               password: Option<string>, role: Option<string>)

  /** What the response reveals of a stored inspector: no id, no hash. */
  function View(n: Inspector): (v: InspectorView)
    ensures v.fullName == n.fullName && v.email == n.email && v.role == n.role && v.ownerId == n.ownerId
  {
    InspectorView(n.fullName, n.email, n.role, n.ownerId)
  }

  /** The guards `addInspectorOfficer` runs before writing anything, in the
      handler's order; `None` when all pass. Note that the duplicate check
      (and the hashing) come before the check that a caller is logged in. */
  function AddInspectorGuard(verdict: Verdict, req: InspectorRequest, inspectors: seq<Inspector>,
                             callerId: Option<Id>): (r: Option<ApiError>)
    ensures verdict.Rejected? ==> r == Some(ApiError(401, verdict.message))
    ensures verdict.Accepted? && !Truthy(req.password) ==> r == Some(ApiError(400, "Password is required."))
    ensures verdict.Accepted? && Truthy(req.password) && FindInspectorByEmail(inspectors, req.email.GetOr("")).Some? ==>
              r == Some(ApiError(400, "Inspector officer already exists."))
    ensures verdict.Accepted? && Truthy(req.password) && FindInspectorByEmail(inspectors, req.email.GetOr("")).None? ==>
              r == if callerId.None? then Some(ApiError(400, "User must be logged in to create an inspector officer.")) else None
  {
    if verdict.Rejected? then Some(ApiError(401, verdict.message))
    else if !Truthy(req.password) then Some(ApiError(400, "Password is required."))
    else if FindInspectorByEmail(inspectors, req.email.GetOr("")).Some? then Some(ApiError(400, "Inspector officer already exists."))
    else if callerId.None? then Some(ApiError(400, "User must be logged in to create an inspector officer."))
    else None
  }

  /** The session `addInspectorOfficer` issues to the inspector it just
      stored: a new ledger entry, appended whether or not the id had one, and
      both cookies overwritten with the inspector's tokens. */
  method IssueInspectorSession(n: Inspector, nextId: nat, ledger: Ledger, res: Response, cfg: TokenUtils.Config)
    requires ledger.Valid() && LedgerTracks(ledger.entries, nextId, cfg) && n.id < nextId
    modifies ledger, res
    ensures ledger.Valid() && LedgerTracks(ledger.entries, nextId, cfg) && ledger.now == old(ledger.now)
    ensures AtMostOneLive(old(ledger.entries), ledger.now) && Lookup(old(ledger.entries), ByUserId(n.id), ledger.now).None? ==>
              AtMostOneLive(ledger.entries, ledger.now)
    ensures var refreshToken := TokenUtils.GenerateRefreshToken(InspectorPrincipal(n).Subject(), cfg, ledger.now);
            && ledger.entries == old(ledger.entries) + [Entry(n.id, refreshToken, ledger.now)]
            && res.cookies == TokenUtils.WithTokenCookies(old(res.cookies),
                                TokenUtils.GenerateAccessToken(InspectorPrincipal(n).Subject(), cfg, ledger.now), refreshToken, cfg)
  {
    var accessToken := TokenUtils.GenerateAccessToken(InspectorPrincipal(n).Subject(), cfg, ledger.now);
    var refreshToken := TokenUtils.GenerateRefreshToken(InspectorPrincipal(n).Subject(), cfg, ledger.now);
    var before := ledger.entries;
    var e := ledger.Create(n.id, refreshToken);
    if AtMostOneLive(before, ledger.now) && Lookup(before, ByUserId(n.id), ledger.now).None? {
      AppendKeepsAtMostOneLive(before, e, ledger.now);
    }
    TokenUtils.SetTokenCookies(res, accessToken, refreshToken, cfg);
  }

  /** `addInspectorOfficer` for the caller whose `req.user?.id` is `callerId`.
      The verdict is the inspector schema's; an invalid body is answered
      with 401. A failed `create` escapes to the error middleware. */
  method AddInspectorOfficer(dir: Directory, ledger: Ledger, res: Response, cfg: TokenUtils.Config,
                             verdict: Verdict, req: InspectorRequest, callerId: Option<Id>, salt: nat)
    returns (out: Outcome<CreatedInspector>)
    requires dir.Valid() && ledger.Valid() && LedgerTracks(ledger.entries, dir.nextId, cfg)
    requires AtMostOneLive(ledger.entries, ledger.now)
    modifies dir, ledger, res
    ensures dir.Valid() && ledger.Valid() && LedgerTracks(ledger.entries, dir.nextId, cfg)
    ensures AtMostOneLive(ledger.entries, ledger.now)
    ensures dir.accounts == old(dir.accounts) && ledger.now == old(ledger.now)
    ensures AddInspectorGuard(verdict, req, old(dir.inspectors), callerId).Some? ==>
              && out == Next(Api(AddInspectorGuard(verdict, req, old(dir.inspectors), callerId).value))
              && unchanged(dir) && ledger.entries == old(ledger.entries) && res.cookies == old(res.cookies)
    ensures AddInspectorGuard(verdict, req, old(dir.inspectors), callerId).None? ==>
              var created := NewInspector(old(dir.nextId), req.fullName.GetOr(""), req.email.GetOr(""),
                                          Hash(req.password.value, salt), req.role, callerId.value);
              && (created.None? ==> out.Next? && out.failure.Internal? && unchanged(dir)
                                    && ledger.entries == old(ledger.entries) && res.cookies == old(res.cookies))
              && (created.Some? ==>
                    && created.value.ownerId == callerId.value
                    && dir.inspectors == old(dir.inspectors) + [created.value] && dir.nextId == old(dir.nextId) + 1
                    && out == Reply(201, CreatedInspector(true, "Inspector officer created successfully.", View(created.value))))
    ensures out.Reply? ==>
              var n := dir.inspectors[|dir.inspectors| - 1];
              var refreshToken := TokenUtils.GenerateRefreshToken(InspectorPrincipal(n).Subject(), cfg, ledger.now);
              && ledger.entries == old(ledger.entries) + [Entry(n.id, refreshToken, ledger.now)]
              && res.cookies == TokenUtils.WithTokenCookies(old(res.cookies),
                                  TokenUtils.GenerateAccessToken(InspectorPrincipal(n).Subject(), cfg, ledger.now), refreshToken, cfg)
  {
    var guard := AddInspectorGuard(verdict, req, dir.inspectors, callerId);
    if guard.Some? {
      return Next(Api(guard.value));
    }
    var hashedPassword := Hash(req.password.value, salt);
    LedgerTracksMonotone(ledger.entries, dir.nextId, dir.nextId + 1, cfg);
    // the inspector's id is not yet allocated, so the ledger has no entry for it
    var id := dir.nextId;
    UnallocatedHasNoEntry(ledger.entries, id, cfg, id, ledger.now);
    var newInspector := dir.InsertInspector(req.fullName.GetOr(""), req.email.GetOr(""), hashedPassword, req.role, callerId.value);
    if newInspector.None? {
      return Next(Internal("ValidationError"));
    }
    assert dir.inspectors[|dir.inspectors| - 1] == newInspector.value && newInspector.value.id == id;
    var before := ledger.entries;
    IssueInspectorSession(newInspector.value, dir.nextId, ledger, res, cfg);
    AppendKeepsAtMostOneLive(before, ledger.entries[|before|], ledger.now);
    out := Reply(201, CreatedInspector(true, "Inspector officer created successfully.", View(newInspector.value)));
  }

  /** The ownership link is not enforced: `OwnerId` is whoever called, and
      the guard admits any caller, so an inspector officer can create another
      one. The stored `OwnerId` then names an inspector, which no account
      shares, and so it resolves to that inspector, not to any account. */
  lemma InspectorMayOwnInspector(accounts: seq<Account>, inspectors: seq<Inspector>, nextId: nat,
                                 verdict: Verdict, req: InspectorRequest, callerId: Option<Id>, salt: nat)
    requires DirectoryValid(accounts, inspectors, nextId)
    requires AddInspectorGuard(verdict, req, inspectors, callerId).None?
    requires FindInspectorById(inspectors, callerId).Some?
    requires NewInspector(nextId, req.fullName.GetOr(""), req.email.GetOr(""),
                          Hash(req.password.value, salt), req.role, callerId.value).Some?
    ensures var n := NewInspector(nextId, req.fullName.GetOr(""), req.email.GetOr(""),
                                  Hash(req.password.value, salt), req.role, callerId.value).value;
            && FindAccountById(accounts, Some(n.ownerId)).None?
            && FindPrincipalById(accounts, inspectors + [n], Some(n.ownerId))
               == Some(InspectorPrincipal(FindInspectorById(inspectors, callerId).value))
  {
    var owner := FindInspectorById(inspectors, callerId).value;
    var n := NewInspector(nextId, req.fullName.GetOr(""), req.email.GetOr(""),
                          Hash(req.password.value, salt), req.role, callerId.value).value;
    assert n.ownerId == owner.id;
    FindOneAppend(inspectors, n, (x: Inspector) => x.id == owner.id);
  }

  /** A building document, with the fields the handlers read. */
  datatype Building = Building(id: Id, buildingOwner: Id, buildingName: string)

  datatype BuildingList = BuildingList(success: bool, count: nat, buildings: seq<Building>)

  /** `AuthModel.findById(id) || InspectorOfficer.findById(id)`. */
  function FindPrincipalById(accounts: seq<Account>, inspectors: seq<Inspector>, id: Option<Id>): (r: Option<Principal>)
    ensures FindAccountById(accounts, id).Some? ==> r == Some(AccountPrincipal(FindAccountById(accounts, id).value))
    ensures FindAccountById(accounts, id).None? ==>
              r == if FindInspectorById(inspectors, id).Some? then Some(InspectorPrincipal(FindInspectorById(inspectors, id).value)) else None
  {
    match FindAccountById(accounts, id)
    case Some(a) => Some(AccountPrincipal(a))
    case None =>
      match FindInspectorById(inspectors, id)
      case Some(n) => Some(InspectorPrincipal(n))
      case None => None
  }

  /** `getBuildingsByOwner`: the buildings owned by the caller's owner. */
  function GetBuildingsByOwner(accounts: seq<Account>, inspectors: seq<Inspector>, buildings: seq<Building>,
                               callerId: Option<Id>): (r: Outcome<BuildingList>)
    ensures var p := FindPrincipalById(accounts, inspectors, callerId);
            r.Reply? <==> && p.Some? && p.value.RoleName() == "inspector" && p.value.OwnerId().Some?
                          && (exists b | b in buildings :: b.buildingOwner == p.value.OwnerId().value)
    ensures r.Reply? ==>
              var owner := FindPrincipalById(accounts, inspectors, callerId).value.OwnerId().value;
              && r.status == 200 && r.body.success
              && r.body.buildings == Filter(buildings, (b: Building) => b.buildingOwner == owner)
              && r.body.count == |r.body.buildings|
              && (forall b | b in r.body.buildings :: b in buildings && b.buildingOwner == owner)
              && (forall b | b in buildings && b.buildingOwner == owner :: b in r.body.buildings)
  {
    var inspector := FindPrincipalById(accounts, inspectors, callerId);
    if inspector.None? || inspector.value.RoleName() != "inspector" then
      Fail(403, "Access denied. Inspector role is required.")
    else if inspector.value.OwnerId().None? then
      Fail(400, "Inspector is not linked to an owner.")
    else
      var ownerId := inspector.value.OwnerId().value;
      var found := Filter(buildings, (b: Building) => b.buildingOwner == ownerId);
      if |found| == 0 then
        assert forall b | b in buildings :: b.buildingOwner != ownerId;
        Fail(404, "No buildings found for this owner.")
      else
        assert found[0] in found;
        Reply(200, BuildingList(true, |found|, found))
  }

  /** The refusals of `getBuildingsByOwner`, in order: not an inspector, then
      no owner, then no buildings for the owner. */
  lemma BuildingAccessRefusals(accounts: seq<Account>, inspectors: seq<Inspector>, buildings: seq<Building>, callerId: Option<Id>)
    ensures var p := FindPrincipalById(accounts, inspectors, callerId);
            var r := GetBuildingsByOwner(accounts, inspectors, buildings, callerId);
            && (p.None? || p.value.RoleName() != "inspector" ==> r == Fail(403, "Access denied. Inspector role is required."))
            && (p.Some? && p.value.RoleName() == "inspector" && p.value.OwnerId().None? ==>
                  r == Fail(400, "Inspector is not linked to an owner."))
            && (p.Some? && p.value.RoleName() == "inspector" && p.value.OwnerId().Some?
                && (forall b | b in buildings :: b.buildingOwner != p.value.OwnerId().value) ==>
                  r == Fail(404, "No buildings found for this owner."))
  {
  }

  /** An account principal holding the "inspector" role passes the role
      check, but no handler of the core ever sets an account's `OwnerId`, so
      (as signup appends them, under an id no earlier account has) such an
      account is refused with 400. */
  lemma InspectorAccountHasNoOwner(accounts: seq<Account>, inspectors: seq<Inspector>, buildings: seq<Building>,
                                   id: Id, fields: AccountFields)
    requires NewAccount(id, fields).Some? && NewAccount(id, fields).value.role == InspectorRole
    requires forall a' | a' in accounts :: a'.id != id
    ensures GetBuildingsByOwner(accounts + [NewAccount(id, fields).value], inspectors, buildings, Some(id))
            == Fail(400, "Inspector is not linked to an owner.")
  {
  }

  /** One issue of a report request body. */
  datatype IssueInput = IssueInput(restroomId: Id, title: string, rating: int)

  /** The request's `issues`: an array of issue objects, or some other JSON
      value. */
  datatype IssuesField = IssueArray(items: seq<IssueInput>) | NotAnArray

  /** A stored issue: the schema trims `title`. */
  datatype Issue = Issue(restroomId: Id, title: string, rating: int)

  datatype Report = Report(id: Id, inspectorId: Id, issues: seq<Issue>, createdAt: nat)

  /** `issues.map(({ restroomId, title, rating }) => ...)` followed by the
      schema's `trim` setter on `title`. */
  function ProjectIssues(items: seq<IssueInput>): (r: seq<Issue>)
    ensures |r| == |items|
    ensures forall k | 0 <= k < |r| ::
              r[k].restroomId == items[k].restroomId && r[k].title == Trim(items[k].title) && r[k].rating == items[k].rating
  {
    if items == [] then [] else [Issue(items[0].restroomId, Trim(items[0].title), items[0].rating)] + ProjectIssues(items[1..])
  }

  /** What the report schema accepts as an issue: a title that is not empty
      after trimming and a rating from 1 to 5. */
  predicate IssueStorable(i: Issue) {
    i.title != "" && 1 <= i.rating <= 5
  }

  datatype CreatedReport = CreatedReport(success: bool, message: string, report: Report)

  /** The inspection report collection with the clock that stamps
      `createdAt`. */
  class ReportStore {
    var reports: seq<Report>
    var nextId: nat
    var now: nat

    /** Report ids are allocated from `nextId`, so they are distinct. */
    ghost predicate Valid()
      reads this
    {
      && (forall r | r in reports :: r.id < nextId)
      && DistinctKeys(reports, (r: Report) => r.id)
    }

    constructor (start: nat)
      ensures Valid() && reports == [] && nextId == 0 && now == start
    {
      reports, nextId, now := [], 0, start;
    }

    /** `InspectionReport.create({ inspectorId, issues })`: the required
        `inspectorId` and the issue validators must pass; otherwise nothing is
        stored. */
    method Create(inspectorId: Option<Id>, issues: seq<Issue>) returns (r: Option<Report>)
      requires Valid()
      modifies this
      ensures Valid() && now == old(now)
      ensures r.Some? <==> inspectorId.Some? && forall i | i in issues :: IssueStorable(i)
      ensures r.Some? ==> r.value == Report(old(nextId), inspectorId.value, issues, now)
                          && reports == old(reports) + [r.value] && nextId == old(nextId) + 1
      ensures r.None? ==> unchanged(this)
    {
      if inspectorId.None? || !(forall i | i in issues :: IssueStorable(i)) {
        return None;
      }
      r := Some(Report(nextId, inspectorId.value, issues, now));
      AppendKeepsDistinct(reports, r.value, (x: Report) => x.id);
      reports := reports + [r.value];
      nextId := nextId + 1;
    }
  }

  /** `createInspectionReports`. The verdict is the report schema's; a
      schema failure of `create` (a missing caller id, or an issue the
      stored schema rejects) escapes to the error middleware. */
  method CreateInspectionReports(store: ReportStore, verdict: Verdict, issues: IssuesField, callerId: Option<Id>)
    returns (out: Outcome<CreatedReport>)
    requires store.Valid()
    modifies store
    ensures store.Valid()
    ensures verdict.Rejected? ==> out == Fail(400, verdict.message) && unchanged(store)
    ensures verdict.Accepted? && issues.NotAnArray? ==> out == Fail(400, "Issues must be an array.") && unchanged(store)
    ensures verdict.Accepted? && issues.IssueArray? ==>
              var stored := ProjectIssues(issues.items);
              if callerId.Some? && forall i | i in stored :: IssueStorable(i) then
                && out == Reply(201, CreatedReport(true, "Inspection reports created successfully.",
                                                   Report(old(store.nextId), callerId.value, stored, store.now)))
                && store.reports == old(store.reports) + [out.body.report]
                && store.nextId == old(store.nextId) + 1 && store.now == old(store.now)
              else
                out.Next? && out.failure.Internal? && unchanged(store)
  {
    if verdict.Rejected? {
      return Fail(400, verdict.message);
    }
    if issues.NotAnArray? {
      return Fail(400, "Issues must be an array.");
    }
    var inspectionReport := store.Create(callerId, ProjectIssues(issues.items));
    if inspectionReport.None? {
      return Next(Internal("ValidationError"));
    }
    out := Reply(201, CreatedReport(true, "Inspection reports created successfully.", inspectionReport.value));
  }

  /** A report as `getAllReports` sends it: `_id`, `inspectorId`, `issues`. */
  datatype ReportView = ReportView(id: Id, inspectorId: Id, issues: seq<Issue>)

  datatype ReportList = ReportList(count: nat, success: bool, message: string, reports: seq<ReportView>)

  datatype SingleReport = SingleReport(success: bool, message: string, singleReport: Report)

  function ReportViews(reports: seq<Report>): (r: seq<ReportView>)
    ensures |r| == |reports|
    ensures forall k | 0 <= k < |r| ::
              r[k] == ReportView(reports[k].id, reports[k].inspectorId, reports[k].issues)
  {
    if reports == [] then [] else [ReportView(reports[0].id, reports[0].inspectorId, reports[0].issues)] + ReportViews(reports[1..])
  }

  /** Both report readers admit only an inspector-store principal whose role
      is "inspector". */
  predicate IsInspector(inspectors: seq<Inspector>, callerId: Option<Id>) {
    FindInspectorById(inspectors, callerId).Some? && FindInspectorById(inspectors, callerId).value.role == "inspector"
  }

  /** `getAllReports`: the caller's reports, in insertion order. */
  function GetAllReports(inspectors: seq<Inspector>, reports: seq<Report>, callerId: Option<Id>): (r: Outcome<ReportList>)
    ensures !IsInspector(inspectors, callerId) ==> r == Fail(403, "Access denied or Inspector role is required")
    ensures IsInspector(inspectors, callerId) ==>
              && r.Reply? && r.status == 200 && r.body.success && r.body.message == "All Reports retrieved successfully."
              && r.body.reports == ReportViews(Filter(reports, (s: Report) => s.inspectorId == callerId.value))
              && r.body.count == |r.body.reports|
              && (forall v | v in r.body.reports :: v.inspectorId == callerId.value
                    && exists s | s in reports :: v == ReportView(s.id, s.inspectorId, s.issues))
              && (forall s | s in reports && s.inspectorId == callerId.value ::
                    ReportView(s.id, s.inspectorId, s.issues) in r.body.reports)
  {
    if !IsInspector(inspectors, callerId) then Fail(403, "Access denied or Inspector role is required")
    else
      var mine := Filter(reports, (s: Report) => s.inspectorId == callerId.value);
      var views := ReportViews(mine);
      assert forall v | v in views :: exists s | s in reports :: v == ReportView(s.id, s.inspectorId, s.issues) && s.inspectorId == callerId.value by {
        forall v | v in views ensures exists s | s in reports :: v == ReportView(s.id, s.inspectorId, s.issues) && s.inspectorId == callerId.value {
          var k :| 0 <= k < |views| && views[k] == v;
          assert mine[k] in mine;
        }
      }
      assert forall s | s in mine :: ReportView(s.id, s.inspectorId, s.issues) in views by {
        forall s | s in mine ensures ReportView(s.id, s.inspectorId, s.issues) in views {
          var k :| 0 <= k < |mine| && mine[k] == s;
          assert views[k] == ReportView(s.id, s.inspectorId, s.issues);
        }
      }
      Reply(200, ReportList(|views|, true, "All Reports retrieved successfully.", views))
  }

  /** `getSingleReport`: the report with that id, only if the caller filed
      it. */
  function GetSingleReport(inspectors: seq<Inspector>, reports: seq<Report>, callerId: Option<Id>, reportId: Id)
    : (r: Outcome<SingleReport>)
    ensures !IsInspector(inspectors, callerId) ==> r == Fail(403, "Access denied or Inspector role is required")
    ensures IsInspector(inspectors, callerId) ==>
              (r.Reply? <==> exists s | s in reports :: s.id == reportId && s.inspectorId == callerId.value)
    ensures IsInspector(inspectors, callerId) && r.Next? ==> r == Fail(404, "No report found with this ID.")
    ensures r.Reply? ==> && r.status == 200 && r.body == SingleReport(true, "Report found.", r.body.singleReport)
                         && r.body.singleReport in reports && r.body.singleReport.id == reportId
                         && r.body.singleReport.inspectorId == callerId.value
  {
    if !IsInspector(inspectors, callerId) then Fail(403, "Access denied or Inspector role is required")
    else match FindOne(reports, (s: Report) => s.id == reportId && s.inspectorId == callerId.value)
      case None => Fail(404, "No report found with this ID.")
      case Some(s) => Reply(200, SingleReport(true, "Report found.", s))
  }

  /** Reports are private to their inspector: another inspector asking for
      it by id gets 404, exactly as for an id that does not exist. Report ids
      are distinct in every store `ReportStore.Valid` holds for. */
  lemma ReportsArePrivate(inspectors: seq<Inspector>, reports: seq<Report>, callerId: Id, s: Report)
    requires IsInspector(inspectors, Some(callerId))
    requires s in reports && s.inspectorId != callerId
    requires DistinctKeys(reports, (r: Report) => r.id)
    ensures GetSingleReport(inspectors, reports, Some(callerId), s.id) == Fail(404, "No report found with this ID.")
    ensures ReportView(s.id, s.inspectorId, s.issues) !in GetAllReports(inspectors, reports, Some(callerId)).body.reports
  {
    forall t | t in reports && t.id == s.id ensures t == s {
      DistinctKeysUnique(reports, (r: Report) => r.id, t, s);
    }
  }
}
