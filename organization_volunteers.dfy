/** /api/organization/volunteers (app/api/organization/volunteers/route.ts):
    the applications addressed to the caller's organisation, newest first
    (GET), and a status change on one of them (PATCH). Both are behind the
    shared gate with the ORGANIZATION and ADMIN roles; any refusal of the gate
    is a 401. The organisation is the one named in the token, not looked up. */
module OrganizationVolunteers {
  import opened Common
  import opened Store
  import Middleware

  const Roles: seq<string> := ["ORGANIZATION", "ADMIN"]

  function CreatedAt(a: Application): int { a.createdAt }

  /** The application is addressed to the organisation the token names; a
      token without one (`null`) matches no application. */
  predicate AddressedTo(a: Application, organizationId: Option<Id>)
  {
    organizationId == Some(a.organizationId)
  }

  // ---------------------------------------------------------------------------
  // GET

  /** The applications addressed to one organisation, newest first. */
  function Addressed(t: Tables, organizationId: Option<Id>): (r: seq<Application>)
    ensures forall a :: a in r <==> a in t.applications && AddressedTo(a, organizationId)
    ensures forall a :: multiset(r)[a] == if AddressedTo(a, organizationId) then multiset(t.applications)[a] else 0
    ensures multiset(r) <= multiset(t.applications)
    ensures Descending(r, CreatedAt)
  {
    var mine := Filter(t.applications, (a: Application) => AddressedTo(a, organizationId));
    var sorted := NewestFirst(mine, CreatedAt);
    SubsequenceMultiset(mine, t.applications);
    sorted
  }

  function Get(t: Tables, header: Option<string>, tokens: Middleware.Tokens): (r: Response<seq<Application>>)
    ensures Middleware.VerifyToken(header, Roles, tokens).Err? <==> r == Failure(401, "Unauthorized")
    ensures r.Success? ==> r == Success(200, Addressed(t, Middleware.VerifyToken(header, Roles, tokens).value.organizationId))
  {
    match Middleware.VerifyToken(header, Roles, tokens)
    case Err(_) => Failure(401, "Unauthorized")
    case Ok(p) => Success(200, Addressed(t, p.organizationId))
  }

  // ---------------------------------------------------------------------------
  // PATCH

  /** `status` is `None` when the body leaves it out: the update then writes
      nothing. */
  datatype Body = Body(applicationId: Id, status: Option<string>)

  function Restatused(a: Application, status: Option<string>): (r: Application)
    ensures r == a.(status := r.status)
    ensures status.Some? ==> r.status == status.value
    ensures status.None? ==> r == a
  {
    if status.Some? then a.(status := status.value) else a
  }

  function PatchStep(t: Tables, header: Option<string>, tokens: Middleware.Tokens, b: Body): (s: Step<Application>)
    ensures s.response.Failure? ==> s.after == t
    ensures Middleware.VerifyToken(header, Roles, tokens).Err? ==> s.response == Failure(401, "Unauthorized")
    ensures s.response.Failure? && Middleware.VerifyToken(header, Roles, tokens).Ok? ==>
              s.response == Failure(500, "Internal Server Error")
    ensures s.response.Success? <==>
              && Middleware.VerifyToken(header, Roles, tokens).Ok?
              && Find(t.applications, ApplicationId, b.applicationId).Some?
              && AddressedTo(t.applications[Find(t.applications, ApplicationId, b.applicationId).value],
                             Middleware.VerifyToken(header, Roles, tokens).value.organizationId)
    ensures s.response.Success? ==>
              var p := Middleware.VerifyToken(header, Roles, tokens).value;
              && s.response.status == 200
              && Find(t.applications, ApplicationId, b.applicationId).Some?
              && var i := Find(t.applications, ApplicationId, b.applicationId).value;
                 && AddressedTo(t.applications[i], p.organizationId)
                 && s.response.value == Restatused(t.applications[i], b.status)
                 && s.after == t.(applications := t.applications[i := Restatused(t.applications[i], b.status)])
  {
    match Middleware.VerifyToken(header, Roles, tokens)
    case Err(_) => Step(Failure(401, "Unauthorized"), t)
    case Ok(p) =>
      match Find(t.applications, ApplicationId, b.applicationId)
      case None => Step(Failure(500, "Internal Server Error"), t)
      case Some(i) =>
        if !AddressedTo(t.applications[i], p.organizationId) then Step(Failure(500, "Internal Server Error"), t)
        else
          var a := Restatused(t.applications[i], b.status);
          Step(Success(200, a), t.(applications := t.applications[i := a]))
  }

  /** Another organisation's applications are never changed, and of the
      caller's own only the named one, and only its status. */
  lemma {:induction false} OnlyOwnStatusChanges(t: Tables, header: Option<string>, tokens: Middleware.Tokens, b: Body)
    requires Middleware.VerifyToken(header, Roles, tokens).Ok?
    ensures var s := PatchStep(t, header, tokens, b);
            var org := Middleware.VerifyToken(header, Roles, tokens).value.organizationId;
            && |s.after.applications| == |t.applications|
            && (forall j :: 0 <= j < |t.applications| ==>
                  s.after.applications[j] == t.applications[j].(status := s.after.applications[j].status))
            && (forall j :: 0 <= j < |t.applications| && !AddressedTo(t.applications[j], org) ==>
                  s.after.applications[j] == t.applications[j])
            && (forall j :: 0 <= j < |t.applications| && t.applications[j].id != b.applicationId ==>
                  s.after.applications[j] == t.applications[j])
            && s.after.(applications := t.applications) == t
  {
    var s := PatchStep(t, header, tokens, b);
    if s.response.Success? {
      var i := Find(t.applications, ApplicationId, b.applicationId).value;
      assert t.applications[i].id == b.applicationId;
    }
  }

  lemma {:induction false} PatchKeepsInvariants(t: Tables, header: Option<string>, tokens: Middleware.Tokens, b: Body)
    requires WellFormed(t)
    ensures WellFormed(PatchStep(t, header, tokens, b).after)
  {
    var s := PatchStep(t, header, tokens, b);
    if s.response.Success? {
      var i := Find(t.applications, ApplicationId, b.applicationId).value;
      var a := Restatused(t.applications[i], b.status);
      var apps := t.applications[i := a];
      TableReplace(t.applications, ApplicationId, i, a, t.nextId);
      assert Keys(apps, ApplicationOpportunity) == Keys(t.applications, ApplicationOpportunity);
    }
  }

  /** After a PATCH that sets a status, the caller's listing shows the
      application with that status. */
  lemma {:induction false} ListedAfterPatch(t: Tables, header: Option<string>, tokens: Middleware.Tokens, b: Body)
    requires PatchStep(t, header, tokens, b).response.Success?
    ensures var s := PatchStep(t, header, tokens, b);
            Get(s.after, header, tokens).Success? && s.response.value in Get(s.after, header, tokens).value
  {
    var s := PatchStep(t, header, tokens, b);
    var i := Find(t.applications, ApplicationId, b.applicationId).value;
    assert s.after.applications[i] == s.response.value;
  }

  method Patch(db: Database, header: Option<string>, tokens: Middleware.Tokens, b: Body) returns (r: Response<Application>)
    requires db.Valid()
    modifies db
    ensures db.Valid()
    ensures Step(r, db.Snapshot()) == PatchStep(old(db.Snapshot()), header, tokens, b)
  {
    PatchKeepsInvariants(db.Snapshot(), header, tokens, b);
    var auth := Middleware.VerifyToken(header, Roles, tokens);
    if auth.Err? {
      return Failure(401, "Unauthorized");
    }
    var found := Find(db.applications, ApplicationId, b.applicationId);
    if found.None? {
      return Failure(500, "Internal Server Error");
    }
    var i := found.value;
    if !AddressedTo(db.applications[i], auth.value.organizationId) {
      return Failure(500, "Internal Server Error");
    }
    var a := Restatused(db.applications[i], b.status);
    db.SetApplication(i, a);
    r := Success(200, a);
  }
}
