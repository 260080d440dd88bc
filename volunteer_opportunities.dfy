/** /api/organization/volunteer-opportunities
    (app/api/organization/volunteer-opportunities/route.ts): the caller's
    organisation's opportunities, newest first, each with a summary of its
    applications (GET), and the creation of one opportunity (POST). */
module VolunteerOpportunities {
  import opened Common
  import opened Store
  import Middleware
  import OrgGate

  function CreatedAt(p: Opportunity): int { p.createdAt }

  // ---------------------------------------------------------------------------
  // GET

  /** The fields of an application the listing selects. */
  datatype ApplicationSummary = ApplicationSummary(id: Id, name: string, email: string, status: string, appliedAt: int)

  datatype Listed = Listed(opportunity: Opportunity, applications: seq<ApplicationSummary>)

  function Summary(a: Application): ApplicationSummary
  {
    ApplicationSummary(a.id, a.name, a.email, a.status, a.appliedAt)
  }

  /** The applications to one opportunity, summarised, in store order. */
  function ApplicationsOf(t: Tables, p: Opportunity): (r: seq<ApplicationSummary>)
    ensures forall x :: x in r <==> exists a :: a in t.applications && a.opportunityId == p.id && Summary(a) == x
  {
    Summaries(t.applications, p.id)
  }

  function Summaries(s: seq<Application>, opportunityId: Id): (r: seq<ApplicationSummary>)
    ensures |r| <= |s|
    ensures forall x :: x in r <==> exists a :: a in s && a.opportunityId == opportunityId && Summary(a) == x
  {
    if s == [] then []
    else
      var rest := Summaries(s[1..], opportunityId);
      assert forall a :: a in s[1..] ==> a in s;
      assert forall a :: a in s ==> a == s[0] || a in s[1..];
      if s[0].opportunityId == opportunityId then [Summary(s[0])] + rest else rest
  }

  function WithApplications(t: Tables, ps: seq<Opportunity>): (r: seq<Listed>)
    ensures |r| == |ps|
    ensures forall i :: 0 <= i < |ps| ==> r[i] == Listed(ps[i], ApplicationsOf(t, ps[i]))
  {
    seq(|ps|, i requires 0 <= i < |ps| => Listed(ps[i], ApplicationsOf(t, ps[i])))
  }

  function ListedOpportunity(l: Listed): Opportunity { l.opportunity }

  /** The listing for one organisation: its opportunities, newest first, each
      with the summaries of its applications. */
  function Listing(t: Tables, organizationId: Id): (r: seq<Listed>)
    ensures forall p :: p in Keys(r, ListedOpportunity) <==> p in t.opportunities && p.organizationId == organizationId
    ensures forall p {:trigger multiset(Keys(r, ListedOpportunity))[p]} ::
              multiset(Keys(r, ListedOpportunity))[p] ==
              if p.organizationId == organizationId then multiset(t.opportunities)[p] else 0
    ensures Descending(Keys(r, ListedOpportunity), CreatedAt)
    ensures forall i :: 0 <= i < |r| ==> r[i].applications == ApplicationsOf(t, r[i].opportunity)
  {
    var mine := Filter(t.opportunities, (p: Opportunity) => p.organizationId == organizationId);
    var sorted := NewestFirst(mine, CreatedAt);
    var r := WithApplications(t, sorted);
    assert Keys(r, ListedOpportunity) == sorted;
    r
  }

  function Get(t: Tables, header: Option<string>, tokens: Middleware.Tokens): (r: Response<seq<Listed>>)
    ensures OrgGate.Resolve(t, header, tokens).Err? ==>
              r == OrgGate.Refusal(OrgGate.Resolve(t, header, tokens).error, "Error fetching volunteer opportunities")
    ensures r.Success? <==> OrgGate.Resolve(t, header, tokens).Ok?
    ensures r.Success? ==>
              r == Success(200, Listing(t, OrgGate.Resolve(t, header, tokens).value.organization.id))
  {
    match OrgGate.Resolve(t, header, tokens)
    case Err(d) => OrgGate.Refusal(d, "Error fetching volunteer opportunities")
    case Ok(caller) => Success(200, Listing(t, caller.organization.id))
  }

  // ---------------------------------------------------------------------------
  // POST

  /** What the body's `requiredSkills` holds: nothing, one string, or an array. */
  datatype Skills = Absent | One(skill: string) | Many(skills: seq<string>)

  /** JavaScript truthiness: an array is truthy even when empty. */
  predicate Truthy(s: Skills)
  {
    match s
    case Absent => false
    case One(x) => x != ""
    case Many(_) => true
  }

  /** `Array.isArray(s) ? s : [s]`. */
  function AsList(s: Skills): (r: seq<string>)
    requires Truthy(s)
    ensures s.Many? ==> r == s.skills
    ensures s.One? ==> r == [s.skill]
  {
    match s
    case One(x) => [x]
    case Many(xs) => xs
  }

  datatype Body = Body(title: string, description: string, date: string, location: string, requiredSkills: Skills)

  predicate Complete(b: Body)
  {
    b.title != "" && b.description != "" && b.date != "" && b.location != "" && Truthy(b.requiredSkills)
  }

  /** `defaultStatus` is the status the schema gives a new opportunity; the
      route does not set one. */
  function PostStep(t: Tables, header: Option<string>, tokens: Middleware.Tokens, b: Body, defaultStatus: Option<string>, now: int)
    : (s: Step<Opportunity>)
    ensures s.response.Failure? ==> s.after == t
    ensures OrgGate.Resolve(t, header, tokens).Err? ==>
              s.response == OrgGate.Refusal(OrgGate.Resolve(t, header, tokens).error, "Failed to create volunteer opportunity")
    ensures OrgGate.Resolve(t, header, tokens).Ok? && !Complete(b) ==>
              s.response == Failure(400, "Title, description, date, location, and required skills are required")
    ensures s.response.Success? <==> OrgGate.Resolve(t, header, tokens).Ok? && Complete(b)
    ensures s.response.Success? ==>
              var p := s.response.value;
              && s.response.status == 200
              && p.organizationId == OrgGate.Resolve(t, header, tokens).value.organization.id
              && p.title == b.title && p.description == b.description && p.date == b.date && p.location == b.location
              && p.requiredSkills == AsList(b.requiredSkills)
              && p.id == IdFor(t.nextId) && p.status == defaultStatus && p.createdAt == now
              && s.after == t.(opportunities := t.opportunities + [p], nextId := t.nextId + 1)
  {
    match OrgGate.Resolve(t, header, tokens)
    case Err(d) => Step(OrgGate.Refusal(d, "Failed to create volunteer opportunity"), t)
    case Ok(caller) =>
      if !Complete(b) then
        Step(Failure(400, "Title, description, date, location, and required skills are required"), t)
      else
        var p := Opportunity(IdFor(t.nextId), b.title, b.description, b.date, b.location, AsList(b.requiredSkills),
                             defaultStatus, caller.organization.id, now);
        Step(Success(200, p), t.(opportunities := t.opportunities + [p], nextId := t.nextId + 1))
  }

  /** An empty skills array passes the check and is stored as it is. */
  lemma EmptySkillArrayAccepted(t: Tables, header: Option<string>, tokens: Middleware.Tokens, b: Body,
                                defaultStatus: Option<string>, now: int)
    requires OrgGate.Resolve(t, header, tokens).Ok?
    requires b.title != "" && b.description != "" && b.date != "" && b.location != "" && b.requiredSkills == Many([])
    ensures PostStep(t, header, tokens, b, defaultStatus, now).response.Success?
    ensures PostStep(t, header, tokens, b, defaultStatus, now).response.value.requiredSkills == []
  {
  }

  lemma {:induction false} PostKeepsInvariants(t: Tables, header: Option<string>, tokens: Middleware.Tokens, b: Body,
                                               defaultStatus: Option<string>, now: int)
    requires WellFormed(t)
    ensures WellFormed(PostStep(t, header, tokens, b, defaultStatus, now).after)
  {
    var s := PostStep(t, header, tokens, b, defaultStatus, now);
    if s.response.Success? {
      var p := s.response.value;
      var org := OrgGate.Resolve(t, header, tokens).value.organization;
      var i :| 0 <= i < |t.organizations| && t.organizations[i] == org;
      assert OrgId(t.organizations[i]) in Keys(t.organizations, OrgId);
      TableAppend(t.opportunities, OpportunityId, p, t.nextId);
      AllTablesGrow(t, t.nextId + 1);
      ReferencesAppend(t.opportunities, OpportunityOrg, p, Keys(t.organizations, OrgId));
      ReferencesWiden(t.applications, ApplicationOpportunity, Keys(t.opportunities, OpportunityId),
                      Keys(s.after.opportunities, OpportunityId));
    }
  }

  /** A new opportunity appears in the next listing for the same caller, with
      no applications yet. */
  lemma {:induction false} ListedAfterPost(t: Tables, header: Option<string>, tokens: Middleware.Tokens, b: Body,
                                           defaultStatus: Option<string>, now: int)
    requires WellFormed(t)
    requires PostStep(t, header, tokens, b, defaultStatus, now).response.Success?
    ensures var s := PostStep(t, header, tokens, b, defaultStatus, now);
            var g := Get(s.after, header, tokens);
            g.Success? && Listed(s.response.value, []) in g.value
  {
    var s := PostStep(t, header, tokens, b, defaultStatus, now);
    var p := s.response.value;
    var orgId := OrgGate.Resolve(t, header, tokens).value.organization.id;
    assert s.after.organizations == t.organizations;
    assert OrgGate.Resolve(s.after, header, tokens) == OrgGate.Resolve(t, header, tokens);
    var l := Listing(s.after, orgId);
    assert p in s.after.opportunities;
    var ks := Keys(l, ListedOpportunity);
    assert p in ks;
    var i :| 0 <= i < |ks| && ks[i] == p;
    NoApplicationsYet(t, p);
    assert l[i] == Listed(p, []);
  }

  /** No application refers to an identifier not yet handed out. */
  lemma {:induction false} NoApplicationsYet(t: Tables, p: Opportunity)
    requires WellFormed(t) && p.id == IdFor(t.nextId)
    ensures ApplicationsOf(t.(opportunities := t.opportunities + [p], nextId := t.nextId + 1), p) == []
  {
    FreshUnreferenced(t.applications, ApplicationOpportunity, t.opportunities, OpportunityId, t.nextId);
    forall a | a in t.applications
      ensures a.opportunityId != p.id
    {
      var k :| 0 <= k < |t.applications| && t.applications[k] == a;
      assert ApplicationOpportunity(t.applications[k]) != IdFor(t.nextId);
    }
    NoneSummarised(t.applications, p.id);
  }

  lemma {:induction false} NoneSummarised(s: seq<Application>, opportunityId: Id)
    requires forall a :: a in s ==> a.opportunityId != opportunityId
    ensures Summaries(s, opportunityId) == []
  {
    if s != [] {
      assert s[0] in s;
      assert forall a :: a in s[1..] ==> a in s;
      NoneSummarised(s[1..], opportunityId);
    }
  }

  method Post(db: Database, header: Option<string>, tokens: Middleware.Tokens, b: Body, defaultStatus: Option<string>, now: int)
    returns (r: Response<Opportunity>)
    requires db.Valid()
    modifies db
    ensures db.Valid()
    ensures Step(r, db.Snapshot()) == PostStep(old(db.Snapshot()), header, tokens, b, defaultStatus, now)
  {
    PostKeepsInvariants(db.Snapshot(), header, tokens, b, defaultStatus, now);
    var gate := OrgGate.Resolve(db.Snapshot(), header, tokens);
    if gate.Err? {
      return OrgGate.Refusal(gate.error, "Failed to create volunteer opportunity");
    }
    if !Complete(b) {
      return Failure(400, "Title, description, date, location, and required skills are required");
    }
    var p := Opportunity(IdFor(db.nextId), b.title, b.description, b.date, b.location, AsList(b.requiredSkills),
                         defaultStatus, gate.value.organization.id, now);
    db.AddOpportunity(p);
    r := Success(200, p);
  }
}
