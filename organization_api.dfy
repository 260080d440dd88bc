/** /api/organization (app/api/organization/route.ts): the caller's own
    organisation. POST creates it (at most one per user), GET returns it, PUT
    rewrites its name, description and website. POST and GET use the bearer
    preamble; PUT uses a local `verifyToken` that takes the header's second
    word whatever the first one is. Every failure inside the `try` becomes a
    500 with the route's fixed message. */
module OrganizationApi {
  import opened Common
  import opened Store
  import Middleware
  import OrgGate

  /** `website` is `None` when the body leaves it out. */
  datatype Body = Body(name: string, description: string, website: Option<string>)

  /** Each user owns at most one organisation. */
  predicate OneEach(t: Tables)
  {
    NoDuplicates(Keys(t.organizations, OrgOwner))
  }

  // ---------------------------------------------------------------------------
  // POST

  function CreateStep(t: Tables, header: Option<string>, tokens: Middleware.Tokens, b: Body, now: int): (s: Step<Organization>)
    ensures s.response.Failure? ==> s.after == t
    ensures OrgGate.Decode(header, tokens).Err? ==>
              s.response == OrgGate.Refusal(OrgGate.Decode(header, tokens).error, "Failed to create organization")
    ensures OrgGate.Decode(header, tokens).Ok? && (b.name == "" || b.description == "") ==>
              s.response == Failure(400, "Name and description are required")
    ensures OrgGate.Decode(header, tokens).Ok? && b.name != "" && b.description != ""
            && OrgGate.Decode(header, tokens).value.userId in Keys(t.organizations, OrgOwner) ==>
              s.response == Failure(400, "User already has an organization")
    ensures OrgGate.Decode(header, tokens).Ok? && b.name != "" && b.description != ""
            && OrgGate.Decode(header, tokens).value.userId !in Keys(t.organizations, OrgOwner)
            && OrgGate.Decode(header, tokens).value.userId !in Keys(t.users, UserId) ==>
              s.response == Failure(500, "Failed to create organization")
    ensures s.response.Success? <==>
              && OrgGate.Decode(header, tokens).Ok? && b.name != "" && b.description != ""
              && OrgGate.Decode(header, tokens).value.userId !in Keys(t.organizations, OrgOwner)
              && OrgGate.Decode(header, tokens).value.userId in Keys(t.users, UserId)
    ensures s.response.Success? ==>
              var p := OrgGate.Decode(header, tokens).value;
              && s.response.status == 200
              && p.userId !in Keys(t.organizations, OrgOwner) && p.userId in Keys(t.users, UserId)
              && s.response.value == Organization(IdFor(t.nextId), b.name, b.description, b.website, None, p.userId, None, now)
              && s.after == t.(organizations := t.organizations + [s.response.value], nextId := t.nextId + 1)
  {
    match OrgGate.Decode(header, tokens)
    case Err(d) => Step(OrgGate.Refusal(d, "Failed to create organization"), t)
    case Ok(p) =>
      FindInKeys(t.organizations, OrgOwner, p.userId);
      FindInKeys(t.users, UserId, p.userId);
      if b.name == "" || b.description == "" then Step(Failure(400, "Name and description are required"), t)
      else if Find(t.organizations, OrgOwner, p.userId).Some? then Step(Failure(400, "User already has an organization"), t)
      else if Find(t.users, UserId, p.userId).None? then
        // the foreign key on userId makes the insert throw
        Step(Failure(500, "Failed to create organization"), t)
      else
        var o := Organization(IdFor(t.nextId), b.name, b.description, b.website, None, p.userId, None, now);
        Step(Success(200, o), t.(organizations := t.organizations + [o], nextId := t.nextId + 1))
  }

  /** Creation keeps the store's constraints and keeps each user at one
      organisation at most. */
  lemma {:induction false} CreateKeepsInvariants(t: Tables, header: Option<string>, tokens: Middleware.Tokens, b: Body, now: int)
    requires WellFormed(t)
    ensures WellFormed(CreateStep(t, header, tokens, b, now).after)
    ensures OneEach(t) ==> OneEach(CreateStep(t, header, tokens, b, now).after)
  {
    var s := CreateStep(t, header, tokens, b, now);
    if s.response.Success? {
      var o := s.response.value;
      TableAppend(t.organizations, OrgId, o, t.nextId);
      AllTablesGrow(t, t.nextId + 1);
      ReferencesAppend(t.organizations, OrgOwner, o, Keys(t.users, UserId));
      var ids := Keys(s.after.organizations, OrgId);
      ReferencesWiden(t.campaigns, CampaignOrg, Keys(t.organizations, OrgId), ids);
      ReferencesWiden(t.opportunities, OpportunityOrg, Keys(t.organizations, OrgId), ids);
      KeysAppend(t.organizations, OrgOwner, o);
      if OneEach(t) {
        NoDuplicatesAppend(Keys(t.organizations, OrgOwner), o.userId);
      }
    }
  }

  /** The route does not look at the caller's role: a DONOR who creates an
      organisation ends up owning one, so ownership no longer follows the
      ORGANIZATION role. */
  lemma {:induction false} CreateByOtherRoleBreaksRoleLink(t: Tables, header: Option<string>, tokens: Middleware.Tokens,
                                                           b: Body, now: int, i: nat)
    requires WellFormed(t)
    requires CreateStep(t, header, tokens, b, now).response.Success?
    requires i < |t.users| && t.users[i].id == OrgGate.Decode(header, tokens).value.userId
    requires t.users[i].role != "ORGANIZATION"
    ensures !OrgRoleConsistent(CreateStep(t, header, tokens, b, now).after)
  {
    var s := CreateStep(t, header, tokens, b, now);
    KeysAppend(t.organizations, OrgOwner, s.response.value);
    assert Keys(s.after.organizations, OrgOwner)[|t.organizations|] == t.users[i].id;
    assert s.after.users[i] == t.users[i];
  }

  method Post(db: Database, header: Option<string>, tokens: Middleware.Tokens, b: Body, now: int)
    returns (r: Response<Organization>)
    requires db.Valid()
    modifies db
    ensures db.Valid()
    ensures Step(r, db.Snapshot()) == CreateStep(old(db.Snapshot()), header, tokens, b, now)
  {
    ghost var s := CreateStep(db.Snapshot(), header, tokens, b, now);
    CreateKeepsInvariants(db.Snapshot(), header, tokens, b, now);
    var decoded := OrgGate.Decode(header, tokens);
    if decoded.Err? {
      return OrgGate.Refusal(decoded.error, "Failed to create organization");
    }
    var p := decoded.value;
    if b.name == "" || b.description == "" {
      return Failure(400, "Name and description are required");
    }
    var existing := Find(db.organizations, OrgOwner, p.userId);
    if existing.Some? {
      return Failure(400, "User already has an organization");
    }
    var owner := Find(db.users, UserId, p.userId);
    if owner.None? {
      return Failure(500, "Failed to create organization");
    }
    var o := Organization(IdFor(db.nextId), b.name, b.description, b.website, None, p.userId, None, now);
    assert s == Step(Success(200, o), db.Snapshot().(organizations := db.organizations + [o], nextId := db.nextId + 1));
    db.AddOrganization(o);
    r := Success(200, o);
    assert db.Snapshot() == s.after;
  }

  // ---------------------------------------------------------------------------
  // GET

  function Get(t: Tables, header: Option<string>, tokens: Middleware.Tokens): (r: Response<Organization>)
    ensures OrgGate.Resolve(t, header, tokens).Err? ==>
              r == OrgGate.Refusal(OrgGate.Resolve(t, header, tokens).error, "Failed to fetch organization")
    ensures r.Success? <==> OrgGate.Resolve(t, header, tokens).Ok?
    ensures r.Success? ==> r.value == OrgGate.Resolve(t, header, tokens).value.organization
    ensures r.Success? ==>
              && r.status == 200
              && r.value in t.organizations
              && r.value.userId == OrgGate.Decode(header, tokens).value.userId
  {
    match OrgGate.Resolve(t, header, tokens)
    case Err(d) => OrgGate.Refusal(d, "Failed to fetch organization")
    case Ok(caller) => Success(200, caller.organization)
  }

  /** What POST creates is what GET then returns to the same caller. */
  lemma {:induction false} GetAfterCreate(t: Tables, header: Option<string>, tokens: Middleware.Tokens, b: Body, now: int)
    requires CreateStep(t, header, tokens, b, now).response.Success?
    ensures var s := CreateStep(t, header, tokens, b, now);
            Get(s.after, header, tokens) == Success(200, s.response.value)
  {
    var s := CreateStep(t, header, tokens, b, now);
    var o := s.response.value;
    var os := s.after.organizations;
    forall j | 0 <= j < |t.organizations|
      ensures OrgOwner(os[j]) != o.userId
    {
      assert Keys(t.organizations, OrgOwner)[j] == os[j].userId;
    }
    assert OrgOwner(os[|t.organizations|]) == o.userId;
    assert Find(os, OrgOwner, o.userId) == Some(|t.organizations|);
  }

  // ---------------------------------------------------------------------------
  // PUT

  /** The route's own `verifyToken`: `header?.split(' ')[1]`, refused when
      absent or empty, then checked by jsonwebtoken. No scheme is required. */
  function LocalVerify(header: Option<string>, tokens: Middleware.Tokens): (r: Option<Middleware.Payload>)
    ensures r.Some? <==> header.Some? && exists w :: Middleware.SecondWord(header.value) == Some(w) && w != "" && w in tokens
  {
    if header.None? then None
    else
      match Middleware.SecondWord(header.value)
      case None => None
      case Some(w) => if w == "" || w !in tokens then None else Some(tokens[w])
  }

  /** When no token is the empty string, the local check admits exactly what
      the shared gate with no role list admits, with the same payload. */
  lemma LocalVerifyAgrees(header: Option<string>, tokens: Middleware.Tokens)
    requires "" !in tokens
    ensures LocalVerify(header, tokens).Some? <==> Middleware.VerifyToken(header, [], tokens).Ok?
    ensures LocalVerify(header, tokens).Some? ==> LocalVerify(header, tokens).value == Middleware.VerifyToken(header, [], tokens).value
  {
  }

  /** A header with another scheme ("Basic") passes the local check, while the
      bearer test of POST and GET refuses it. */
  lemma OtherSchemeAccepted(token: string, tokens: Middleware.Tokens)
    requires token in tokens && token != "" && ' ' !in token
    ensures LocalVerify(Some("Basic " + token), tokens) == Some(tokens[token])
    ensures OrgGate.Decode(Some("Basic " + token), tokens) == Err(OrgGate.Unauthorized)
  {
    Middleware.SecondWordAfter("Basic", token);
    SplitNoSeparator(token, ' ');
    assert "Basic " + token == "Basic" + " " + token;
    assert ("Basic " + token)[0] == 'B' && ("Basic " + token)[1] == 'a';
  }

  /** The organisation after PUT: name and description replaced, website
      replaced when supplied, every other field kept. */
  function Edited(o: Organization, b: Body): (e: Organization)
    ensures e.id == o.id && e.userId == o.userId && e.status == o.status && e.logo == o.logo && e.createdAt == o.createdAt
    ensures e.name == b.name && e.description == b.description
    ensures e.website == (if b.website.Some? then b.website else o.website)
  {
    o.(name := b.name, description := b.description, website := if b.website.Some? then b.website else o.website)
  }

  function UpdateStep(t: Tables, header: Option<string>, tokens: Middleware.Tokens, b: Body): (s: Step<Organization>)
    ensures s.response.Failure? ==> s.after == t
    ensures LocalVerify(header, tokens).None? ==> s.response == Failure(500, "Error updating organization")
    ensures LocalVerify(header, tokens).Some? && (b.name == "" || b.description == "") ==>
              s.response == Failure(400, "Name and description are required")
    ensures LocalVerify(header, tokens).Some? && b.name != "" && b.description != ""
            && LocalVerify(header, tokens).value.userId !in Keys(t.organizations, OrgOwner) ==>
              s.response == Failure(404, "Organization not found")
    ensures s.response.Success? <==>
              && LocalVerify(header, tokens).Some? && b.name != "" && b.description != ""
              && LocalVerify(header, tokens).value.userId in Keys(t.organizations, OrgOwner)
    ensures s.response.Success? ==>
              && s.response.status == 200
              && LocalVerify(header, tokens).Some?
              && Find(t.organizations, OrgOwner, LocalVerify(header, tokens).value.userId).Some?
              && var i := Find(t.organizations, OrgOwner, LocalVerify(header, tokens).value.userId).value;
                 && s.response.value == Edited(t.organizations[i], b)
                 && s.after == t.(organizations := t.organizations[i := Edited(t.organizations[i], b)])
  {
    match LocalVerify(header, tokens)
    case None => Step(Failure(500, "Error updating organization"), t)
    case Some(p) =>
      FindInKeys(t.organizations, OrgOwner, p.userId);
      if b.name == "" || b.description == "" then Step(Failure(400, "Name and description are required"), t)
      else
        match Find(t.organizations, OrgOwner, p.userId)
        case None => Step(Failure(404, "Organization not found"), t)
        case Some(i) =>
          var e := Edited(t.organizations[i], b);
          Step(Success(200, e), t.(organizations := t.organizations[i := e]))
  }

  /** PUT keeps the store's constraints, one organisation per user, and the
      link between ownership and role (owners do not change). */
  lemma {:induction false} UpdateKeepsInvariants(t: Tables, header: Option<string>, tokens: Middleware.Tokens, b: Body)
    requires WellFormed(t)
    ensures WellFormed(UpdateStep(t, header, tokens, b).after)
    ensures OneEach(t) ==> OneEach(UpdateStep(t, header, tokens, b).after)
    ensures OrgRoleConsistent(t) ==> OrgRoleConsistent(UpdateStep(t, header, tokens, b).after)
  {
    var s := UpdateStep(t, header, tokens, b);
    if s.response.Success? {
      var i := Find(t.organizations, OrgOwner, LocalVerify(header, tokens).value.userId).value;
      var e := Edited(t.organizations[i], b);
      TableReplace(t.organizations, OrgId, i, e, t.nextId);
      assert Keys(t.organizations[i := e], OrgOwner) == Keys(t.organizations, OrgOwner);
      var os := t.organizations[i := e];
      assert OrgOwner(t.organizations[i]) in Keys(t.users, UserId);
      forall j | 0 <= j < |os|
        ensures OrgOwner(os[j]) in Keys(t.users, UserId)
      {
        if j != i {
          assert os[j] == t.organizations[j];
        }
      }
    }
  }

  /** After a successful PUT, GET returns the edited organisation. */
  lemma {:induction false} GetAfterUpdate(t: Tables, header: Option<string>, tokens: Middleware.Tokens, b: Body)
    requires UpdateStep(t, header, tokens, b).response.Success?
    requires OrgGate.Decode(header, tokens).Ok?
    requires OrgGate.Decode(header, tokens).value == LocalVerify(header, tokens).value
    ensures Get(UpdateStep(t, header, tokens, b).after, header, tokens) == UpdateStep(t, header, tokens, b).response
  {
    var p := LocalVerify(header, tokens).value;
    var i := Find(t.organizations, OrgOwner, p.userId).value;
    var e := Edited(t.organizations[i], b);
    var os := t.organizations[i := e];
    assert Keys(os, OrgOwner) == Keys(t.organizations, OrgOwner);
    FindByKeys(t.organizations, os, OrgOwner, p.userId);
  }

  method Put(db: Database, header: Option<string>, tokens: Middleware.Tokens, b: Body)
    returns (r: Response<Organization>)
    requires db.Valid()
    modifies db
    ensures db.Valid()
    ensures Step(r, db.Snapshot()) == UpdateStep(old(db.Snapshot()), header, tokens, b)
  {
    UpdateKeepsInvariants(db.Snapshot(), header, tokens, b);
    var payload := LocalVerify(header, tokens);
    if payload.None? {
      return Failure(500, "Error updating organization");
    }
    if b.name == "" || b.description == "" {
      return Failure(400, "Name and description are required");
    }
    var found := Find(db.organizations, OrgOwner, payload.value.userId);
    if found.None? {
      return Failure(404, "Organization not found");
    }
    var e := Edited(db.organizations[found.value], b);
    db.SetOrganization(found.value, e);
    r := Success(200, e);
  }
}
