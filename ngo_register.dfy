/** POST /api/ngo/register (app/api/ngo/register/route.ts): presence and
    duplicate-address checks, then one transaction creating an ORGANIZATION
    user and the organisation it owns. The body's other profile fields (phone,
    address, mission, ...) are read but never stored, so they are not modelled. */
module NgoRegister {
  import opened Common
  import opened Store
  import AuthRegister

  /** `website` is `None` when the body leaves it out. */
  datatype Body = Body(name: string, email: string, password: string, description: string, website: Option<string>)

  datatype Registered = Registered(message: string, organization: Organization)

  predicate MissingField(b: Body)
  {
    b.name == "" || b.email == "" || b.password == "" || b.description == ""
  }

  function Handle(t: Tables, b: Body, hashed: string, now: int): (s: Step<Registered>)
    ensures MissingField(b) ==> s == Step(Failure(400, "Missing required fields"), t)
    ensures !MissingField(b) && b.email in Keys(t.users, UserEmail) ==>
              s == Step(Failure(400, "Email already registered"), t)
    ensures s.response.Failure? ==> s.response.status == 400 && s.after == t
    ensures s.response.Success? <==> !MissingField(b) && b.email !in Keys(t.users, UserEmail)
    ensures s.response.Success? ==>
              var o := s.response.value.organization;
              && s.response == Success(200, Registered("NGO registered successfully", o))
              && s.after.users == t.users + [User(IdFor(t.nextId), b.email, b.name, hashed, "ORGANIZATION")]
              && s.after.organizations == t.organizations + [o]
              && o.userId == IdFor(t.nextId) && o.status == None
              && o.name == b.name && o.description == b.description && o.website == b.website
              && s.after.campaigns == t.campaigns && s.after.opportunities == t.opportunities
              && s.after.applications == t.applications && s.after.donations == t.donations
  {
    if MissingField(b) then Step(Failure(400, "Missing required fields"), t)
    else if Find(t.users, UserEmail, b.email).Some? then Step(Failure(400, "Email already registered"), t)
    else
      var user := User(IdFor(t.nextId), b.email, b.name, hashed, "ORGANIZATION");
      var org := Organization(IdFor(t.nextId + 1), b.name, b.description, b.website, None, user.id, None, now);
      Step(Success(200, Registered("NGO registered successfully", org)),
           t.(users := t.users + [user], organizations := t.organizations + [org], nextId := t.nextId + 2))
  }

  /** The registration keeps the store's constraints and keeps ownership in
      step with the ORGANIZATION role. */
  lemma {:induction false} HandleKeepsInvariants(t: Tables, b: Body, hashed: string, now: int)
    requires WellFormed(t)
    ensures WellFormed(Handle(t, b, hashed, now).after)
    ensures OrgRoleConsistent(t) ==> OrgRoleConsistent(Handle(t, b, hashed, now).after)
  {
    if Handle(t, b, hashed, now).response.Success? {
      var user := User(IdFor(t.nextId), b.email, b.name, hashed, "ORGANIZATION");
      var org := Organization(IdFor(t.nextId + 1), b.name, b.description, b.website, None, user.id, None, now);
      AddUserWithOrganization(t, user, org);
    }
  }

  /** Unlike the general registration route, this one checks neither the
      e-mail format nor the password length: an address without '@' and a
      one-character password are accepted here and refused there. */
  lemma {:induction false} NoFormatChecks(t: Tables, hashed: string, now: int)
    requires "x" !in Keys(t.users, UserEmail)
    ensures Handle(t, Body("n", "x", "p", "d", None), hashed, now).response.Success?
    ensures AuthRegister.Handle(t, AuthRegister.Body("x", "p", "n", "ORGANIZATION", "d", ""), hashed, now).response
              == Failure(400, "Invalid email format")
  {
    AuthRegister.EmailPatternShape("x");
  }

  /** POST /api/ngo/register on the store. */
  method Post(db: Database, b: Body, hashed: string, now: int) returns (r: Response<Registered>)
    requires db.Valid()
    modifies db
    ensures db.Valid()
    ensures Step(r, db.Snapshot()) == Handle(old(db.Snapshot()), b, hashed, now)
  {
    ghost var before := db.Snapshot();
    HandleKeepsInvariants(before, b, hashed, now);
    if MissingField(b) {
      return Failure(400, "Missing required fields");
    }
    var existing := Find(db.users, UserEmail, b.email);
    if existing.Some? {
      return Failure(400, "Email already registered");
    }
    var user := User(IdFor(db.nextId), b.email, b.name, hashed, "ORGANIZATION");
    db.AddUser(user);
    var org := Organization(IdFor(db.nextId), b.name, b.description, b.website, None, user.id, None, now);
    db.AddOrganization(org);
    r := Success(200, Registered("NGO registered successfully", org));
    assert db.Snapshot() == Handle(before, b, hashed, now).after;
  }
}
