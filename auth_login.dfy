/** POST /api/auth/login (app/api/auth/login/route.ts): a read-only check of
    the credentials against the user table. bcrypt's `compare` is a parameter;
    the handler writes nothing, so its model returns only the answer. */
module AuthLogin {
  import opened Common
  import opened Store
  import Middleware
  import AuthRegister

  datatype Body = Body(email: string, password: string)

  datatype LoggedIn = LoggedIn(user: PublicUser, token: Middleware.Payload)

  /** `organizationId` for the token: the id of the first organisation the
      user owns, for ORGANIZATION users only (`org?.id || null`). */
  function OrganizationOf(t: Tables, u: User): (r: Option<Id>)
    ensures r.Some? ==> u.role == "ORGANIZATION"
    ensures r.Some? ==> exists i :: 0 <= i < |t.organizations| && t.organizations[i].userId == u.id && t.organizations[i].id == r.value
  {
    if u.role != "ORGANIZATION" then None
    else
      match Find(t.organizations, OrgOwner, u.id)
      case None => None
      case Some(j) => if t.organizations[j].id == "" then None else Some(t.organizations[j].id)
  }

  /** Whether the e-mail names a user whose stored hash the password matches. */
  predicate Authentic(t: Tables, b: Body, compare: (string, string) -> bool)
  {
    exists i :: 0 <= i < |t.users| && t.users[i].email == b.email && compare(b.password, t.users[i].password)
  }

  function Handle(t: Tables, b: Body, compare: (string, string) -> bool): (r: Response<LoggedIn>)
    requires NoDuplicates(Keys(t.users, UserEmail))
    ensures b.email == "" || b.password == "" ==> r == Failure(400, "Email and password are required")
    ensures r.Failure? && b.email != "" && b.password != "" ==> r == Failure(401, "Invalid credentials")
    ensures r.Success? <==> b.email != "" && b.password != "" && Authentic(t, b, compare)
    ensures r.Success? ==>
              && r.status == 200
              && r.value.user.email == b.email
              && r.value.token == Middleware.Payload(r.value.user.id, r.value.user.email, r.value.user.role, r.value.token.organizationId)
              && (exists i :: 0 <= i < |t.users| && Public(t.users[i]) == r.value.user
                    && r.value.token.organizationId == OrganizationOf(t, t.users[i]))
  {
    if b.email == "" || b.password == "" then Failure(400, "Email and password are required")
    else
      match Find(t.users, UserEmail, b.email)
      case None => Failure(401, "Invalid credentials")
      case Some(i) =>
        var u := t.users[i];
        if !compare(b.password, u.password) then
          assert !Authentic(t, b, compare) by {
            forall j | 0 <= j < |t.users| && t.users[j].email == b.email
              ensures j == i
            {
              assert Keys(t.users, UserEmail)[j] == Keys(t.users, UserEmail)[i];
            }
          }
          Failure(401, "Invalid credentials")
        else
          Success(200, LoggedIn(Public(u), Middleware.Payload(u.id, u.email, u.role, OrganizationOf(t, u))))
  }

  /** In a store where ownership follows the role, every ORGANIZATION user who
      logs in receives a token naming an organisation they own. */
  lemma {:induction false} OrganizationUsersGetTheirOrganization(t: Tables, b: Body, compare: (string, string) -> bool)
    requires WellFormed(t) && OrgRoleConsistent(t)
    requires Handle(t, b, compare).Success?
    ensures var r := Handle(t, b, compare);
            r.value.user.role == "ORGANIZATION" <==> r.value.token.organizationId.Some?
  {
    var i :| 0 <= i < |t.users| && Public(t.users[i]) == Handle(t, b, compare).value.user
           && Handle(t, b, compare).value.token.organizationId == OrganizationOf(t, t.users[i]);
    var u := t.users[i];
    if u.role == "ORGANIZATION" {
      assert u.id in Keys(t.organizations, OrgOwner);
      FindInKeys(t.organizations, OrgOwner, u.id);
      var k := Find(t.organizations, OrgOwner, u.id).value;
      IssuedNotEmpty(t.organizations[k].id, t.nextId);
    }
  }

  /** A user whose e-mail and password check out is logged in as themself. */
  lemma LoginFinds(t: Tables, b: Body, compare: (string, string) -> bool, i: nat)
    requires NoDuplicates(Keys(t.users, UserEmail))
    requires b.email != "" && b.password != ""
    requires i < |t.users| && t.users[i].email == b.email && compare(b.password, t.users[i].password)
    ensures var u := t.users[i];
            Handle(t, b, compare) == Success(200, LoggedIn(Public(u), Middleware.Payload(u.id, u.email, u.role, OrganizationOf(t, u))))
  {
    FindUnique(t.users, UserEmail, b.email, i);
  }

  /** A user who has just registered can log in with the same password and
      receives the same user and the same token claims the registration
      returned. */
  lemma {:induction false} LoginAfterRegister(t: Tables, rb: AuthRegister.Body, hashed: string, now: int,
                                               compare: (string, string) -> bool)
    requires WellFormed(t)
    requires AuthRegister.Handle(t, rb, hashed, now).response.Success?
    requires compare(rb.password, hashed)
    ensures var s := AuthRegister.Handle(t, rb, hashed, now);
            NoDuplicates(Keys(s.after.users, UserEmail)) &&
            Handle(s.after, Body(rb.email, rb.password), compare)
              == Success(200, LoggedIn(s.response.value.user, s.response.value.token))
  {
    var s := AuthRegister.Handle(t, rb, hashed, now);
    AuthRegister.HandleKeepsInvariants(t, rb, hashed, now);
    AuthRegister.Accepted(t, rb, hashed, now);
    var t' := s.after;
    var n := |t.users|;
    var u := User(IdFor(t.nextId), rb.email, rb.name, hashed, rb.role);
    assert t'.users[n] == u;
    LoginFinds(t', Body(rb.email, rb.password), compare, n);
    if rb.role == "ORGANIZATION" {
      var o := AuthRegister.NewOrganization(IdFor(t.nextId + 1), u.id, rb, now);
      NewOwnerFound(t, o);
      assert OrganizationOf(t', u) == Some(o.id);
    } else {
      assert OrganizationOf(t', u) == None;
    }
  }

  /** An organisation appended for a user who owned none is the one found for them. */
  lemma NewOwnerFound(t: Tables, o: Organization)
    requires WellFormed(t) && o.userId == IdFor(t.nextId) && o.id != ""
    ensures Find(t.organizations + [o], OrgOwner, o.userId) == Some(|t.organizations|)
  {
    NextIdUnused(t);
    var os := t.organizations + [o];
    forall j | 0 <= j < |t.organizations|
      ensures OrgOwner(os[j]) != o.userId
    {
      assert Keys(t.organizations, OrgOwner)[j] == os[j].userId;
    }
    assert OrgOwner(os[|t.organizations|]) == o.userId;
  }
}
