/** POST /api/auth/register (app/api/auth/register/route.ts): an ordered chain
    of validations, then one transaction that creates the user and, for the
    ORGANIZATION role, a PENDING organisation owned by that user. Body fields
    that are absent or empty are both the empty string here: every test the
    handler makes treats them alike. */
module AuthRegister {
  import opened Common
  import opened Store
  import Middleware

  datatype Body = Body(
    email: string, password: string, name: string, role: string,
    description: string, website: string)

  /** The 201 answer: the user without its password, the organisation if one
      was created, and the claims of the signed token. */
  datatype Registered = Registered(user: PublicUser, organization: Option<Organization>, token: Middleware.Payload)

  const ValidRoles: seq<string> := ["DONOR", "ORGANIZATION", "VOLUNTEER", "ADMIN"]

  // ---------------------------------------------------------------------------
  // The e-mail pattern /^[^\s@]+@[^\s@]+\.[^\s@]+$/

  /** Matched by `[^\s@]+`'s character class, repeated. */
  predicate Plain(x: string)
  {
    forall k :: 0 <= k < |x| ==> !IsSpace(x[k]) && x[k] != '@'
  }

  /** The regular expression read literally: three non-empty plain runs
      separated by '@' and by '.'. */
  predicate MatchesEmailPattern(s: string)
  {
    exists i, j :: 0 < i && i + 1 < j && j + 1 < |s| && s[i] == '@' && s[j] == '.'
      && Plain(s[..i]) && Plain(s[i + 1..j]) && Plain(s[j + 1..])
  }

  /** The same condition described in words: no white space, exactly one '@'
      with something before it, and a '.' in the domain that has at least one
      character on each side. */
  predicate EmailShape(s: string)
  {
    NoSpace(s) &&
    exists i :: 0 < i < |s| && s[i] == '@' && '@' !in s[..i] && '@' !in s[i + 1..] && DotInside(s[i + 1..])
  }

  predicate DotInside(d: string)
  {
    exists j :: 0 < j < |d| - 1 && d[j] == '.'
  }

  lemma EmailPatternShape(s: string)
    ensures MatchesEmailPattern(s) <==> EmailShape(s)
  {
    if MatchesEmailPattern(s) {
      PatternGivesShape(s);
    }
    if EmailShape(s) {
      ShapeGivesPattern(s);
    }
  }

  lemma {:induction false} PatternGivesShape(s: string)
    requires MatchesEmailPattern(s)
    ensures EmailShape(s)
  {
    var i, j :| 0 < i && i + 1 < j && j + 1 < |s| && s[i] == '@' && s[j] == '.'
      && Plain(s[..i]) && Plain(s[i + 1..j]) && Plain(s[j + 1..]);
    var x, y, z := s[..i], s[i + 1..j], s[j + 1..];
    forall k | 0 <= k < |s|
      ensures !IsSpace(s[k]) && (k != i ==> s[k] != '@')
    {
      if k < i {
        assert s[k] == x[k];
      } else if i < k < j {
        assert s[k] == y[k - i - 1];
      } else if j < k {
        assert s[k] == z[k - j - 1];
      }
    }
    var d := s[i + 1..];
    assert d[j - i - 1] == '.';
    assert !('@' in x) by {
      forall k | 0 <= k < |x| ensures x[k] != '@' { assert x[k] == s[k]; }
    }
    assert !('@' in d) by {
      forall k | 0 <= k < |d| ensures d[k] != '@' { assert d[k] == s[k + i + 1]; }
    }
  }

  lemma {:induction false} ShapeGivesPattern(s: string)
    requires EmailShape(s)
    ensures MatchesEmailPattern(s)
  {
    var i :| 0 < i < |s| && s[i] == '@' && '@' !in s[..i] && '@' !in s[i + 1..] && DotInside(s[i + 1..]);
    var d := s[i + 1..];
    var j' :| 0 < j' < |d| - 1 && d[j'] == '.';
    var j := i + 1 + j';
    var x, y, z := s[..i], s[i + 1..j], s[j + 1..];
    assert s[j] == '.';
    assert Plain(x) by {
      forall k | 0 <= k < |x| ensures !IsSpace(x[k]) && x[k] != '@' {
        assert x[k] == s[k];
        assert x[k] in x;
      }
    }
    assert Plain(y) by {
      forall k | 0 <= k < |y| ensures !IsSpace(y[k]) && y[k] != '@' {
        assert y[k] == d[k] == s[k + i + 1];
        assert d[k] in d;
      }
    }
    assert Plain(z) by {
      forall k | 0 <= k < |z| ensures !IsSpace(z[k]) && z[k] != '@' {
        assert z[k] == d[k + j' + 1] == s[k + j + 1];
        assert d[k + j' + 1] in d;
      }
    }
    assert 0 < i && i + 1 < j && j + 1 < |s| && s[i] == '@' && s[j] == '.';
  }

  // ---------------------------------------------------------------------------
  // The handler

  /** Which body fields are missing or empty (`!email || !password || !name || !role`). */
  predicate MissingField(b: Body)
  {
    b.email == "" || b.password == "" || b.name == "" || b.role == ""
  }

  /** The token and the organisations table after a successful registration. */
  lemma Accepted(t: Tables, b: Body, hashed: string, now: int)
    requires Handle(t, b, hashed, now).response.Success?
    ensures var s := Handle(t, b, hashed, now);
            var user := User(IdFor(t.nextId), b.email, b.name, hashed, b.role);
            var org := NewOrganization(IdFor(t.nextId + 1), user.id, b, now);
            && s.response.value.token == Middleware.Payload(user.id, user.email, user.role, s.response.value.token.organizationId)
            && (b.role == "ORGANIZATION" ==>
                  s.response.value.organization == Some(org) && s.after.organizations == t.organizations + [org])
            && (b.role != "ORGANIZATION" ==> s.after.organizations == t.organizations)
  {
  }

  /** The organisation the transaction creates beside an ORGANIZATION user. */
  function NewOrganization(id: Id, userId: Id, b: Body, now: int): Organization
  {
    Organization(
      id, b.name,
      if b.description == "" then "No description provided" else b.description,
      if b.website == "" then None else Some(b.website),
      None, userId, Some("PENDING"), now)
  }

  /** The handler's answer and the store it leaves. `hashed` is bcrypt's hash of
      the password and `now` the creation time. */
  function Handle(t: Tables, b: Body, hashed: string, now: int): (s: Step<Registered>)
    ensures MissingField(b) ==> s.response == Failure(400, "All fields are required")
    ensures !MissingField(b) && !MatchesEmailPattern(b.email) ==> s.response == Failure(400, "Invalid email format")
    ensures !MissingField(b) && MatchesEmailPattern(b.email) && Utf16Length(b.password) < 6 ==>
              s.response == Failure(400, "Password must be at least 6 characters long")
    ensures !MissingField(b) && MatchesEmailPattern(b.email) && Utf16Length(b.password) >= 6 && b.role !in ValidRoles ==>
              s.response == Failure(400, "Invalid role")
    ensures (!MissingField(b) && MatchesEmailPattern(b.email) && Utf16Length(b.password) >= 6 && b.role in ValidRoles
             && b.email in Keys(t.users, UserEmail)) ==> s.response == Failure(400, "User already exists")
    ensures s.response.Success? <==>
              !MissingField(b) && MatchesEmailPattern(b.email) && Utf16Length(b.password) >= 6
              && b.role in ValidRoles && b.email !in Keys(t.users, UserEmail)
    ensures s.response.Failure? ==> s.response.status == 400 && s.after == t
    ensures s.response.Success? ==>
              && s.response.status == 201
              && b.role in ValidRoles && EmailShape(b.email) && Utf16Length(b.password) >= 6
              && b.email !in Keys(t.users, UserEmail)
              && s.after.users == t.users + [User(IdFor(t.nextId), b.email, b.name, hashed, b.role)]
              && s.response.value.user == Public(Last(s.after.users))
              && (s.response.value.organization.Some? <==> b.role == "ORGANIZATION")
              && s.response.value.token.organizationId == (
                   if b.role == "ORGANIZATION" then Some(s.response.value.organization.value.id) else None)
              && s.after.campaigns == t.campaigns && s.after.opportunities == t.opportunities
              && s.after.applications == t.applications && s.after.donations == t.donations
  {
    EmailPatternShape(b.email);
    FindInKeys(t.users, UserEmail, b.email);
    if MissingField(b) then Step(Failure(400, "All fields are required"), t)
    else if !MatchesEmailPattern(b.email) then Step(Failure(400, "Invalid email format"), t)
    else if Utf16Length(b.password) < 6 then Step(Failure(400, "Password must be at least 6 characters long"), t)
    else if b.role !in ValidRoles then Step(Failure(400, "Invalid role"), t)
    else if Find(t.users, UserEmail, b.email).Some? then Step(Failure(400, "User already exists"), t)
    else
      var user := User(IdFor(t.nextId), b.email, b.name, hashed, b.role);
      if b.role == "ORGANIZATION" then
        var org := NewOrganization(IdFor(t.nextId + 1), user.id, b, now);
        var token := Middleware.Payload(user.id, user.email, user.role, Some(org.id));
        Step(Success(201, Registered(Public(user), Some(org), token)),
             t.(users := t.users + [user], organizations := t.organizations + [org], nextId := t.nextId + 2))
      else
        var token := Middleware.Payload(user.id, user.email, user.role, None);
        Step(Success(201, Registered(Public(user), None, token)),
             t.(users := t.users + [user], nextId := t.nextId + 1))
  }

  /** A registration keeps the store's integrity constraints and keeps
      organisation ownership in step with the ORGANIZATION role. */
  lemma {:induction false} HandleKeepsInvariants(t: Tables, b: Body, hashed: string, now: int)
    requires WellFormed(t)
    ensures WellFormed(Handle(t, b, hashed, now).after)
    ensures OrgRoleConsistent(t) ==> OrgRoleConsistent(Handle(t, b, hashed, now).after)
  {
    var s := Handle(t, b, hashed, now);
    if s.response.Success? {
      Accepted(t, b, hashed, now);
      var user := User(IdFor(t.nextId), b.email, b.name, hashed, b.role);
      if b.role == "ORGANIZATION" {
        var org := NewOrganization(IdFor(t.nextId + 1), user.id, b, now);
        assert s.after == t.(users := t.users + [user], organizations := t.organizations + [org], nextId := t.nextId + 2);
        AddUserWithOrganization(t, user, org);
      } else {
        assert s.after == t.(users := t.users + [user], nextId := t.nextId + 1);
        AddUser(t, user);
      }
    }
  }

  /** A second registration with an address that just registered is refused as
      a duplicate, whatever the other fields say. */
  lemma {:induction false} RegisterTwice(t: Tables, b: Body, hashed: string, now: int, b2: Body, hashed2: string, now2: int)
    requires Handle(t, b, hashed, now).response.Success?
    requires b2.email == b.email && !MissingField(b2) && Utf16Length(b2.password) >= 6 && b2.role in ValidRoles
    ensures Handle(Handle(t, b, hashed, now).after, b2, hashed2, now2).response == Failure(400, "User already exists")
  {
    var t' := Handle(t, b, hashed, now).after;
    EmailPatternShape(b.email);
    assert Keys(t'.users, UserEmail)[|t.users|] == b.email;
  }

  /** POST /api/auth/register on the store. */
  method Post(db: Database, b: Body, hashed: string, now: int) returns (r: Response<Registered>)
    requires db.Valid()
    modifies db
    ensures db.Valid()
    ensures Step(r, db.Snapshot()) == Handle(old(db.Snapshot()), b, hashed, now)
  {
    ghost var before := db.Snapshot();
    HandleKeepsInvariants(before, b, hashed, now);
    if MissingField(b) {
      return Failure(400, "All fields are required");
    }
    if !MatchesEmailPattern(b.email) {
      return Failure(400, "Invalid email format");
    }
    if Utf16Length(b.password) < 6 {
      return Failure(400, "Password must be at least 6 characters long");
    }
    if b.role !in ValidRoles {
      return Failure(400, "Invalid role");
    }
    var existing := Find(db.users, UserEmail, b.email);
    if existing.Some? {
      return Failure(400, "User already exists");
    }
    // The transaction: the user, then the organisation for the ORGANIZATION role.
    var user := User(IdFor(db.nextId), b.email, b.name, hashed, b.role);
    db.AddUser(user);
    var organization: Option<Organization> := None;
    if b.role == "ORGANIZATION" {
      var org := NewOrganization(IdFor(db.nextId), user.id, b, now);
      db.AddOrganization(org);
      organization := Some(org);
    }
    var organizationId: Option<Id> := None;
    if user.role == "ORGANIZATION" && organization.Some? {
      organizationId := Some(organization.value.id);
    }
    r := Success(201, Registered(Public(user), organization, Middleware.Payload(user.id, user.email, user.role, organizationId)));
    assert db.Snapshot() == Handle(before, b, hashed, now).after;
  }
}
