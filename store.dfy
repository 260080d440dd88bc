/** The relational store the API routes read and write through the ORM: one
    table per entity, each a sequence of records in store order, ids issued by
    a counter, and the foreign keys the routes' `include` clauses reveal
    (organisation → user, campaign → user and organisation, opportunity →
    organisation, application → opportunity, donation → user and campaign). */
module Store {
  import opened Common

  type Id = string

  // ---------------------------------------------------------------------------
  // Records

  datatype User = User(id: Id, email: string, name: string, password: string, role: string)

  /** A user record with the password field removed (`const { password: _, ...rest } = user`). */
  datatype PublicUser = PublicUser(id: Id, email: string, name: string, role: string)

  /** `status` is `None` where a route leaves it to the schema default. */
  datatype Organization = Organization(
    id: Id, name: string, description: string, website: Option<string>, logo: Option<string>,
    userId: Id, status: Option<string>, createdAt: int)

  datatype Campaign = Campaign(
    id: Id, title: string, description: string, targetAmount: real, currentAmount: real,
    endDate: string, image: Option<string>, organizationId: Id, userId: Id, createdAt: int)

  /** `status` is `None` where a route leaves it to the schema default. */
  datatype Opportunity = Opportunity(
    id: Id, title: string, description: string, date: string, location: string,
    requiredSkills: seq<string>, status: Option<string>, organizationId: Id, createdAt: int)

  datatype Application = Application(
    id: Id, name: string, email: string, status: string, opportunityId: Id,
    organizationId: Id, appliedAt: int, createdAt: int)

  datatype Donation = Donation(
    id: Id, amount: real, message: Option<string>, campaignId: Id, userId: Id, createdAt: int)

  function Public(u: User): PublicUser
  {
    PublicUser(u.id, u.email, u.name, u.role)
  }

  // Key projections, passed to the generic table operations below.
  function UserId(u: User): Id { u.id }
  function UserEmail(u: User): string { u.email }
  function OrgId(o: Organization): Id { o.id }
  function OrgOwner(o: Organization): Id { o.userId }
  function CampaignId(c: Campaign): Id { c.id }
  function CampaignOwner(c: Campaign): Id { c.userId }
  function CampaignOrg(c: Campaign): Id { c.organizationId }
  function OpportunityId(p: Opportunity): Id { p.id }
  function OpportunityOrg(p: Opportunity): Id { p.organizationId }
  function ApplicationId(a: Application): Id { a.id }
  function ApplicationOpportunity(a: Application): Id { a.opportunityId }
  function DonationId(d: Donation): Id { d.id }
  function DonationDonor(d: Donation): Id { d.userId }
  function DonationCampaign(d: Donation): Id { d.campaignId }

  // ---------------------------------------------------------------------------
  // Identifiers

  /** The identifier the store gives the record it creates as its n-th. */
  function IdFor(n: nat): Id
  {
    "c" + Digits(n)
  }

  lemma IdForInjective(a: nat, b: nat)
    ensures IdFor(a) == IdFor(b) ==> a == b
  {
    if IdFor(a) == IdFor(b) {
      assert IdFor(a)[1..] == Digits(a);
      assert IdFor(b)[1..] == Digits(b);
      DigitsInjective(a, b);
    }
  }

  /** `id` is one of the first `n` identifiers handed out. */
  predicate Issued(id: Id, n: nat)
  {
    exists k :: 0 <= k < n && IdFor(k) == id
  }

  lemma IssuedNotEmpty(id: Id, n: nat)
    requires Issued(id, n)
    ensures id != ""
  {
    var k :| 0 <= k < n && IdFor(k) == id;
    assert id[0] == 'c';
  }

  /** The next identifier has never been handed out. */
  lemma FreshId(n: nat)
    ensures !Issued(IdFor(n), n)
  {
    forall k | 0 <= k < n
      ensures IdFor(k) != IdFor(n)
    {
      IdForInjective(k, n);
    }
  }

  // ---------------------------------------------------------------------------
  // Generic table operations

  function Keys<T, K>(s: seq<T>, key: T -> K): (r: seq<K>)
    ensures |r| == |s| && forall i :: 0 <= i < |s| ==> r[i] == key(s[i])
  {
    seq(|s|, i requires 0 <= i < |s| => key(s[i]))
  }

  /** Index of the first record whose key is `k` (`findFirst` / `findUnique`). */
  function Find<T, K(==)>(s: seq<T>, key: T -> K, k: K): (r: Option<nat>)
    ensures r.Some? ==> r.value < |s| && key(s[r.value]) == k
    ensures r.Some? ==> forall j :: 0 <= j < r.value ==> key(s[j]) != k
    ensures r.None? <==> forall j :: 0 <= j < |s| ==> key(s[j]) != k
  {
    if s == [] then None
    else if key(s[0]) == k then Some(0)
    else
      match Find(s[1..], key, k)
      case None => None
      case Some(i) => Some(i + 1)
  }

  /** With distinct keys, the record found is the only one with that key. */
  lemma {:induction false} FindUnique<T, K>(s: seq<T>, key: T -> K, k: K, i: nat)
    requires NoDuplicates(Keys(s, key))
    requires i < |s| && key(s[i]) == k
    ensures Find(s, key, k) == Some(i)
  {
    assert Keys(s, key)[i] == k;
    var r := Find(s, key, k);
    assert r.Some?;
    assert Keys(s, key)[r.value] == k;
  }

  /** With distinct keys, no other record shares the key of record `k`. */
  lemma KeyAtOnly<T, K>(s: seq<T>, key: T -> K, k: nat)
    requires NoDuplicates(Keys(s, key)) && k < |s|
    ensures forall j :: 0 <= j < |s| && j != k ==> key(s[j]) != key(s[k])
  {
    forall j | 0 <= j < |s| && j != k
      ensures key(s[j]) != key(s[k])
    {
      assert Keys(s, key)[j] == key(s[j]) && Keys(s, key)[k] == key(s[k]);
    }
  }

  /** A record is found exactly when its key is among the keys. */
  lemma FindInKeys<T, K>(s: seq<T>, key: T -> K, k: K)
    ensures Find(s, key, k).Some? <==> k in Keys(s, key)
  {
    var ks := Keys(s, key);
    if Find(s, key, k).Some? {
      assert ks[Find(s, key, k).value] == k;
    }
  }

  /** `Find` only looks at the keys. */
  lemma {:induction false} FindByKeys<T, K>(s: seq<T>, s': seq<T>, key: T -> K, k: K)
    requires Keys(s, key) == Keys(s', key)
    ensures Find(s, key, k) == Find(s', key, k)
  {
    if s != [] {
      assert key(s[0]) == Keys(s, key)[0] == Keys(s', key)[0] == key(s'[0]);
      if key(s[0]) != k {
        assert Keys(s[1..], key) == Keys(s, key)[1..];
        assert Keys(s'[1..], key) == Keys(s', key)[1..];
        FindByKeys(s[1..], s'[1..], key, k);
      }
    }
  }

  /** `delete` of the record at index `i`. */
  function RemoveAt<T>(s: seq<T>, i: nat): (r: seq<T>)
    requires i < |s|
    ensures |r| == |s| - 1
    ensures forall j :: 0 <= j < i ==> r[j] == s[j]
    ensures forall j :: i <= j < |r| ==> r[j] == s[j + 1]
  {
    s[..i] + s[i + 1..]
  }

  /** Keys are distinct and all handed out by the counter. */
  predicate Table<T>(s: seq<T>, key: T -> Id, n: nat)
  {
    NoDuplicates(Keys(s, key)) && forall i :: 0 <= i < |s| ==> Issued(key(s[i]), n)
  }

  /** Every record's foreign key names a record of the referenced table. */
  predicate References<T>(s: seq<T>, fk: T -> Id, ids: seq<Id>)
  {
    forall i :: 0 <= i < |s| ==> fk(s[i]) in ids
  }

  lemma TableGrow<T>(s: seq<T>, key: T -> Id, n: nat, m: nat)
    requires Table(s, key, n) && n <= m
    ensures Table(s, key, m)
  {
    forall i | 0 <= i < |s|
      ensures Issued(key(s[i]), m)
    {
      var k :| 0 <= k < n && IdFor(k) == key(s[i]);
    }
  }

  /** Appending a record that carries the next identifier keeps the table well formed. */
  lemma TableAppend<T>(s: seq<T>, key: T -> Id, x: T, n: nat)
    requires Table(s, key, n) && key(x) == IdFor(n)
    ensures Table(s + [x], key, n + 1)
    ensures Keys(s + [x], key) == Keys(s, key) + [IdFor(n)]
  {
    FreshId(n);
    var ks := Keys(s + [x], key);
    assert ks == Keys(s, key) + [IdFor(n)];
    forall i | 0 <= i < |s|
      ensures key(s[i]) != IdFor(n)
    {
    }
    TableGrow(s, key, n, n + 1);
    assert Issued(key(x), n + 1);
  }

  /** Replacing a record by one with the same key keeps the keys. */
  lemma TableReplace<T>(s: seq<T>, key: T -> Id, i: nat, x: T, n: nat)
    requires Table(s, key, n) && i < |s| && key(x) == key(s[i])
    ensures Table(s[i := x], key, n)
    ensures Keys(s[i := x], key) == Keys(s, key)
  {
    assert Keys(s[i := x], key) == Keys(s, key);
  }

  /** Removing a record keeps the rest well formed. */
  lemma TableRemove<T>(s: seq<T>, key: T -> Id, i: nat, n: nat)
    requires Table(s, key, n) && i < |s|
    ensures Table(RemoveAt(s, i), key, n)
    ensures forall k :: k in Keys(s, key) && k != key(s[i]) ==> k in Keys(RemoveAt(s, i), key)
  {
    var r := RemoveAt(s, i);
    var ks, kr := Keys(s, key), Keys(r, key);
    forall a, b | 0 <= a < b < |r|
      ensures kr[a] != kr[b]
    {
      var a', b' := if a < i then a else a + 1, if b < i then b else b + 1;
      assert kr[a] == ks[a'] && kr[b] == ks[b'];
    }
    forall k | k in ks && k != key(s[i])
      ensures k in kr
    {
      var j :| 0 <= j < |ks| && ks[j] == k;
      if j < i {
        assert kr[j] == k;
      } else {
        assert kr[j - 1] == k;
      }
    }
  }

  /** No foreign key names the identifier the counter issues next. */
  lemma FreshUnreferenced<T, U>(s: seq<T>, fk: T -> Id, targets: seq<U>, key: U -> Id, n: nat)
    requires Table(targets, key, n) && References(s, fk, Keys(targets, key))
    ensures forall i :: 0 <= i < |s| ==> fk(s[i]) != IdFor(n)
  {
    FreshId(n);
    forall i | 0 <= i < |s|
      ensures fk(s[i]) != IdFor(n)
    {
      var j :| 0 <= j < |targets| && Keys(targets, key)[j] == fk(s[i]);
      assert Issued(key(targets[j]), n);
    }
  }

  lemma ReferencesWiden<T>(s: seq<T>, fk: T -> Id, ids: seq<Id>, ids': seq<Id>)
    requires References(s, fk, ids)
    requires forall k :: k in ids ==> k in ids'
    ensures References(s, fk, ids')
  {
  }

  lemma ReferencesAppend<T>(s: seq<T>, fk: T -> Id, x: T, ids: seq<Id>)
    requires References(s, fk, ids) && fk(x) in ids
    ensures References(s + [x], fk, ids)
  {
    assert forall i :: 0 <= i < |s| ==> (s + [x])[i] == s[i];
  }

  predicate Descending<T>(s: seq<T>, created: T -> int)
  {
    forall i, j :: 0 <= i < j < |s| ==> created(s[i]) >= created(s[j])
  }

  /** Records sorted by a timestamp, newest first (`orderBy: { createdAt: 'desc' }`).
      The store does not promise an order among equal timestamps; this picks one. */
  function NewestFirst<T(!new)>(s: seq<T>, created: T -> int): (r: seq<T>)
    ensures multiset(r) == multiset(s)
    ensures forall x :: x in r <==> x in s
    ensures Descending(r, created)
  {
    if s == [] then []
    else
      assert s == [s[0]] + s[1..];
      var r := Insert(s[0], NewestFirst(s[1..], created), created);
      MultisetMembers(r, s);
      r
  }

  lemma MultisetMembers<T>(a: seq<T>, b: seq<T>)
    requires multiset(a) == multiset(b)
    ensures forall x :: x in a <==> x in b
  {
    forall x
      ensures x in a <==> x in b
    {
      assert x in a <==> x in multiset(a);
      assert x in b <==> x in multiset(b);
    }
  }

  function Insert<T>(x: T, s: seq<T>, created: T -> int): (r: seq<T>)
    requires Descending(s, created)
    ensures multiset(r) == multiset(s) + multiset{x}
    ensures Descending(r, created)
    ensures |r| == |s| + 1 && (r[0] == x || (|s| > 0 && r[0] == s[0]))
  {
    if s == [] || created(x) >= created(s[0]) then
      [x] + s
    else
      DescendingTail(s, created);
      var rest := Insert(x, s[1..], created);
      assert created(s[0]) >= created(rest[0]);
      DescendingCons(s[0], rest, created);
      InsertMultiset(s, rest, x);
      [s[0]] + rest
  }

  lemma InsertMultiset<T>(s: seq<T>, rest: seq<T>, x: T)
    requires s != [] && multiset(rest) == multiset(s[1..]) + multiset{x}
    ensures multiset([s[0]] + rest) == multiset(s) + multiset{x}
  {
    assert s == [s[0]] + s[1..];
  }

  lemma DescendingTail<T>(s: seq<T>, created: T -> int)
    requires s != [] && Descending(s, created)
    ensures Descending(s[1..], created)
    ensures forall j :: 0 <= j < |s| - 1 ==> created(s[0]) >= created(s[1..][j])
  {
    forall i, j | 0 <= i < j < |s| - 1
      ensures created(s[1..][i]) >= created(s[1..][j])
    {
      assert s[1..][i] == s[i + 1] && s[1..][j] == s[j + 1];
    }
    forall j | 0 <= j < |s| - 1
      ensures created(s[0]) >= created(s[1..][j])
    {
      assert s[1..][j] == s[j + 1];
    }
  }

  lemma DescendingCons<T>(h: T, s: seq<T>, created: T -> int)
    requires Descending(s, created)
    requires s != [] ==> created(h) >= created(s[0])
    ensures Descending([h] + s, created)
  {
    var r := [h] + s;
    forall i, j | 0 <= i < j < |r|
      ensures created(r[i]) >= created(r[j])
    {
      if i > 0 {
        assert r[i] == s[i - 1] && r[j] == s[j - 1];
      } else {
        assert r[j] == s[j - 1];
        assert created(s[0]) >= created(s[j - 1]);
      }
    }
  }

  // ---------------------------------------------------------------------------
  // The store

  datatype Tables = Tables(
    users: seq<User>, organizations: seq<Organization>, campaigns: seq<Campaign>,
    opportunities: seq<Opportunity>, applications: seq<Application>, donations: seq<Donation>,
    nextId: nat)

  /** The store's integrity constraints: identifiers distinct and issued by the
      counter, e-mail addresses unique, and every foreign key resolved. */
  predicate WellFormed(t: Tables)
  {
    && Table(t.users, UserId, t.nextId)
    && Table(t.organizations, OrgId, t.nextId)
    && Table(t.campaigns, CampaignId, t.nextId)
    && Table(t.opportunities, OpportunityId, t.nextId)
    && Table(t.applications, ApplicationId, t.nextId)
    && Table(t.donations, DonationId, t.nextId)
    && NoDuplicates(Keys(t.users, UserEmail))
    && References(t.organizations, OrgOwner, Keys(t.users, UserId))
    && References(t.campaigns, CampaignOwner, Keys(t.users, UserId))
    && References(t.campaigns, CampaignOrg, Keys(t.organizations, OrgId))
    && References(t.opportunities, OpportunityOrg, Keys(t.organizations, OrgId))
    && References(t.applications, ApplicationOpportunity, Keys(t.opportunities, OpportunityId))
    && References(t.donations, DonationDonor, Keys(t.users, UserId))
    && References(t.donations, DonationCampaign, Keys(t.campaigns, CampaignId))
  }

  /** A user owns an organisation exactly when their role is ORGANIZATION. */
  predicate OrgRoleConsistent(t: Tables)
  {
    forall i :: 0 <= i < |t.users| ==>
      (t.users[i].id in Keys(t.organizations, OrgOwner) <==> t.users[i].role == "ORGANIZATION")
  }

  lemma KeysAppend<T, K>(s: seq<T>, key: T -> K, x: T)
    ensures Keys(s + [x], key) == Keys(s, key) + [key(x)]
  {
  }

  lemma NoDuplicatesAppend<T>(s: seq<T>, x: T)
    requires NoDuplicates(s) && x !in s
    ensures NoDuplicates(s + [x])
  {
  }

  /** Every table's identifiers stay issued when the counter advances. */
  lemma AllTablesGrow(t: Tables, m: nat)
    requires WellFormed(t) && t.nextId <= m
    ensures Table(t.users, UserId, m) && Table(t.organizations, OrgId, m)
    ensures Table(t.campaigns, CampaignId, m) && Table(t.opportunities, OpportunityId, m)
    ensures Table(t.applications, ApplicationId, m) && Table(t.donations, DonationId, m)
  {
    TableGrow(t.users, UserId, t.nextId, m);
    TableGrow(t.organizations, OrgId, t.nextId, m);
    TableGrow(t.campaigns, CampaignId, t.nextId, m);
    TableGrow(t.opportunities, OpportunityId, t.nextId, m);
    TableGrow(t.applications, ApplicationId, t.nextId, m);
    TableGrow(t.donations, DonationId, t.nextId, m);
  }

  /** No stored record refers to the identifier the counter hands out next. */
  lemma NextIdUnused(t: Tables)
    requires WellFormed(t)
    ensures IdFor(t.nextId) !in Keys(t.users, UserId)
    ensures IdFor(t.nextId) !in Keys(t.organizations, OrgOwner)
  {
    FreshId(t.nextId);
  }

  /** Creating a user with the next identifier and an unused e-mail address. */
  lemma AddUser(t: Tables, u: User)
    requires WellFormed(t)
    requires u.id == IdFor(t.nextId) && u.email !in Keys(t.users, UserEmail)
    ensures WellFormed(t.(users := t.users + [u], nextId := t.nextId + 1))
    ensures OrgRoleConsistent(t) && u.role != "ORGANIZATION" ==>
              OrgRoleConsistent(t.(users := t.users + [u], nextId := t.nextId + 1))
  {
    var n := t.nextId;
    var t' := t.(users := t.users + [u], nextId := n + 1);
    TableAppend(t.users, UserId, u, n);
    AllTablesGrow(t, n + 1);
    KeysAppend(t.users, UserEmail, u);
    NoDuplicatesAppend(Keys(t.users, UserEmail), u.email);
    ReferencesWiden(t.organizations, OrgOwner, Keys(t.users, UserId), Keys(t'.users, UserId));
    ReferencesWiden(t.campaigns, CampaignOwner, Keys(t.users, UserId), Keys(t'.users, UserId));
    ReferencesWiden(t.donations, DonationDonor, Keys(t.users, UserId), Keys(t'.users, UserId));
    NextIdUnused(t);
    if OrgRoleConsistent(t) && u.role != "ORGANIZATION" {
      forall i | 0 <= i < |t'.users|
        ensures t'.users[i].id in Keys(t'.organizations, OrgOwner) <==> t'.users[i].role == "ORGANIZATION"
      {
        if i < |t.users| {
          assert t'.users[i] == t.users[i];
        }
      }
    }
  }

  /** Creating a user and, in the same step, an organisation owned by that user. */
  lemma AddUserWithOrganization(t: Tables, u: User, o: Organization)
    requires WellFormed(t)
    requires u.id == IdFor(t.nextId) && u.email !in Keys(t.users, UserEmail)
    requires o.id == IdFor(t.nextId + 1) && o.userId == u.id
    ensures WellFormed(t.(users := t.users + [u], organizations := t.organizations + [o], nextId := t.nextId + 2))
    ensures OrgRoleConsistent(t) && u.role == "ORGANIZATION" ==>
              OrgRoleConsistent(t.(users := t.users + [u], organizations := t.organizations + [o], nextId := t.nextId + 2))
  {
    var n := t.nextId;
    var t1 := t.(users := t.users + [u], nextId := n + 1);
    AddUser(t, u);
    var t2 := t1.(organizations := t.organizations + [o], nextId := n + 2);
    TableAppend(t.organizations, OrgId, o, n + 1);
    AllTablesGrow(t1, n + 2);
    KeysAppend(t.users, UserId, u);
    ReferencesAppend(t.organizations, OrgOwner, o, Keys(t1.users, UserId));
    ReferencesWiden(t.campaigns, CampaignOrg, Keys(t.organizations, OrgId), Keys(t2.organizations, OrgId));
    ReferencesWiden(t.opportunities, OpportunityOrg, Keys(t.organizations, OrgId), Keys(t2.organizations, OrgId));
    KeysAppend(t.organizations, OrgOwner, o);
    NextIdUnused(t);
    if OrgRoleConsistent(t) && u.role == "ORGANIZATION" {
      forall i | 0 <= i < |t2.users|
        ensures t2.users[i].id in Keys(t2.organizations, OrgOwner) <==> t2.users[i].role == "ORGANIZATION"
      {
        if i < |t.users| {
          assert t2.users[i] == t.users[i];
          assert t.users[i].id in Keys(t.users, UserId);
        }
      }
    }
  }

  /** What a route answers: a status with a JSON value, or a status with an error message. */
  datatype Response<T> = Success(status: nat, value: T) | Failure(status: nat, error: string)

  /** The text of a 500 answer built from a caught exception: its message, or
      the route's fallback when the message is empty (`error.message || fallback`). */
  function ErrorText(message: string, fallback: string): string
  {
    if message == "" then fallback else message
  }

  /** A handler's answer together with the store it leaves behind. */
  datatype Step<T> = Step(response: Response<T>, after: Tables)

  class Database {
    var users: seq<User>
    var organizations: seq<Organization>
    var campaigns: seq<Campaign>
    var opportunities: seq<Opportunity>
    var applications: seq<Application>
    var donations: seq<Donation>
    var nextId: nat

    function Snapshot(): Tables
      reads this
    {
      Tables(users, organizations, campaigns, opportunities, applications, donations, nextId)
    }

    ghost predicate Valid()
      reads this
    {
      WellFormed(Snapshot())
    }

    // Prisma's `create`, `update` and `delete`, one table at a time. A create
    // appends the record and advances the identifier counter.

    method AddUser(u: User)
      modifies this
      ensures Snapshot() == old(Snapshot()).(users := old(users) + [u], nextId := old(nextId) + 1)
    {
      users, nextId := users + [u], nextId + 1;
    }

    method AddOrganization(o: Organization)
      modifies this
      ensures Snapshot() == old(Snapshot()).(organizations := old(organizations) + [o], nextId := old(nextId) + 1)
    {
      organizations, nextId := organizations + [o], nextId + 1;
    }

    method AddCampaign(c: Campaign)
      modifies this
      ensures Snapshot() == old(Snapshot()).(campaigns := old(campaigns) + [c], nextId := old(nextId) + 1)
    {
      campaigns, nextId := campaigns + [c], nextId + 1;
    }

    method AddOpportunity(o: Opportunity)
      modifies this
      ensures Snapshot() == old(Snapshot()).(opportunities := old(opportunities) + [o], nextId := old(nextId) + 1)
    {
      opportunities, nextId := opportunities + [o], nextId + 1;
    }

    method AddApplication(a: Application)
      modifies this
      ensures Snapshot() == old(Snapshot()).(applications := old(applications) + [a], nextId := old(nextId) + 1)
    {
      applications, nextId := applications + [a], nextId + 1;
    }

    method AddDonation(d: Donation)
      modifies this
      ensures Snapshot() == old(Snapshot()).(donations := old(donations) + [d], nextId := old(nextId) + 1)
    {
      donations, nextId := donations + [d], nextId + 1;
    }

    method SetUser(i: nat, u: User)
      requires i < |users|
      modifies this
      ensures Snapshot() == old(Snapshot()).(users := old(users)[i := u])
    {
      users := users[i := u];
    }

    method SetOrganization(i: nat, o: Organization)
      requires i < |organizations|
      modifies this
      ensures Snapshot() == old(Snapshot()).(organizations := old(organizations)[i := o])
    {
      organizations := organizations[i := o];
    }

    method SetCampaign(i: nat, c: Campaign)
      requires i < |campaigns|
      modifies this
      ensures Snapshot() == old(Snapshot()).(campaigns := old(campaigns)[i := c])
    {
      campaigns := campaigns[i := c];
    }

    method SetApplication(i: nat, a: Application)
      requires i < |applications|
      modifies this
      ensures Snapshot() == old(Snapshot()).(applications := old(applications)[i := a])
    {
      applications := applications[i := a];
    }

    method RemoveCampaign(i: nat)
      requires i < |campaigns|
      modifies this
      ensures Snapshot() == old(Snapshot()).(campaigns := RemoveAt(old(campaigns), i))
    {
      campaigns := RemoveAt(campaigns, i);
    }

    constructor ()
      ensures Valid()
      ensures Snapshot() == Tables([], [], [], [], [], [], 0)
    {
      users, organizations, campaigns := [], [], [];
      opportunities, applications, donations := [], [], [];
      nextId := 0;
    }
  }
}
