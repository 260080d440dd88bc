/** The two organisation listings with impact figures: every organisation
    (GET /api/ngos, app/api/ngos/route.ts) and the PENDING ones for the admin
    (GET /api/admin/ngos, app/api/admin/ngos/route.ts). Both map each
    organisation to a card carrying its owner's e-mail and three figures
    computed from its campaigns. Amounts are exact reals; a figure that would
    be Infinity or NaN in JavaScript (some campaign's target is 0) is `None`,
    which is what JSON serialisation makes of it (`null`). */
module NgoListings {
  import opened Common
  import opened Store
  import AuthRegister
  import AdminNgoStatus

  // ---------------------------------------------------------------------------
  // Impact figures

  datatype Impact = Impact(beneficiaries: Option<real>, projects: nat, successRate: Option<int>)

  /** The organisation's campaigns, in store order (`include: { campaigns }`). */
  function CampaignsOf(t: Tables, organizationId: Id): (r: seq<Campaign>)
    ensures forall c :: c in r <==> c in t.campaigns && c.organizationId == organizationId
  {
    Filter(t.campaigns, (c: Campaign) => c.organizationId == organizationId)
  }

  /** Every campaign has a target the division can use. */
  predicate TargetsSet(cs: seq<Campaign>)
  {
    forall i :: 0 <= i < |cs| ==> cs[i].targetAmount != 0.0
  }

  /** `currentAmount / targetAmount` per campaign. */
  function Ratios(cs: seq<Campaign>): (r: seq<real>)
    requires TargetsSet(cs)
    ensures |r| == |cs| && forall i :: 0 <= i < |cs| ==> r[i] == cs[i].currentAmount / cs[i].targetAmount
  {
    seq(|cs|, i requires 0 <= i < |cs| && TargetsSet(cs) => cs[i].currentAmount / cs[i].targetAmount)
  }

  /** `(currentAmount / targetAmount) * 100` per campaign. */
  function Percentages(cs: seq<Campaign>): (r: seq<real>)
    requires TargetsSet(cs)
    ensures |r| == |cs| && forall i :: 0 <= i < |cs| ==> r[i] == Ratios(cs)[i] * 100.0
  {
    seq(|cs|, i requires 0 <= i < |cs| && TargetsSet(cs) => Ratios(cs)[i] * 100.0)
  }

  /** `beneficiaries`, `projects` and `successRate` of one organisation. */
  function ImpactOf(cs: seq<Campaign>): (r: Impact)
    ensures r.projects == |cs|
    ensures r.beneficiaries.Some? <==> TargetsSet(cs)
    ensures |cs| == 0 ==> r == Impact(Some(0.0), 0, Some(0))
    ensures |cs| > 0 ==> (r.successRate.Some? <==> TargetsSet(cs))
  {
    if !TargetsSet(cs) then Impact(None, |cs|, None)
    else
      var beneficiaries := SumReals(Percentages(cs));
      var rate := if |cs| > 0 then Round(SumReals(Ratios(cs)) / |cs| as real * 100.0) else 0;
      assert |cs| == 0 ==> Percentages(cs) == [];
      Impact(Some(beneficiaries), |cs|, Some(rate))
  }

  lemma {:induction false} SumScaled(s: seq<real>, k: real, r: seq<real>)
    requires |r| == |s| && forall i :: 0 <= i < |s| ==> r[i] == s[i] * k
    ensures SumReals(r) == SumReals(s) * k
  {
    if s != [] {
      SumScaled(s[1..], k, r[1..]);
    }
  }

  lemma {:induction false} SumConstant(s: seq<real>, v: real)
    requires forall i :: 0 <= i < |s| ==> s[i] == v
    ensures SumReals(s) == |s| as real * v
  {
    if s != [] {
      SumConstant(s[1..], v);
    }
  }

  /** The two figures agree: the success rate is the beneficiaries figure
      averaged over the campaigns, rounded. */
  lemma {:induction false} RateIsRoundedMeanOfBeneficiaries(cs: seq<Campaign>)
    requires |cs| > 0 && TargetsSet(cs)
    ensures ImpactOf(cs).successRate == Some(Round(ImpactOf(cs).beneficiaries.value / |cs| as real))
  {
    SumScaled(Ratios(cs), 100.0, Percentages(cs));
    var n := |cs| as real;
    var s := SumReals(Ratios(cs));
    assert s / n * 100.0 == (s * 100.0) / n;
  }

  /** When every campaign has exactly met its target, the success rate is 100
      and beneficiaries is 100 per campaign. */
  lemma {:induction false} AllTargetsMet(cs: seq<Campaign>)
    requires |cs| > 0
    requires forall i :: 0 <= i < |cs| ==> cs[i].targetAmount != 0.0 && cs[i].currentAmount == cs[i].targetAmount
    ensures ImpactOf(cs) == Impact(Some(100.0 * |cs| as real), |cs|, Some(100))
  {
    assert TargetsSet(cs);
    var ratios := Ratios(cs);
    forall i | 0 <= i < |cs|
      ensures ratios[i] == 1.0
    {
      DivSelf(cs[i].targetAmount);
      assert ratios[i] == cs[i].currentAmount / cs[i].targetAmount;
    }
    SumConstant(ratios, 1.0);
    var percentages := Percentages(cs);
    assert forall i :: 0 <= i < |cs| ==> percentages[i] == ratios[i] * 100.0;
    SumConstant(percentages, 100.0);
    var n := |cs| as real;
    DivSelf(n);
    assert SumReals(ratios) / n * 100.0 == 100.0;
    assert Round(100.0) == 100;
  }

  /** One campaign: beneficiaries is its own percentage, and the success
      rate that percentage rounded; a zero target gives no figures. */
  lemma ImpactOfOne(c: Campaign)
    ensures c.targetAmount != 0.0 ==>
              ImpactOf([c]) == Impact(Some(c.currentAmount / c.targetAmount * 100.0), 1,
                                      Some(Round(c.currentAmount / c.targetAmount * 100.0)))
    ensures c.targetAmount == 0.0 ==> ImpactOf([c]) == Impact(None, 1, None)
  {
    if c.targetAmount != 0.0 {
      var x := c.currentAmount / c.targetAmount;
      assert Ratios([c]) == [x];
      assert Percentages([c]) == [x * 100.0];
      assert [x][1..] == [] && [x * 100.0][1..] == [];
      assert SumReals([x]) == x && SumReals([x * 100.0]) == x * 100.0;
      assert x / 1.0 * 100.0 == x * 100.0;
    } else {
      assert !TargetsSet([c]);
    }
  }

  /** Beneficiaries adds up over the campaigns: the figure for two runs of
      campaigns is the sum of their figures. With ImpactOfOne this fixes it
      as the sum of the per-campaign percentages. */
  lemma {:induction false} ImpactOfAppend(a: seq<Campaign>, b: seq<Campaign>)
    ensures TargetsSet(a + b) <==> TargetsSet(a) && TargetsSet(b)
    ensures TargetsSet(a) && TargetsSet(b) ==>
              ImpactOf(a + b).beneficiaries.value == ImpactOf(a).beneficiaries.value + ImpactOf(b).beneficiaries.value
  {
    assert forall i :: 0 <= i < |a| ==> (a + b)[i] == a[i];
    assert forall i :: 0 <= i < |b| ==> (a + b)[|a| + i] == b[i];
    if TargetsSet(a) && TargetsSet(b) {
      assert TargetsSet(a + b) by {
        forall i | 0 <= i < |a + b|
          ensures (a + b)[i].targetAmount != 0.0
        {
          if i >= |a| {
            assert (a + b)[i] == b[i - |a|];
          }
        }
      }
      var pa, pb, pab := Percentages(a), Percentages(b), Percentages(a + b);
      assert pab == pa + pb by {
        forall i | 0 <= i < |pab|
          ensures pab[i] == (pa + pb)[i]
        {
          if i >= |a| {
            assert (a + b)[i] == b[i - |a|];
          }
        }
      }
      SumRealsAppend(pa, pb);
    } else if TargetsSet(a + b) {
      assert TargetsSet(a) && TargetsSet(b) by {
        forall i | 0 <= i < |b|
          ensures b[i].targetAmount != 0.0
        {
          assert (a + b)[|a| + i] == b[i];
        }
      }
    }
  }

  lemma {:induction false} SumRealsAppend(a: seq<real>, b: seq<real>)
    ensures SumReals(a + b) == SumReals(a) + SumReals(b)
  {
    if a != [] {
      assert (a + b)[1..] == a[1..] + b;
      SumRealsAppend(a[1..], b);
    } else {
      assert a + b == b;
    }
  }

  lemma DivSelf(x: real)
    requires x != 0.0
    ensures x / x == 1.0
  {
  }

  // ---------------------------------------------------------------------------
  // Cards

  datatype Card = Card(id: Id, name: string, description: string, email: string,
                       website: Option<string>, logo: Option<string>, impact: Impact)

  /** `org.user.email`, or `None` when the owner is missing (the mapping then
      throws on `null.email`). */
  function OwnerEmail(t: Tables, o: Organization): Option<string>
  {
    match Find(t.users, UserId, o.userId)
    case None => None
    case Some(i) => Some(t.users[i].email)
  }

  function CardOf(t: Tables, o: Organization, email: string): (c: Card)
    ensures c.id == o.id && c.name == o.name && c.description == o.description && c.email == email
    ensures c.website == o.website && c.logo == o.logo
    ensures c.impact == ImpactOf(CampaignsOf(t, o.id))
  {
    Card(o.id, o.name, o.description, email, o.website, o.logo, ImpactOf(CampaignsOf(t, o.id)))
  }

  /** One card per organisation, in order; `None` when some owner is missing. */
  function Cards(t: Tables, os: seq<Organization>): (r: Option<seq<Card>>)
    ensures r.Some? <==> forall i :: 0 <= i < |os| ==> OwnerEmail(t, os[i]).Some?
    ensures r.Some? ==> |r.value| == |os|
    ensures r.Some? ==> forall i :: 0 <= i < |os| ==> r.value[i] == CardOf(t, os[i], OwnerEmail(t, os[i]).value)
  {
    if os == [] then Some([])
    else
      match OwnerEmail(t, os[0])
      case None => None
      case Some(e) =>
        match Cards(t, os[1..])
        case None => None
        case Some(rest) => Some([CardOf(t, os[0], e)] + rest)
  }

  /** Under the store's constraints every organisation's owner exists. */
  lemma {:induction false} OwnersPresent(t: Tables, os: seq<Organization>)
    requires WellFormed(t)
    requires forall o :: o in os ==> o in t.organizations
    ensures Cards(t, os).Some?
  {
    forall i | 0 <= i < |os|
      ensures OwnerEmail(t, os[i]).Some?
    {
      assert os[i] in t.organizations;
      var k :| 0 <= k < |t.organizations| && t.organizations[k] == os[i];
      assert OrgOwner(t.organizations[k]) in Keys(t.users, UserId);
    }
  }

  // ---------------------------------------------------------------------------
  // GET /api/ngos

  function ListAll(t: Tables): (r: Response<seq<Card>>)
    ensures r.Failure? ==> r == Failure(500, "Error fetching NGOs")
    ensures r.Success? ==>
              && r.status == 200
              && |r.value| == |t.organizations|
              && forall i :: 0 <= i < |t.organizations| ==>
                   && Some(r.value[i].email) == OwnerEmail(t, t.organizations[i])
                   && r.value[i] == CardOf(t, t.organizations[i], OwnerEmail(t, t.organizations[i]).value)
  {
    match Cards(t, t.organizations)
    case None => Failure(500, "Error fetching NGOs")
    case Some(cs) => Success(200, cs)
  }

  // ---------------------------------------------------------------------------
  // GET /api/admin/ngos

  datatype PendingCard = PendingCard(card: Card, createdAt: int, status: Option<string>)

  predicate IsPending(o: Organization) { o.status == Some("PENDING") }

  function ListPending(t: Tables): (r: Response<seq<PendingCard>>)
    ensures r.Failure? ==> r == Failure(500, "Error fetching pending NGOs")
    ensures r.Success? ==>
              var ps := Filter(t.organizations, IsPending);
              && r.status == 200
              && |r.value| == |ps|
              && (forall i :: 0 <= i < |ps| ==>
                    && Some(r.value[i].card.email) == OwnerEmail(t, ps[i])
                    && r.value[i] == PendingCard(CardOf(t, ps[i], OwnerEmail(t, ps[i]).value), ps[i].createdAt, ps[i].status))
              && (forall i :: 0 <= i < |r.value| ==> r.value[i].status == Some("PENDING"))
  {
    var ps := Filter(t.organizations, IsPending);
    FilterHolds(t.organizations, IsPending);
    match Cards(t, ps)
    case None => Failure(500, "Error fetching pending NGOs")
    case Some(cs) =>
      Success(200, WithDates(cs, ps))
  }

  /** Each card with its organisation's creation time and status. */
  function WithDates(cs: seq<Card>, ps: seq<Organization>): (r: seq<PendingCard>)
    requires |cs| == |ps|
    ensures |r| == |ps| && forall i :: 0 <= i < |ps| ==> r[i] == PendingCard(cs[i], ps[i].createdAt, ps[i].status)
  {
    seq(|ps|, i requires 0 <= i < |ps| => PendingCard(cs[i], ps[i].createdAt, ps[i].status))
  }

  /** Under the store's constraints neither listing fails. */
  lemma {:induction false} ListingsSucceed(t: Tables)
    requires WellFormed(t)
    ensures ListAll(t).Success? && ListPending(t).Success?
  {
    OwnersPresent(t, t.organizations);
    OwnersPresent(t, Filter(t.organizations, IsPending));
  }

  /** Every pending organisation in a well-formed store is on the admin's list. */
  lemma {:induction false} PendingListed(t: Tables, o: Organization)
    requires WellFormed(t) && o in t.organizations && IsPending(o)
    ensures var l := ListPending(t);
            l.Success? && exists i :: 0 <= i < |l.value| && l.value[i].card.id == o.id
  {
    ListingsSucceed(t);
    var ps := Filter(t.organizations, IsPending);
    assert o in ps;
    var i :| 0 <= i < |ps| && ps[i] == o;
    assert ListPending(t).value[i].card.id == o.id;
  }

  /** An organisation registered through /api/auth/register is listed for the
      admin as pending. */
  lemma {:induction false} RegisteredOrganizationIsPending(t: Tables, b: AuthRegister.Body, hashed: string, now: int)
    requires WellFormed(t)
    requires AuthRegister.Handle(t, b, hashed, now).response.Success? && b.role == "ORGANIZATION"
    ensures var s := AuthRegister.Handle(t, b, hashed, now);
            var l := ListPending(s.after);
            l.Success? && exists i :: 0 <= i < |l.value| && l.value[i].card.id == s.response.value.organization.value.id
  {
    var s := AuthRegister.Handle(t, b, hashed, now);
    AuthRegister.HandleKeepsInvariants(t, b, hashed, now);
    var o := AuthRegister.NewOrganization(IdFor(t.nextId + 1), IdFor(t.nextId), b, now);
    assert s.response.value.organization == Some(o);
    assert s.after.organizations == t.organizations + [o];
    assert o in s.after.organizations;
    PendingListed(s.after, o);
  }

  /** Once approved, an organisation is no longer listed as pending. */
  lemma {:induction false} ApprovedLeavesPending(t: Tables, id: Id)
    requires WellFormed(t)
    requires AdminNgoStatus.Approve(t, id).response.Success?
    ensures var l := ListPending(AdminNgoStatus.Approve(t, id).after);
            l.Success? && forall i :: 0 <= i < |l.value| ==> l.value[i].card.id != id
  {
    var t' := AdminNgoStatus.Approve(t, id).after;
    AdminNgoStatus.SetStatusKeepsInvariants(t, id, "APPROVED", "NGO approved", "Error approving NGO");
    ListingsSucceed(t');
    var k := Find(t.organizations, OrgId, id).value;
    KeyAtOnly(t.organizations, OrgId, k);
    var os' := t'.organizations;
    assert os' == t.organizations[k := t.organizations[k].(status := Some("APPROVED"))];
    forall j | 0 <= j < |os'| && IsPending(os'[j])
      ensures os'[j].id != id
    {
      if j != k {
        assert os'[j] == t.organizations[j];
      }
    }
    var ps := Filter(os', IsPending);
    forall i | 0 <= i < |ps|
      ensures ps[i].id != id
    {
      assert ps[i] in os' && IsPending(ps[i]);
    }
  }
}
