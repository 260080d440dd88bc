/** The organisation dashboard page (app/organization/dashboard/page.tsx): the
    sequence of fetches run on mount, the active-campaign list, the first five
    donations and applications kept, and the status an application action
    sends. */
module OrganizationDashboard {
  import opened Common

  datatype Campaign = Campaign(id: string, title: string, status: string)
  datatype Donation = Donation(id: string, amount: real, campaignTitle: string)
  datatype Application = Application(id: string, name: string, email: string, status: string)
  datatype Organization = Organization(id: string, name: string, description: string)
  datatype Analytics = Analytics(totalDonations: real, totalDonors: nat, activeCampaigns: nat, totalRaised: real)

  const NoAnalytics := Analytics(0.0, 0, 0, 0.0)

  // ---------------------------------------------------------------------------
  // Derived lists

  /** The Active Campaigns list. */
  function Active(cs: seq<Campaign>): (r: seq<Campaign>)
    ensures forall c :: c in r <==> c in cs && c.status == "ACTIVE"
    ensures forall c :: multiset(r)[c] == if c.status == "ACTIVE" then multiset(cs)[c] else 0
    ensures IsSubsequence(r, cs)
  {
    Filter(cs, (c: Campaign) => c.status == "ACTIVE")
  }

  /** The empty-state message is shown iff no campaign is ACTIVE. */
  lemma {:induction false} EmptyStateIffNoneActive(cs: seq<Campaign>)
    ensures Active(cs) == [] <==> forall i :: 0 <= i < |cs| ==> cs[i].status != "ACTIVE"
  {
    if Active(cs) != [] {
      assert Active(cs)[0] in Active(cs);
    }
    assert forall i :: 0 <= i < |cs| ==> cs[i] in cs;
  }

  /** The status an application action sends: `approved` for the approve
      action, `rejected` for every other. */
  function ActionStatus(action: string): (r: string)
    ensures r == "approved" || r == "rejected"
    ensures r == "approved" <==> action == "approve"
  {
    if action == "approve" then "approved" else "rejected"
  }

  // ---------------------------------------------------------------------------
  // Mount

  /** The organisation fetch: its body, a non-ok status, or a thrown error. */
  datatype OrgFetch = OrgFetched(organization: Organization) | OrgRefused(status: nat) | OrgThrown

  /** A secondary fetch: its body, a non-ok answer (the default stays), or a
      thrown error (the remaining fetches are skipped). */
  datatype Fetch<T> = Fetched(value: T) | NotOk | Thrown

  datatype View = View(route: Option<string>, loading: bool, error: Option<string>,
                       organization: Option<Organization>, campaigns: seq<Campaign>, analytics: Analytics,
                       donations: seq<Donation>, applications: seq<Application>)

  const Initial := View(None, true, None, None, [], NoAnalytics, [], [])

  const LoadError := "Failed to load dashboard data"

  /** The state after the mount effect and its fetches. A missing or empty
      token sends the page to /login before any fetch. */
  function Mount(token: Option<string>, org: OrgFetch, cs: Fetch<seq<Campaign>>, an: Fetch<Analytics>,
                 ds: Fetch<seq<Donation>>, aps: Fetch<seq<Application>>): (v: View)
    ensures !Truthy(token) ==> v == Initial.(route := Some("/login"))
    ensures Truthy(token) ==> !v.loading
    ensures Truthy(token) && org == OrgRefused(404) ==> v == Initial.(route := Some("/organization/setup"), loading := false)
    ensures Truthy(token) && (org.OrgThrown? || (org.OrgRefused? && org.status != 404)) ==>
              v == Initial.(loading := false, error := Some(LoadError))
    ensures v.organization.Some? <==> Truthy(token) && org.OrgFetched?
    ensures cs.Fetched? && v.organization.Some? ==> v.campaigns == cs.value
    ensures !cs.Fetched? ==> v.campaigns == []
    ensures |v.donations| <= 5 && |v.applications| <= 5
    ensures v.analytics == if v.organization.Some? && !cs.Thrown? && an.Fetched? then an.value else NoAnalytics
    ensures v.donations ==
              if v.organization.Some? && !cs.Thrown? && !an.Thrown? && ds.Fetched? then Take(ds.value, 5) else []
    ensures v.applications ==
              if v.organization.Some? && !cs.Thrown? && !an.Thrown? && !ds.Thrown? && aps.Fetched? then Take(aps.value, 5)
              else []
    ensures v.error.Some? ==> v.error == Some(LoadError)
  {
    if !Truthy(token) then Initial.(route := Some("/login"))
    else
      match org
      case OrgThrown => Initial.(loading := false, error := Some(LoadError))
      case OrgRefused(status) =>
        if status == 404 then Initial.(route := Some("/organization/setup"), loading := false)
        else Initial.(loading := false, error := Some(LoadError))
      case OrgFetched(o) =>
        var v := Initial.(loading := false, organization := Some(o));
        Secondary(v, cs, an, ds, aps)
  }

  /** The four fetches after the organisation, in order. */
  function Secondary(v: View, cs: Fetch<seq<Campaign>>, an: Fetch<Analytics>, ds: Fetch<seq<Donation>>,
                     aps: Fetch<seq<Application>>): (r: View)
    requires v.campaigns == [] && v.donations == [] && v.applications == [] && v.error.None?
    ensures r.route == v.route && r.loading == v.loading && r.organization == v.organization
    ensures cs.Fetched? ==> r.campaigns == cs.value
    ensures !cs.Fetched? ==> r.campaigns == []
    ensures |r.donations| <= 5 && |r.applications| <= 5
    ensures r.analytics == if !cs.Thrown? && an.Fetched? then an.value else v.analytics
    ensures r.donations == if !cs.Thrown? && !an.Thrown? && ds.Fetched? then Take(ds.value, 5) else []
    ensures r.applications ==
              if !cs.Thrown? && !an.Thrown? && !ds.Thrown? && aps.Fetched? then Take(aps.value, 5) else []
    ensures r.error.Some? ==> r.error == Some(LoadError)
    ensures r.error.None? <==> !cs.Thrown? && !an.Thrown? && !ds.Thrown? && !aps.Thrown?
  {
    if cs.Thrown? then v.(error := Some(LoadError))
    else
      var v1 := if cs.Fetched? then v.(campaigns := cs.value) else v;
      if an.Thrown? then v1.(error := Some(LoadError))
      else
        var v2 := if an.Fetched? then v1.(analytics := an.value) else v1;
        if ds.Thrown? then v2.(error := Some(LoadError))
        else
          var v3 := if ds.Fetched? then v2.(donations := Take(ds.value, 5)) else v2;
          if aps.Thrown? then v3.(error := Some(LoadError))
          else if aps.Fetched? then v3.(applications := Take(aps.value, 5))
          else v3
  }
}
