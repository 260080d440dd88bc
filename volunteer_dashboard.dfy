/** The volunteer dashboard page (app/volunteer/dashboard/page.tsx): the token
    gate and fetch of opportunities, the upcoming and organisation counts and
    the first five opportunities listed. */
module VolunteerDashboard {
  import opened Common

  datatype Opportunity = Opportunity(id: string, title: string, organizationName: string, date: string, status: string)

  /** The opportunities whose status is exactly `upcoming`. */
  function Upcoming(os: seq<Opportunity>): (r: nat)
    ensures r <= |os|
    ensures r == 0 <==> forall i :: 0 <= i < |os| ==> os[i].status != "upcoming"
  {
    var u := Filter(os, (o: Opportunity) => o.status == "upcoming");
    assert u != [] ==> u[0] in u;
    assert forall i :: 0 <= i < |os| ==> os[i] in os;
    |u|
  }

  function Statuses(os: seq<Opportunity>): (r: seq<string>)
    ensures |r| == |os| && forall i :: 0 <= i < |os| ==> r[i] == os[i].status
  {
    seq(|os|, i requires 0 <= i < |os| => os[i].status)
  }

  /** One more opportunity raises the count by one exactly when its status is
      `upcoming`. */
  lemma UpcomingAppend(os: seq<Opportunity>, o: Opportunity)
    ensures Upcoming(os + [o]) == Upcoming(os) + if o.status == "upcoming" then 1 else 0
  {
    FilterAppend(os, o, (o: Opportunity) => o.status == "upcoming");
  }

  /** The count is the number of times `upcoming` occurs among the statuses. */
  lemma {:induction false} UpcomingIsStatusCount(os: seq<Opportunity>)
    ensures Upcoming(os) == multiset(Statuses(os))["upcoming"]
    decreases |os|
  {
    if os != [] {
      var init, o := os[..|os| - 1], os[|os| - 1];
      assert os == init + [o];
      assert Statuses(os) == Statuses(init) + [o.status];
      UpcomingAppend(init, o);
      UpcomingIsStatusCount(init);
    }
  }

  function Names(os: seq<Opportunity>): (r: seq<string>)
    ensures |r| == |os| && forall i :: 0 <= i < |os| ==> r[i] == os[i].organizationName
  {
    seq(|os|, i requires 0 <= i < |os| => os[i].organizationName)
  }

  /** The number of distinct organisation names. */
  function Organizations(os: seq<Opportunity>): (r: nat)
    ensures r <= |os|
    ensures os != [] ==> r >= 1
    ensures r == |Distinct(Names(os))|
    ensures forall n :: n in Distinct(Names(os)) <==> exists i :: 0 <= i < |os| && os[i].organizationName == n
  {
    DistinctBound(Names(os));
    assert os != [] ==> Names(os)[0] in Distinct(Names(os));
    |Distinct(Names(os))|
  }

  /** One more opportunity raises the count by one exactly when its
      organisation has not been seen yet. */
  lemma OrganizationsAppend(os: seq<Opportunity>, o: Opportunity)
    ensures Organizations(os + [o]) == Organizations(os) + if o.organizationName in Names(os) then 0 else 1
  {
    assert Names(os + [o]) == Names(os) + [o.organizationName] by {
      assert forall i :: 0 <= i < |os| ==> (os + [o])[i] == os[i];
    }
    DistinctAppend(Names(os), o.organizationName);
  }

  /** `opportunities.slice(0, 5)`. */
  function Listed(os: seq<Opportunity>): (r: seq<Opportunity>)
    ensures |r| == if |os| < 5 then |os| else 5
    ensures forall i :: 0 <= i < |r| ==> r[i] == os[i]
  {
    Take(os, 5)
  }

  /** The outcome of the fetch: the parsed list, or a failure of any kind. */
  datatype Fetch = Fetched(opportunities: seq<Opportunity>) | Failed

  datatype View = View(route: Option<string>, requested: bool, loading: bool, error: Option<string>,
                       opportunities: seq<Opportunity>)

  /** The state after the mount effect. A missing or empty token sends the
      page to /login; the token test sits inside the `try`, so loading is
      cleared on the redirect path too. */
  function Mount(token: Option<string>, fetch: Fetch): (v: View)
    ensures !v.loading
    ensures !Truthy(token) <==> v.route == Some("/login")
    ensures !Truthy(token) ==> !v.requested && v.opportunities == [] && v.error.None?
    ensures Truthy(token) && fetch.Fetched? ==> v.requested && v.error.None? && v.opportunities == fetch.opportunities
    ensures Truthy(token) && fetch.Failed? ==>
              v.requested && v.error == Some("Failed to load volunteer opportunities") && v.opportunities == []
  {
    if !Truthy(token) then View(Some("/login"), false, false, None, [])
    else
      match fetch
      case Fetched(os) => View(None, true, false, None, os)
      case Failed => View(None, true, false, Some("Failed to load volunteer opportunities"), [])
  }
}
