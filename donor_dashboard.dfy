/** The donor dashboard page (app/donor/dashboard/page.tsx): the token gate
    and fetch of the donor's donations, the total donated and the number of
    campaigns supported. */
module DonorDashboard {
  import opened Common

  datatype Donation = Donation(id: string, amount: real, campaignTitle: string)

  function Amounts(ds: seq<Donation>): (r: seq<real>)
    ensures |r| == |ds| && forall i :: 0 <= i < |ds| ==> r[i] == ds[i].amount
  {
    seq(|ds|, i requires 0 <= i < |ds| => ds[i].amount)
  }

  /** `donations.reduce((sum, d) => sum + d.amount, 0)`: a left fold from 0. */
  function Total(ds: seq<Donation>): real
  {
    if ds == [] then 0.0 else Total(ds[..|ds| - 1]) + ds[|ds| - 1].amount
  }

  lemma {:induction false} SumAppend(s: seq<real>, x: real)
    ensures SumReals(s + [x]) == SumReals(s) + x
    decreases |s|
  {
    if s != [] {
      assert (s + [x])[1..] == s[1..] + [x];
      SumAppend(s[1..], x);
    }
  }

  /** The left fold adds the same amounts as the sum taken from the right:
      the total is the sum of the amounts, 0 for no donation. */
  lemma {:induction false} TotalIsSum(ds: seq<Donation>)
    ensures Total(ds) == SumReals(Amounts(ds))
    decreases |ds|
  {
    if ds != [] {
      var init := ds[..|ds| - 1];
      TotalIsSum(init);
      assert Amounts(ds) == Amounts(init) + [ds[|ds| - 1].amount];
      SumAppend(Amounts(init), ds[|ds| - 1].amount);
    }
  }

  /** With no negative amount the total is never negative. */
  lemma {:induction false} TotalNonNegative(ds: seq<Donation>)
    requires forall i :: 0 <= i < |ds| ==> ds[i].amount >= 0.0
    ensures Total(ds) >= 0.0
    decreases |ds|
  {
    if ds != [] {
      TotalNonNegative(ds[..|ds| - 1]);
    }
  }

  function Titles(ds: seq<Donation>): (r: seq<string>)
    ensures |r| == |ds| && forall i :: 0 <= i < |ds| ==> r[i] == ds[i].campaignTitle
  {
    seq(|ds|, i requires 0 <= i < |ds| => ds[i].campaignTitle)
  }

  /** "Campaigns supported": the number of distinct campaign titles. */
  function CampaignsSupported(ds: seq<Donation>): (r: nat)
    ensures r <= |ds|
    ensures ds != [] ==> r >= 1
    ensures r == |Distinct(Titles(ds))|
    ensures forall t :: t in Distinct(Titles(ds)) <==> exists i :: 0 <= i < |ds| && ds[i].campaignTitle == t
  {
    DistinctBound(Titles(ds));
    assert ds != [] ==> Titles(ds)[0] in Distinct(Titles(ds));
    |Distinct(Titles(ds))|
  }

  /** One more donation raises the count by one exactly when its campaign has
      no earlier donation. */
  lemma CampaignsSupportedAppend(ds: seq<Donation>, d: Donation)
    ensures CampaignsSupported(ds + [d]) == CampaignsSupported(ds) + if d.campaignTitle in Titles(ds) then 0 else 1
  {
    assert Titles(ds + [d]) == Titles(ds) + [d.campaignTitle] by {
      assert forall i :: 0 <= i < |ds| ==> (ds + [d])[i] == ds[i];
    }
    DistinctAppend(Titles(ds), d.campaignTitle);
  }

  // ---------------------------------------------------------------------------
  // Page state

  /** The outcome of the donations fetch: the parsed list, or the message of
      the error thrown (`'Failed to fetch donations'` for a non-ok answer). */
  datatype Fetch = Fetched(donations: seq<Donation>) | Failed(message: string)

  datatype View = View(route: Option<string>, requested: bool, loading: bool, error: Option<string>,
                       donations: seq<Donation>)

  /** The state after the mount effect has run. Without a token (none stored,
      or the empty string) the page is sent to /login before any request;
      loading is then never cleared. */
  function Mount(token: Option<string>, fetch: Fetch): (v: View)
    ensures !Truthy(token) <==> v.route == Some("/login")
    ensures !Truthy(token) ==> !v.requested && v.loading && v.donations == []
    ensures Truthy(token) ==> v.requested && !v.loading
    ensures Truthy(token) && fetch.Fetched? ==> v.error.None? && v.donations == fetch.donations
    ensures Truthy(token) && fetch.Failed? ==> v.error == Some(fetch.message) && v.donations == []
  {
    if !Truthy(token) then View(Some("/login"), false, true, None, [])
    else
      match fetch
      case Fetched(ds) => View(None, true, false, None, ds)
      case Failed(m) => View(None, true, false, Some(m), [])
  }

  /** The no-donations message is shown once the page has loaded an empty list. */
  predicate ShowsNoDonations(v: View)
  {
    !v.loading && v.error.None? && v.donations == []
  }
}
