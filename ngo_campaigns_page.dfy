/** The organisation's campaign list (app/ngo/campaigns/page.tsx): one fetch
    on mount, then a loading, error, empty or grid screen; each card shows a
    status label and a funding percentage. */
module NgoCampaignsPage {
  import opened Common

  /** The fields of a fetched campaign the page reads; a missing target is `None`. */
  datatype Campaign = Campaign(id: string, title: string, status: Option<string>,
                               currentAmount: real, targetAmount: Option<real>)

  /** A target JavaScript treats as false: missing or zero. */
  predicate Falsy(target: Option<real>)
  {
    target.None? || target.value == 0.0
  }

  /** The progress figure: 0 for a falsy target, otherwise the nearest integer
      (halves up) to the percentage of the target that has been raised. */
  function Progress(currentAmount: real, targetAmount: Option<real>): (p: int)
    ensures Falsy(targetAmount) ==> p == 0
    ensures !Falsy(targetAmount) ==>
              var pct := currentAmount / targetAmount.value * 100.0;
              p as real - 0.5 <= pct < p as real + 0.5
  {
    if Falsy(targetAmount) then 0
    else
      RoundBounds(currentAmount / targetAmount.value * 100.0);
      Round(currentAmount / targetAmount.value * 100.0)
  }

  /** A campaign that has raised exactly its target shows 100. */
  lemma {:induction false} TargetReachedIsHundred(target: real)
    requires target != 0.0
    ensures Progress(target, Some(target)) == 100
  {
    assert target / target * 100.0 == 100.0;
  }

  /** The figure is not capped: raising k times the target shows 100·k. */
  lemma {:induction false} ProgressNotCapped(target: real, k: nat)
    requires target != 0.0
    ensures Progress(target * k as real, Some(target)) == 100 * k
  {
    ScaledPercentage(target, k);
  }

  /** No ASCII capital letter. */
  predicate NoCapitals(s: string)
  {
    forall i :: 0 <= i < |s| ==> !('A' <= s[i] <= 'Z')
  }

  /** The status label: the lower-cased status, or `active` when the status is
      missing or empty (an empty string is false for `||`). */
  function StatusLabel(status: Option<string>): (r: string)
    ensures r != "" && NoCapitals(r)
    ensures status.Some? && status.value != "" ==>
              |r| == |status.value| && LowerStr(r) == LowerStr(status.value)
    ensures status.None? || status.value == "" ==> r == "active"
  {
    if status.None? || status.value == "" then "active"
    else
      var r := LowerStr(status.value);
      assert LowerStr(r) == r;
      r
  }

  /** The component state: the list, the loading flag and the error. */
  datatype State = State(campaigns: seq<Campaign>, loading: bool, error: Option<string>)

  const Initial := State([], true, None)

  /** The state after the mount effect: `None` is a failed or non-ok fetch. */
  function AfterFetch(fetched: Option<seq<Campaign>>): (s: State)
    ensures !s.loading
    ensures fetched.None? ==> s.error == Some("Failed to load campaigns") && s.campaigns == []
    ensures fetched.Some? ==> s.error.None? && s.campaigns == fetched.value
  {
    match fetched
    case None => State([], false, Some("Failed to load campaigns"))
    case Some(cs) => State(cs, false, None)
  }

  /** One rendered card. */
  datatype CardView = CardView(title: string, statusLabel: string, progress: int)

  datatype Screen = Spinner | ErrorText(message: string) | EmptyText(message: string) | Grid(cards: seq<CardView>)

  /** What the page renders for a state: loading first, then the error, then
      the empty message, then one card per campaign in order. */
  function Render(s: State): (v: Screen)
    ensures s.loading <==> v.Spinner?
    ensures !s.loading && s.error.Some? ==> v == ErrorText(s.error.value)
    ensures v.EmptyText? <==> !s.loading && s.error.None? && s.campaigns == []
    ensures v.EmptyText? ==> v.message == "No campaigns found."
    ensures v.Grid? ==>
              |v.cards| == |s.campaigns| > 0
              && forall i :: 0 <= i < |s.campaigns| ==>
                   v.cards[i] == CardView(s.campaigns[i].title, StatusLabel(s.campaigns[i].status),
                                          Progress(s.campaigns[i].currentAmount, s.campaigns[i].targetAmount))
  {
    if s.loading then Spinner
    else if s.error.Some? then ErrorText(s.error.value)
    else if s.campaigns == [] then EmptyText("No campaigns found.")
    else Grid(seq(|s.campaigns|, i requires 0 <= i < |s.campaigns| =>
                CardView(s.campaigns[i].title, StatusLabel(s.campaigns[i].status),
                         Progress(s.campaigns[i].currentAmount, s.campaigns[i].targetAmount))))
  }

  /** Before the fetch settles the spinner shows; afterwards a failed fetch
      shows the error and an empty list shows the empty message. */
  lemma {:induction false} Screens(fetched: Option<seq<Campaign>>)
    ensures Render(Initial) == Spinner
    ensures fetched.None? ==> Render(AfterFetch(fetched)) == ErrorText("Failed to load campaigns")
    ensures fetched == Some([]) ==> Render(AfterFetch(fetched)) == EmptyText("No campaigns found.")
    ensures fetched.Some? && fetched.value != [] ==> |Render(AfterFetch(fetched)).cards| == |fetched.value|
  {
  }
}
