/** The NGO dashboard page (app/ngo/dashboard/page.tsx): a local campaign list
    to which the new-campaign dialog appends, with no validation of the form. */
module NgoDashboard {
  import opened Common

  /** `goal` stays the string the form holds; `id` is `Date.now()` as text. */
  datatype Campaign = Campaign(id: string, title: string, description: string, goal: string, category: string,
                               progress: int, createdAt: nat)

  datatype Draft = Draft(title: string, description: string, goal: string, category: string)

  const EmptyDraft := Draft("", "", "", "")

  /** The list after `handleCreateCampaign` at time `now`. */
  function Appended(campaigns: seq<Campaign>, d: Draft, now: nat): (r: seq<Campaign>)
    ensures |r| == |campaigns| + 1 && r[..|campaigns|] == campaigns
    ensures var c := r[|campaigns|];
            && c.title == d.title && c.description == d.description && c.goal == d.goal && c.category == d.category
            && c.progress == 0 && c.id == Digits(now) && c.createdAt == now
  {
    campaigns + [Campaign(Digits(now), d.title, d.description, d.goal, d.category, 0, now)]
  }

  /** The "new this month" figure: the count minus one, so an empty list
      shows "+-1 new this month". */
  function NewThisMonth(campaigns: seq<Campaign>): (r: int)
    ensures r < 0 <==> campaigns == []
    ensures campaigns == [] ==> r == -1
  {
    |campaigns| - 1
  }

  class Page {
    var campaigns: seq<Campaign>
    var newCampaign: Draft
    var dialogOpen: bool

    constructor(initial: seq<Campaign>)
      ensures campaigns == initial && newCampaign == EmptyDraft && !dialogOpen
    {
      campaigns, newCampaign, dialogOpen := initial, EmptyDraft, false;
    }

    /** The form's inputs (`setNewCampaign` with one field changed). */
    method Edit(d: Draft)
      modifies this
      ensures newCampaign == d && campaigns == old(campaigns) && dialogOpen == old(dialogOpen)
    {
      newCampaign := d;
    }

    /** `handleCreateCampaign`: appends whatever the form holds, even empty
        fields, closes the dialog and resets the form. */
    method CreateCampaign(now: nat)
      modifies this
      ensures campaigns == Appended(old(campaigns), old(newCampaign), now)
      ensures newCampaign == EmptyDraft && !dialogOpen
    {
      var c := Campaign(Digits(now), newCampaign.title, newCampaign.description, newCampaign.goal,
                        newCampaign.category, 0, now);
      campaigns := campaigns + [c];
      dialogOpen := false;
      newCampaign := EmptyDraft;
    }
  }
}
