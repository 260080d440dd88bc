/** The public volunteer page (app/volunteer/page.tsx): the search filter over
    a fixed list of opportunities and the application dialog, whose form is
    reset on submit without being sent anywhere. */
module VolunteerPage {
  import opened Common

  datatype Opportunity = Opportunity(id: string, title: string, organization: string, description: string,
                                     category: string)

  /** The query is lower-cased but not trimmed. */
  predicate Matches(o: Opportunity, query: string)
  {
    IncludesIgnoringCase(o.title, query) || IncludesIgnoringCase(o.organization, query)
    || IncludesIgnoringCase(o.description, query) || IncludesIgnoringCase(o.category, query)
  }

  /** `filteredOpportunities`. */
  function Filtered(opportunities: seq<Opportunity>, query: string): (r: seq<Opportunity>)
    ensures forall o :: o in r <==> o in opportunities && Matches(o, query)
    ensures forall o :: multiset(r)[o] == if Matches(o, query) then multiset(opportunities)[o] else 0
    ensures IsSubsequence(r, opportunities)
  {
    Filter(opportunities, (o: Opportunity) => Matches(o, query))
  }

  /** An empty query keeps every opportunity, in order. */
  lemma {:induction false} EmptyQueryKeepsAll(opportunities: seq<Opportunity>)
    ensures Filtered(opportunities, "") == opportunities
  {
    forall o | o in opportunities
      ensures Matches(o, "")
    {
      EmptyQueryIncluded(o.title);
    }
    FilterAll(opportunities, (o: Opportunity) => Matches(o, ""));
  }

  /** The fields `handleChange` can name. */
  datatype Field = Name | Email | Phone | Experience | Motivation

  datatype Application = Application(name: string, email: string, phone: string, experience: string, motivation: string)

  const EmptyApplication := Application("", "", "", "", "")

  /** The form with one field set. */
  function Changed(a: Application, field: Field, value: string): (r: Application)
    ensures field == Name ==> r == a.(name := value)
    ensures field == Email ==> r == a.(email := value)
    ensures field == Phone ==> r == a.(phone := value)
    ensures field == Experience ==> r == a.(experience := value)
    ensures field == Motivation ==> r == a.(motivation := value)
  {
    match field
    case Name => a.(name := value)
    case Email => a.(email := value)
    case Phone => a.(phone := value)
    case Experience => a.(experience := value)
    case Motivation => a.(motivation := value)
  }

  class Page {
    var searchQuery: string
    var selected: Option<Opportunity>
    var dialogOpen: bool
    var formData: Application

    constructor()
      ensures searchQuery == "" && selected == None && !dialogOpen && formData == EmptyApplication
    {
      searchQuery, selected, dialogOpen, formData := "", None, false, EmptyApplication;
    }

    /** `handleApply`. */
    method Apply(o: Opportunity)
      modifies this
      ensures selected == Some(o) && dialogOpen
      ensures formData == old(formData) && searchQuery == old(searchQuery)
    {
      selected := Some(o);
      dialogOpen := true;
    }

    /** `handleChange`. */
    method Change(field: Field, value: string)
      modifies this
      ensures formData == Changed(old(formData), field, value)
      ensures selected == old(selected) && dialogOpen == old(dialogOpen) && searchQuery == old(searchQuery)
    {
      match field
      case Name => formData := formData.(name := value);
      case Email => formData := formData.(email := value);
      case Phone => formData := formData.(phone := value);
      case Experience => formData := formData.(experience := value);
      case Motivation => formData := formData.(motivation := value);
    }

    /** `handleSubmit`: the dialog closes and all five fields are cleared; the
        selection is left as it was. */
    method Submit()
      modifies this
      ensures formData == EmptyApplication && !dialogOpen
      ensures selected == old(selected) && searchQuery == old(searchQuery)
    {
      dialogOpen := false;
      formData := EmptyApplication;
    }
  }
}
