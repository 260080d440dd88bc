/** The admin dashboard page (app/admin/dashboard/page.tsx): a local NGO list
    whose status `handleNGOStatus` rewrites by id, and the search filter over
    name, e-mail and description. */
module AdminDashboard {
  import opened Common

  datatype Ngo = Ngo(id: string, name: string, email: string, status: string, description: string)

  /** `filteredNGOs`: the query is lower-cased but not trimmed. */
  predicate Matches(n: Ngo, query: string)
  {
    IncludesIgnoringCase(n.name, query) || IncludesIgnoringCase(n.email, query)
    || IncludesIgnoringCase(n.description, query)
  }

  function Filtered(ngos: seq<Ngo>, query: string): (r: seq<Ngo>)
    ensures forall n :: n in r <==> n in ngos && Matches(n, query)
    ensures forall n :: multiset(r)[n] == if Matches(n, query) then multiset(ngos)[n] else 0
    ensures IsSubsequence(r, ngos)
  {
    Filter(ngos, (n: Ngo) => Matches(n, query))
  }

  /** An empty query keeps every NGO, in order. */
  lemma {:induction false} EmptyQueryKeepsAll(ngos: seq<Ngo>)
    ensures Filtered(ngos, "") == ngos
  {
    forall n | n in ngos
      ensures Matches(n, "")
    {
      EmptyQueryIncluded(n.name);
    }
    FilterAll(ngos, (n: Ngo) => Matches(n, ""));
  }

  /** Approve and Reject are shown only for `pending` entries. */
  predicate ActionsShown(n: Ngo)
  {
    n.status == "pending"
  }

  /** The list with `status` set on the entries whose id is `id`. */
  function WithStatus(ngos: seq<Ngo>, id: string, status: string): (r: seq<Ngo>)
    ensures |r| == |ngos|
    ensures forall i :: 0 <= i < |ngos| && ngos[i].id == id ==> r[i] == ngos[i].(status := status)
    ensures forall i :: 0 <= i < |ngos| && ngos[i].id != id ==> r[i] == ngos[i]
  {
    UpdateWhere(ngos, (n: Ngo) => n.id == id, (n: Ngo) => n.(status := status))
  }

  /** A decision hides the actions of the decided entries and leaves the
      search result of the others as it was: the status is not searched. */
  lemma {:induction false} DecisionKeepsSearch(ngos: seq<Ngo>, id: string, status: string, query: string)
    requires status == "approved" || status == "rejected"
    ensures var r := WithStatus(ngos, id, status);
            && (forall i :: 0 <= i < |r| && r[i].id == id ==> !ActionsShown(r[i]))
            && |Filtered(r, query)| == |Filtered(ngos, query)|
  {
    var r := WithStatus(ngos, id, status);
    FilterSameVerdicts(ngos, r, query);
  }

  lemma {:induction false} FilterSameVerdicts(a: seq<Ngo>, b: seq<Ngo>, query: string)
    requires |a| == |b| && forall i :: 0 <= i < |a| ==> (Matches(a[i], query) <==> Matches(b[i], query))
    ensures |Filter(a, (n: Ngo) => Matches(n, query))| == |Filter(b, (n: Ngo) => Matches(n, query))|
  {
    if a != [] {
      FilterSameVerdicts(a[1..], b[1..], query);
    }
  }

  class Page {
    var ngos: seq<Ngo>
    var searchQuery: string

    constructor(initial: seq<Ngo>)
      ensures ngos == initial && searchQuery == ""
    {
      ngos, searchQuery := initial, "";
    }

    /** `handleNGOStatus`. */
    method SetStatus(id: string, status: string)
      modifies this
      ensures ngos == WithStatus(old(ngos), id, status)
      ensures searchQuery == old(searchQuery)
    {
      ngos := WithStatus(ngos, id, status);
    }

    /** The search box (`setSearchQuery`). */
    method Search(query: string)
      modifies this
      ensures searchQuery == query && ngos == old(ngos)
    {
      searchQuery := query;
    }

    function Shown(): (r: seq<Ngo>)
      reads this
      ensures IsSubsequence(r, ngos)
      ensures forall n :: n in r <==> n in ngos && Matches(n, searchQuery)
    {
      Filtered(ngos, searchQuery)
    }
  }
}
