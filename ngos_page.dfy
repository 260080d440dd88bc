/** The public NGO directory page (app/ngos/page.tsx): the list fetched from
    /api/ngos and the search filter over name and description. */
module NgosPage {
  import opened Common

  /** The fields the page reads from a listed NGO. */
  datatype Ngo = Ngo(id: string, name: string, description: string, email: string)

  /** The e-mail is not searched. */
  predicate Matches(n: Ngo, query: string)
  {
    IncludesIgnoringCase(n.name, query) || IncludesIgnoringCase(n.description, query)
  }

  /** `filteredNGOs`. */
  function Filtered(ngos: seq<Ngo>, query: string): (r: seq<Ngo>)
    ensures forall n :: n in r <==> n in ngos && Matches(n, query)
    ensures forall n :: multiset(r)[n] == if Matches(n, query) then multiset(ngos)[n] else 0
    ensures IsSubsequence(r, ngos)
  {
    Filter(ngos, (n: Ngo) => Matches(n, query))
  }

  /** An empty query keeps every NGO, in order. */
  lemma {:induction false} EmptyQueryKeepsAll(ngos: seq<Ngo>)
    ensures Filtered(ngos, "") == ngos
  {
    forall n | n in ngos
      ensures Matches(n, "")
    {
      EmptyQueryIncluded(n.name);
    }
    FilterAll(ngos, (n: Ngo) => Matches(n, ""));
  }

  /** Two NGOs that differ only in their e-mail are kept or dropped together. */
  lemma {:induction false} EmailNotSearched(n: Ngo, email: string, query: string)
    ensures Matches(n.(email := email), query) == Matches(n, query)
  {
  }

  class Page {
    var ngos: seq<Ngo>
    var isLoading: bool
    var searchQuery: string

    constructor()
      ensures ngos == [] && isLoading && searchQuery == ""
    {
      ngos, isLoading, searchQuery := [], true, "";
    }

    /** The fetch effect; `fetched` is `None` when the request failed or
        answered non-ok. The list then stays as it was, and loading clears
        whatever the outcome. */
    method Load(fetched: Option<seq<Ngo>>)
      modifies this
      ensures ngos == if fetched.Some? then fetched.value else old(ngos)
      ensures !isLoading && searchQuery == old(searchQuery)
    {
      if fetched.Some? {
        ngos := fetched.value;
      }
      isLoading := false;
    }

    function Shown(): (r: seq<Ngo>)
      reads this
      ensures IsSubsequence(r, ngos)
      ensures forall n :: n in r <==> n in ngos && Matches(n, searchQuery)
    {
      Filtered(ngos, searchQuery)
    }
  }
}
