/** The NGO's volunteer applications page (app/ngo/volunteers/page.tsx): the
    fetched list, replaced by an empty one on any fetch failure, and the
    status update that rewrites the local list only after the PATCH request
    answered ok. */
module NgoVolunteersPage {
  import opened Common

  /** One listed application; date, volunteer and campaign are only shown. */
  datatype Row = Row(id: string, status: string, createdAt: string, volunteer: string, campaign: string)

  /** The outcome of the initial fetch: a network or non-ok failure, or the
      parsed body, which is `None` when it is not an array. */
  datatype Fetched = Failed | Body(rows: Option<seq<Row>>)

  /** The list the page keeps from a fetch outcome. */
  function Loaded(f: Fetched): (r: seq<Row>)
    ensures f.Body? && f.rows.Some? ==> r == f.rows.value
    ensures f.Failed? || f.rows.None? ==> r == []
  {
    match f
    case Failed => []
    case Body(rows) => if rows.Some? then rows.value else []
  }

  /** Approve and Reject are rendered only for `PENDING` rows. */
  predicate ActionsShown(a: Row)
  {
    a.status == "PENDING"
  }

  /** The list with `status` set on the rows whose id is `id`. */
  function WithStatus(rows: seq<Row>, id: string, status: string): (r: seq<Row>)
    ensures |r| == |rows|
    ensures forall i :: 0 <= i < |rows| && rows[i].id == id ==> r[i] == rows[i].(status := status)
    ensures forall i :: 0 <= i < |rows| && rows[i].id != id ==> r[i] == rows[i]
  {
    UpdateWhere(rows, (a: Row) => a.id == id, (a: Row) => a.(status := status))
  }

  class Page {
    var applications: seq<Row>
    var loading: bool

    constructor()
      ensures applications == [] && loading
    {
      applications, loading := [], true;
    }

    /** The fetch effect: loading is cleared whatever the outcome. */
    method Load(f: Fetched)
      modifies this
      ensures applications == Loaded(f) && !loading
    {
      if f.Body? && f.rows.Some? {
        applications := f.rows.value;
      } else {
        applications := [];
      }
      loading := false;
    }

    /** `handleStatusUpdate`, given whether the PATCH answered ok. */
    method UpdateStatus(applicationId: string, newStatus: string, ok: bool)
      modifies this
      ensures ok ==> applications == WithStatus(old(applications), applicationId, newStatus)
      ensures !ok ==> applications == old(applications)
      ensures loading == old(loading)
    {
      if !ok {
        return;
      }
      applications := WithStatus(applications, applicationId, newStatus);
    }
  }
}
