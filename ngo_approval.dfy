/** The admin's NGO approval panel (components/admin/ngo-approval.tsx): a
    local list of registration requests whose status the approve and reject
    handlers rewrite by id, with the rejection dialog's state beside it. No
    request leaves the component. */
module NgoApproval {
  import opened Common

  /** A registration request; phone, location, date and documents are only shown. */
  datatype Ngo = Ngo(id: string, name: string, email: string, description: string, status: string)

  /** The list with `status` set on every entry whose id is `id`. */
  function WithStatus(ngos: seq<Ngo>, id: string, status: string): (r: seq<Ngo>)
    ensures |r| == |ngos|
    ensures forall i :: 0 <= i < |ngos| && ngos[i].id == id ==> r[i] == ngos[i].(status := status)
    ensures forall i :: 0 <= i < |ngos| && ngos[i].id != id ==> r[i] == ngos[i]
  {
    UpdateWhere(ngos, (n: Ngo) => n.id == id, (n: Ngo) => n.(status := status))
  }

  /** Approve and Reject are offered for an entry only while it is Pending. */
  predicate ActionsOffered(n: Ngo)
  {
    n.status == "Pending"
  }

  /** Some entry with this id still offers actions. */
  predicate Offered(ngos: seq<Ngo>, id: string)
  {
    exists i :: 0 <= i < |ngos| && ngos[i].id == id && ActionsOffered(ngos[i])
  }

  /** Through the panel an NGO leaves Pending at most once: after a decision
      nothing is offered for that id any more, so no second decision can be
      made, and the decision left every other entry's offers as they were. */
  lemma {:induction false} DecidedOnce(ngos: seq<Ngo>, id: string, status: string)
    requires status != "Pending"
    ensures !Offered(WithStatus(ngos, id, status), id)
    ensures forall other :: other != id ==> (Offered(WithStatus(ngos, id, status), other) <==> Offered(ngos, other))
  {
    var r := WithStatus(ngos, id, status);
    forall other | other != id
      ensures Offered(r, other) <==> Offered(ngos, other)
    {
      if Offered(ngos, other) {
        var i :| 0 <= i < |ngos| && ngos[i].id == other && ActionsOffered(ngos[i]);
        assert r[i] == ngos[i];
      }
      if Offered(r, other) {
        var i :| 0 <= i < |r| && r[i].id == other && ActionsOffered(r[i]);
        assert r[i] == ngos[i];
      }
    }
  }

  class Panel {
    var ngos: seq<Ngo>
    var selected: Option<Ngo>
    var rejectionReason: string
    var rejectionOpen: bool

    constructor(initial: seq<Ngo>)
      ensures ngos == initial && selected == None && rejectionReason == "" && !rejectionOpen
    {
      ngos, selected, rejectionReason, rejectionOpen := initial, None, "", false;
    }

    /** Confirm Rejection is enabled iff the trimmed reason is non-empty. */
    predicate ConfirmEnabled()
      reads this
    {
      Trim(rejectionReason) != ""
    }

    /** `handleApprove`. */
    method Approve(ngo: Ngo)
      modifies this
      ensures ngos == WithStatus(old(ngos), ngo.id, "Approved")
      ensures selected == old(selected) && rejectionReason == old(rejectionReason) && rejectionOpen == old(rejectionOpen)
    {
      ngos := WithStatus(ngos, ngo.id, "Approved");
    }

    /** `openRejectionDialog`. */
    method OpenRejection(ngo: Ngo)
      modifies this
      ensures selected == Some(ngo) && rejectionReason == "" && rejectionOpen
      ensures ngos == old(ngos)
    {
      selected := Some(ngo);
      rejectionReason := "";
      rejectionOpen := true;
    }

    /** Typing in the reason box. */
    method SetReason(text: string)
      modifies this
      ensures rejectionReason == text
      ensures ngos == old(ngos) && selected == old(selected) && rejectionOpen == old(rejectionOpen)
    {
      rejectionReason := text;
    }

    /** `handleReject`: nothing without a selection; otherwise the selected id
        is rejected and the dialog closes. The reason is not kept anywhere. */
    method Reject()
      modifies this
      ensures old(selected).None? ==>
                ngos == old(ngos) && rejectionOpen == old(rejectionOpen)
      ensures old(selected).Some? ==>
                ngos == WithStatus(old(ngos), old(selected).value.id, "Rejected") && !rejectionOpen
      ensures selected == old(selected) && rejectionReason == old(rejectionReason)
    {
      if selected.None? {
        return;
      }
      ngos := WithStatus(ngos, selected.value.id, "Rejected");
      rejectionOpen := false;
    }
  }
}
