/** POST /api/admin/ngos/approve and POST /api/admin/ngos/reject
    (app/api/admin/ngos/approve/route.ts, app/api/admin/ngos/reject/route.ts):
    overwrite one organisation's status. Neither route authenticates the
    caller or looks at the status it overwrites. */
module AdminNgoStatus {
  import opened Common
  import opened Store

  datatype Decided = Decided(message: string, organization: Organization)

  /** The shared shape of both routes: `status` is written, `message` answers
      success and `failed` answers any store error (no organisation has the id). */
  function SetStatus(t: Tables, id: Id, status: string, message: string, failed: string): (s: Step<Decided>)
    ensures s.response.Failure? ==> s.after == t
    ensures id == "" ==> s.response == Failure(400, "NGO id is required")
    ensures id != "" && id !in Keys(t.organizations, OrgId) ==> s.response == Failure(500, failed)
    ensures s.response.Success? <==> id != "" && id in Keys(t.organizations, OrgId)
    ensures s.response.Success? ==>
              var i := Find(t.organizations, OrgId, id).value;
              && s.response == Success(200, Decided(message, t.organizations[i].(status := Some(status))))
              && s.after == t.(organizations := t.organizations[i := t.organizations[i].(status := Some(status))])
  {
    if id == "" then Step(Failure(400, "NGO id is required"), t)
    else
      match Find(t.organizations, OrgId, id)
      case None => Step(Failure(500, failed), t)
      case Some(i) =>
        var o := t.organizations[i].(status := Some(status));
        Step(Success(200, Decided(message, o)), t.(organizations := t.organizations[i := o]))
  }

  function Approve(t: Tables, id: Id): (s: Step<Decided>)
    ensures s.response.Success? ==> s.response.value.organization.status == Some("APPROVED")
    ensures s.response.Failure? ==> s.response.status in {400, 500}
  {
    SetStatus(t, id, "APPROVED", "NGO approved", "Error approving NGO")
  }

  function Reject(t: Tables, id: Id): (s: Step<Decided>)
    ensures s.response.Success? ==> s.response.value.organization.status == Some("REJECTED")
    ensures s.response.Failure? ==> s.response.status in {400, 500}
  {
    SetStatus(t, id, "REJECTED", "NGO rejected", "Error rejecting NGO")
  }

  /** Only the status of the named organisation changes. */
  lemma {:induction false} OnlyStatusChanges(t: Tables, id: Id, status: string, message: string, failed: string)
    ensures var t' := SetStatus(t, id, status, message, failed).after;
            && |t'.organizations| == |t.organizations|
            && (forall i :: 0 <= i < |t.organizations| ==>
                  t'.organizations[i] == t.organizations[i].(status := t'.organizations[i].status))
            && (forall i :: 0 <= i < |t.organizations| && t.organizations[i].id != id ==> t'.organizations[i] == t.organizations[i])
            && t'.users == t.users && t'.campaigns == t.campaigns && t'.opportunities == t.opportunities
            && t'.applications == t.applications && t'.donations == t.donations && t'.nextId == t.nextId
  {
    var s := SetStatus(t, id, status, message, failed);
    if s.response.Success? {
      var i := Find(t.organizations, OrgId, id).value;
      assert t.organizations[i].id == id;
    }
  }

  /** Setting the status twice is the same as setting it once. */
  lemma {:induction false} Idempotent(t: Tables, id: Id, status: string, message: string, failed: string)
    ensures var s := SetStatus(t, id, status, message, failed);
            SetStatus(s.after, id, status, message, failed) == s
  {
    var s := SetStatus(t, id, status, message, failed);
    if s.response.Success? {
      var i := Find(t.organizations, OrgId, id).value;
      var os := s.after.organizations;
      assert Keys(os, OrgId) == Keys(t.organizations, OrgId);
      FindByKeys(t.organizations, os, OrgId, id);
      assert os[i := os[i].(status := Some(status))] == os;
    }
  }

  /** No guard on the prior status: an approval after a rejection succeeds,
      and the last decision wins. */
  lemma {:induction false} LastDecisionWins(t: Tables, id: Id)
    requires Reject(t, id).response.Success?
    ensures Approve(Reject(t, id).after, id).response.Success?
    ensures Approve(Reject(t, id).after, id).after == Approve(t, id).after
  {
    var r := Reject(t, id);
    var i := Find(t.organizations, OrgId, id).value;
    var os := r.after.organizations;
    assert Keys(os, OrgId) == Keys(t.organizations, OrgId);
    FindByKeys(t.organizations, os, OrgId, id);
  }

  /** The status is not part of the store's constraints or of ownership, so
      both are kept. */
  lemma {:induction false} SetStatusKeepsInvariants(t: Tables, id: Id, status: string, message: string, failed: string)
    requires WellFormed(t)
    ensures WellFormed(SetStatus(t, id, status, message, failed).after)
    ensures OrgRoleConsistent(t) ==> OrgRoleConsistent(SetStatus(t, id, status, message, failed).after)
  {
    var s := SetStatus(t, id, status, message, failed);
    if s.response.Success? {
      var i := Find(t.organizations, OrgId, id).value;
      var o := t.organizations[i].(status := Some(status));
      var os := t.organizations[i := o];
      TableReplace(t.organizations, OrgId, i, o, t.nextId);
      assert Keys(os, OrgOwner) == Keys(t.organizations, OrgOwner);
      assert OrgOwner(t.organizations[i]) in Keys(t.users, UserId);
      forall j | 0 <= j < |os|
        ensures OrgOwner(os[j]) in Keys(t.users, UserId)
      {
        if j != i {
          assert os[j] == t.organizations[j];
        }
      }
    }
  }

  method Decide(db: Database, id: Id, status: string, message: string, failed: string) returns (r: Response<Decided>)
    requires db.Valid()
    modifies db
    ensures db.Valid()
    ensures Step(r, db.Snapshot()) == SetStatus(old(db.Snapshot()), id, status, message, failed)
  {
    SetStatusKeepsInvariants(db.Snapshot(), id, status, message, failed);
    if id == "" {
      return Failure(400, "NGO id is required");
    }
    var found := Find(db.organizations, OrgId, id);
    if found.None? {
      return Failure(500, failed);
    }
    var o := db.organizations[found.value].(status := Some(status));
    db.SetOrganization(found.value, o);
    r := Success(200, Decided(message, o));
  }
}
