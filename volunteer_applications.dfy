/** POST /api/volunteer/applications (app/api/volunteer/applications/route.ts):
    an unauthenticated application to a volunteer opportunity. Identifiers
    that look like sample data short-circuit into a synthetic answer; real
    ones must name an OPEN opportunity, and the application is stored as
    'pending'. */
module VolunteerApplications {
  import opened Common
  import opened Store

  /** Absent body fields are the empty string: the handler tests them for
      falsiness only. */
  datatype Body = Body(opportunityId: Id, organizationId: Id, name: string, email: string)

  datatype Answer =
    | Sample(message: string, id: string, name: string, email: string, status: string,
             opportunityId: Id, organizationId: Id, appliedAt: int)
    | Stored(message: string, application: Application)

  predicate MissingField(b: Body)
  {
    b.opportunityId == "" || b.organizationId == "" || b.name == "" || b.email == ""
  }

  predicate IsSample(b: Body)
  {
    StartsWith(b.opportunityId, "sample-") || StartsWith(b.organizationId, "sample-org-")
  }

  /** The opportunity the application names accepts applications. */
  predicate Open(t: Tables, id: Id)
  {
    Find(t.opportunities, OpportunityId, id).Some? && t.opportunities[Find(t.opportunities, OpportunityId, id).value].status == Some("OPEN")
  }

  /** `now` is the clock (`Date.now()`), also the creation and application time
      of a stored record. */
  function SubmitStep(t: Tables, b: Body, now: nat): (s: Step<Answer>)
    ensures s.response.Failure? || s.response.value.Sample? ==> s.after == t
    ensures MissingField(b) ==> s.response == Failure(400, "Missing required fields")
    ensures !MissingField(b) && IsSample(b) ==>
              s.response == Success(200, Sample("Application submitted successfully (Sample)", "sample-application-" + Digits(now),
                                                b.name, b.email, "pending", b.opportunityId, b.organizationId, now))
    ensures !MissingField(b) && !IsSample(b) && b.opportunityId !in Keys(t.opportunities, OpportunityId) ==>
              s.response == Failure(404, "Volunteer opportunity not found")
    ensures !MissingField(b) && !IsSample(b) && b.opportunityId in Keys(t.opportunities, OpportunityId) && !Open(t, b.opportunityId) ==>
              s.response == Failure(400, "This opportunity is no longer accepting applications")
    ensures s.response.Success? && s.response.value.Stored? <==> !MissingField(b) && !IsSample(b) && Open(t, b.opportunityId)
    ensures s.response.Success? && s.response.value.Stored? ==>
              var a := s.response.value.application;
              && !MissingField(b) && !IsSample(b) && Open(t, b.opportunityId)
              && s.response.value.message == "Application submitted successfully"
              && a == Application(IdFor(t.nextId), b.name, b.email, "pending", b.opportunityId, b.organizationId, now, now)
              && s.after == t.(applications := t.applications + [a], nextId := t.nextId + 1)
  {
    if MissingField(b) then Step(Failure(400, "Missing required fields"), t)
    else if IsSample(b) then
      Step(Success(200, Sample("Application submitted successfully (Sample)", "sample-application-" + Digits(now),
                               b.name, b.email, "pending", b.opportunityId, b.organizationId, now)), t)
    else
      FindInKeys(t.opportunities, OpportunityId, b.opportunityId);
      match Find(t.opportunities, OpportunityId, b.opportunityId)
      case None => Step(Failure(404, "Volunteer opportunity not found"), t)
      case Some(i) =>
        if t.opportunities[i].status != Some("OPEN") then
          Step(Failure(400, "This opportunity is no longer accepting applications"), t)
        else
          var a := Application(IdFor(t.nextId), b.name, b.email, "pending", b.opportunityId, b.organizationId, now, now);
          Step(Success(200, Stored("Application submitted successfully", a)),
               t.(applications := t.applications + [a], nextId := t.nextId + 1))
  }

  /** Every application this route stores, or pretends to, is 'pending'. */
  lemma AlwaysPending(t: Tables, b: Body, now: nat)
    requires SubmitStep(t, b, now).response.Success?
    ensures match SubmitStep(t, b, now).response.value
            case Sample(_, _, _, _, status, _, _, _) => status == "pending"
            case Stored(_, a) => a.status == "pending"
  {
  }

  /** The body's organisation is stored as given, even when the opportunity
      belongs to another organisation. */
  lemma {:induction false} OrganizationNotChecked(t: Tables, b: Body, now: nat, i: nat)
    requires WellFormed(t)
    requires !MissingField(b) && !IsSample(b)
    requires i < |t.opportunities| && t.opportunities[i].id == b.opportunityId && t.opportunities[i].status == Some("OPEN")
    requires t.opportunities[i].organizationId != b.organizationId
    ensures SubmitStep(t, b, now).response.Success?
    ensures SubmitStep(t, b, now).response.value.application.organizationId != t.opportunities[i].organizationId
  {
    FindUnique(t.opportunities, OpportunityId, b.opportunityId, i);
  }

  lemma {:induction false} SubmitKeepsInvariants(t: Tables, b: Body, now: nat)
    requires WellFormed(t)
    ensures WellFormed(SubmitStep(t, b, now).after)
  {
    var s := SubmitStep(t, b, now);
    if s.response.Success? && s.response.value.Stored? {
      var a := s.response.value.application;
      var i := Find(t.opportunities, OpportunityId, b.opportunityId).value;
      assert OpportunityId(t.opportunities[i]) in Keys(t.opportunities, OpportunityId);
      TableAppend(t.applications, ApplicationId, a, t.nextId);
      AllTablesGrow(t, t.nextId + 1);
      ReferencesAppend(t.applications, ApplicationOpportunity, a, Keys(t.opportunities, OpportunityId));
    }
  }

  method Submit(db: Database, b: Body, now: nat) returns (r: Response<Answer>)
    requires db.Valid()
    modifies db
    ensures db.Valid()
    ensures Step(r, db.Snapshot()) == SubmitStep(old(db.Snapshot()), b, now)
  {
    ghost var before := db.Snapshot();
    ghost var s := SubmitStep(before, b, now);
    if MissingField(b) {
      r := Failure(400, "Missing required fields");
      assert s == Step(r, before);
      return;
    }
    if IsSample(b) {
      r := Success(200, Sample("Application submitted successfully (Sample)", "sample-application-" + Digits(now),
                               b.name, b.email, "pending", b.opportunityId, b.organizationId, now));
      assert s == Step(r, before);
      return;
    }
    var found := Find(db.opportunities, OpportunityId, b.opportunityId);
    if found.None? {
      r := Failure(404, "Volunteer opportunity not found");
      assert s == Step(r, before);
      return;
    }
    if db.opportunities[found.value].status != Some("OPEN") {
      r := Failure(400, "This opportunity is no longer accepting applications");
      assert s == Step(r, before);
      return;
    }
    var a := Application(IdFor(db.nextId), b.name, b.email, "pending", b.opportunityId, b.organizationId, now, now);
    r := Success(200, Stored("Application submitted successfully", a));
    assert s == Step(r, before.(applications := before.applications + [a], nextId := before.nextId + 1));
    SubmitKeepsInvariants(before, b, now);
    db.AddApplication(a);
  }
}
