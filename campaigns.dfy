/** /api/campaigns (app/api/campaigns/route.ts). GET and POST act for the
    organisation the bearer token's user owns. PUT and DELETE call a
    `verifyToken` that the file neither defines nor imports, so as written
    they always fail inside their `try`; they are modelled twice: as written,
    and as evidently intended, with the shared gate of lib/middleware.ts and
    the ownership rule that follows it. */
module Campaigns {
  import opened Common
  import opened Store
  import Middleware
  import OrgGate

  function CreatedAt(c: Campaign): int { c.createdAt }

  // ---------------------------------------------------------------------------
  // GET

  /** The caller's organisation's campaigns, newest first. */
  function Get(t: Tables, header: Option<string>, tokens: Middleware.Tokens): (r: Response<seq<Campaign>>)
    ensures !Middleware.HasBearer(header) ==> r == Failure(401, "Unauthorized")
    ensures OrgGate.Resolve(t, header, tokens).Err? ==>
              r == OrgGate.Refusal(OrgGate.Resolve(t, header, tokens).error, "Failed to fetch campaigns")
    ensures r.Success? <==> OrgGate.Resolve(t, header, tokens).Ok?
    ensures r.Success? ==>
              var mine := OrgGate.Resolve(t, header, tokens).value.organization.id;
              && r.status == 200
              && (forall c :: c in r.value <==> c in t.campaigns && c.organizationId == mine)
              && (forall c {:trigger multiset(r.value)[c]} ::
                    multiset(r.value)[c] == if c.organizationId == mine then multiset(t.campaigns)[c] else 0)
              && Descending(r.value, CreatedAt)
  {
    match OrgGate.Resolve(t, header, tokens)
    case Err(d) => OrgGate.Refusal(d, "Failed to fetch campaigns")
    case Ok(caller) =>
      var mine := Filter(t.campaigns, (c: Campaign) => c.organizationId == caller.organization.id);
      var sorted := NewestFirst(mine, CreatedAt);
      Success(200, sorted)
  }

  // ---------------------------------------------------------------------------
  // POST

  /** `targetAmount` is `None` when absent; 0 is falsy as well. */
  datatype PostBody = PostBody(
    title: string, description: string, targetAmount: Option<real>, endDate: string, image: Option<string>)

  predicate Complete(b: PostBody)
  {
    b.title != "" && b.description != "" && b.targetAmount.Some? && b.targetAmount.value != 0.0 && b.endDate != ""
  }

  /** `defaultAmount` is the amount raised the schema gives a new campaign;
      the route does not set it. */
  function PostStep(t: Tables, header: Option<string>, tokens: Middleware.Tokens, b: PostBody, defaultAmount: real, now: int): (s: Step<Campaign>)
    ensures s.response.Failure? ==> s.after == t
    ensures OrgGate.Resolve(t, header, tokens).Err? ==>
              s.response == OrgGate.Refusal(OrgGate.Resolve(t, header, tokens).error, "Failed to create campaign")
    ensures OrgGate.Resolve(t, header, tokens).Ok? && !Complete(b) ==>
              s.response == Failure(400, "Title, description, target amount, and end date are required")
    ensures s.response.Success? <==> OrgGate.Resolve(t, header, tokens).Ok? && Complete(b)
    ensures s.response.Success? ==>
              var caller := OrgGate.Resolve(t, header, tokens).value;
              var c := s.response.value;
              && s.response.status == 200
              && Complete(b)
              && c.organizationId == caller.organization.id && c.userId == caller.claims.userId
              && c.title == b.title && c.description == b.description && c.targetAmount == b.targetAmount.value
              && c.endDate == b.endDate && c.image == b.image && c.currentAmount == defaultAmount
              && c.id == IdFor(t.nextId) && c.createdAt == now
              && s.after == t.(campaigns := t.campaigns + [c], nextId := t.nextId + 1)
  {
    match OrgGate.Resolve(t, header, tokens)
    case Err(d) => Step(OrgGate.Refusal(d, "Failed to create campaign"), t)
    case Ok(caller) =>
      if !Complete(b) then
        Step(Failure(400, "Title, description, target amount, and end date are required"), t)
      else
        var c := Campaign(IdFor(t.nextId), b.title, b.description, b.targetAmount.value, defaultAmount, b.endDate, b.image,
                          caller.organization.id, caller.claims.userId, now);
        Step(Success(200, c), t.(campaigns := t.campaigns + [c], nextId := t.nextId + 1))
  }

  lemma {:induction false} PostKeepsInvariants(t: Tables, header: Option<string>, tokens: Middleware.Tokens, b: PostBody, defaultAmount: real, now: int)
    requires WellFormed(t)
    ensures WellFormed(PostStep(t, header, tokens, b, defaultAmount, now).after)
  {
    var s := PostStep(t, header, tokens, b, defaultAmount, now);
    if s.response.Success? {
      var c := s.response.value;
      var caller := OrgGate.Resolve(t, header, tokens).value;
      OrgGate.OwnerExists(t, header, tokens);
      var i :| 0 <= i < |t.organizations| && t.organizations[i] == caller.organization;
      assert OrgId(t.organizations[i]) in Keys(t.organizations, OrgId);
      TableAppend(t.campaigns, CampaignId, c, t.nextId);
      AllTablesGrow(t, t.nextId + 1);
      ReferencesAppend(t.campaigns, CampaignOwner, c, Keys(t.users, UserId));
      ReferencesAppend(t.campaigns, CampaignOrg, c, Keys(t.organizations, OrgId));
      ReferencesWiden(t.donations, DonationCampaign, Keys(t.campaigns, CampaignId), Keys(s.after.campaigns, CampaignId));
    }
  }

  method Post(db: Database, header: Option<string>, tokens: Middleware.Tokens, b: PostBody, defaultAmount: real, now: int)
    returns (r: Response<Campaign>)
    requires db.Valid()
    modifies db
    ensures db.Valid()
    ensures Step(r, db.Snapshot()) == PostStep(old(db.Snapshot()), header, tokens, b, defaultAmount, now)
  {
    ghost var s := PostStep(db.Snapshot(), header, tokens, b, defaultAmount, now);
    PostKeepsInvariants(db.Snapshot(), header, tokens, b, defaultAmount, now);
    var gate := OrgGate.Resolve(db.Snapshot(), header, tokens);
    if gate.Err? {
      return OrgGate.Refusal(gate.error, "Failed to create campaign");
    }
    if !Complete(b) {
      return Failure(400, "Title, description, target amount, and end date are required");
    }
    var c := Campaign(IdFor(db.nextId), b.title, b.description, b.targetAmount.value, defaultAmount, b.endDate, b.image,
                      gate.value.organization.id, gate.value.claims.userId, now);
    assert s == Step(Success(200, c), db.Snapshot().(campaigns := db.campaigns + [c], nextId := db.nextId + 1));
    db.AddCampaign(c);
    r := Success(200, c);
    assert db.Snapshot() == s.after;
  }

  // ---------------------------------------------------------------------------
  // PUT and DELETE as written: the call to the undefined `verifyToken` throws
  // a ReferenceError, which the handler's catch turns into a 500.

  datatype PutBody = PutBody(
    id: string, title: Option<string>, description: Option<string>, targetAmount: Option<real>,
    endDate: string, image: Option<string>, organizationId: Option<Id>)

  function PutAsWritten(t: Tables, header: Option<string>, tokens: Middleware.Tokens, b: PutBody): (s: Step<Campaign>)
    ensures s.after == t && s.response.Failure? && s.response.status == 500
  {
    Step(Failure(500, "verifyToken is not defined"), t)
  }

  function DeleteAsWritten(t: Tables, header: Option<string>, tokens: Middleware.Tokens, id: string): (s: Step<string>)
    ensures s.after == t && s.response.Failure? && s.response.status == 500
  {
    Step(Failure(500, "verifyToken is not defined"), t)
  }

  // ---------------------------------------------------------------------------
  // PUT and DELETE as intended

  /** The caller may change the campaign: they created it, or they are an ADMIN. */
  predicate MayChange(c: Campaign, p: Middleware.Payload)
  {
    c.userId == p.userId || p.role == "ADMIN"
  }

  /** The record after `campaign.update`: supplied fields replace, absent ones
      (`undefined`) stay, and a falsy `endDate` leaves the date alone. */
  function Updated(c: Campaign, b: PutBody): (u: Campaign)
    ensures u.id == c.id && u.userId == c.userId && u.currentAmount == c.currentAmount && u.createdAt == c.createdAt
    ensures b.endDate == "" ==> u.endDate == c.endDate
    ensures b.endDate != "" ==> u.endDate == b.endDate
    ensures b.title.Some? ==> u.title == b.title.value
    ensures b.title.None? ==> u.title == c.title
    ensures b.description.Some? ==> u.description == b.description.value
    ensures b.description.None? ==> u.description == c.description
    ensures b.targetAmount.Some? ==> u.targetAmount == b.targetAmount.value
    ensures b.targetAmount.None? ==> u.targetAmount == c.targetAmount
    ensures b.image.Some? ==> u.image == b.image
    ensures b.image.None? ==> u.image == c.image
    ensures b.organizationId.Some? ==> u.organizationId == b.organizationId.value
    ensures b.organizationId.None? ==> u.organizationId == c.organizationId
  {
    c.(title := if b.title.Some? then b.title.value else c.title,
       description := if b.description.Some? then b.description.value else c.description,
       targetAmount := if b.targetAmount.Some? then b.targetAmount.value else c.targetAmount,
       endDate := if b.endDate != "" then b.endDate else c.endDate,
       image := if b.image.Some? then b.image else c.image,
       organizationId := if b.organizationId.Some? then b.organizationId.value else c.organizationId)
  }

  /** `thrown` is the message of the store's error when the update breaks a
      foreign key. */
  function PutStep(t: Tables, header: Option<string>, tokens: Middleware.Tokens, b: PutBody, thrown: string): (s: Step<Campaign>)
    ensures s.response.Failure? ==> s.after == t
    ensures Middleware.VerifyToken(header, [], tokens).Err? ==>
              s.response == Failure(500, Middleware.Message(Middleware.VerifyToken(header, [], tokens).error))
    ensures Middleware.VerifyToken(header, [], tokens).Ok? && b.id == "" ==> s.response == Failure(400, "Campaign ID required")
    ensures Middleware.VerifyToken(header, [], tokens).Ok? && b.id != "" && b.id !in Keys(t.campaigns, CampaignId) ==>
              s.response == Failure(404, "Campaign not found")
    ensures Middleware.VerifyToken(header, [], tokens).Ok? && b.id != "" && Find(t.campaigns, CampaignId, b.id).Some? ==>
              var c := t.campaigns[Find(t.campaigns, CampaignId, b.id).value];
              var p := Middleware.VerifyToken(header, [], tokens).value;
              && (!MayChange(c, p) ==> s.response == Failure(403, "Forbidden"))
              && (MayChange(c, p) && b.organizationId.Some? && b.organizationId.value !in Keys(t.organizations, OrgId) ==>
                    s.response == Failure(500, ErrorText(thrown, "Error updating campaign")))
    ensures s.response.Success? <==>
              && Middleware.VerifyToken(header, [], tokens).Ok?
              && b.id != ""
              && Find(t.campaigns, CampaignId, b.id).Some?
              && MayChange(t.campaigns[Find(t.campaigns, CampaignId, b.id).value], Middleware.VerifyToken(header, [], tokens).value)
              && (b.organizationId.None? || b.organizationId.value in Keys(t.organizations, OrgId))
    ensures s.response.Success? ==>
              && s.response.status == 200
              && Middleware.VerifyToken(header, [], tokens).Ok?
              && Find(t.campaigns, CampaignId, b.id).Some?
              && var i := Find(t.campaigns, CampaignId, b.id).value;
                 && MayChange(t.campaigns[i], Middleware.VerifyToken(header, [], tokens).value)
                 && s.response.value == Updated(t.campaigns[i], b)
                 && s.after == t.(campaigns := t.campaigns[i := Updated(t.campaigns[i], b)])
  {
    match Middleware.VerifyToken(header, [], tokens)
    case Err(e) => Step(Failure(500, Middleware.Message(e)), t)
    case Ok(p) =>
      if b.id == "" then Step(Failure(400, "Campaign ID required"), t)
      else
        match Find(t.campaigns, CampaignId, b.id)
        case None => Step(Failure(404, "Campaign not found"), t)
        case Some(i) =>
          var c := t.campaigns[i];
          if !MayChange(c, p) then Step(Failure(403, "Forbidden"), t)
          else if b.organizationId.Some? && b.organizationId.value !in Keys(t.organizations, OrgId) then
            Step(Failure(500, ErrorText(thrown, "Error updating campaign")), t)
          else
            Step(Success(200, Updated(c, b)), t.(campaigns := t.campaigns[i := Updated(c, b)]))
  }

  /** Someone who neither created the campaign nor is an ADMIN can never change it. */
  lemma {:induction false} OnlyOwnerOrAdminUpdates(t: Tables, header: Option<string>, tokens: Middleware.Tokens, b: PutBody, thrown: string)
    requires Middleware.VerifyToken(header, [], tokens).Ok?
    requires var p := Middleware.VerifyToken(header, [], tokens).value;
             p.role != "ADMIN" && forall c :: c in t.campaigns && c.id == b.id ==> c.userId != p.userId
    ensures PutStep(t, header, tokens, b, thrown).after == t
    ensures b.id != "" && b.id in Keys(t.campaigns, CampaignId) ==> PutStep(t, header, tokens, b, thrown).response == Failure(403, "Forbidden")
  {
    var f := Find(t.campaigns, CampaignId, b.id);
    if f.Some? {
      var c := t.campaigns[f.value];
      assert c in t.campaigns && CampaignId(c) == b.id;
    }
  }

  lemma {:induction false} PutKeepsInvariants(t: Tables, header: Option<string>, tokens: Middleware.Tokens, b: PutBody, thrown: string)
    requires WellFormed(t)
    ensures WellFormed(PutStep(t, header, tokens, b, thrown).after)
  {
    var s := PutStep(t, header, tokens, b, thrown);
    if s.response.Success? {
      var i := Find(t.campaigns, CampaignId, b.id).value;
      var u := Updated(t.campaigns[i], b);
      TableReplace(t.campaigns, CampaignId, i, u, t.nextId);
      assert CampaignOrg(t.campaigns[i]) in Keys(t.organizations, OrgId);
      assert CampaignOwner(t.campaigns[i]) in Keys(t.users, UserId);
      var cs := t.campaigns[i := u];
      forall j | 0 <= j < |cs|
        ensures CampaignOrg(cs[j]) in Keys(t.organizations, OrgId) && CampaignOwner(cs[j]) in Keys(t.users, UserId)
      {
        if j != i {
          assert cs[j] == t.campaigns[j];
        }
      }
    }
  }

  method Put(db: Database, header: Option<string>, tokens: Middleware.Tokens, b: PutBody, thrown: string)
    returns (r: Response<Campaign>)
    requires db.Valid()
    modifies db
    ensures db.Valid()
    ensures Step(r, db.Snapshot()) == PutStep(old(db.Snapshot()), header, tokens, b, thrown)
  {
    ghost var s := PutStep(db.Snapshot(), header, tokens, b, thrown);
    PutKeepsInvariants(db.Snapshot(), header, tokens, b, thrown);
    var auth := Middleware.VerifyToken(header, [], tokens);
    if auth.Err? {
      return Failure(500, Middleware.Message(auth.error));
    }
    if b.id == "" {
      return Failure(400, "Campaign ID required");
    }
    var found := Find(db.campaigns, CampaignId, b.id);
    if found.None? {
      return Failure(404, "Campaign not found");
    }
    var i := found.value;
    var c := db.campaigns[i];
    if !MayChange(c, auth.value) {
      return Failure(403, "Forbidden");
    }
    if b.organizationId.Some? && b.organizationId.value !in Keys(db.organizations, OrgId) {
      return Failure(500, ErrorText(thrown, "Error updating campaign"));
    }
    assert s == Step(Success(200, Updated(c, b)), db.Snapshot().(campaigns := db.campaigns[i := Updated(c, b)]));
    db.SetCampaign(i, Updated(c, b));
    r := Success(200, Updated(c, b));
    assert db.Snapshot() == s.after;
  }

  /** `thrown` is the message of the store's error when donations still refer
      to the campaign (the relation's default is to refuse the delete). */
  function DeleteStep(t: Tables, header: Option<string>, tokens: Middleware.Tokens, id: string, thrown: string): (s: Step<string>)
    ensures s.response.Failure? ==> s.after == t
    ensures Middleware.VerifyToken(header, [], tokens).Err? ==>
              s.response == Failure(500, Middleware.Message(Middleware.VerifyToken(header, [], tokens).error))
    ensures Middleware.VerifyToken(header, [], tokens).Ok? && id == "" ==> s.response == Failure(400, "Campaign ID required")
    ensures Middleware.VerifyToken(header, [], tokens).Ok? && id != "" && id !in Keys(t.campaigns, CampaignId) ==>
              s.response == Failure(404, "Campaign not found")
    ensures Middleware.VerifyToken(header, [], tokens).Ok? && id != "" && Find(t.campaigns, CampaignId, id).Some? ==>
              var c := t.campaigns[Find(t.campaigns, CampaignId, id).value];
              var p := Middleware.VerifyToken(header, [], tokens).value;
              && (!MayChange(c, p) ==> s.response == Failure(403, "Forbidden"))
              && (MayChange(c, p) && id in Keys(t.donations, DonationCampaign) ==>
                    s.response == Failure(500, ErrorText(thrown, "Error deleting campaign")))
    ensures s.response.Success? <==>
              && Middleware.VerifyToken(header, [], tokens).Ok?
              && id != ""
              && Find(t.campaigns, CampaignId, id).Some?
              && MayChange(t.campaigns[Find(t.campaigns, CampaignId, id).value], Middleware.VerifyToken(header, [], tokens).value)
              && id !in Keys(t.donations, DonationCampaign)
    ensures s.response.Success? ==>
              && s.response == Success(200, "Campaign deleted")
              && Middleware.VerifyToken(header, [], tokens).Ok?
              && Find(t.campaigns, CampaignId, id).Some?
              && var i := Find(t.campaigns, CampaignId, id).value;
                 && MayChange(t.campaigns[i], Middleware.VerifyToken(header, [], tokens).value)
                 && s.after == t.(campaigns := RemoveAt(t.campaigns, i))
  {
    match Middleware.VerifyToken(header, [], tokens)
    case Err(e) => Step(Failure(500, Middleware.Message(e)), t)
    case Ok(p) =>
      if id == "" then Step(Failure(400, "Campaign ID required"), t)
      else
        match Find(t.campaigns, CampaignId, id)
        case None => Step(Failure(404, "Campaign not found"), t)
        case Some(i) =>
          if !MayChange(t.campaigns[i], p) then Step(Failure(403, "Forbidden"), t)
          else if id in Keys(t.donations, DonationCampaign) then
            Step(Failure(500, ErrorText(thrown, "Error deleting campaign")), t)
          else
            Step(Success(200, "Campaign deleted"), t.(campaigns := RemoveAt(t.campaigns, i)))
  }

  /** Someone who neither created the campaign nor is an ADMIN can never delete it. */
  lemma {:induction false} OnlyOwnerOrAdminDeletes(t: Tables, header: Option<string>, tokens: Middleware.Tokens, id: string, thrown: string)
    requires Middleware.VerifyToken(header, [], tokens).Ok?
    requires var p := Middleware.VerifyToken(header, [], tokens).value;
             p.role != "ADMIN" && forall c :: c in t.campaigns && c.id == id ==> c.userId != p.userId
    ensures DeleteStep(t, header, tokens, id, thrown).after == t
    ensures id != "" && id in Keys(t.campaigns, CampaignId) ==> DeleteStep(t, header, tokens, id, thrown).response == Failure(403, "Forbidden")
  {
    var f := Find(t.campaigns, CampaignId, id);
    if f.Some? {
      var c := t.campaigns[f.value];
      assert c in t.campaigns && CampaignId(c) == id;
    }
  }

  lemma {:induction false} DeleteKeepsInvariants(t: Tables, header: Option<string>, tokens: Middleware.Tokens, id: string, thrown: string)
    requires WellFormed(t)
    ensures WellFormed(DeleteStep(t, header, tokens, id, thrown).after)
  {
    var s := DeleteStep(t, header, tokens, id, thrown);
    if s.response.Success? {
      var i := Find(t.campaigns, CampaignId, id).value;
      var cs := RemoveAt(t.campaigns, i);
      TableRemove(t.campaigns, CampaignId, i, t.nextId);
      forall j | 0 <= j < |cs|
        ensures CampaignOrg(cs[j]) in Keys(t.organizations, OrgId) && CampaignOwner(cs[j]) in Keys(t.users, UserId)
      {
        var j' := if j < i then j else j + 1;
        assert cs[j] == t.campaigns[j'];
      }
      forall j | 0 <= j < |t.donations|
        ensures DonationCampaign(t.donations[j]) in Keys(cs, CampaignId)
      {
        assert Keys(t.donations, DonationCampaign)[j] == DonationCampaign(t.donations[j]);
      }
    }
  }

  method Delete(db: Database, header: Option<string>, tokens: Middleware.Tokens, id: string, thrown: string)
    returns (r: Response<string>)
    requires db.Valid()
    modifies db
    ensures db.Valid()
    ensures Step(r, db.Snapshot()) == DeleteStep(old(db.Snapshot()), header, tokens, id, thrown)
  {
    DeleteKeepsInvariants(db.Snapshot(), header, tokens, id, thrown);
    var auth := Middleware.VerifyToken(header, [], tokens);
    if auth.Err? {
      return Failure(500, Middleware.Message(auth.error));
    }
    if id == "" {
      return Failure(400, "Campaign ID required");
    }
    var found := Find(db.campaigns, CampaignId, id);
    if found.None? {
      return Failure(404, "Campaign not found");
    }
    if !MayChange(db.campaigns[found.value], auth.value) {
      return Failure(403, "Forbidden");
    }
    if id in Keys(db.donations, DonationCampaign) {
      return Failure(500, ErrorText(thrown, "Error deleting campaign"));
    }
    db.RemoveCampaign(found.value);
    r := Success(200, "Campaign deleted");
  }

  // ---------------------------------------------------------------------------
  // The discrepancy, on one concrete store

  /** A store with one ORGANIZATION user "c0", their organisation "c1" and
      their campaign "c2", and a token "tok" that decodes to that user. */
  function SampleStore(): Tables
  {
    Tables(
      [User("c0", "a@b.cm", "A", "h", "ORGANIZATION")],
      [Organization("c1", "N", "D", None, None, "c0", Some("PENDING"), 0)],
      [Campaign("c2", "T", "D", 10.0, 0.0, "2030-01-01", None, "c1", "c0", 0)],
      [], [], [], 3)
  }

  function SampleTokens(): Middleware.Tokens
  {
    map["tok" := Middleware.Payload("c0", "a@b.cm", "ORGANIZATION", Some("c1"))]
  }

  /** The campaign's own creator, with a valid bearer token, renames it: the
      intended handler answers 200 with the new title; the handler as written
      answers 500 and changes nothing. */
  lemma OwnerRenameRefusedAsWritten()
    ensures var b := PutBody("c2", Some("New"), None, None, "", None, None);
            && PutStep(SampleStore(), Some("Bearer tok"), SampleTokens(), b, "").response.Success?
            && PutStep(SampleStore(), Some("Bearer tok"), SampleTokens(), b, "").response.value.title == "New"
            && PutAsWritten(SampleStore(), Some("Bearer tok"), SampleTokens(), b).response.status == 500
  {
    Middleware.SecondWordAfter("Bearer", "tok");
    SplitNoSeparator("tok", ' ');
    assert "Bearer tok" == "Bearer" + " " + "tok";
    var p := SampleTokens()["tok"];
    assert Middleware.SecondWord("Bearer tok") == Some("tok");
    assert Middleware.VerifyToken(Some("Bearer tok"), [], SampleTokens()) == Ok(p);
    var t := SampleStore();
    assert Find(t.campaigns, CampaignId, "c2") == Some(0);
    assert MayChange(t.campaigns[0], p);
  }
}
