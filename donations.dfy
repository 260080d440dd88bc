/** /api/donations (app/api/donations/route.ts): a donation by a DONOR, ADMIN
    or ORGANIZATION caller (POST) and the unscoped list of every donation for
    ADMIN and ORGANIZATION callers (GET). The route has its own copy of the
    token gate; whatever it throws, including a refused role, surfaces as a
    500 carrying the thrown message. */
module Donations {
  import opened Common
  import opened Store
  import Middleware

  /** The route's `verifyToken(req, roles)`. `jwtMessage` is the message
      jsonwebtoken's `verify` throws for a token it refuses. */
  function Verify(header: Option<string>, roles: seq<string>, tokens: Middleware.Tokens, jwtMessage: string)
    : (r: Result<Middleware.Payload, string>)
    ensures !Middleware.Present(header) ==> r == Err("No token provided")
  {
    if !Middleware.Present(header) then Err("No token provided")
    else
      match Middleware.JwtVerify(tokens, Middleware.SecondWord(header.value))
      case Err(_) => Err(jwtMessage)
      case Ok(p) => if |roles| > 0 && p.role !in roles then Err("Forbidden") else Ok(p)
  }

  /** The local copy admits exactly the callers the shared gate of
      lib/middleware.ts admits, with the same payload; only the message of a
      refused token differs. */
  lemma {:induction false} SameAsShared(header: Option<string>, roles: seq<string>, tokens: Middleware.Tokens, jwtMessage: string)
    ensures Verify(header, roles, tokens, jwtMessage).Ok? <==> Middleware.VerifyToken(header, roles, tokens).Ok?
    ensures Verify(header, roles, tokens, jwtMessage).Ok? ==>
              Verify(header, roles, tokens, jwtMessage).value == Middleware.VerifyToken(header, roles, tokens).value
    ensures Middleware.VerifyToken(header, roles, tokens) == Err(Middleware.Forbidden) ==>
              Verify(header, roles, tokens, jwtMessage) == Err("Forbidden")
    ensures Middleware.VerifyToken(header, roles, tokens) == Err(Middleware.InvalidToken) ==>
              Verify(header, roles, tokens, jwtMessage) == Err(jwtMessage)
  {
    if Middleware.Present(header) {
      match Middleware.JwtVerify(tokens, Middleware.SecondWord(header.value))
      case Err(_) =>
      case Ok(p) =>
    }
  }

  const PostRoles: seq<string> := ["DONOR", "ADMIN", "ORGANIZATION"]
  const GetRoles: seq<string> := ["ADMIN", "ORGANIZATION"]

  // ---------------------------------------------------------------------------
  // POST

  /** `amount` is `None` when absent; a JSON number is taken as it is by
      `parseFloat`. */
  datatype Body = Body(amount: Option<real>, message: Option<string>, campaignId: Id)

  /** `!amount || !campaignId`: absent, zero, or empty. */
  predicate MissingField(b: Body)
  {
    b.amount.None? || b.amount.value == 0.0 || b.campaignId == ""
  }

  /** `thrown` is the store's message when the insert breaks a foreign key. */
  function PostStep(t: Tables, header: Option<string>, tokens: Middleware.Tokens, jwtMessage: string, b: Body,
                    thrown: string, now: int): (s: Step<Donation>)
    ensures s.response.Failure? ==> s.after == t
    ensures Verify(header, PostRoles, tokens, jwtMessage).Err? ==>
              s.response == Failure(500, ErrorText(Verify(header, PostRoles, tokens, jwtMessage).error, "Error creating donation"))
    ensures Verify(header, PostRoles, tokens, jwtMessage).Ok? && MissingField(b) ==>
              s.response == Failure(400, "Amount and campaignId required")
    ensures s.response.Success? ==>
              var p := Verify(header, PostRoles, tokens, jwtMessage).value;
              var d := s.response.value;
              && s.response.status == 201
              && p.role in PostRoles
              && d == Donation(IdFor(t.nextId), b.amount.value, b.message, b.campaignId, p.userId, now)
              && b.amount.value != 0.0
              && b.campaignId in Keys(t.campaigns, CampaignId) && p.userId in Keys(t.users, UserId)
              && s.after == t.(donations := t.donations + [d], nextId := t.nextId + 1)
  {
    match Verify(header, PostRoles, tokens, jwtMessage)
    case Err(m) => Step(Failure(500, ErrorText(m, "Error creating donation")), t)
    case Ok(p) =>
      if MissingField(b) then Step(Failure(400, "Amount and campaignId required"), t)
      else if Find(t.campaigns, CampaignId, b.campaignId).None? || Find(t.users, UserId, p.userId).None? then
        Step(Failure(500, ErrorText(thrown, "Error creating donation")), t)
      else
        var d := Donation(IdFor(t.nextId), b.amount.value, b.message, b.campaignId, p.userId, now);
        Step(Success(201, d), t.(donations := t.donations + [d], nextId := t.nextId + 1))
  }

  /** A VOLUNTEER's donation is refused as a 500, not a 403, and nothing is stored. */
  lemma VolunteerRefused(t: Tables, header: Option<string>, tokens: Middleware.Tokens, jwtMessage: string, b: Body,
                         thrown: string, now: int)
    requires Middleware.Verifies(header, tokens) && Middleware.Decoded(header, tokens).role == "VOLUNTEER"
    ensures PostStep(t, header, tokens, jwtMessage, b, thrown, now) == Step(Failure(500, "Forbidden"), t)
  {
  }

  lemma {:induction false} PostKeepsInvariants(t: Tables, header: Option<string>, tokens: Middleware.Tokens, jwtMessage: string,
                                               b: Body, thrown: string, now: int)
    requires WellFormed(t)
    ensures WellFormed(PostStep(t, header, tokens, jwtMessage, b, thrown, now).after)
  {
    var s := PostStep(t, header, tokens, jwtMessage, b, thrown, now);
    if s.response.Success? {
      var d := s.response.value;
      TableAppend(t.donations, DonationId, d, t.nextId);
      AllTablesGrow(t, t.nextId + 1);
      ReferencesAppend(t.donations, DonationDonor, d, Keys(t.users, UserId));
      ReferencesAppend(t.donations, DonationCampaign, d, Keys(t.campaigns, CampaignId));
    }
  }

  /** The success case of `PostStep`, for the method below. */
  lemma PostSucceeds(t: Tables, header: Option<string>, tokens: Middleware.Tokens, jwtMessage: string, b: Body,
                     thrown: string, now: int, p: Middleware.Payload)
    requires Verify(header, PostRoles, tokens, jwtMessage) == Ok(p) && !MissingField(b)
    requires Find(t.campaigns, CampaignId, b.campaignId).Some? && Find(t.users, UserId, p.userId).Some?
    ensures var d := Donation(IdFor(t.nextId), b.amount.value, b.message, b.campaignId, p.userId, now);
            PostStep(t, header, tokens, jwtMessage, b, thrown, now)
              == Step(Success(201, d), t.(donations := t.donations + [d], nextId := t.nextId + 1))
  {
  }

  method Post(db: Database, header: Option<string>, tokens: Middleware.Tokens, jwtMessage: string, b: Body,
              thrown: string, now: int) returns (r: Response<Donation>)
    requires db.Valid()
    modifies db
    ensures db.Valid()
    ensures Step(r, db.Snapshot()) == PostStep(old(db.Snapshot()), header, tokens, jwtMessage, b, thrown, now)
  {
    ghost var before := db.Snapshot();
    ghost var s := PostStep(before, header, tokens, jwtMessage, b, thrown, now);
    var auth := Verify(header, PostRoles, tokens, jwtMessage);
    if auth.Err? {
      r := Failure(500, ErrorText(auth.error, "Error creating donation"));
      assert s == Step(r, before);
      return;
    }
    if MissingField(b) {
      r := Failure(400, "Amount and campaignId required");
      assert s == Step(r, before);
      return;
    }
    var campaign := Find(db.campaigns, CampaignId, b.campaignId);
    var donor := Find(db.users, UserId, auth.value.userId);
    if campaign.None? || donor.None? {
      r := Failure(500, ErrorText(thrown, "Error creating donation"));
      assert s == Step(r, before);
      return;
    }
    var d := Donation(IdFor(db.nextId), b.amount.value, b.message, b.campaignId, auth.value.userId, now);
    PostSucceeds(before, header, tokens, jwtMessage, b, thrown, now, auth.value);
    PostKeepsInvariants(before, header, tokens, jwtMessage, b, thrown, now);
    db.AddDonation(d);
    r := Success(201, d);
  }

  // ---------------------------------------------------------------------------
  // GET

  datatype Donor = Donor(id: Id, name: string, email: string)
  datatype CampaignTitle = CampaignTitle(id: Id, title: string)

  /** A donation with the donor and campaign fields the listing includes;
      `None` where the related record is missing. */
  datatype Listed = Listed(donation: Donation, user: Option<Donor>, campaign: Option<CampaignTitle>)

  function WithRelations(t: Tables, d: Donation): (l: Listed)
    ensures l.donation == d
    ensures l.user.Some? ==> l.user.value.id == d.userId
    ensures l.campaign.Some? ==> l.campaign.value.id == d.campaignId
  {
    var u := match Find(t.users, UserId, d.userId)
             case None => None
             case Some(i) => Some(Donor(t.users[i].id, t.users[i].name, t.users[i].email));
    var c := match Find(t.campaigns, CampaignId, d.campaignId)
             case None => None
             case Some(i) => Some(CampaignTitle(t.campaigns[i].id, t.campaigns[i].title));
    Listed(d, u, c)
  }

  function Get(t: Tables, header: Option<string>, tokens: Middleware.Tokens, jwtMessage: string): (r: Response<seq<Listed>>)
    ensures Verify(header, GetRoles, tokens, jwtMessage).Err? ==>
              r == Failure(500, ErrorText(Verify(header, GetRoles, tokens, jwtMessage).error, "Error fetching donations"))
    ensures r.Success? <==> Verify(header, GetRoles, tokens, jwtMessage).Ok?
    ensures r.Success? ==>
              && r.status == 200
              && Verify(header, GetRoles, tokens, jwtMessage).Ok?
              && |r.value| == |t.donations|
              && forall i :: 0 <= i < |t.donations| ==> r.value[i] == WithRelations(t, t.donations[i])
  {
    match Verify(header, GetRoles, tokens, jwtMessage)
    case Err(m) => Failure(500, ErrorText(m, "Error fetching donations"))
    case Ok(_) => Success(200, seq(|t.donations|, i requires 0 <= i < |t.donations| => WithRelations(t, t.donations[i])))
  }

  /** Under the store's constraints every listed donation carries its donor
      and its campaign. */
  lemma {:induction false} RelationsPresent(t: Tables, d: Donation)
    requires WellFormed(t) && d in t.donations
    ensures WithRelations(t, d).user.Some? && WithRelations(t, d).campaign.Some?
  {
    var k :| 0 <= k < |t.donations| && t.donations[k] == d;
    assert DonationDonor(t.donations[k]) in Keys(t.users, UserId);
    assert DonationCampaign(t.donations[k]) in Keys(t.campaigns, CampaignId);
  }

  /** A DONOR cannot list donations, but can make one. */
  lemma DonorMayGiveButNotList(header: Option<string>, tokens: Middleware.Tokens, jwtMessage: string)
    requires Middleware.Verifies(header, tokens) && Middleware.Decoded(header, tokens).role == "DONOR"
    ensures Verify(header, PostRoles, tokens, jwtMessage).Ok?
    ensures Verify(header, GetRoles, tokens, jwtMessage) == Err("Forbidden")
  {
  }
}
