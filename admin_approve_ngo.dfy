/** POST /api/admin/approve-ngo (app/api/admin/approve-ngo/route.ts): an ADMIN
    turns a user into an ORGANIZATION user. The route has its own admin gate;
    whatever it throws surfaces as a 500 carrying the thrown message. The
    answer is the whole updated user record, password hash included. */
module AdminApproveNgo {
  import opened Common
  import opened Store
  import Middleware

  /** The route's `verifyAdmin`. `jwtMessage` is the message jsonwebtoken's
      `verify` throws for a token it refuses. */
  function VerifyAdmin(header: Option<string>, tokens: Middleware.Tokens, jwtMessage: string)
    : (r: Result<Middleware.Payload, string>)
    ensures !Middleware.Present(header) ==> r == Err("No token provided")
  {
    if !Middleware.Present(header) then Err("No token provided")
    else
      match Middleware.JwtVerify(tokens, Middleware.SecondWord(header.value))
      case Err(_) => Err(jwtMessage)
      case Ok(p) => if p.role != "ADMIN" then Err("Forbidden") else Ok(p)
  }

  /** It admits exactly the callers the shared `verifyAdmin` admits. */
  lemma {:induction false} SameAsShared(header: Option<string>, tokens: Middleware.Tokens, jwtMessage: string)
    ensures VerifyAdmin(header, tokens, jwtMessage).Ok? <==> Middleware.VerifyAdmin(header, tokens).Ok?
    ensures VerifyAdmin(header, tokens, jwtMessage).Ok? ==>
              VerifyAdmin(header, tokens, jwtMessage).value == Middleware.VerifyAdmin(header, tokens).value
    ensures Middleware.VerifyAdmin(header, tokens) == Err(Middleware.Forbidden) ==>
              VerifyAdmin(header, tokens, jwtMessage) == Err("Forbidden")
  {
    if Middleware.Present(header) {
      match Middleware.JwtVerify(tokens, Middleware.SecondWord(header.value))
      case Err(_) =>
      case Ok(p) =>
    }
  }

  /** `thrown` is the store's message when no user has the id. */
  function ApproveStep(t: Tables, header: Option<string>, tokens: Middleware.Tokens, jwtMessage: string, userId: Id,
                       thrown: string): (s: Step<User>)
    ensures s.response.Failure? ==> s.after == t
    ensures VerifyAdmin(header, tokens, jwtMessage).Err? ==>
              s.response == Failure(500, ErrorText(VerifyAdmin(header, tokens, jwtMessage).error, "Error approving NGO"))
    ensures VerifyAdmin(header, tokens, jwtMessage).Ok? && userId == "" ==> s.response == Failure(400, "User ID required")
    ensures VerifyAdmin(header, tokens, jwtMessage).Ok? && userId != "" && userId !in Keys(t.users, UserId) ==>
              s.response == Failure(500, ErrorText(thrown, "Error approving NGO"))
    ensures s.response.Success? <==>
              VerifyAdmin(header, tokens, jwtMessage).Ok? && userId != "" && userId in Keys(t.users, UserId)
    ensures s.response.Success? ==>
              && s.response.status == 200
              && Find(t.users, UserId, userId).Some?
              && var i := Find(t.users, UserId, userId).value;
                 && s.response.value == t.users[i].(role := "ORGANIZATION")
                 && s.after == t.(users := t.users[i := t.users[i].(role := "ORGANIZATION")])
  {
    match VerifyAdmin(header, tokens, jwtMessage)
    case Err(m) => Step(Failure(500, ErrorText(m, "Error approving NGO")), t)
    case Ok(_) =>
      FindInKeys(t.users, UserId, userId);
      if userId == "" then Step(Failure(400, "User ID required"), t)
      else
        match Find(t.users, UserId, userId)
        case None => Step(Failure(500, ErrorText(thrown, "Error approving NGO")), t)
        case Some(i) =>
          var u := t.users[i].(role := "ORGANIZATION");
          Step(Success(200, u), t.(users := t.users[i := u]))
  }

  /** Only the role changes: ids, e-mails, names, password hashes and every
      other table stay as they were. */
  lemma {:induction false} OnlyRoleChanges(t: Tables, header: Option<string>, tokens: Middleware.Tokens, jwtMessage: string,
                                           userId: Id, thrown: string)
    ensures var t' := ApproveStep(t, header, tokens, jwtMessage, userId, thrown).after;
            && |t'.users| == |t.users|
            && (forall i :: 0 <= i < |t.users| ==> t'.users[i] == t.users[i].(role := t'.users[i].role))
            && (forall i :: 0 <= i < |t.users| && t.users[i].id != userId ==> t'.users[i] == t.users[i])
            && t'.organizations == t.organizations && t'.campaigns == t.campaigns
            && t'.donations == t.donations && t'.applications == t.applications && t'.opportunities == t.opportunities
  {
    var s := ApproveStep(t, header, tokens, jwtMessage, userId, thrown);
    if s.response.Success? {
      var i := Find(t.users, UserId, userId).value;
      assert t.users[i].id == userId;
    }
  }

  lemma {:induction false} ApproveKeepsInvariants(t: Tables, header: Option<string>, tokens: Middleware.Tokens, jwtMessage: string,
                                                  userId: Id, thrown: string)
    requires WellFormed(t)
    ensures WellFormed(ApproveStep(t, header, tokens, jwtMessage, userId, thrown).after)
  {
    var s := ApproveStep(t, header, tokens, jwtMessage, userId, thrown);
    if s.response.Success? {
      var i := Find(t.users, UserId, userId).value;
      var u := t.users[i].(role := "ORGANIZATION");
      TableReplace(t.users, UserId, i, u, t.nextId);
      assert Keys(t.users[i := u], UserEmail) == Keys(t.users, UserEmail);
    }
  }

  /** Promoting a user who owns no organisation leaves an ORGANIZATION user
      without one: the route does not create the organisation. */
  lemma {:induction false} PromotionWithoutOrganization(t: Tables, header: Option<string>, tokens: Middleware.Tokens,
                                                        jwtMessage: string, userId: Id, thrown: string)
    requires ApproveStep(t, header, tokens, jwtMessage, userId, thrown).response.Success?
    requires userId !in Keys(t.organizations, OrgOwner)
    ensures !OrgRoleConsistent(ApproveStep(t, header, tokens, jwtMessage, userId, thrown).after)
  {
    var i := Find(t.users, UserId, userId).value;
    var t' := ApproveStep(t, header, tokens, jwtMessage, userId, thrown).after;
    assert t'.users[i].role == "ORGANIZATION" && t'.users[i].id == userId;
  }

  method Approve(db: Database, header: Option<string>, tokens: Middleware.Tokens, jwtMessage: string, userId: Id,
                 thrown: string) returns (r: Response<User>)
    requires db.Valid()
    modifies db
    ensures db.Valid()
    ensures Step(r, db.Snapshot()) == ApproveStep(old(db.Snapshot()), header, tokens, jwtMessage, userId, thrown)
  {
    ApproveKeepsInvariants(db.Snapshot(), header, tokens, jwtMessage, userId, thrown);
    var auth := VerifyAdmin(header, tokens, jwtMessage);
    if auth.Err? {
      return Failure(500, ErrorText(auth.error, "Error approving NGO"));
    }
    if userId == "" {
      return Failure(400, "User ID required");
    }
    var found := Find(db.users, UserId, userId);
    if found.None? {
      return Failure(500, ErrorText(thrown, "Error approving NGO"));
    }
    var u := db.users[found.value].(role := "ORGANIZATION");
    db.SetUser(found.value, u);
    r := Success(200, u);
  }
}
