/** The preamble the campaign, organisation and opportunity routes repeat
    verbatim: the bearer test on the authorization header, `jwtConfig.verify`
    on its second word, and `findFirst` of the caller's organisation. Each
    route maps the three ways it can stop to its own status and message. */
module OrgGate {
  import opened Common
  import opened Store
  import Middleware

  datatype Denial =
    | Unauthorized   // no header, or one that does not start with "Bearer "
    | BadToken       // the token does not verify (thrown inside the route's try)
    | NoOrganization // the caller owns no organisation

  /** The bearer test and the token check: the decoded claims. */
  function Decode(header: Option<string>, tokens: Middleware.Tokens): (r: Result<Middleware.Payload, Denial>)
    ensures !Middleware.HasBearer(header) <==> r == Err(Unauthorized)
    ensures r.Ok? ==> Middleware.Verifies(header, tokens) && r.value == Middleware.Decoded(header, tokens)
    ensures Middleware.HasBearer(header) && Middleware.Verifies(header, tokens) ==> r.Ok?
  {
    if !Middleware.HasBearer(header) then Err(Unauthorized)
    else
      Middleware.BearerToken(header);
      match Middleware.JwtVerify(tokens, Middleware.SecondWord(header.value))
      case Err(_) => Err(BadToken)
      case Ok(p) => Ok(p)
  }

  datatype Caller = Caller(claims: Middleware.Payload, organization: Organization)

  /** The caller's claims and the first organisation whose owner is the
      token's user. */
  function Resolve(t: Tables, header: Option<string>, tokens: Middleware.Tokens): (r: Result<Caller, Denial>)
    ensures Decode(header, tokens).Err? ==> r == Err(Decode(header, tokens).error)
    ensures r == Err(NoOrganization) <==>
              Decode(header, tokens).Ok? && Decode(header, tokens).value.userId !in Keys(t.organizations, OrgOwner)
    ensures r.Ok? ==>
              && Decode(header, tokens) == Ok(r.value.claims)
              && r.value.organization in t.organizations
              && r.value.organization.userId == r.value.claims.userId
    ensures r.Ok? ==>
              var f := Find(t.organizations, OrgOwner, r.value.claims.userId);
              f.Some? && r.value.organization == t.organizations[f.value]
  {
    match Decode(header, tokens)
    case Err(e) => Err(e)
    case Ok(p) =>
      match Find(t.organizations, OrgOwner, p.userId)
      case None => Err(NoOrganization)
      case Some(i) => Ok(Caller(p, t.organizations[i]))
  }

  /** Under the store's constraints the organisation found belongs to an
      existing user. */
  lemma OwnerExists(t: Tables, header: Option<string>, tokens: Middleware.Tokens)
    requires WellFormed(t) && Resolve(t, header, tokens).Ok?
    ensures Resolve(t, header, tokens).value.claims.userId in Keys(t.users, UserId)
  {
    var o := Resolve(t, header, tokens).value.organization;
    var i :| 0 <= i < |t.organizations| && t.organizations[i] == o;
    assert OrgOwner(t.organizations[i]) in Keys(t.users, UserId);
  }

  /** The answer each of these routes gives when the preamble stops it; only
      the 500 message differs from route to route. */
  function Refusal<T>(d: Denial, failed: string): (r: Response<T>)
    ensures r.Failure?
  {
    match d
    case Unauthorized => Failure(401, "Unauthorized")
    case BadToken => Failure(500, failed)
    case NoOrganization => Failure(404, "Organization not found")
  }
}
