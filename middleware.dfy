/** The token gate of lib/middleware.ts (`verifyToken`, `verifyAdmin`,
    `verifyAdminOrNGO`), the bearer-prefix test the campaign, organisation and
    opportunity routes apply before it, and the header-to-token step they all
    share. Signature checking by jsonwebtoken is abstracted as a table of the
    tokens it accepts. */
module Middleware {
  import opened Common

  type Id = string

  /** The claims a signed token carries. */
  datatype Payload = Payload(userId: Id, email: string, role: string, organizationId: Option<Id>)

  /** Tokens jsonwebtoken accepts under the server's secret, with the payload
      each one decodes to. Expiry is not modelled. */
  type Tokens = map<string, Payload>

  datatype AuthError = NoToken | InvalidToken | Forbidden

  function Message(e: AuthError): string
  {
    match e
    case NoToken => "No token provided"
    case InvalidToken => "Invalid or expired token"
    case Forbidden => "Forbidden"
  }

  /** `header.split(' ')[1]`: the second space-separated piece, if any. */
  function SecondWord(header: string): Option<string>
  {
    var parts := Split(header, ' ');
    if |parts| >= 2 then Some(parts[1]) else None
  }

  /** `jwtConfig.verify(token)`: the decoded payload, or a throw for an absent
      or unknown token. */
  function JwtVerify(tokens: Tokens, token: Option<string>): Result<Payload, AuthError>
  {
    if token.Some? && token.value in tokens then Ok(tokens[token.value]) else Err(InvalidToken)
  }

  /** The header carries something (`if (!auth)` fails on null and on ""). */
  predicate Present(header: Option<string>)
  {
    header.Some? && header.value != ""
  }

  /** The token in the header verifies. */
  predicate Verifies(header: Option<string>, tokens: Tokens)
  {
    Present(header) && JwtVerify(tokens, SecondWord(header.value)).Ok?
  }

  function Decoded(header: Option<string>, tokens: Tokens): Payload
    requires Verifies(header, tokens)
  {
    tokens[SecondWord(header.value).value]
  }

  /** `verifyToken(req, roles)` of lib/middleware.ts. */
  function VerifyToken(header: Option<string>, roles: seq<string>, tokens: Tokens): (r: Result<Payload, AuthError>)
    ensures !Present(header) ==> r == Err(NoToken)
    ensures Present(header) && !Verifies(header, tokens) ==> r == Err(InvalidToken)
    ensures r.Ok? <==> Verifies(header, tokens) && (|roles| == 0 || Decoded(header, tokens).role in roles)
    ensures r == Err(Forbidden) <==> Verifies(header, tokens) && |roles| > 0 && Decoded(header, tokens).role !in roles
    ensures r.Ok? ==> r.value == Decoded(header, tokens)
  {
    if !Present(header) then Err(NoToken)
    else
      match JwtVerify(tokens, SecondWord(header.value))
      case Err(e) => Err(e)
      case Ok(payload) =>
        if |roles| > 0 && payload.role !in roles then Err(Forbidden) else Ok(payload)
  }

  /** `verifyAdmin(req)`. */
  function VerifyAdmin(header: Option<string>, tokens: Tokens): (r: Result<Payload, AuthError>)
    ensures r.Ok? <==> Verifies(header, tokens) && Decoded(header, tokens).role == "ADMIN"
    ensures r.Ok? ==> r.value.role == "ADMIN"
  {
    VerifyToken(header, ["ADMIN"], tokens)
  }

  /** `verifyAdminOrNGO(req)`. */
  function VerifyAdminOrNgo(header: Option<string>, tokens: Tokens): (r: Result<Payload, AuthError>)
    ensures r.Ok? <==> Verifies(header, tokens) && Decoded(header, tokens).role in {"ADMIN", "ORGANIZATION"}
    ensures r.Ok? ==> r.value.role == "ADMIN" || r.value.role == "ORGANIZATION"
  {
    VerifyToken(header, ["ADMIN", "ORGANIZATION"], tokens)
  }

  /** The second word of `w + " " + rest`, for a space-free `w`, is the first
      piece of `rest`: it does not depend on `w`. */
  lemma SecondWordAfter(w: string, rest: string)
    requires ' ' !in w
    ensures SecondWord(w + " " + rest) == Some(Split(rest, ' ')[0])
  {
    SplitAfterPiece(w, ' ', rest);
  }

  /** Only the second word of the header is inspected: any space-free first word
      (a scheme such as "Bearer", "Basic", or nothing at all) gives the same
      verdict. */
  lemma FirstWordIgnored(w1: string, w2: string, rest: string, roles: seq<string>, tokens: Tokens)
    requires ' ' !in w1 && ' ' !in w2
    ensures VerifyToken(Some(w1 + " " + rest), roles, tokens) == VerifyToken(Some(w2 + " " + rest), roles, tokens)
  {
    SecondWordAfter(w1, rest);
    SecondWordAfter(w2, rest);
  }

  /** The header form of section 2.1 of RFC 6750, matched case-sensitively:
      `authHeader.startsWith('Bearer ')`. */
  predicate HasBearer(header: Option<string>)
  {
    header.Some? && StartsWith(header.value, "Bearer ")
  }

  /** After the bearer test passes, the token examined is the piece following
      "Bearer " up to the next space. */
  lemma BearerToken(header: Option<string>)
    requires HasBearer(header)
    ensures Present(header)
    ensures SecondWord(header.value) == Some(Split(header.value[7..], ' ')[0])
  {
    var h := header.value;
    assert h == "Bearer" + " " + h[7..];
    SecondWordAfter("Bearer", h[7..]);
  }

  /** The scheme is matched case-sensitively: a lower-case scheme fails the test. */
  lemma LowerCaseSchemeRejected(token: string)
    ensures !HasBearer(Some("bearer " + token))
  {
    assert ("bearer " + token)[0] == 'b';
  }
}
