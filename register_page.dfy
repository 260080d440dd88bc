/** The sign-up page (app/register/page.tsx): `handleRegister` validates the
    form, sends it through the client library's `register`, stores the token
    and redirects. The library call is an input (`ClientReply`); toasts and
    console output are left out. */
module RegisterPage {
  import opened Common
  import opened Store
  import LoginPage
  import AuthRegister

  /** The client-side check: presence first, then the password length. */
  function Validation(name: string, email: string, password: string): (error: Option<string>)
    ensures error.None? <==> name != "" && email != "" && password != "" && Utf16Length(password) >= 6
    ensures (name == "" || email == "" || password == "") ==> error == Some("Please fill in all required fields")
    ensures name != "" && email != "" && password != "" && Utf16Length(password) < 6 ==>
              error == Some("Password must be at least 6 characters long")
  {
    if name == "" || email == "" || password == "" then Some("Please fill in all required fields")
    else if Utf16Length(password) < 6 then Some("Password must be at least 6 characters long")
    else None
  }

  /** The body sent to POST /api/auth/register. */
  datatype Request = Request(name: string, email: string, password: string, role: string)

  /** The role sent is the radio value upper-cased. */
  function RequestFor(name: string, email: string, password: string, userType: string): (r: Request)
    ensures r.name == name && r.email == email && r.password == password
    ensures |r.role| == |userType| && forall i :: 0 <= i < |userType| ==> r.role[i] == Upper(userType[i])
  {
    Request(name, email, password, UpperStr(userType))
  }

  /** The three radio values are sent as the roles the server knows. */
  lemma {:induction false} RadioRolesSent(name: string, email: string, password: string)
    ensures RequestFor(name, email, password, "donor").role == "DONOR"
    ensures RequestFor(name, email, password, "organization").role == "ORGANIZATION"
    ensures RequestFor(name, email, password, "admin").role == "ADMIN"
  {
    assert UpperStr("donor") == "DONOR";
    assert UpperStr("organization") == "ORGANIZATION";
    assert UpperStr("admin") == "ADMIN";
  }

  /** The dashboard the page sends a new account to, chosen from the radio
      value rather than from the role in the reply. */
  function DashboardPath(userType: string): (path: string)
    ensures userType == "organization" <==> path == "/organization/dashboard"
    ensures userType == "admin" <==> path == "/admin/dashboard"
    ensures userType != "organization" && userType != "admin" <==> path == "/donor/dashboard"
  {
    if userType == "organization" then "/organization/dashboard"
    else if userType == "admin" then "/admin/dashboard"
    else "/donor/dashboard"
  }

  /** Signing up and logging in lead to the same dashboard for every radio
      value. */
  lemma {:induction false} AgreesWithLogin(userType: string)
    requires userType in {"donor", "organization", "admin"}
    ensures LoginPage.RouteFor(UpperStr(userType)) == DashboardPath(userType)
  {
    RadioRolesSent("", "", "");
  }

  /** The register route's body for a page request: the page sends no
      description or website. */
  function BodyOf(r: Request): (b: AuthRegister.Body)
    ensures b.email == r.email && b.password == r.password && b.name == r.name && b.role == r.role
    ensures b.description == "" && b.website == ""
  {
    AuthRegister.Body(r.email, r.password, r.name, r.role, "", "")
  }

  /** A request the page lets through, for a well-formed address not yet
      registered, is accepted by the register route: the page's checks and
      the radio values cover the route's other refusals. */
  lemma {:induction false} SentRequestAccepted(t: Tables, name: string, email: string, password: string,
                                               userType: string, hashed: string, now: int)
    requires Validation(name, email, password).None?
    requires userType in {"donor", "organization", "admin"}
    requires AuthRegister.MatchesEmailPattern(email) && email !in Keys(t.users, UserEmail)
    ensures AuthRegister.Handle(t, BodyOf(RequestFor(name, email, password, userType)), hashed, now).response.Success?
  {
    RadioRolesSent(name, email, password);
    var b := BodyOf(RequestFor(name, email, password, userType));
    assert b.role in AuthRegister.ValidRoles;
  }

  /** What `authService.register` gives the page: the reply body's token and
      user role, or a rejection. The library rejects with a plain object, not
      an `Error`. */
  datatype ClientReply = Reply(token: Option<string>, role: string) | Rejected(error: string)

  predicate HasToken(reply: ClientReply)
  {
    reply.Reply? && reply.token.Some? && reply.token.value != ""
  }

  /** The error after a request: none with a token; a reply without one is
      turned into an `Error`; a rejection is not an `Error`, so its text is
      replaced by the generic one. */
  function RequestError(reply: ClientReply): (error: Option<string>)
    ensures error.None? <==> HasToken(reply)
    ensures reply.Rejected? ==> error == Some("Registration failed")
    ensures reply.Reply? && !HasToken(reply) ==> error == Some("No token received from server")
  {
    if HasToken(reply) then None
    else if reply.Rejected? then Some("Registration failed")
    else Some("No token received from server")
  }

  class Page {
    var name: string
    var email: string
    var password: string
    var userType: string
    var isLoading: bool
    var error: Option<string>
    /** Local storage's `token` and `userRole`. */
    var token: Option<string>
    var userRole: Option<string>
    /** The last `router.push`, if any. */
    var route: Option<string>

    constructor()
      ensures name == "" && email == "" && password == "" && userType == "donor"
      ensures !isLoading && error.None? && route.None?
    {
      name, email, password, userType := "", "", "", "donor";
      isLoading, error := false, None;
      token, userRole, route := None, None, None;
    }

    /** `handleRegister`: returns the request sent, if any. The form fields
        are never changed and the loading flag is clear on every exit. */
    method HandleRegister(reply: ClientReply) returns (sent: Option<Request>)
      modifies this
      ensures !isLoading
      ensures name == old(name) && email == old(email) && password == old(password) && userType == old(userType)
      ensures var invalid := Validation(name, email, password);
              && (invalid.Some? ==>
                    sent.None? && error == invalid
                    && token == old(token) && userRole == old(userRole) && route == old(route))
              && (invalid.None? ==>
                    sent == Some(RequestFor(name, email, password, userType))
                    && error == RequestError(reply))
      ensures Validation(name, email, password).None? && HasToken(reply) ==>
                token == reply.token && userRole == Some(reply.role) && route == Some(DashboardPath(userType))
      ensures Validation(name, email, password).None? && !HasToken(reply) ==>
                token == old(token) && userRole == old(userRole) && route == old(route)
    {
      isLoading := true;
      error := None;
      if name == "" || email == "" || password == "" {
        error := Some("Please fill in all required fields");
        isLoading := false;
        return None;
      }
      if Utf16Length(password) < 6 {
        error := Some("Password must be at least 6 characters long");
        isLoading := false;
        return None;
      }
      sent := Some(Request(name, email, password, UpperStr(userType)));
      match reply {
        case Rejected(_) =>
          error := Some("Registration failed");
        case Reply(t, role) =>
          if t.Some? && t.value != "" {
            token := t;
            userRole := Some(role);
            route := Some(DashboardPath(userType));
          } else {
            error := Some("No token received from server");
          }
      }
      isLoading := false;
    }
  }
}
