/** The organisation area's layout (app/organization/layout.tsx): on mount
    `verifyAuth` checks the stored token against the verify endpoint and the
    role it reports; the children are rendered only after that check passed.
    The stored token, the endpoint's reply and the redirect are modelled as
    state and inputs. */
module OrganizationLayout {
  import opened Common

  /** What the verify request gives `verifyAuth`: a reply (its `ok` flag and
      the body's `role`), or an `Error` thrown by `fetch` or `response.json()`. */
  datatype VerifyReply = Answered(ok: bool, role: Option<string>) | Thrown(reason: string)

  /** The roles let into the organisation area. */
  predicate AllowedRole(role: Option<string>)
  {
    role == Some("ORGANIZATION") || role == Some("ADMIN")
  }

  /** The check: `None` when it passes, otherwise the message of the error it
      throws. The reply is only looked at when a token is stored. */
  function Check(token: Option<string>, reply: VerifyReply): (failure: Option<string>)
    ensures failure.None? <==>
              Truthy(token) && reply.Answered? && reply.ok && AllowedRole(reply.role)
    ensures !Truthy(token) ==> failure == Some("No token found")
    ensures Truthy(token) && reply.Thrown? ==> failure == Some(reply.reason)
    ensures Truthy(token) && reply.Answered? && !reply.ok ==> failure == Some("Invalid token")
    ensures Truthy(token) && reply.Answered? && reply.ok && !AllowedRole(reply.role) ==>
              failure == Some("Unauthorized role")
  {
    if !Truthy(token) then Some("No token found")
    else
      match reply
      case Thrown(m) => Some(m)
      case Answered(ok, role) =>
        if !ok then Some("Invalid token")
        else if !AllowedRole(role) then Some("Unauthorized role")
        else None
  }

  /** What the layout renders. */
  datatype Screen = Loading | ErrorText(message: string) | Children

  class Layout {
    var isLoading: bool
    var error: Option<string>
    /** The token in local storage. */
    var token: Option<string>
    /** The last `router.push`, if any. */
    var route: Option<string>

    constructor(stored: Option<string>)
      ensures isLoading && error.None? && token == stored && route.None?
    {
      isLoading, error, token, route := true, None, stored, None;
    }

    /** Loading first, then the error, then the children. */
    function Render(): (s: Screen)
      reads this
      ensures s.Children? <==> !isLoading && error.None?
    {
      if isLoading then Loading
      else if error.Some? then ErrorText(error.value)
      else Children
    }

    /** `verifyAuth`: on success only the loading flag is cleared; on any
        failure the token is removed, the error is set and the user is sent to
        /login, while the loading flag stays set. */
    method VerifyAuth(reply: VerifyReply)
      modifies this
      ensures var failure := Check(old(token), reply);
              && (failure.None? ==> !isLoading && error == old(error) && token == old(token) && route == old(route))
              && (failure.Some? ==> isLoading == old(isLoading) && error == failure && token.None? && route == Some("/login"))
    {
      var failure: Option<string>;
      if !Truthy(token) {
        failure := Some("No token found");
      } else if reply.Thrown? {
        failure := Some(reply.reason);
      } else if !reply.ok {
        failure := Some("Invalid token");
      } else if reply.role != Some("ORGANIZATION") && reply.role != Some("ADMIN") {
        failure := Some("Unauthorized role");
      } else {
        failure := None;
      }
      if failure.None? {
        isLoading := false;
      } else {
        token := None;
        error := failure;
        route := Some("/login");
      }
    }

    /** The logout button. */
    method Logout()
      modifies this
      ensures token.None? && route == Some("/login")
      ensures isLoading == old(isLoading) && error == old(error)
    {
      token := None;
      route := Some("/login");
    }
  }

  /** From the freshly mounted layout, the children appear after the check
      exactly when it passes, and a failed check never shows its error: the
      loading screen stays until the redirect. */
  method MountAndVerify(stored: Option<string>, reply: VerifyReply) returns (s: Screen)
    ensures s.Children? <==> Check(stored, reply).None?
    ensures !s.Children? ==> s == Loading
  {
    var layout := new Layout(stored);
    layout.VerifyAuth(reply);
    s := layout.Render();
  }
}
