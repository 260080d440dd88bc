/** The generic dashboard page (app/dashboard/page.tsx): on mount it reads
    the stored token and role and redirects; the stored values are inputs
    and the redirect is the result. */
module DashboardPage {
  import opened Common
  import LoginPage

  /** The redirect: `/login` without a token; otherwise the dashboard named
      by the lower-cased role, and `/login` for a missing or unknown role. */
  function Redirect(token: Option<string>, userRole: Option<string>): (route: string)
    ensures !Truthy(token) ==> route == "/login"
    ensures Truthy(token) && userRole.Some? ==>
              var role := LowerStr(userRole.value);
              && (role == "organization" <==> route == "/organization/dashboard")
              && (role == "donor" <==> route == "/donor/dashboard")
              && (role == "volunteer" <==> route == "/volunteer/dashboard")
              && (role == "admin" <==> route == "/admin/dashboard")
    ensures route == "/login" <==>
              !Truthy(token) || userRole.None?
              || LowerStr(userRole.value) !in {"organization", "donor", "volunteer", "admin"}
  {
    if !Truthy(token) then "/login"
    else if userRole.None? then "/login"
    else
      match LowerStr(userRole.value)
      case "organization" => "/organization/dashboard"
      case "donor" => "/donor/dashboard"
      case "volunteer" => "/volunteer/dashboard"
      case "admin" => "/admin/dashboard"
      case _ => "/login"
  }

  /** For the four roles the platform issues, this page and the login page
      send the user to the same dashboard. */
  lemma {:induction false} AgreesWithLogin(token: string, role: string)
    requires token != ""
    requires role in {"ORGANIZATION", "DONOR", "VOLUNTEER", "ADMIN"}
    ensures Redirect(Some(token), Some(role)) == LoginPage.RouteFor(role)
  {
    if role == "ORGANIZATION" {
      assert LowerStr(role) == "organization";
    } else if role == "DONOR" {
      assert LowerStr(role) == "donor";
    } else if role == "VOLUNTEER" {
      assert LowerStr(role) == "volunteer";
    } else {
      assert LowerStr(role) == "admin";
    }
  }

  /** Where the two disagree: a role the login switch does not know sends the
      user here, and this page sends them back to /login. */
  lemma {:induction false} UnknownRoleLoops(token: string, role: string)
    requires token != ""
    requires LowerStr(role) !in {"organization", "donor", "volunteer", "admin"}
    ensures LoginPage.RouteFor(role) == "/dashboard"
    ensures Redirect(Some(token), Some(role)) == "/login"
  {
    if role in {"ORGANIZATION", "DONOR", "VOLUNTEER", "ADMIN"} {
      AgreesWithLogin(token, role);
    }
  }
}
