/** The login page's submit handler (app/login/page.tsx): the error shown
    and the dashboard the role leads to. The request itself, storage and the
    auth context's `login` are outside the model; the reply is an input. */
module LoginPage {
  import opened Common
  import opened Store
  import AuthLogin

  /** What `handleSubmit` sees: a parsed reply (`message` is the body's
      `message` field, `role` is `data.user.role`), or an `Error` thrown by
      `fetch` or `response.json()` with its message. */
  datatype Reply = Reply(ok: bool, message: Option<string>, role: string) | Thrown(reason: string)

  /** The role switch: exact, case-sensitive matches, `/dashboard` otherwise. */
  function RouteFor(role: string): (route: string)
    ensures role == "ORGANIZATION" <==> route == "/organization/dashboard"
    ensures role == "DONOR" <==> route == "/donor/dashboard"
    ensures role == "VOLUNTEER" <==> route == "/volunteer/dashboard"
    ensures role == "ADMIN" <==> route == "/admin/dashboard"
    ensures route == "/dashboard" <==> role !in {"ORGANIZATION", "DONOR", "VOLUNTEER", "ADMIN"}
  {
    match role
    case "ORGANIZATION" => "/organization/dashboard"
    case "DONOR" => "/donor/dashboard"
    case "VOLUNTEER" => "/volunteer/dashboard"
    case "ADMIN" => "/admin/dashboard"
    case _ => "/dashboard"
  }

  /** The error text and the navigation after one submit. The previous error
      plays no part: it is cleared before the request. */
  datatype Outcome = Outcome(error: string, route: Option<string>)

  function Submit(reply: Reply): (o: Outcome)
    ensures o.route.Some? <==> reply.Reply? && reply.ok
    ensures o.route.Some? ==> o.error == "" && o.route.value == RouteFor(reply.role)
    ensures reply.Reply? && !reply.ok ==>
              o.error == (if reply.message.Some? && reply.message.value != "" then reply.message.value else "Login failed")
    ensures reply.Thrown? ==> o.error == reply.reason
  {
    match reply
    case Thrown(m) => Outcome(m, None)
    case Reply(ok, message, role) =>
      if !ok then
        Outcome(if message.Some? && message.value != "" then message.value else "Login failed", None)
      else Outcome("", Some(RouteFor(role)))
  }

  /** How the page reads a reply of the login route: a failure carries only an
      `error` field, a success the user record. */
  function FromRoute(r: Response<AuthLogin.LoggedIn>): (reply: Reply)
    ensures reply.Reply? && (reply.ok <==> r.Success?)
    ensures r.Failure? ==> reply.message.None?
  {
    match r
    case Failure(_, _) => Reply(false, None, "")
    case Success(_, v) => Reply(true, None, v.user.role)
  }

  /** Against the login route the page never shows the route's own message:
      every refusal reads `Login failed`, and a success leads to the dashboard
      of the stored user's role. */
  lemma {:induction false} RouteRepliesAsShown(t: Tables, b: AuthLogin.Body, compare: (string, string) -> bool)
    requires NoDuplicates(Keys(t.users, UserEmail))
    ensures var r := AuthLogin.Handle(t, b, compare);
            var o := Submit(FromRoute(r));
            && (r.Failure? ==> o == Outcome("Login failed", None))
            && (r.Success? ==> o == Outcome("", Some(RouteFor(r.value.user.role))))
  {
  }

  /** A lower-case role is not recognised by the switch. */
  lemma LowerCaseRoleGoesToGenericDashboard()
    ensures RouteFor("donor") == "/dashboard"
  {
  }
}
