/** The volunteer login page's submit handler: after a successful login it
    picks the dashboard from the stored token's role claim, falling back to the
    role the page saw when it rendered. */
module LoginUser {
  import opened Wrappers
  import opened Auth

  const AdminDashboard := "/admin/dashboard"
  const OrgDashboard := "/org/dashboard"
  const UserDashboard := "/user/dashboard"
  const LoginFailedText := "Login failed"
  /** The fallback navigation waits this long. */
  const FallbackDelayMs: nat := 500

  /** The dashboard for a role: admin, organisation, anything else (including null) a volunteer. */
  function DashboardFor(role: Option<string>): (path: string)
    ensures path == AdminDashboard <==> role == Some(AdminRole)
    ensures path == OrgDashboard <==> role == Some(OrganisationRole)
    ensures path == UserDashboard <==> role != Some(AdminRole) && role != Some(OrganisationRole)
  {
    if role == Some(AdminRole) then AdminDashboard
    else if role == Some(OrganisationRole) then OrgDashboard
    else UserDashboard
  }

  /** A navigation; `delayed` when it runs from the 500 ms timeout. */
  datatype Navigation = Navigation(path: string, delayed: bool)

  /** What the submit leaves on screen: a navigation, or an error message. */
  datatype Outcome = Navigated(nav: Navigation) | Failed(message: string)

  /** `handleSubmit`. `loginError` is the error of a failed `loginUser` (its `message`),
      `stored` the token in local storage afterwards, `contextRole` the role captured
      when the page rendered. */
  function SubmitOutcome(loginFailed: bool, loginError: Option<string>, stored: Option<string>,
                         parse: string -> Option<Claims>, contextRole: Option<string>): (o: Outcome)
    ensures o.Failed? <==> loginFailed
    ensures o.Navigated? ==> (o.nav.delayed <==> (Truthy(stored) && DecodeJwt(stored.value, parse).None?))
  {
    if loginFailed then Failed(if Truthy(loginError) then loginError.value else LoginFailedText)
    else if !Truthy(stored) then Navigated(Navigation(UserDashboard, false))
    else
      match DecodeJwt(stored.value, parse)
      case None => Navigated(Navigation(DashboardFor(contextRole), true))
      case Some(c) => Navigated(Navigation(DashboardFor(OrElse(c.role, contextRole)), false))
  }

  /** The role used for the redirect is the token's role claim when present, else the
      page's role; a token that cannot be decoded falls back to the page's role after a delay. */
  lemma RedirectRole(stored: string, parse: string -> Option<Claims>, contextRole: Option<string>)
    requires stored != ""
    ensures var o := SubmitOutcome(false, None, Some(stored), parse, contextRole);
      var d := DecodeJwt(stored, parse);
      && o.Navigated?
      && (d.Some? && Truthy(d.value.role) ==> o.nav == Navigation(DashboardFor(d.value.role), false))
      && (d.Some? && !Truthy(d.value.role) ==> o.nav == Navigation(DashboardFor(contextRole), false))
      && (d.None? ==> o.nav == Navigation(DashboardFor(contextRole), true))
  {
  }

  /** Without a stored token the volunteer dashboard is chosen; a failed login shows its
      message or the fixed text and navigates nowhere. */
  lemma NoTokenAndFailure(err: Option<string>, parse: string -> Option<Claims>, contextRole: Option<string>)
    ensures SubmitOutcome(false, err, None, parse, contextRole) == Navigated(Navigation(UserDashboard, false))
    ensures var o := SubmitOutcome(true, err, None, parse, contextRole);
      o.Failed? && (Truthy(err) ==> o.message == err.value) && (!Truthy(err) ==> o.message == LoginFailedText)
  {
  }
}
