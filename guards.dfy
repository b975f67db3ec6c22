/** The admin route guard: only authenticated administrators get through. */
module AdminGuard {
  import opened Collections

  /** A guard's answer: whether navigation proceeds, and where it is sent instead. */
  datatype Decision = Decision(allow: bool, redirect: Option<string>)

  const LoginRoute := "/auth/login"
  const UserHomeRoute := "/user/home"

  /** `canActivate` from the two flags the authentication service reports. */
  function CanActivate(authenticated: bool, admin: bool): (d: Decision)
    ensures d.allow <==> authenticated && admin
    ensures d.allow <==> d.redirect.None?
  {
    if !authenticated then Decision(false, Some(LoginRoute))
    else if !admin then Decision(false, Some(UserHomeRoute))
    else Decision(true, None)
  }

  /** Authentication is checked first: an unauthenticated caller goes to the login page
      whatever the role flag says. */
  lemma UnauthenticatedGoesToLogin(admin: bool)
    ensures CanActivate(false, admin) == Decision(false, Some(LoginRoute))
  {
  }

  /** An authenticated non-administrator is sent to the user home page. */
  lemma NonAdminGoesHome()
    ensures CanActivate(true, false) == Decision(false, Some(UserHomeRoute))
  {
  }
}

/** The user route guard: everyone but an authenticated administrator gets through. */
module UserGuard {
  import opened Collections
  import AdminGuard

  const AdminDashboardRoute := "/admin/dashboard"

  function CanActivate(authenticated: bool, admin: bool): (d: AdminGuard.Decision)
    ensures d.allow <==> !(authenticated && admin)
    ensures d.allow <==> d.redirect.None?
  {
    if authenticated then
      if admin then AdminGuard.Decision(false, Some(AdminDashboardRoute))
      else AdminGuard.Decision(true, None)
    else AdminGuard.Decision(true, None)
  }

  /** A denied user route sends the administrator to the dashboard. */
  lemma AdminGoesToDashboard()
    ensures CanActivate(true, true) == AdminGuard.Decision(false, Some(AdminDashboardRoute))
  {
  }

  /** An authenticated caller passes exactly one of the two guards; an unauthenticated one
      passes the user guard only. */
  lemma GuardsSplitAuthenticatedUsers(authenticated: bool, admin: bool)
    ensures authenticated ==> (CanActivate(authenticated, admin).allow != AdminGuard.CanActivate(authenticated, admin).allow)
    ensures !authenticated ==> CanActivate(authenticated, admin).allow && !AdminGuard.CanActivate(authenticated, admin).allow
  {
  }
}
