/** `ProtectedRoute`: the redirect effect and the render decision, as two
    separate functions of the session state and the props, as the component
    computes them. */
module Guard {
  import opened Wrappers
  import opened Accounts
  import Auth

  /** The component's props; `None` is an omitted prop. */
  datatype Props = Props(allowedRoles: Option<seq<string>>, redirectPath: Option<string>)

  /** Default parameter values apply only when the prop is omitted. */
  function AllowedRoles(p: Props): (roles: seq<string>)
    ensures p.allowedRoles.None? ==> roles == ["user"]
    ensures p.allowedRoles.Some? ==> roles == p.allowedRoles.value
  {
    p.allowedRoles.GetOr(["user"])
  }

  function RedirectPath(p: Props): (path: string)
    ensures p.redirectPath.None? ==> path == "/login"
    ensures p.redirectPath.Some? ==> path == p.redirectPath.value
  {
    p.redirectPath.GetOr("/login")
  }

  /** What the component returns. */
  datatype View = Placeholder | Nothing | Children

  /** The `useEffect` body: the route pushed, if any. */
  function Redirect(loading: bool, isAuthenticated: bool, user: Option<User>, props: Props): (push: Option<string>)
    ensures loading ==> push == None
    ensures push.Some? ==> push.value == RedirectPath(props)
    ensures !loading && (!isAuthenticated || user.None?) ==> push.Some?
  {
    if !loading then
      if !isAuthenticated || user.None? then
        Some(RedirectPath(props))
      else if !(RoleName(user.value.role) in AllowedRoles(props)) then
        Some(RedirectPath(props))
      else
        None
    else
      None
  }

  /** The render pass. It shows the children exactly when the session is
      loaded, authenticated and the role allowed; it never shows them while
      redirecting, and renders nothing exactly when it redirects. */
  function Render(loading: bool, isAuthenticated: bool, user: Option<User>, props: Props): (v: View)
    ensures v == Placeholder <==> loading
    ensures v == Children <==>
      !loading && isAuthenticated && user.Some? && RoleName(user.value.role) in AllowedRoles(props)
    ensures v == Children ==> Redirect(loading, isAuthenticated, user, props) == None
    ensures v == Nothing <==> Redirect(loading, isAuthenticated, user, props).Some?
  {
    if loading then
      Placeholder
    else if !isAuthenticated || user.None? then
      Nothing
    else if !(RoleName(user.value.role) in AllowedRoles(props)) then
      Nothing
    else
      Children
  }

  /** An explicitly empty role list turns every signed-in user away. */
  lemma EmptyRolesDenyAll(isAuthenticated: bool, user: Option<User>, path: Option<string>)
    ensures Render(false, isAuthenticated, user, Props(Some([]), path)) == Nothing
    ensures Redirect(false, isAuthenticated, user, Props(Some([]), path)) == Some(RedirectPath(Props(Some([]), path)))
  {
  }

  /** The guard as the doctor pages mount it. */
  const DoctorPages := Props(Some(["health_admin", "super_admin"]), Some("/doctor-login"))

  /** The guard as the EPA pages mount it. */
  const EpaPages := Props(Some(["epa_admin", "super_admin"]), Some("/epa-login"))

  /** The guard as the citizen dashboard pages mount it. */
  const DashboardPages := Props(Some(["user", "epa_admin", "health_admin", "super_admin"]), None)

  /** The login portal's role gate and the portal pages' guard agree: a
      signed-in user sees the doctor (EPA) pages exactly when the doctor (EPA)
      portal would have let them in, and every role sees the citizen dashboard. */
  lemma PortalGateMatchesGuard(u: User)
    ensures Render(false, true, Some(u), DoctorPages) == Children <==> Auth.PortalAdmits(Some(Auth.Doctor), u.role)
    ensures Render(false, true, Some(u), EpaPages) == Children <==> Auth.PortalAdmits(Some(Auth.Epa), u.role)
    ensures Render(false, true, Some(u), DashboardPages) == Children
  {
  }

  /** The guard reads the session store; after logout it turns every page away. */
  lemma GuardAfterLogout(s: Auth.SessionStore, props: Props)
    requires s.user == None && s.token == None && !s.loading
    ensures Render(s.loading, s.IsAuthenticated(), s.user, props) == Nothing
    ensures Redirect(s.loading, s.IsAuthenticated(), s.user, props) == Some(RedirectPath(props))
  {
  }
}
