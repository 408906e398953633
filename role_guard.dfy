/** src/app/core/guards/role.guard.ts. The router side effect becomes part
    of the returned decision. */
module Guards {
  import opened Models
  import opened Auth

  /** Whether the route may activate, and where the guard sends the user
      instead when it may not. */
  datatype GuardDecision = GuardDecision(allow: bool, redirect: Option<Navigation>)

  /** `roleGuard`. `expectedRoles` is the route's data entry (`None` when the
      route has none; a list, even an empty one, is truthy); `url` is the
      requested URL. */
  function RoleGuard(s: Session, expectedRoles: Option<RoleSpec>, url: string): (d: GuardDecision)
    ensures d.allow <==> IsLoggedIn(s) && (expectedRoles.None? || HasRole(s, expectedRoles.value))
    ensures d.allow ==> d.redirect == None
    ensures !IsLoggedIn(s) ==> d.redirect == Some(Navigate("/login", Some(url)))
    ensures IsLoggedIn(s) && !d.allow ==> d.redirect == Some(Navigate("/", None))
  {
    if !IsLoggedIn(s) then GuardDecision(false, Some(Navigate("/login", Some(url))))
    else if expectedRoles.None? then GuardDecision(true, None)
    else if !HasRole(s, expectedRoles.value) then GuardDecision(false, Some(Navigate("/", None)))
    else GuardDecision(true, None)
  }

  /** The role lists the routes declare (src/app/app.routes.ts). */
  const StockRoles := AnyRole([AdminRole, ManagerRole, UserRole])
  const MovementsRoles := AnyRole([AdminRole, ManagerRole])
  const DashboardRoles := AnyRole([AdminRole, ManagerRole])
  const UserAdminRoles := AnyRole([AdminRole])

  /** With those lists: any logged-in user with a role reaches the stock
      screen; only admins and managers reach the movement history and the
      dashboard; only admins reach user management. */
  lemma RouteAccess(s: Session)
    requires IsLoggedIn(s) && s.currentUser.Some?
    ensures RoleGuard(s, Some(StockRoles), "/stock").allow
    ensures RoleGuard(s, Some(MovementsRoles), "/stock-movements").allow <==>
      s.currentUser.value.role != UserRole
    ensures RoleGuard(s, Some(DashboardRoles), "/dashboard").allow <==>
      s.currentUser.value.role != UserRole
    ensures RoleGuard(s, Some(UserAdminRoles), "/admin/users").allow <==>
      s.currentUser.value.role == AdminRole
  {
  }

  /** An empty role list is not "no roles expected": a logged-in user is sent
      back to "/". */
  lemma EmptyRoleListDenies(s: Session, url: string)
    requires IsLoggedIn(s)
    ensures RoleGuard(s, Some(AnyRole([])), url) == GuardDecision(false, Some(Navigate("/", None)))
  {
  }
}
