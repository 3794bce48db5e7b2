/**
 * The role guard (src/components/RoleBasedRoute/RoleBasedRoute.jsx): the
 * authentication guard's first two steps, then `hasRequiredRole` on the
 * user's `role` field.
 */
module RoleBasedRoute {
  import opened Wrappers
  import opened Api
  import opened RoleUtils
  import ProtectedRoute

  /** What the guard renders. */
  datatype View =
    | Loading
    | Redirect(to: string, from: ProtectedRoute.Location, replace: bool)
    | AccessDenied   // the "access denied" panel with its back button
    | Children

  /** `RoleBasedRoute({ children, allowedRoles })` */
  function RoleGuard(loading: bool, user: Option<User>, allowedRoles: Option<seq<string>>,
                     location: ProtectedRoute.Location): (v: View)
    ensures v == Loading <==> loading
    ensures v.Redirect? <==> !loading && user.None?
    ensures v.Redirect? ==> v == Redirect(ProtectedRoute.LoginPath, location, true)
    ensures v == AccessDenied <==>
      !loading && user.Some? && !Truthy(HasRequiredRole(user.value.role, allowedRoles))
    ensures v == Children <==>
      !loading && user.Some? && Truthy(HasRequiredRole(user.value.role, allowedRoles))
  {
    if loading then Loading
    else if user.None? then Redirect(ProtectedRoute.LoginPath, location, true)
    else if !Truthy(HasRequiredRole(user.value.role, allowedRoles)) then AccessDenied
    else Children
  }

  /**
   * Since `hasRequiredRole` is never truthy, the children are never
   * rendered: every signed-in user is shown the access-denied panel,
   * whatever their roles and whatever roles are allowed.
   */
  lemma EverySignedInUserIsDenied(user: User, allowedRoles: Option<seq<string>>, location: ProtectedRoute.Location)
    ensures RoleGuard(false, Some(user), allowedRoles, location) == AccessDenied
  {
  }

  lemma NeverRendersChildren(loading: bool, user: Option<User>, allowedRoles: Option<seq<string>>,
                             location: ProtectedRoute.Location)
    ensures RoleGuard(loading, user, allowedRoles, location) != Children
  {
  }

  /**
   * The role guard agrees with the authentication guard while loading and
   * for a missing user, and renders its children only where the
   * authentication guard would.
   */
  lemma RoleGuardRefinesGuard(loading: bool, user: Option<User>, allowedRoles: Option<seq<string>>,
                              location: ProtectedRoute.Location)
    ensures var v := RoleGuard(loading, user, allowedRoles, location);
      var p := ProtectedRoute.Guard(loading, user, location);
      && (v == Loading <==> p == ProtectedRoute.Loading)
      && (v.Redirect? <==> p.Redirect?)
      && (v.Redirect? ==> p == ProtectedRoute.Redirect(v.to, v.from, v.replace))
      && (v == Children ==> p == ProtectedRoute.Children)
  {
  }
}
