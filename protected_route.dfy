/**
 * The authentication guard (src/components/ProtectedRoute/ProtectedRoute.jsx):
 * a chain of conditional returns on the session's `loading` and `user`.
 */
module ProtectedRoute {
  import opened Wrappers
  import opened Api

  /** The router location the guard was reached at. */
  datatype Location = Location(pathname: string, search: string, hash: string)

  /** What the guard renders. */
  datatype View =
    | Loading                                            // the loading placeholder
    | Redirect(to: string, from: Location, replace: bool) // `<Navigate to state={{ from }} replace />`
    | Children

  const LoginPath := "/login"

  /** `ProtectedRoute({ children })` */
  function Guard(loading: bool, user: Option<User>, location: Location): (v: View)
    ensures v == Loading <==> loading
    ensures v.Redirect? <==> !loading && user.None?
    ensures v.Redirect? ==> v == Redirect(LoginPath, location, true)
    ensures v == Children <==> !loading && user.Some?
  {
    if loading then Loading
    else if user.None? then Redirect(LoginPath, location, true)
    else Children
  }

  /** The outcome depends on `user` only through whether there is one. */
  lemma GuardSeesOnlyPresence(loading: bool, u1: Option<User>, u2: Option<User>, location: Location)
    requires u1.Some? == u2.Some?
    ensures Guard(loading, u1, location) == Guard(loading, u2, location)
  {
  }
}
