/** The route guard of src/components/ProtectedRoute.jsx. */
module Access {

  import opened Wrappers
  import opened Auth

  /** What the guard renders. `from` is the location it remembers. */
  datatype Outcome =
    | Spinner
    | RedirectLogin(from: string)
    | RedirectHome(from: string)
    | Render

  /** `ProtectedRoute({ element, allowedRoles })` at `location`. A missing
      `allowedRoles` is `None`. */
  function Decide(auth: AuthState, allowedRoles: Option<seq<string>>, location: string): (o: Outcome)
    ensures auth.isLoading ==> o == Spinner
    ensures !auth.isLoading && !auth.isAuthenticated ==> o == RedirectLogin(location)
    ensures o.RedirectHome? ==> o.from == location
    ensures o == Render <==>
      !auth.isLoading && auth.isAuthenticated &&
      (RolesOpen(allowedRoles) || (auth.user.Some? && auth.user.value.role in allowedRoles.value))
  {
    if auth.isLoading then Spinner
    else if !auth.isAuthenticated then RedirectLogin(location)
    else if allowedRoles.Some? && |allowedRoles.value| > 0 then
      var hasRequiredRole := auth.user.Some? && auth.user.value.role in allowedRoles.value;
      if !hasRequiredRole then RedirectHome(location) else Render
    else Render
  }

  /** No role restriction: `allowedRoles` absent or empty. */
  predicate RolesOpen(allowedRoles: Option<seq<string>>)
  {
    allowedRoles.None? || |allowedRoles.value| == 0
  }

  /** A signed-in user is sent home exactly when a non-empty role list is
      given and there is no user or the user's role is not in it. */
  lemma RedirectHomeExactly(auth: AuthState, allowedRoles: Option<seq<string>>, location: string)
    requires !auth.isLoading && auth.isAuthenticated
    ensures Decide(auth, allowedRoles, location).RedirectHome? <==>
      !RolesOpen(allowedRoles) && (auth.user.None? || auth.user.value.role !in allowedRoles.value)
  {
  }
}
