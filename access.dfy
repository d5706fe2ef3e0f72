/** Route guarding (`ProtectedRoute`) and in-page gating (`RoleGate`). Both
    read the provider's `isAuthenticated`, `role` and `loading`. */
module Access {
  import opened Wrappers
  import opened Auth

  datatype RouteView = LoadingScreen | RedirectToLogin | Children | AccessDenied

  const LoginPath := "/login-user"

  /** `ProtectedRoute` for a route that requires `required`. */
  function Guard(loading: bool, isAuthenticated: bool, role: Option<string>, required: string): (v: RouteView)
    ensures loading <==> v == LoadingScreen
    ensures v == RedirectToLogin <==> !loading && !isAuthenticated
    ensures v == Children <==> !loading && isAuthenticated && (role == Some(AdminRole) || role == Some(required))
    ensures v == AccessDenied <==> !loading && isAuthenticated && role != Some(AdminRole) && role != Some(required)
  {
    if loading then LoadingScreen
    else if !isAuthenticated then RedirectToLogin
    else if role == Some(AdminRole) then Children
    else if role != Some(required) then AccessDenied
    else Children
  }

  /** An admin passes every guard; an authenticated session with a null role passes none. */
  lemma AdminEverywhereNullNowhere(required: string)
    ensures Guard(false, true, Some(AdminRole), required) == Children
    ensures Guard(false, true, None, required) == AccessDenied
  {
  }

  /** `RoleGate`: the children are shown iff the role is set and listed. */
  predicate GateOpen(role: Option<string>, allowed: seq<string>) {
    Truthy(role) && role.value in allowed
  }

  /** The gate has no admin exception: an admin sees gated content only when admin is listed,
      unlike the route guard. */
  lemma GateHasNoAdminException(allowed: seq<string>, required: string)
    requires AdminRole !in allowed
    ensures !GateOpen(Some(AdminRole), allowed)
    ensures Guard(false, true, Some(AdminRole), required) == Children
  {
  }

  /** A null role sees nothing gated; a listed role sees it. */
  lemma GateCases(role: Option<string>, allowed: seq<string>)
    ensures role.None? ==> !GateOpen(role, allowed)
    ensures Truthy(role) ==> (GateOpen(role, allowed) <==> role.value in allowed)
  {
  }
}
