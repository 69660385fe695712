/**
 * The "/select-role" page (app/select-role/page.tsx): an effect that resets
 * an expired session and redirects, and the choice between the loading view
 * and the role-selection screen.
 */
module SelectRolePage {
  import opened Wrappers
  import opened Types
  import opened Store
  import opened Routing

  /** The loading view, or the role-selection screen. */
  datatype View = Loading | RoleSelectionView

  /** The effect's destination: "/auth" without a valid session, "/wizard" when a role is already held. */
  function EffectRedirect(isAuthenticated: bool, sessionValid: bool, role: Option<Role>): (r: Option<Route>)
    ensures r == Some(AuthRoute) <==> !SessionOk(isAuthenticated, sessionValid)
    ensures r == Some(WizardRoute) <==> SessionOk(isAuthenticated, sessionValid) && role.Some?
    ensures r.None? <==> SessionOk(isAuthenticated, sessionValid) && role.None?
  {
    if !isAuthenticated || !sessionValid then Some(AuthRoute)
    else if role.Some? then Some(WizardRoute)
    else None
  }

  /** The role-selection screen exactly for a valid session without a role. */
  function Render(isAuthenticated: bool, sessionValid: bool, role: Option<Role>): (v: View)
    ensures v == RoleSelectionView <==> SessionOk(isAuthenticated, sessionValid) && role.None?
  {
    if !isAuthenticated || !sessionValid || role.Some? then Loading else RoleSelectionView
  }

  /** The effect: reset an expired session, then redirect. */
  method RunEffect(store: WizardStore, isAuthenticated: bool, sessionValid: bool) returns (dest: Option<Route>)
    modifies store
    ensures dest == EffectRedirect(isAuthenticated, sessionValid, old(store.role))
    ensures MustReset(isAuthenticated, sessionValid) ==> store.State() == InitialState && dest == Some(AuthRoute)
    ensures !MustReset(isAuthenticated, sessionValid) ==> store.State() == old(store.State())
  {
    var role := store.role;
    ResetIfExpired(store, isAuthenticated, sessionValid);
    if !isAuthenticated || !sessionValid {
      return Some(AuthRoute);
    }
    if role.Some? {
      return Some(WizardRoute);
    }
    return None;
  }

  /** The screen is shown exactly when the effect stays put; otherwise the page is loading and redirecting. */
  lemma RenderAgreesWithEffect(isAuthenticated: bool, sessionValid: bool, role: Option<Role>)
    ensures Render(isAuthenticated, sessionValid, role) == RoleSelectionView
            <==> EffectRedirect(isAuthenticated, sessionValid, role).None?
    ensures EffectRedirect(isAuthenticated, sessionValid, role) != Some(SelectRoleRoute)
  {
  }
}
