/**
 * The home page (app/page.tsx): two independent effects, one resetting an
 * expired session and one sending a user with a role to the wizard, and the
 * choice between the sign-in screen and the role-selection screen.
 */
module HomePage {
  import opened Wrappers
  import opened Types
  import opened Store
  import opened Routing

  /** The sign-in screen, or the role-selection screen. */
  datatype View = AuthForm | RoleSelectionView

  /** The second effect: to "/wizard" whenever the user is authenticated and holds a role; validity is not consulted. */
  function RedirectEffect(isAuthenticated: bool, role: Option<Role>): (r: Option<Route>)
    ensures r.Some? <==> isAuthenticated && role.Some?
    ensures r.Some? ==> r.value == WizardRoute
  {
    if isAuthenticated && role.Some? then Some(WizardRoute) else None
  }

  /** The role-selection screen for every valid session, whether or not a role is held. */
  function Render(isAuthenticated: bool, sessionValid: bool): (v: View)
    ensures v == AuthForm <==> !SessionOk(isAuthenticated, sessionValid)
    ensures v == RoleSelectionView <==> SessionOk(isAuthenticated, sessionValid)
  {
    if !isAuthenticated || !sessionValid then AuthForm else RoleSelectionView
  }

  /** Both effects of one render, in declaration order; the second reads the role of that render. */
  method RunEffects(store: WizardStore, isAuthenticated: bool, sessionValid: bool) returns (dest: Option<Route>)
    modifies store
    ensures dest == RedirectEffect(isAuthenticated, old(store.role))
    ensures MustReset(isAuthenticated, sessionValid) ==> store.State() == InitialState
    ensures !MustReset(isAuthenticated, sessionValid) ==> store.State() == old(store.State())
  {
    var role := store.role;
    ResetIfExpired(store, isAuthenticated, sessionValid);
    if isAuthenticated && role.Some? {
      return Some(WizardRoute);
    }
    return None;
  }

  /**
   * An expired session that held a role is both reset and sent to the
   * wizard by the same render.
   */
  lemma ResetAndRedirectTogether(role: Option<Role>)
    requires role.Some?
    ensures MustReset(true, false)
    ensures RedirectEffect(true, role) == Some(WizardRoute)
    ensures Render(true, false) == AuthForm
  {
  }

  /** A valid session holding a role sees the role-selection screen while it is being sent to the wizard. */
  lemma RoleSelectionWhileRedirecting(role: Option<Role>)
    requires role.Some?
    ensures Render(true, true) == RoleSelectionView
    ensures RedirectEffect(true, role) == Some(WizardRoute)
  {
  }
}
