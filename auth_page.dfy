/**
 * The "/auth" page (app/auth/page.tsx): an effect that resets an expired
 * session and sends a signed-in user on, and the choice between the sign-in
 * screen and the redirecting notice.
 */
module AuthPage {
  import opened Wrappers
  import opened Types
  import opened Store
  import opened Routing

  /** The sign-in screen, or the notice shown while a redirect is pending. */
  datatype View = AuthForm | Redirecting

  /** The effect's destination: only a valid session moves on, to the wizard when a role is held. */
  function EffectRedirect(isAuthenticated: bool, sessionValid: bool, role: Option<Role>): (r: Option<Route>)
    ensures r.Some? <==> SessionOk(isAuthenticated, sessionValid)
    ensures r == Some(WizardRoute) <==> SessionOk(isAuthenticated, sessionValid) && role.Some?
    ensures r == Some(SelectRoleRoute) <==> SessionOk(isAuthenticated, sessionValid) && role.None?
  {
    if isAuthenticated && sessionValid then
      if role.Some? then Some(WizardRoute) else Some(SelectRoleRoute)
    else None
  }

  /** The sign-in screen exactly when the session is not both authenticated and valid. */
  function Render(isAuthenticated: bool, sessionValid: bool): (v: View)
    ensures v == AuthForm <==> !SessionOk(isAuthenticated, sessionValid)
  {
    if !isAuthenticated || !sessionValid then AuthForm else Redirecting
  }

  /** The effect: reset an expired session, then redirect a valid one. */
  method RunEffect(store: WizardStore, isAuthenticated: bool, sessionValid: bool) returns (dest: Option<Route>)
    modifies store
    ensures dest == EffectRedirect(isAuthenticated, sessionValid, old(store.role))
    ensures MustReset(isAuthenticated, sessionValid) ==> store.State() == InitialState && dest.None?
    ensures !MustReset(isAuthenticated, sessionValid) ==> store.State() == old(store.State())
  {
    var role := store.role;
    ResetIfExpired(store, isAuthenticated, sessionValid);
    if isAuthenticated && sessionValid {
      if role.Some? {
        return Some(WizardRoute);
      }
      return Some(SelectRoleRoute);
    }
    return None;
  }

  /** The redirecting notice is shown exactly when the effect has somewhere to go; this page never sends to itself. */
  lemma RenderAgreesWithEffect(isAuthenticated: bool, sessionValid: bool, role: Option<Role>)
    ensures Render(isAuthenticated, sessionValid) == Redirecting
            <==> EffectRedirect(isAuthenticated, sessionValid, role).Some?
    ensures EffectRedirect(isAuthenticated, sessionValid, role) != Some(AuthRoute)
  {
  }
}
