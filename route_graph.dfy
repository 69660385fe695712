/**
 * The four pages' redirects taken together. Each page's effect runs after
 * its render, may reset the store and may push another page; a page whose
 * effect reset the store renders once more with the role cleared. Following
 * that chain from any page comes to rest within two redirects, on the page
 * that fits the user's situation.
 */
module RouteGraph {
  import opened Wrappers
  import opened Types
  import opened Routing
  import HomePage
  import AuthPage
  import SelectRolePage
  import WizardPage

  datatype Page = Home | Auth | SelectRole | Wizard

  function Target(r: Route): Page
  {
    match r
    case AuthRoute => Auth
    case SelectRoleRoute => SelectRole
    case WizardRoute => Wizard
  }

  /** The destination the effect of page `p` pushes, for the role its render saw. */
  function Redirect(p: Page, isAuthenticated: bool, sessionValid: bool, role: Option<Role>): Option<Route>
  {
    match p
    case Home => HomePage.RedirectEffect(isAuthenticated, role)
    case Auth => AuthPage.EffectRedirect(isAuthenticated, sessionValid, role)
    case SelectRole => SelectRolePage.EffectRedirect(isAuthenticated, sessionValid, role)
    case Wizard => WizardPage.EffectRedirect(isAuthenticated, sessionValid, role)
  }

  /** A page at rest: its effect neither redirects nor changes the role it was rendered with. */
  predicate Settled(p: Page, isAuthenticated: bool, sessionValid: bool, role: Option<Role>)
  {
    Redirect(p, isAuthenticated, sessionValid, role).None?
    && RoleAfterEffect(isAuthenticated, sessionValid, role) == role
  }

  /**
   * The page and role reached from `p` after at most `hops` further renders
   * caused by a redirect or by a reset.
   */
  function Follow(p: Page, isAuthenticated: bool, sessionValid: bool, role: Option<Role>, hops: nat): (Page, Option<Role>)
    decreases hops
  {
    if hops == 0 || Settled(p, isAuthenticated, sessionValid, role) then (p, role)
    else
      var next := RoleAfterEffect(isAuthenticated, sessionValid, role);
      match Redirect(p, isAuthenticated, sessionValid, role)
      case Some(r) => Follow(Target(r), isAuthenticated, sessionValid, next, hops - 1)
      case None => Follow(p, isAuthenticated, sessionValid, next, hops - 1)
  }

  /**
   * From any page, two renders are enough to come to rest, and the resting
   * page fits the session: without a valid session the sign-in screen (on
   * the home or "/auth" page), with one but no role the role-selection
   * screen (on the home or "/select-role" page), and with a role the wizard.
   */
  lemma RedirectsSettle(p: Page, isAuthenticated: bool, sessionValid: bool, role: Option<Role>)
    ensures Settled(Follow(p, isAuthenticated, sessionValid, role, 2).0, isAuthenticated, sessionValid,
                    Follow(p, isAuthenticated, sessionValid, role, 2).1)
    ensures !SessionOk(isAuthenticated, sessionValid) ==>
              Follow(p, isAuthenticated, sessionValid, role, 2).0 in {Home, Auth}
              && HomePage.Render(isAuthenticated, sessionValid) == HomePage.AuthForm
              && AuthPage.Render(isAuthenticated, sessionValid) == AuthPage.AuthForm
    ensures SessionOk(isAuthenticated, sessionValid) && role.None? ==>
              Follow(p, isAuthenticated, sessionValid, role, 2).0 in {Home, SelectRole}
              && HomePage.Render(isAuthenticated, sessionValid) == HomePage.RoleSelectionView
              && SelectRolePage.Render(isAuthenticated, sessionValid, role) == SelectRolePage.RoleSelectionView
    ensures SessionOk(isAuthenticated, sessionValid) && role.Some? ==>
              Follow(p, isAuthenticated, sessionValid, role, 2).0 == Wizard
  {
  }
}
