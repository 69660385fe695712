/**
 * What the four pages (app/page.tsx, app/auth/page.tsx,
 * app/select-role/page.tsx, app/wizard/page.tsx) share: the routes they
 * push, the session test and the reset each effect starts with.
 *
 * Whether the user is authenticated and whether the session is still valid
 * are inputs here: hooks/useWizardState.ts, which the pages read them from,
 * defines neither.
 */
module Routing {
  import opened Wrappers
  import opened Types
  import opened Store

  /** The destinations of `router.push`: "/auth", "/select-role" and "/wizard". */
  datatype Route = AuthRoute | SelectRoleRoute | WizardRoute

  /** `isAuthenticated && isSessionValid()`. */
  predicate SessionOk(isAuthenticated: bool, sessionValid: bool)
  {
    isAuthenticated && sessionValid
  }

  /** `isAuthenticated && !isSessionValid()`: the condition for `resetWizard()`. */
  predicate MustReset(isAuthenticated: bool, sessionValid: bool)
  {
    isAuthenticated && !sessionValid
  }

  /**
   * The store as it reads `isAuthenticated`: the field is not declared, so
   * destructuring yields `undefined`, which every test treats as false.
   */
  const AsWrittenIsAuthenticated := false

  /** The opening step of every page's effect: reset exactly when an authenticated session has expired. */
  method ResetIfExpired(store: WizardStore, isAuthenticated: bool, sessionValid: bool)
    modifies store
    ensures MustReset(isAuthenticated, sessionValid) ==> store.State() == InitialState
    ensures !MustReset(isAuthenticated, sessionValid) ==> store.State() == old(store.State())
  {
    if isAuthenticated && !sessionValid {
      store.ResetWizard();
    }
  }

  /** The role a page's next render sees after its effect has run. */
  function RoleAfterEffect(isAuthenticated: bool, sessionValid: bool, role: Option<Role>): (r: Option<Role>)
    ensures MustReset(isAuthenticated, sessionValid) ==> r.None?
    ensures !MustReset(isAuthenticated, sessionValid) ==> r == role
  {
    if MustReset(isAuthenticated, sessionValid) then None else role
  }

  /**
   * Running the effect's opening step a second time, as a remount does,
   * leaves the store where the first run put it.
   */
  method ResetIfExpiredTwice(store: WizardStore, isAuthenticated: bool, sessionValid: bool)
    modifies store
    ensures MustReset(isAuthenticated, sessionValid) ==> store.State() == InitialState
    ensures !MustReset(isAuthenticated, sessionValid) ==> store.State() == old(store.State())
    ensures store.role == RoleAfterEffect(isAuthenticated, sessionValid, old(store.role))
  {
    ResetIfExpired(store, isAuthenticated, sessionValid);
    ghost var once := store.State();
    ResetIfExpired(store, isAuthenticated, sessionValid);
    assert store.State() == once;
  }
}
