/**
 * The wizard page (app/wizard/page.tsx): the table from component names to
 * the implemented step screens, the effect that resets and redirects, and
 * the gate that decides between the loading view and the wizard layout.
 */
module WizardPage {
  import opened Wrappers
  import opened Types
  import opened Flows
  import opened FlowConfig
  import opened Store
  import opened Routing

  /** The entries of `stepComponents`. */
  datatype StepComponent = SelectAppUi | SelectProfileUi | SystemQuestionsUi

  function ComponentName(c: StepComponent): string
  {
    match c
    case SelectAppUi => "SelectApp"
    case SelectProfileUi => "SelectProfile"
    case SystemQuestionsUi => "SystemQuestions"
  }

  /** What `StepLoader` shows: a step screen, or the "under development" notice naming the step. */
  datatype StepView = Mounted(component: StepComponent) | UnderDevelopment(stepKey: string)

  /** `StepLoader`: a screen exactly for the three registered names. */
  function StepLoader(name: string): (v: StepView)
    ensures v.Mounted? <==> name in {"SelectApp", "SelectProfile", "SystemQuestions"}
    ensures v.Mounted? ==> ComponentName(v.component) == name
    ensures v.UnderDevelopment? ==> v.stepKey == name
  {
    if name == "SelectApp" then Mounted(SelectAppUi)
    else if name == "SelectProfile" then Mounted(SelectProfileUi)
    else if name == "SystemQuestions" then Mounted(SystemQuestionsUi)
    else UnderDevelopment(name)
  }

  /** Every registered screen is found under its own name. */
  lemma StepLoaderFindsRegistered(c: StepComponent)
    ensures StepLoader(ComponentName(c)) == Mounted(c)
  {
  }

  /**
   * In every flow the first two steps have screens, and so does the
   * author's third; every later step shows the notice.
   */
  lemma MountedSteps(role: Role, profile: Option<Profile>, i: int)
    requires 0 <= i < |GetFlowSteps(role, profile)|
    ensures StepLoader(GetFlowSteps(role, profile)[i].component).Mounted?
            <==> i < 2 || (role == Author && i == 2)
  {
    if role == Author {
      AuthorIgnoresProfile(profile);
    } else {
      NoFlowWithoutProfileOrForQa(profile);
      if role == Implementer && profile.Some? {
        ImplementerGetsProfileFlow(profile.value);
      }
    }
  }

  /** The page: the loading view, or the layout holding the current step (none when the index is out of range). */
  datatype View = Loading | Layout(step: Option<StepView>)

  /**
   * The render gate and `steps[currentStepIndex]`: the layout only for an
   * authenticated, valid session with a role whose configuration is usable;
   * an index outside the flow shows the layout with no step.
   */
  function Render(isAuthenticated: bool, sessionValid: bool, s: WizardState): (v: View)
    ensures v.Layout? <==> SessionOk(isAuthenticated, sessionValid) && s.role.Some?
                           && UseFlowConfig(s.role, s.profile).isValidConfig
    ensures v.Layout? ==> (v.step.Some? <==> 0 <= s.currentStepIndex < UseFlowConfig(s.role, s.profile).totalSteps)
    ensures v.Layout? && v.step.Some? ==>
              v.step.value == StepLoader(UseFlowConfig(s.role, s.profile).steps[s.currentStepIndex].component)
  {
    var config := UseFlowConfig(s.role, s.profile);
    if !isAuthenticated || !sessionValid || s.role.None? || !config.isValidConfig then Loading
    else if 0 <= s.currentStepIndex < |config.steps| then
      Layout(Some(StepLoader(config.steps[s.currentStepIndex].component)))
    else Layout(None)
  }

  /** The effect's destination, decided on the role of the render that scheduled it. */
  function EffectRedirect(isAuthenticated: bool, sessionValid: bool, role: Option<Role>): (r: Option<Route>)
    ensures r == Some(AuthRoute) <==> !SessionOk(isAuthenticated, sessionValid)
    ensures r == Some(SelectRoleRoute) <==> SessionOk(isAuthenticated, sessionValid) && role.None?
    ensures r.None? <==> SessionOk(isAuthenticated, sessionValid) && role.Some?
  {
    if !isAuthenticated || !sessionValid then Some(AuthRoute)
    else if role.None? then Some(SelectRoleRoute)
    else None
  }

  /** The effect: reset an expired session, then redirect. */
  method RunEffect(store: WizardStore, isAuthenticated: bool, sessionValid: bool) returns (dest: Option<Route>)
    modifies store
    ensures dest == EffectRedirect(isAuthenticated, sessionValid, old(store.role))
    ensures MustReset(isAuthenticated, sessionValid) ==> store.State() == InitialState && dest == Some(AuthRoute)
    ensures !MustReset(isAuthenticated, sessionValid) ==> store.State() == old(store.State())
  {
    var role := store.role;
    ResetIfExpired(store, isAuthenticated, sessionValid);
    if !isAuthenticated || !sessionValid {
      return Some(AuthRoute);
    }
    if role.None? {
      return Some(SelectRoleRoute);
    }
    return None;
  }

  /** Whenever the layout is shown, the effect stays put: the gate and the redirects agree. */
  lemma LayoutOnlyWithoutRedirect(isAuthenticated: bool, sessionValid: bool, s: WizardState)
    requires Render(isAuthenticated, sessionValid, s).Layout?
    ensures EffectRedirect(isAuthenticated, sessionValid, s.role).None?
  {
  }

  /**
   * For a valid session, the layout shows exactly for an author and for an
   * implementer with a profile; the first step mounts the application screen.
   */
  lemma LayoutForUsableRole(isAuthenticated: bool, sessionValid: bool, s: WizardState)
    requires SessionOk(isAuthenticated, sessionValid)
    ensures Render(isAuthenticated, sessionValid, s).Layout?
            <==> s.role == Some(Author) || (s.role == Some(Implementer) && s.profile.Some?)
    ensures Render(isAuthenticated, sessionValid, s).Layout? && s.currentStepIndex == 0 ==>
              Render(isAuthenticated, sessionValid, s) == Layout(Some(Mounted(SelectAppUi)))
  {
    ValidConfigIff(s.role, s.profile);
    if s.role.Some? {
      CatalogWellFormed(s.role.value, s.profile);
    }
  }

  /**
   * A valid session whose role is qa, or implementer without a profile, is
   * neither redirected nor shown the layout: the page stays on loading.
   */
  lemma StuckLoading(isAuthenticated: bool, sessionValid: bool, s: WizardState)
    requires SessionOk(isAuthenticated, sessionValid)
    requires s.role == Some(Qa) || (s.role == Some(Implementer) && s.profile.None?)
    ensures Render(isAuthenticated, sessionValid, s) == Loading
    ensures EffectRedirect(isAuthenticated, sessionValid, s.role).None?
  {
    ValidConfigIff(s.role, s.profile);
  }

  /**
   * As written, `isAuthenticated` reads as false, so the page always
   * redirects to "/auth" and always shows the loading view.
   */
  lemma AsWrittenNeverShowsWizard(sessionValid: bool, s: WizardState)
    ensures Render(AsWrittenIsAuthenticated, sessionValid, s) == Loading
    ensures EffectRedirect(AsWrittenIsAuthenticated, sessionValid, s.role) == Some(AuthRoute)
  {
  }
}
