/**
 * The navigation gate of the wizard layout
 * (components/wizard/WizardLayout.tsx): which steps may be visited, which
 * count as completed, the progress ratio, the user's display name, and the
 * guarded moves of the store's current step index.
 */
module Layout {
  import opened Wrappers
  import opened Types
  import opened Store
  import opened Flows
  import opened FlowConfig

  /** `canGoNext`: from a real step, exactly when the flow has a step after it. */
  function CanGoNext(currentStepIndex: int, totalSteps: nat): (ok: bool)
    ensures 0 <= currentStepIndex ==> (ok <==> currentStepIndex + 1 < totalSteps)
    ensures currentStepIndex == totalSteps - 1 ==> !ok
  {
    currentStepIndex < totalSteps - 1
  }

  /** `canGoPrevious`: exactly when the step before the current one exists. */
  function CanGoPrevious(currentStepIndex: int): (ok: bool)
    ensures ok <==> currentStepIndex - 1 >= 0
    ensures currentStepIndex == 0 ==> !ok
  {
    currentStepIndex > 0
  }

  /** `isStepAccessible`: any earlier step, the current one, or exactly the next one. */
  function IsStepAccessible(currentStepIndex: int, index: int): (ok: bool)
    ensures ok <==> index <= currentStepIndex + 1
  {
    index <= currentStepIndex || index == currentStepIndex + 1
  }

  /**
   * `isStepCompleted`: the step exists, something is captured under its key,
   * and the pointer has moved past it. The truthiness test on the captured
   * value is modelled as presence of the key.
   */
  function IsStepCompleted(steps: seq<FlowStep>, stepData: map<string, Json>, currentStepIndex: int, index: int): (done: bool)
    ensures done ==> IsStepAccessible(currentStepIndex, index) && index != currentStepIndex
    ensures done ==> 0 <= index < |steps|
    ensures 0 <= index < |steps| && index < currentStepIndex ==> (done <==> steps[index].key in stepData)
  {
    0 <= index < |steps| && steps[index].key in stepData && index < currentStepIndex
  }

  /** A step at or beyond the pointer, or one that does not exist, is never completed, whatever is captured. */
  lemma CompletedOnlyBehind(steps: seq<FlowStep>, currentStepIndex: int, index: int)
    requires index >= currentStepIndex || index < 0 || index >= |steps|
    ensures forall stepData :: !IsStepCompleted(steps, stepData, currentStepIndex, index)
  {
  }

  /** `progress`, as an exact ratio (percent). */
  function Progress(currentStepIndex: int, totalSteps: nat): (p: real)
    ensures totalSteps == 0 ==> p == 0.0
    ensures totalSteps > 0 && currentStepIndex == totalSteps - 1 ==> p == 100.0
    ensures totalSteps > 0 && 0 <= currentStepIndex < totalSteps ==> 0.0 < p <= 100.0
  {
    if totalSteps > 0 then ((currentStepIndex + 1) as real / totalSteps as real) * 100.0 else 0.0
  }

  /** Progress grows strictly with the step index. */
  lemma ProgressMonotone(i: int, j: int, totalSteps: nat)
    requires totalSteps > 0 && i < j
    ensures Progress(i, totalSteps) < Progress(j, totalSteps)
  {
    var t := totalSteps as real;
    assert (i + 1) as real / t < (j + 1) as real / t;
  }

  /** `getUserDisplayName`. */
  function DisplayName(role: Option<Role>, profile: Option<Profile>): (name: string)
    ensures role == Some(Author) ==> name == "Author"
    ensures role == Some(Implementer) && profile.Some? ==> name == "implementer - " + ProfileName(profile.value)
    ensures role == Some(Implementer) && profile.None? ==> name == "implementer"
    ensures role == Some(Qa) ==> name == "qa"
    ensures role.None? ==> name == "User"
  {
    if role == Some(Author) then "Author"
    else if role == Some(Implementer) && profile.Some? then RoleName(Implementer) + " - " + ProfileName(profile.value)
    else if role.Some? then RoleName(role.value)
    else "User"
  }

  /**
   * For the pairs the role screen writes (a profile exactly for an
   * implementer), the header's name tells the user apart: equal names mean
   * equal role and profile.
   */
  lemma DisplayNameIdentifies(r1: Option<Role>, p1: Option<Profile>, r2: Option<Role>, p2: Option<Profile>)
    requires p1.Some? <==> r1 == Some(Implementer)
    requires p2.Some? <==> r2 == Some(Implementer)
    requires DisplayName(r1, p1) == DisplayName(r2, p2)
    ensures r1 == r2 && p1 == p2
  {
  }

  /** The index `handleNext` leaves behind. */
  function NextIndex(currentStepIndex: int, totalSteps: nat): (n: int)
    ensures n == currentStepIndex + 1 <==> CanGoNext(currentStepIndex, totalSteps)
    ensures n != currentStepIndex + 1 ==> n == currentStepIndex
    ensures 0 <= currentStepIndex < totalSteps ==> 0 <= n < totalSteps
  {
    if CanGoNext(currentStepIndex, totalSteps) then currentStepIndex + 1 else currentStepIndex
  }

  /** The index `handlePrevious` leaves behind. */
  function PreviousIndex(currentStepIndex: int): (n: int)
    ensures n == currentStepIndex - 1 <==> CanGoPrevious(currentStepIndex)
    ensures n != currentStepIndex - 1 ==> n == currentStepIndex
    ensures currentStepIndex >= 0 ==> n >= 0
  {
    if CanGoPrevious(currentStepIndex) then currentStepIndex - 1 else currentStepIndex
  }

  /** The index `handleStepClick(index)` leaves behind. */
  function ClickIndex(currentStepIndex: int, index: int): (n: int)
    ensures n == index || n == currentStepIndex
    ensures n == index <==> index <= currentStepIndex + 1
    ensures n <= currentStepIndex + 1
  {
    if IsStepAccessible(currentStepIndex, index) then index else currentStepIndex
  }

  /** `handleNext`, against the length of the flow the store's role and profile resolve to. */
  method HandleNext(store: WizardStore)
    modifies store
    ensures store.State() == old(store.State()).(currentStepIndex :=
              NextIndex(old(store.currentStepIndex), UseFlowConfig(old(store.role), old(store.profile)).totalSteps))
  {
    var totalSteps := UseFlowConfig(store.role, store.profile).totalSteps;
    if CanGoNext(store.currentStepIndex, totalSteps) {
      store.SetCurrentStep(store.currentStepIndex + 1);
    }
  }

  /** `handlePrevious`. */
  method HandlePrevious(store: WizardStore)
    modifies store
    ensures store.State() == old(store.State()).(currentStepIndex := PreviousIndex(old(store.currentStepIndex)))
  {
    if CanGoPrevious(store.currentStepIndex) {
      store.SetCurrentStep(store.currentStepIndex - 1);
    }
  }

  /** `handleStepClick`: an inaccessible index is ignored. */
  method HandleStepClick(store: WizardStore, index: int)
    modifies store
    ensures store.State() == old(store.State()).(currentStepIndex := ClickIndex(old(store.currentStepIndex), index))
  {
    if index <= store.currentStepIndex || index == store.currentStepIndex + 1 {
      store.SetCurrentStep(index);
    }
  }

  /** The layout's navigation controls: the two buttons and a click on a step of the sidebar. */
  datatype NavAction = NextButton | PreviousButton | StepClick(index: int)

  function Apply(currentStepIndex: int, totalSteps: nat, a: NavAction): int
  {
    match a
    case NextButton => NextIndex(currentStepIndex, totalSteps)
    case PreviousButton => PreviousIndex(currentStepIndex)
    case StepClick(i) => ClickIndex(currentStepIndex, i)
  }

  /** The index after a sequence of navigation actions. */
  function Navigate(currentStepIndex: int, totalSteps: nat, actions: seq<NavAction>): int
    decreases |actions|
  {
    if actions == [] then currentStepIndex
    else Navigate(Apply(currentStepIndex, totalSteps, actions[0]), totalSteps, actions[1..])
  }

  /** The sidebar only offers clicks on the indices of existing steps. */
  predicate ClicksWithin(actions: seq<NavAction>, totalSteps: nat)
  {
    forall i :: 0 <= i < |actions| && actions[i].StepClick? ==> 0 <= actions[i].index < totalSteps
  }

  /**
   * Starting in range, any sequence of the layout's controls keeps the index
   * in range, and each control advances it by at most one.
   */
  lemma {:induction false} NavigateStaysInRange(currentStepIndex: int, totalSteps: nat, actions: seq<NavAction>)
    requires 0 <= currentStepIndex < totalSteps
    requires ClicksWithin(actions, totalSteps)
    ensures 0 <= Navigate(currentStepIndex, totalSteps, actions) < totalSteps
    ensures Navigate(currentStepIndex, totalSteps, actions) <= currentStepIndex + |actions|
    decreases |actions|
  {
    if actions != [] {
      var next := Apply(currentStepIndex, totalSteps, actions[0]);
      assert ClicksWithin(actions[1..], totalSteps) by {
        forall i | 0 <= i < |actions[1..]| && actions[1..][i].StepClick?
          ensures 0 <= actions[1..][i].index < totalSteps
        {
          assert actions[1..][i] == actions[i + 1];
        }
      }
      NavigateStaysInRange(next, totalSteps, actions[1..]);
    }
  }

  /**
   * With the store's own flow: navigation never changes role or profile, so
   * the flow length stays fixed; a store pointing into its flow has a usable
   * configuration, and the controls never take the pointer out of that flow.
   */
  lemma NavigateWithinFlow(s: WizardState, actions: seq<NavAction>)
    requires 0 <= s.currentStepIndex < UseFlowConfig(s.role, s.profile).totalSteps
    requires ClicksWithin(actions, UseFlowConfig(s.role, s.profile).totalSteps)
    ensures UseFlowConfig(s.role, s.profile).isValidConfig
    ensures 0 <= Navigate(s.currentStepIndex, UseFlowConfig(s.role, s.profile).totalSteps, actions)
               < UseFlowConfig(s.role, s.profile).totalSteps
  {
    ValidConfigIff(s.role, s.profile);
    if s.role.Some? {
      CatalogWellFormed(s.role.value, s.profile);
      NoFlowWithoutProfileOrForQa(s.profile);
    }
    NavigateStaysInRange(s.currentStepIndex, UseFlowConfig(s.role, s.profile).totalSteps, actions);
  }
}
