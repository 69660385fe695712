/**
 * The wizard store (hooks/useWizardState.ts): one record of role, profile,
 * current step index and captured step data, its setters, and the
 * load-or-default `migrate` applied to a persisted record.
 */
module Store {
  import opened Wrappers
  import opened Types

  /** `initialState`. */
  const InitialState := WizardState(None, None, 0, map[])

  /**
   * `migrate`: the parsed record when `WizardStateSchema` accepts the
   * persisted value, and the initial state otherwise. Either way the result
   * passes the schema again.
   */
  function Migrate(persisted: Json): (s: WizardState)
    ensures ParseWizardState(EncodeWizardState(s)) == Some(s)
    ensures SchemaAccepts(persisted) ==> Some(s) == ParseWizardState(persisted)
    ensures !SchemaAccepts(persisted) ==> s == InitialState
  {
    var s := match ParseWizardState(persisted)
             case Some(parsed) => parsed
             case None => InitialState;
    ParseEncodeRoundTrip(s);
    s
  }

  /**
   * The initial state is itself a valid persisted record: it passes the
   * schema and loads back unchanged.
   */
  lemma InitialStateLoads()
    ensures SchemaAccepts(EncodeWizardState(InitialState))
    ensures Migrate(EncodeWizardState(InitialState)) == InitialState
  {
    ParseEncodeRoundTrip(InitialState);
  }

  /** A role field holding any string other than the three role names loads as the initial state. */
  lemma MigrateCorruptRole(fields: map<string, Json>)
    requires "role" in fields && fields["role"].JStr? && fields["role"].s !in {"author", "implementer", "qa"}
    ensures Migrate(JObj(fields)) == InitialState
  {
  }

  /** The store: a single mutable record, updated field by field. */
  class WizardStore {
    var role: Option<Role>
    var profile: Option<Profile>
    var currentStepIndex: int
    var stepData: map<string, Json>

    /** The record the store currently holds. */
    function State(): WizardState
      reads this
    {
      WizardState(role, profile, currentStepIndex, stepData)
    }

    constructor ()
      ensures State() == InitialState
    {
      role, profile, currentStepIndex, stepData := None, None, 0, map[];
    }

    /** `setRole`: only the role changes. */
    method SetRole(r: Role)
      modifies this
      ensures role == Some(r)
      ensures profile == old(profile) && currentStepIndex == old(currentStepIndex) && stepData == old(stepData)
    {
      role := Some(r);
    }

    /** `setProfile`: only the profile changes; the current role is not consulted. */
    method SetProfile(p: Option<Profile>)
      modifies this
      ensures profile == p
      ensures role == old(role) && currentStepIndex == old(currentStepIndex) && stepData == old(stepData)
    {
      profile := p;
    }

    /** `setCurrentStep`: stores any index, with no check against a flow's length. */
    method SetCurrentStep(index: int)
      modifies this
      ensures currentStepIndex == index
      ensures role == old(role) && profile == old(profile) && stepData == old(stepData)
    {
      currentStepIndex := index;
    }

    /** `updateStepData`: replaces one entry of the captured data and keeps every other. */
    method UpdateStepData(key: string, data: Json)
      modifies this
      ensures key in stepData && stepData[key] == data
      ensures stepData.Keys == old(stepData).Keys + {key}
      ensures forall k :: k in old(stepData) && k != key ==> stepData[k] == old(stepData)[k]
      ensures role == old(role) && profile == old(profile) && currentStepIndex == old(currentStepIndex)
    {
      stepData := stepData[key := data];
    }

    /** `resetWizard`: all four fields back to their initial values. */
    method ResetWizard()
      modifies this
      ensures State() == InitialState
    {
      role, profile, currentStepIndex, stepData := None, None, 0, map[];
    }
  }

  /** `setRole` called twice with one role leaves the store as one call does. */
  method SetRoleTwice(store: WizardStore, r: Role)
    modifies store
    ensures store.State() == old(store.State()).(role := Some(r))
  {
    store.SetRole(r);
    ghost var once := store.State();
    store.SetRole(r);
    assert store.State() == once;
  }

  /** `setProfile` called twice with one value leaves the store as one call does. */
  method SetProfileTwice(store: WizardStore, p: Option<Profile>)
    modifies store
    ensures store.State() == old(store.State()).(profile := p)
  {
    store.SetProfile(p);
    ghost var once := store.State();
    store.SetProfile(p);
    assert store.State() == once;
  }

  /** `setCurrentStep` called twice with one index leaves the store as one call does. */
  method SetCurrentStepTwice(store: WizardStore, index: int)
    modifies store
    ensures store.State() == old(store.State()).(currentStepIndex := index)
  {
    store.SetCurrentStep(index);
    ghost var once := store.State();
    store.SetCurrentStep(index);
    assert store.State() == once;
  }

  /** `resetWizard` called twice leaves the initial state, as one call does. */
  method ResetWizardTwice(store: WizardStore)
    modifies store
    ensures store.State() == InitialState
  {
    store.ResetWizard();
    ghost var once := store.State();
    store.ResetWizard();
    assert store.State() == once;
  }

  /** A store holding an author with the tester profile is reachable: the setters do not enforce the pairing. */
  method ProfileNotTiedToRole() returns (store: WizardStore)
    ensures store.role == Some(Author) && store.profile == Some(Tester)
  {
    store := new WizardStore();
    store.SetRole(Author);
    store.SetProfile(Some(Tester));
  }

  /** Two updates under different keys: the first payload survives the second. */
  method UpdatesMerge(store: WizardStore, a: Json, b: Json)
    modifies store
    ensures "selectApp" in store.stepData && store.stepData["selectApp"] == a
    ensures "iprmProfile" in store.stepData && store.stepData["iprmProfile"] == b
  {
    store.UpdateStepData("selectApp", a);
    store.UpdateStepData("iprmProfile", b);
  }
}
