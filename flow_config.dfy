/**
 * The flow resolver (hooks/useFlowConfig.ts): the active steps for the
 * store's role and profile, whether they form a usable configuration, and
 * how many there are.
 */
module FlowConfig {
  import opened Wrappers
  import opened Types
  import opened Flows

  datatype Config = Config(steps: seq<FlowStep>, isValidConfig: bool, totalSteps: nat)

  /**
   * The per-step test of `isValidConfig`: a truthy key and title. The third
   * conjunct, `step.component`, is a function in the source and so always
   * truthy; it adds nothing.
   */
  predicate IsUsableStep(s: FlowStep)
  {
    s.key != "" && s.title != ""
  }

  /** No role gives no steps; otherwise the catalog's answer for (role, profile). */
  function Steps(role: Option<Role>, profile: Option<Profile>): (steps: seq<FlowStep>)
    ensures role.None? ==> steps == []
    ensures role.Some? ==> steps == GetFlowSteps(role.value, profile)
  {
    if role.None? then [] else GetFlowSteps(role.value, profile)
  }

  /** `steps.length > 0 && steps.every(...)`: a non-empty flow all of whose steps are usable. */
  function IsValidConfig(steps: seq<FlowStep>): (ok: bool)
    ensures ok <==> steps != [] && forall s :: s in steps ==> IsUsableStep(s)
  {
    |steps| > 0 && forall i :: 0 <= i < |steps| ==> IsUsableStep(steps[i])
  }

  /** `useFlowConfig()`. */
  function UseFlowConfig(role: Option<Role>, profile: Option<Profile>): (c: Config)
    ensures c.steps == Steps(role, profile)
    ensures c.totalSteps == |c.steps|
    ensures c.isValidConfig == IsValidConfig(c.steps)
    ensures c.isValidConfig ==> c.totalSteps >= 1
  {
    var steps := Steps(role, profile);
    Config(steps, IsValidConfig(steps), |steps|)
  }

  /**
   * The configuration is usable exactly for an author, and for an
   * implementer who has one of the three profiles; it is not for no role,
   * for qa, or for an implementer without a profile.
   */
  lemma ValidConfigIff(role: Option<Role>, profile: Option<Profile>)
    ensures UseFlowConfig(role, profile).isValidConfig
            <==> role == Some(Author) || (role == Some(Implementer) && profile.Some?)
  {
    if role.Some? {
      CatalogWellFormed(role.value, profile);
    }
  }
}
