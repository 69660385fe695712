/**
 * The role-selection screen (components/wizard/RoleSelection.tsx): a local
 * choice of role and implementer profile, written to the store in one go by
 * "Continue". This is where the rule "a profile only under implementer" is
 * established before the store sees a role.
 */
module RoleSelection {
  import opened Wrappers
  import opened Types
  import opened Store
  import opened FlowConfig

  /** `isValid`: a role is chosen and, for an implementer, a profile too. */
  function IsValid(selectedRole: Option<Role>, selectedProfile: Option<Profile>): (ok: bool)
    ensures ok ==> selectedRole.Some?
    ensures selectedRole == Some(Implementer) ==> (ok <==> selectedProfile.Some?)
    ensures selectedRole.Some? && selectedRole != Some(Implementer) ==> ok
  {
    selectedRole.Some? && (selectedRole.value != Implementer || selectedProfile.Some?)
  }

  /** The role and profile `handleContinue` writes, or nothing when the selection is not valid. */
  function ContinueWrite(selectedRole: Option<Role>, selectedProfile: Option<Profile>): (w: Option<(Role, Option<Profile>)>)
    ensures w.Some? <==> IsValid(selectedRole, selectedProfile)
    ensures w.Some? ==> Some(w.value.0) == selectedRole
    ensures w.Some? ==> (w.value.1.Some? <==> w.value.0 == Implementer)
    ensures w.Some? && w.value.0 == Implementer ==> w.value.1 == selectedProfile
  {
    if IsValid(selectedRole, selectedProfile) then
      Some((selectedRole.value, if selectedRole.value == Implementer then selectedProfile else None))
    else None
  }

  /** The three role cards; qa is shown disabled. */
  predicate IsDisabledOption(r: Role)
  {
    r == Qa
  }

  class RoleSelectionScreen {
    var selectedRole: Option<Role>
    var selectedProfile: Option<Profile>
    const store: WizardStore

    /**
     * What the screen's own controls keep true: qa is never selected, and a
     * profile is only held while implementer is the selected role.
     */
    ghost predicate Valid()
      reads this
    {
      selectedRole != Some(Qa) && (selectedProfile.Some? ==> selectedRole == Some(Implementer))
    }

    constructor (store: WizardStore)
      ensures Valid() && this.store == store
      ensures selectedRole == None && selectedProfile == None
    {
      this.store := store;
      selectedRole, selectedProfile := None, None;
    }

    /** `handleRoleSelect`: any role but implementer clears the profile. */
    method HandleRoleSelect(role: Role)
      modifies this
      ensures selectedRole == Some(role)
      ensures selectedProfile == if role != Implementer then None else old(selectedProfile)
    {
      selectedRole := Some(role);
      if role != Implementer {
        selectedProfile := None;
      }
    }

    /** `handleProfileSelect`. */
    method HandleProfileSelect(profile: Profile)
      modifies this
      ensures selectedProfile == Some(profile) && selectedRole == old(selectedRole)
    {
      selectedProfile := Some(profile);
    }

    /**
     * A click on, or Enter/Space on, a role card: a disabled card has no
     * handler and the click callback is guarded again, so qa never reaches
     * `handleRoleSelect`.
     */
    method ActivateRoleCard(role: Role)
      requires Valid()
      modifies this
      ensures Valid()
      ensures IsDisabledOption(role) ==> selectedRole == old(selectedRole) && selectedProfile == old(selectedProfile)
      ensures !IsDisabledOption(role) ==> selectedRole == Some(role)
      ensures !IsDisabledOption(role) ==> selectedProfile == if role != Implementer then None else old(selectedProfile)
    {
      if !IsDisabledOption(role) {
        HandleRoleSelect(role);
      }
    }

    /** A click on a profile card: the cards are only rendered while implementer is selected. */
    method ActivateProfileCard(profile: Profile)
      requires Valid()
      modifies this
      ensures Valid()
      ensures old(selectedRole) == Some(Implementer) ==> selectedProfile == Some(profile)
      ensures old(selectedRole) != Some(Implementer) ==> selectedProfile == old(selectedProfile)
      ensures selectedRole == old(selectedRole)
    {
      if selectedRole == Some(Implementer) {
        HandleProfileSelect(profile);
      }
    }

    /**
     * `handleContinue`: when the selection is valid, writes role, profile
     * (null unless implementer) and step 0 to the store, and what it writes
     * resolves to a usable flow; otherwise the store is left as it was.
     */
    method HandleContinue()
      requires Valid()
      modifies store
      ensures IsValid(selectedRole, selectedProfile) ==>
                store.State() == old(store.State()).(role := selectedRole,
                                                     profile := ContinueWrite(selectedRole, selectedProfile).value.1,
                                                     currentStepIndex := 0)
      ensures IsValid(selectedRole, selectedProfile) ==> (store.profile.Some? <==> store.role == Some(Implementer))
      ensures !IsValid(selectedRole, selectedProfile) ==> store.State() == old(store.State())
      ensures IsValid(selectedRole, selectedProfile) ==> UseFlowConfig(store.role, store.profile).isValidConfig
    {
      if IsValid(selectedRole, selectedProfile) {
        ContinueGivesValidConfig(selectedRole, selectedProfile);
      }
      if selectedRole.Some? && (selectedRole.value != Implementer || selectedProfile.Some?) {
        store.SetRole(selectedRole.value);
        store.SetProfile(if selectedRole.value == Implementer then selectedProfile else None);
        store.SetCurrentStep(0);
      }
    }
  }

  /**
   * Under the screen's invariant a successful Continue never writes qa, so
   * the written role and profile always resolve to a usable flow.
   */
  lemma ContinueGivesValidConfig(selectedRole: Option<Role>, selectedProfile: Option<Profile>)
    requires selectedRole != Some(Qa)
    requires ContinueWrite(selectedRole, selectedProfile).Some?
    ensures UseFlowConfig(Some(ContinueWrite(selectedRole, selectedProfile).value.0),
                          ContinueWrite(selectedRole, selectedProfile).value.1).isValidConfig
  {
    var w := ContinueWrite(selectedRole, selectedProfile).value;
    ValidConfigIff(Some(w.0), w.1);
  }
}
