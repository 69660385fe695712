/**
 * The IPRM-profile step (components/wizard/steps/SelectProfile.tsx): the
 * protection-profile catalog, the lookup of the selected id, the derived
 * risk level and the write of the selection into the captured data.
 *
 * The step writes under "selectProfile", while the flow step that mounts it
 * has key "iprmProfile" and the layout's completion test looks up the flow
 * key; `ProfileStepNeverCompleted` states the consequence, and
 * `SelectionWriteToFlowKey` is the write under the flow key.
 */
module SelectProfile {
  import opened Wrappers
  import opened Types
  import opened Seqs
  import opened Flows
  import opened Store
  import opened Layout

  /** The key the step writes under, as the component has it. */
  const WrittenKey := "selectProfile"

  datatype IprmProfile = IprmProfile(id: string, name: string, riskLevel: RiskLevel, requirements: seq<string>)

  /** `iprmProfiles` (descriptions and icons are presentation only). */
  const IprmProfiles: seq<IprmProfile> := [
    IprmProfile("standard", "Standard Protection", Low,
                ["Data encryption at rest", "Access logging", "Basic authentication"]),
    IprmProfile("enhanced", "Enhanced Protection", Medium,
                ["Advanced encryption", "Multi-factor authentication", "Data loss prevention",
                 "Regular security audits"]),
    IprmProfile("maximum", "Maximum Protection", High,
                ["End-to-end encryption", "Zero-trust architecture", "Continuous monitoring",
                 "Compliance reporting", "Data residency controls"])
  ]

  /** The catalog: standard, enhanced and maximum, one per risk level, from low to high. */
  lemma IprmProfilesWellFormed()
    ensures |IprmProfiles| == 3
    ensures IprmProfiles[0].id == "standard" && IprmProfiles[0].riskLevel == Low
    ensures IprmProfiles[1].id == "enhanced" && IprmProfiles[1].riskLevel == Medium
    ensures IprmProfiles[2].id == "maximum" && IprmProfiles[2].riskLevel == High
    ensures forall i :: 0 <= i < |IprmProfiles| ==> IprmProfiles[i].name != "" && |IprmProfiles[i].requirements| >= 3
  {
  }

  function HasId(id: string): IprmProfile -> bool
  {
    (p: IprmProfile) => p.id == id
  }

  /** `iprmProfiles.find((p) => p.id === selectedProfile)`. */
  function FindProfile(id: string): (r: Option<IprmProfile>)
    ensures r.Some? ==> r.value in IprmProfiles && r.value.id == id
    ensures r.None? <==> id !in {"standard", "enhanced", "maximum"}
  {
    Find(IprmProfiles, HasId(id))
  }

  /** The ids standard, enhanced and maximum are distinct, so the lookup returns that very entry. */
  lemma FindProfileDeterministic(k: nat)
    requires k < |IprmProfiles|
    ensures FindProfile(IprmProfiles[k].id) == Some(IprmProfiles[k])
  {
    FindFirst(IprmProfiles, HasId(IprmProfiles[k].id), k);
  }

  /** The object written for a profile. */
  function ProfilePayload(p: IprmProfile): Json
  {
    JObj(map[
      "iprmProfile" := JStr(p.id),
      "profileName" := JStr(p.name),
      "riskLevel" := JStr(RiskName(p.riskLevel)),
      "requirements" := JArr(EncodeStrings(p.requirements))])
  }

  /** Every catalog profile's payload passes `selectProfileSchema`, with its own id and risk level. */
  lemma ProfilePayloadPassesSchema(p: IprmProfile)
    requires p in IprmProfiles
    ensures ParseSelectProfile(ProfilePayload(p)) == Some(ProfileSelection(p.id, p.riskLevel))
  {
  }

  /** The local risk level after the effect: the matched profile's, or unchanged. */
  function RiskAfter(selectedRiskLevel: string, selectedProfile: string): (r: string)
    ensures selectedProfile == "" || FindProfile(selectedProfile).None? ==> r == selectedRiskLevel
    ensures selectedProfile != "" && FindProfile(selectedProfile).Some? ==>
              r == RiskName(FindProfile(selectedProfile).value.riskLevel) && r in {"low", "medium", "high"}
  {
    if selectedProfile != "" && FindProfile(selectedProfile).Some?
    then RiskName(FindProfile(selectedProfile).value.riskLevel)
    else selectedRiskLevel
  }

  /**
   * The effect's write, under the component's own key "selectProfile":
   * nothing for an empty selection or an id outside the catalog, otherwise
   * the matched profile's payload.
   */
  function SelectionWrite(stepData: map<string, Json>, selectedProfile: string): (r: map<string, Json>)
    ensures selectedProfile == "" || FindProfile(selectedProfile).None? ==> r == stepData
    ensures selectedProfile != "" && FindProfile(selectedProfile).Some? ==>
              r == stepData[WrittenKey := ProfilePayload(FindProfile(selectedProfile).value)]
  {
    if selectedProfile != "" && FindProfile(selectedProfile).Some?
    then stepData[WrittenKey := ProfilePayload(FindProfile(selectedProfile).value)]
    else stepData
  }

  /** `stepData.selectProfile?.iprmProfile || ""`. */
  function InitialSelection(stepData: map<string, Json>): (id: string)
    ensures WrittenKey !in stepData ==> id == ""
    ensures WrittenKey in stepData ==> id == StringFieldOrEmpty(stepData[WrittenKey], "iprmProfile")
  {
    if WrittenKey in stepData then StringFieldOrEmpty(stepData[WrittenKey], "iprmProfile") else ""
  }

  /** `stepData.selectProfile?.riskLevel || ""`. */
  function InitialRiskLevel(stepData: map<string, Json>): (risk: string)
    ensures WrittenKey !in stepData ==> risk == ""
    ensures WrittenKey in stepData ==> risk == StringFieldOrEmpty(stepData[WrittenKey], "riskLevel")
  {
    if WrittenKey in stepData then StringFieldOrEmpty(stepData[WrittenKey], "riskLevel") else ""
  }

  /**
   * The component reads back what it wrote under its own key: selection and
   * risk level survive a remount.
   */
  lemma SelectionReadBack(stepData: map<string, Json>, selectedProfile: string)
    requires FindProfile(selectedProfile).Some?
    ensures InitialSelection(SelectionWrite(stepData, selectedProfile)) == selectedProfile
    ensures InitialRiskLevel(SelectionWrite(stepData, selectedProfile)) == RiskAfter("", selectedProfile)
  {
    var p := FindProfile(selectedProfile).value;
    assert selectedProfile != "";
    assert SelectionWrite(stepData, selectedProfile) == stepData[WrittenKey := ProfilePayload(p)];
    assert StringFieldOrEmpty(ProfilePayload(p), "iprmProfile") == p.id;
    assert StringFieldOrEmpty(ProfilePayload(p), "riskLevel") == RiskName(p.riskLevel);
  }

  /**
   * As written: in every flow the profile step sits at index 1 under key
   * "iprmProfile", so a selection written under "selectProfile" never makes
   * that step completed, however far the pointer has moved.
   */
  lemma ProfileStepNeverCompleted(role: Role, profile: Option<Profile>, stepData: map<string, Json>,
                                  selectedProfile: string, currentStepIndex: int)
    requires GetFlowSteps(role, profile) != []
    requires IprmProfileStep.key !in stepData
    ensures !IsStepCompleted(GetFlowSteps(role, profile), SelectionWrite(stepData, selectedProfile),
                             currentStepIndex, 1)
  {
    var steps := GetFlowSteps(role, profile);
    assert steps[1].key == "iprmProfile";
    assert WrittenKey != "iprmProfile";
  }

  /**
   * Corrected: the same write under the key of the flow step that mounts
   * this component.
   */
  function SelectionWriteToFlowKey(stepData: map<string, Json>, selectedProfile: string): (r: map<string, Json>)
    ensures selectedProfile == "" || FindProfile(selectedProfile).None? ==> r == stepData
    ensures selectedProfile != "" && FindProfile(selectedProfile).Some? ==>
              r == stepData[IprmProfileStep.key := ProfilePayload(FindProfile(selectedProfile).value)]
  {
    if selectedProfile != "" && FindProfile(selectedProfile).Some?
    then stepData[IprmProfileStep.key := ProfilePayload(FindProfile(selectedProfile).value)]
    else stepData
  }

  /** With the corrected key, a chosen profile makes the profile step completed once the pointer is past it. */
  lemma FlowKeyWriteCompletesStep(role: Role, profile: Option<Profile>, stepData: map<string, Json>,
                                  selectedProfile: string, currentStepIndex: int)
    requires GetFlowSteps(role, profile) != []
    requires FindProfile(selectedProfile).Some?
    requires currentStepIndex > 1
    ensures IsStepCompleted(GetFlowSteps(role, profile), SelectionWriteToFlowKey(stepData, selectedProfile),
                            currentStepIndex, 1)
  {
    var steps := GetFlowSteps(role, profile);
    assert selectedProfile != "";
    assert steps[1].key == IprmProfileStep.key;
  }

  /** The step's local state, bound to the store it writes to. */
  class SelectProfileForm {
    var selectedProfile: string
    var selectedRiskLevel: string
    const store: WizardStore

    /** Mounting: selection and risk level from the captured "selectProfile" payload, or "". */
    constructor (store: WizardStore)
      ensures this.store == store
      ensures selectedProfile == InitialSelection(store.stepData)
      ensures selectedRiskLevel == InitialRiskLevel(store.stepData)
    {
      this.store := store;
      selectedProfile := InitialSelection(store.stepData);
      selectedRiskLevel := InitialRiskLevel(store.stepData);
    }

    /** The effect on `selectedProfile`: the local risk level and the captured data follow the selection. */
    method SyncSelection()
      modifies this, store
      ensures selectedProfile == old(selectedProfile)
      ensures selectedRiskLevel == RiskAfter(old(selectedRiskLevel), selectedProfile)
      ensures store.State() == old(store.State()).(stepData := SelectionWrite(old(store.stepData), selectedProfile))
    {
      if selectedProfile != "" {
        var p := FindProfile(selectedProfile);
        if p.Some? {
          ghost var before := store.stepData;
          var payload := ProfilePayload(p.value);
          assert SelectionWrite(before, selectedProfile) == before[WrittenKey := payload];
          selectedRiskLevel := RiskName(p.value.riskLevel);
          store.UpdateStepData(WrittenKey, payload);
          assert store.stepData == before[WrittenKey := payload];
        }
      }
    }
  }
}
