/**
 * The flow catalog (config/flows.ts): the three step schemas, the author
 * flow, one flow per implementer profile, and `getFlowSteps`.
 */
module Flows {
  import opened Wrappers
  import opened Types

  // ---- Step schemas -------------------------------------------------------

  /** `z.string().min(1)`. */
  predicate IsNonEmptyString(j: Json)
  {
    j.JStr? && |j.s| >= 1
  }

  datatype AppSelection = AppSelection(applicationId: string, applicationName: string)

  /** `selectAppSchema.parse`: an object whose applicationId and applicationName are non-empty strings. */
  function ParseSelectApp(j: Json): (r: Option<AppSelection>)
    ensures r.Some? <==> j.JObj? && "applicationId" in j.fields && "applicationName" in j.fields
                         && IsNonEmptyString(j.fields["applicationId"]) && IsNonEmptyString(j.fields["applicationName"])
    ensures r.Some? ==> |r.value.applicationId| >= 1 && |r.value.applicationName| >= 1
    ensures r.Some? ==> j.JObj? && "applicationId" in j.fields && "applicationName" in j.fields
                        && j.fields["applicationId"] == JStr(r.value.applicationId)
                        && j.fields["applicationName"] == JStr(r.value.applicationName)
  {
    if j.JObj? && "applicationId" in j.fields && "applicationName" in j.fields
       && IsNonEmptyString(j.fields["applicationId"]) && IsNonEmptyString(j.fields["applicationName"])
    then Some(AppSelection(j.fields["applicationId"].s, j.fields["applicationName"].s))
    else None
  }

  datatype RiskLevel = Low | Medium | High

  function RiskName(r: RiskLevel): string
  {
    match r
    case Low => "low"
    case Medium => "medium"
    case High => "high"
  }

  /** `z.enum(["low", "medium", "high"])`. */
  function ParseRisk(s: string): (r: Option<RiskLevel>)
    ensures r.Some? <==> s in {"low", "medium", "high"}
    ensures r.Some? ==> RiskName(r.value) == s
  {
    if s == "low" then Some(Low)
    else if s == "medium" then Some(Medium)
    else if s == "high" then Some(High)
    else None
  }

  datatype ProfileSelection = ProfileSelection(iprmProfile: string, riskLevel: RiskLevel)

  /** `selectProfileSchema.parse`: a non-empty iprmProfile and a riskLevel among low, medium, high. */
  function ParseSelectProfile(j: Json): (r: Option<ProfileSelection>)
    ensures r.Some? <==> j.JObj? && "iprmProfile" in j.fields && "riskLevel" in j.fields
                         && IsNonEmptyString(j.fields["iprmProfile"])
                         && j.fields["riskLevel"] in {JStr("low"), JStr("medium"), JStr("high")}
    ensures r.Some? ==> |r.value.iprmProfile| >= 1
    ensures r.Some? ==> j.JObj? && "iprmProfile" in j.fields && j.fields["iprmProfile"] == JStr(r.value.iprmProfile)
    ensures r.Some? ==> j.JObj? && "riskLevel" in j.fields && j.fields["riskLevel"] == JStr(RiskName(r.value.riskLevel))
  {
    if j.JObj? && "iprmProfile" in j.fields && "riskLevel" in j.fields
       && IsNonEmptyString(j.fields["iprmProfile"]) && j.fields["riskLevel"].JStr?
       && ParseRisk(j.fields["riskLevel"].s).Some?
    then Some(ProfileSelection(j.fields["iprmProfile"].s, ParseRisk(j.fields["riskLevel"].s).value))
    else None
  }

  datatype SystemAnswers = SystemAnswers(dataClassification: string, complianceRequirements: seq<string>)

  /** `systemQuestionsSchema.parse`: a non-empty classification and at least one compliance entry. */
  function ParseSystemQuestions(j: Json): (r: Option<SystemAnswers>)
    ensures r.Some? <==> j.JObj? && "dataClassification" in j.fields && "complianceRequirements" in j.fields
                         && IsNonEmptyString(j.fields["dataClassification"])
                         && j.fields["complianceRequirements"].JArr?
                         && |j.fields["complianceRequirements"].items| >= 1
                         && forall i :: 0 <= i < |j.fields["complianceRequirements"].items| ==>
                              j.fields["complianceRequirements"].items[i].JStr?
    ensures r.Some? ==> |r.value.dataClassification| >= 1 && |r.value.complianceRequirements| >= 1
    ensures r.Some? ==> j.JObj? && "dataClassification" in j.fields && "complianceRequirements" in j.fields
                        && j.fields["dataClassification"] == JStr(r.value.dataClassification)
                        && j.fields["complianceRequirements"] == JArr(EncodeStrings(r.value.complianceRequirements))
  {
    if j.JObj? && "dataClassification" in j.fields && "complianceRequirements" in j.fields
       && IsNonEmptyString(j.fields["dataClassification"]) && j.fields["complianceRequirements"].JArr?
       && DecodeStrings(j.fields["complianceRequirements"].items).Some?
       && |DecodeStrings(j.fields["complianceRequirements"].items).value| >= 1
    then Some(SystemAnswers(j.fields["dataClassification"].s,
                            DecodeStrings(j.fields["complianceRequirements"].items).value))
    else None
  }

  /** Whether a payload passes the given schema. */
  predicate Validates(schema: StepSchema, j: Json)
  {
    match schema
    case SelectAppSchema => ParseSelectApp(j).Some?
    case SelectProfileSchema => ParseSelectProfile(j).Some?
    case SystemQuestionsSchema => ParseSystemQuestions(j).Some?
  }

  /** An empty compliance list fails `systemQuestionsSchema`, whatever else the payload holds. */
  lemma SystemQuestionsNeedsCompliance(j: Json)
    requires j.JObj? && "complianceRequirements" in j.fields && j.fields["complianceRequirements"] == JArr([])
    ensures !Validates(SystemQuestionsSchema, j)
  {
  }

  /** An empty iprmProfile, or a risk level outside the enum, fails `selectProfileSchema`. */
  lemma SelectProfileNeedsIdAndRisk(j: Json)
    requires j.JObj? && "iprmProfile" in j.fields && "riskLevel" in j.fields
    requires j.fields["iprmProfile"] == JStr("") || j.fields["riskLevel"] !in {JStr("low"), JStr("medium"), JStr("high")}
    ensures !Validates(SelectProfileSchema, j)
  {
  }

  /** An empty applicationId or applicationName fails `selectAppSchema`. */
  lemma SelectAppNeedsNames(j: Json)
    requires j.JObj? && "applicationId" in j.fields && "applicationName" in j.fields
    requires j.fields["applicationId"] == JStr("") || j.fields["applicationName"] == JStr("")
    ensures !Validates(SelectAppSchema, j)
  {
  }

  // ---- Flows --------------------------------------------------------------

  const SelectAppStep := FlowStep("selectApp", "Select Application", "SelectApp", Some(SelectAppSchema))
  const IprmProfileStep := FlowStep("iprmProfile", "Select IPRM Profile", "SelectProfile", Some(SelectProfileSchema))

  const AuthorFlow: seq<FlowStep> := [
    SelectAppStep,
    IprmProfileStep,
    FlowStep("systemQs", "Answer System Questions", "SystemQuestions", Some(SystemQuestionsSchema)),
    FlowStep("design", "Upload Design Document", "DesignUploader", None),
    FlowStep("generateCRS", "Generate CRS", "CRSGenerator", None),
    FlowStep("review", "Review & Submit", "SubmitReview", None)
  ]

  const DeveloperFlow: seq<FlowStep> := [
    SelectAppStep,
    IprmProfileStep,
    FlowStep("sysReqs", "Generate Requirements", "ReqGenerator", None),
    FlowStep("trace", "Check Traceability", "TraceabilityCheck", None)
  ]

  const TesterFlow: seq<FlowStep> := [
    SelectAppStep,
    IprmProfileStep,
    FlowStep("scenarios", "Generate Test Scenarios", "TestScenarioGen", None),
    FlowStep("trace", "Check Traceability to Scripts", "TraceabilityCheck", None)
  ]

  const SupportFlow: seq<FlowStep> := [
    SelectAppStep,
    IprmProfileStep,
    FlowStep("periodicOps", "Generate Ops List", "OpsListForm", None),
    FlowStep("trace", "Check Traceability to Support Plan", "TraceabilityCheck", None)
  ]

  /**
   * `implementerFlows[profile]`: four steps, opening with the application and
   * IPRM-profile steps and closing with a traceability check.
   */
  function ImplementerFlow(p: Profile): (steps: seq<FlowStep>)
    ensures |steps| == 4 && steps[0] == SelectAppStep && steps[1] == IprmProfileStep
    ensures steps[3].key == "trace" && steps[3].component == "TraceabilityCheck"
    ensures forall i :: 2 <= i < 4 ==> steps[i].validationSchema.None?
  {
    match p
    case Developer => DeveloperFlow
    case Tester => TesterFlow
    case Support => SupportFlow
  }

  /**
   * `getFlowSteps`: the author flow whatever the profile, the profile's flow
   * for an implementer with a profile, and no steps otherwise.
   */
  function GetFlowSteps(role: Role, profile: Option<Profile>): (steps: seq<FlowStep>)
    ensures steps != [] <==> role == Author || (role == Implementer && profile.Some?)
    ensures steps != [] ==> |steps| >= 4 && steps[0] == SelectAppStep && steps[1] == IprmProfileStep
  {
    if role == Author then AuthorFlow
    else if role == Implementer && profile.Some? then ImplementerFlow(profile.value)
    else []
  }

  function Keys(steps: seq<FlowStep>): (ks: seq<string>)
    ensures |ks| == |steps|
    ensures forall i :: 0 <= i < |steps| ==> ks[i] == steps[i].key
  {
    if steps == [] then [] else [steps[0].key] + Keys(steps[1..])
  }

  /** Step keys are pairwise distinct (they are the keys of the captured-data map). */
  predicate DistinctKeys(steps: seq<FlowStep>)
  {
    forall i, j :: 0 <= i < j < |steps| ==> steps[i].key != steps[j].key
  }

  predicate NonEmptyFields(s: FlowStep)
  {
    s.key != "" && s.title != "" && s.component != ""
  }

  /** The author flow ignores the profile, including a non-null one. */
  lemma AuthorIgnoresProfile(p: Option<Profile>)
    ensures GetFlowSteps(Author, p) == AuthorFlow && |AuthorFlow| == 6
  {
  }

  /** An implementer with a profile gets exactly that profile's four-step flow. */
  lemma ImplementerGetsProfileFlow(p: Profile)
    ensures GetFlowSteps(Implementer, Some(p)) == ImplementerFlow(p)
    ensures |ImplementerFlow(p)| == 4
  {
  }

  /** qa, and an implementer without a profile, get no steps. */
  lemma NoFlowWithoutProfileOrForQa(p: Option<Profile>)
    ensures GetFlowSteps(Qa, p) == []
    ensures GetFlowSteps(Implementer, None) == []
  {
  }

  /** The screen names of a flow, in order. */
  function Components(steps: seq<FlowStep>): (cs: seq<string>)
    ensures |cs| == |steps|
    ensures forall i :: 0 <= i < |steps| ==> cs[i] == steps[i].component
  {
    if steps == [] then [] else [steps[0].component] + Components(steps[1..])
  }

  /**
   * The two steps every flow opens with: the application step validated by
   * `selectAppSchema` and the IPRM-profile step validated by
   * `selectProfileSchema`.
   */
  lemma OpeningSteps()
    ensures SelectAppStep.key == "selectApp" && SelectAppStep.component == "SelectApp"
    ensures SelectAppStep.validationSchema == Some(SelectAppSchema)
    ensures IprmProfileStep.key == "iprmProfile" && IprmProfileStep.component == "SelectProfile"
    ensures IprmProfileStep.validationSchema == Some(SelectProfileSchema)
    ensures SelectAppStep.key != IprmProfileStep.key
  {
  }

  /**
   * The author flow's keys and screens, in order; only its first three steps
   * carry a schema.
   */
  lemma AuthorFlowShape()
    ensures Keys(AuthorFlow) == ["selectApp", "iprmProfile", "systemQs", "design", "generateCRS", "review"]
    ensures Components(AuthorFlow)
            == ["SelectApp", "SelectProfile", "SystemQuestions", "DesignUploader", "CRSGenerator", "SubmitReview"]
    ensures AuthorFlow[2].validationSchema == Some(SystemQuestionsSchema)
    ensures forall i :: 3 <= i < |AuthorFlow| ==> AuthorFlow[i].validationSchema.None?
  {
  }

  /** The developer flow's keys and screens, in order. */
  lemma DeveloperFlowShape()
    ensures Keys(DeveloperFlow) == ["selectApp", "iprmProfile", "sysReqs", "trace"]
    ensures Components(DeveloperFlow) == ["SelectApp", "SelectProfile", "ReqGenerator", "TraceabilityCheck"]
  {
  }

  /** The tester flow's keys and screens, in order. */
  lemma TesterFlowKeys()
    ensures Keys(TesterFlow) == ["selectApp", "iprmProfile", "scenarios", "trace"]
    ensures Components(TesterFlow) == ["SelectApp", "SelectProfile", "TestScenarioGen", "TraceabilityCheck"]
  {
  }

  /** The support flow's keys and screens, in order. */
  lemma SupportFlowShape()
    ensures Keys(SupportFlow) == ["selectApp", "iprmProfile", "periodicOps", "trace"]
    ensures Components(SupportFlow) == ["SelectApp", "SelectProfile", "OpsListForm", "TraceabilityCheck"]
  {
  }

  /**
   * Every flow the catalog can return has pairwise distinct keys, non-empty
   * key, title and component name on every step, and starts with the
   * application and IPRM-profile steps.
   */
  lemma CatalogWellFormed(role: Role, profile: Option<Profile>)
    ensures DistinctKeys(GetFlowSteps(role, profile))
    ensures forall i :: 0 <= i < |GetFlowSteps(role, profile)| ==> NonEmptyFields(GetFlowSteps(role, profile)[i])
    ensures GetFlowSteps(role, profile) != [] ==>
              GetFlowSteps(role, profile)[0].key == "selectApp" && GetFlowSteps(role, profile)[1].key == "iprmProfile"
  {
    var steps := GetFlowSteps(role, profile);
    var ks := Keys(steps);
    if steps == AuthorFlow {
      assert ks == ["selectApp", "iprmProfile", "systemQs", "design", "generateCRS", "review"];
    } else if steps == DeveloperFlow {
      assert ks == ["selectApp", "iprmProfile", "sysReqs", "trace"];
    } else if steps == TesterFlow {
      assert ks == ["selectApp", "iprmProfile", "scenarios", "trace"];
    } else if steps == SupportFlow {
      assert ks == ["selectApp", "iprmProfile", "periodicOps", "trace"];
    }
  }
}
