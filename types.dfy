/**
 * The wizard's value types (types/wizard.ts): roles, implementer profiles,
 * step definitions, the persisted wizard record and `WizardStateSchema`,
 * the validation run on a persisted record before it is trusted.
 */
module Types {
  import opened Wrappers

  datatype Role = Author | Implementer | Qa

  datatype Profile = Developer | Tester | Support

  function RoleName(r: Role): string
  {
    match r
    case Author => "author"
    case Implementer => "implementer"
    case Qa => "qa"
  }

  function ProfileName(p: Profile): string
  {
    match p
    case Developer => "developer"
    case Tester => "tester"
    case Support => "support"
  }

  /** `UserRoleSchema`: the enum accepts exactly the three role names. */
  function ParseRole(s: string): (r: Option<Role>)
    ensures r.Some? <==> s in {"author", "implementer", "qa"}
    ensures r.Some? ==> RoleName(r.value) == s
  {
    if s == "author" then Some(Author)
    else if s == "implementer" then Some(Implementer)
    else if s == "qa" then Some(Qa)
    else None
  }

  /** `ImplementerProfileSchema`: the enum accepts exactly the three profile names. */
  function ParseProfile(s: string): (r: Option<Profile>)
    ensures r.Some? <==> s in {"developer", "tester", "support"}
    ensures r.Some? ==> ProfileName(r.value) == s
  {
    if s == "developer" then Some(Developer)
    else if s == "tester" then Some(Tester)
    else if s == "support" then Some(Support)
    else None
  }

  /** The schemas a step definition may carry (declared in config/flows.ts). */
  datatype StepSchema = SelectAppSchema | SelectProfileSchema | SystemQuestionsSchema

  /**
   * `FlowStep`. The source's `component` is a thunk returning the name of
   * the UI to mount; the model keeps that name.
   */
  datatype FlowStep = FlowStep(key: string, title: string, component: string, validationSchema: Option<StepSchema>)

  /** A JSON-like value: persisted records and step payloads. Numbers are integers here. */
  datatype Json =
    | JNull
    | JBool(b: bool)
    | JNum(n: int)
    | JStr(s: string)
    | JArr(items: seq<Json>)
    | JObj(fields: map<string, Json>)

  /** `WizardState`: the record the store holds and persists. */
  datatype WizardState = WizardState(
    role: Option<Role>,
    profile: Option<Profile>,
    currentStepIndex: int,
    stepData: map<string, Json>)

  /** A sequence of strings as a JSON array. */
  function EncodeStrings(xs: seq<string>): (r: seq<Json>)
    ensures |r| == |xs|
    ensures forall i :: 0 <= i < |xs| ==> r[i] == JStr(xs[i])
  {
    if xs == [] then [] else [JStr(xs[0])] + EncodeStrings(xs[1..])
  }

  /** `z.array(z.string())`: a JSON array whose every item is a string. */
  function DecodeStrings(items: seq<Json>): (r: Option<seq<string>>)
    ensures r.Some? <==> forall i :: 0 <= i < |items| ==> items[i].JStr?
    ensures r.Some? ==> |r.value| == |items| && forall i :: 0 <= i < |items| ==> items[i] == JStr(r.value[i])
  {
    if items == [] then Some([])
    else if !items[0].JStr? then None
    else
      match DecodeStrings(items[1..])
      case None => None
      case Some(rest) => Some([items[0].s] + rest)
  }

  lemma {:induction false} DecodeEncodeStrings(xs: seq<string>)
    ensures DecodeStrings(EncodeStrings(xs)) == Some(xs)
  {
    if xs != [] {
      DecodeEncodeStrings(xs[1..]);
      assert EncodeStrings(xs)[1..] == EncodeStrings(xs[1..]);
      assert xs == [xs[0]] + xs[1..];
    }
  }

  /** `j?.[field] || ""` for a field expected to hold a string; anything else reads as "". */
  function StringFieldOrEmpty(j: Json, field: string): (r: string)
    ensures j.JObj? && field in j.fields && j.fields[field].JStr? ==> r == j.fields[field].s
    ensures !(j.JObj? && field in j.fields) ==> r == ""
  {
    if j.JObj? && field in j.fields && j.fields[field].JStr? then j.fields[field].s else ""
  }

  /** `UserRoleSchema.nullable()`: `null`, or a role name; a missing field is rejected. */
  function ParseNullableRole(j: Json): (r: Option<Option<Role>>)
    ensures r.Some? <==> j == JNull || (j.JStr? && j.s in {"author", "implementer", "qa"})
    ensures j == JNull ==> r == Some(None)
    ensures j.JStr? && r.Some? ==> r.value == ParseRole(j.s)
  {
    match j
    case JNull => Some(None)
    case JStr(s) => if ParseRole(s).Some? then Some(ParseRole(s)) else None
    case _ => None
  }

  /** `ImplementerProfileSchema.nullable()`. */
  function ParseNullableProfile(j: Json): (r: Option<Option<Profile>>)
    ensures r.Some? <==> j == JNull || (j.JStr? && j.s in {"developer", "tester", "support"})
    ensures j == JNull ==> r == Some(None)
    ensures j.JStr? && r.Some? ==> r.value == ParseProfile(j.s)
  {
    match j
    case JNull => Some(None)
    case JStr(s) => if ParseProfile(s).Some? then Some(ParseProfile(s)) else None
    case _ => None
  }

  /**
   * `WizardStateSchema.parse`: an object with a nullable role, a nullable
   * profile, a number at least 0 and a record of anything. Unknown fields are
   * dropped; role and profile are checked independently of each other.
   */
  function ParseWizardState(j: Json): (r: Option<WizardState>)
    ensures r.Some? <==> j.JObj? && "role" in j.fields && "profile" in j.fields
                         && "currentStepIndex" in j.fields && "stepData" in j.fields
                         && ParseNullableRole(j.fields["role"]).Some?
                         && ParseNullableProfile(j.fields["profile"]).Some?
                         && j.fields["currentStepIndex"].JNum? && j.fields["currentStepIndex"].n >= 0
                         && j.fields["stepData"].JObj?
    ensures r.Some? ==> r.value.currentStepIndex >= 0
    ensures r.Some? ==> j.JObj? && "role" in j.fields && "profile" in j.fields && "currentStepIndex" in j.fields
                        && Some(r.value.role) == ParseNullableRole(j.fields["role"])
                        && Some(r.value.profile) == ParseNullableProfile(j.fields["profile"])
                        && j.fields["currentStepIndex"] == JNum(r.value.currentStepIndex)
    ensures r.Some? ==> j.JObj? && "stepData" in j.fields && j.fields["stepData"] == JObj(r.value.stepData)
  {
    if !j.JObj? then None
    else if "role" !in j.fields || "profile" !in j.fields then None
    else if "currentStepIndex" !in j.fields || "stepData" !in j.fields then None
    else
      match (ParseNullableRole(j.fields["role"]), ParseNullableProfile(j.fields["profile"]),
             j.fields["currentStepIndex"], j.fields["stepData"])
      case (Some(role), Some(profile), JNum(n), JObj(data)) =>
        if n >= 0 then Some(WizardState(role, profile, n, data)) else None
      case _ => None
  }

  predicate SchemaAccepts(j: Json)
  {
    ParseWizardState(j).Some?
  }

  function EncodeRole(r: Option<Role>): Json
  {
    match r
    case None => JNull
    case Some(x) => JStr(RoleName(x))
  }

  function EncodeProfile(p: Option<Profile>): Json
  {
    match p
    case None => JNull
    case Some(x) => JStr(ProfileName(x))
  }

  /** The persisted form of a wizard record. */
  function EncodeWizardState(s: WizardState): Json
  {
    JObj(map[
      "role" := EncodeRole(s.role),
      "profile" := EncodeProfile(s.profile),
      "currentStepIndex" := JNum(s.currentStepIndex),
      "stepData" := JObj(s.stepData)])
  }

  /** Every record with a non-negative index survives persisting and re-parsing unchanged. */
  lemma ParseEncodeRoundTrip(s: WizardState)
    requires s.currentStepIndex >= 0
    ensures ParseWizardState(EncodeWizardState(s)) == Some(s)
  {
    var f := EncodeWizardState(s).fields;
    assert f["role"] == EncodeRole(s.role);
    assert f["profile"] == EncodeProfile(s.profile);
    assert ParseNullableRole(EncodeRole(s.role)) == Some(s.role) by {
      if s.role.Some? {
        assert ParseRole(RoleName(s.role.value)) == Some(s.role.value);
      }
    }
    assert ParseNullableProfile(EncodeProfile(s.profile)) == Some(s.profile) by {
      if s.profile.Some? {
        assert ParseProfile(ProfileName(s.profile.value)) == Some(s.profile.value);
      }
    }
  }

  /** The schema accepts a role field only when it is `null` or one of the three role names. */
  lemma SchemaRoleDomain(j: Json)
    requires SchemaAccepts(j)
    ensures j.JObj? && "role" in j.fields
    ensures j.fields["role"] == JNull || j.fields["role"] in {JStr("author"), JStr("implementer"), JStr("qa")}
  {
  }

  /** The schema accepts a profile field only when it is `null` or one of the three profile names. */
  lemma SchemaProfileDomain(j: Json)
    requires SchemaAccepts(j)
    ensures j.JObj? && "profile" in j.fields
    ensures j.fields["profile"] == JNull || j.fields["profile"] in {JStr("developer"), JStr("tester"), JStr("support")}
  {
  }

  /** A negative step index is rejected, whatever the other fields hold. */
  lemma SchemaRejectsNegativeIndex(j: Json, n: int)
    requires j.JObj? && "currentStepIndex" in j.fields && j.fields["currentStepIndex"] == JNum(n)
    requires n < 0
    ensures !SchemaAccepts(j)
  {
  }

  /**
   * Any step-data record is accepted, and role and profile are not tied to
   * each other: an author with the tester profile passes.
   */
  lemma SchemaAcceptsAnyStepData(data: map<string, Json>, n: nat)
    ensures ParseWizardState(EncodeWizardState(WizardState(Some(Author), Some(Tester), n, data)))
            == Some(WizardState(Some(Author), Some(Tester), n, data))
  {
    ParseEncodeRoundTrip(WizardState(Some(Author), Some(Tester), n, data));
  }
}
