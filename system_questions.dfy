/**
 * The system-questions step (components/wizard/steps/SystemQuestions.tsx):
 * answers seeded from the captured data, the compliance checkbox toggle, and
 * the write of all three answers under the "systemQs" key.
 */
module SystemQuestions {
  import opened Wrappers
  import opened Types
  import opened Seqs
  import opened Flows
  import opened Store

  const StepKey := "systemQs"

  datatype Answers = Answers(dataClassification: string, complianceRequirements: seq<string>, additionalNotes: string)

  const DefaultAnswers := Answers("", [], "")

  function Other(id: string): string -> bool
  {
    x => x != id
  }

  /** `complianceRequirements.filter((id) => id !== complianceId)`. */
  function RemoveAll(xs: seq<string>, id: string): (r: seq<string>)
    ensures id !in r
    ensures forall x :: x != id ==> multiset(r)[x] == multiset(xs)[x]
    ensures id !in xs ==> r == xs
  {
    assert id !in xs ==> Filter(xs, Other(id)) == xs by {
      if id !in xs {
        FilterKeepsAll(xs, Other(id));
      }
    }
    Filter(xs, Other(id))
  }

  /** Removing an id keeps the remaining entries in their original order. */
  lemma RemoveAllKeepsOrder(a: seq<string>, b: seq<string>, id: string)
    ensures RemoveAll(a + b, id) == RemoveAll(a, id) + RemoveAll(b, id)
  {
    FilterConcat(a, b, Other(id));
  }

  /** `handleComplianceChange`'s new list: checking appends at the end, unchecking removes every occurrence. */
  function ToggleCompliance(xs: seq<string>, id: string, checked: bool): (r: seq<string>)
    ensures checked ==> |r| == |xs| + 1 && r[..|xs|] == xs && r[|xs|] == id
    ensures !checked ==> id !in r && (forall x :: x != id ==> multiset(r)[x] == multiset(xs)[x])
    ensures !checked && id !in xs ==> r == xs
  {
    if checked then xs + [id] else RemoveAll(xs, id)
  }

  /** Checking an absent id and then unchecking it restores the original list. */
  lemma CheckThenUncheck(xs: seq<string>, id: string)
    requires id !in xs
    ensures ToggleCompliance(ToggleCompliance(xs, id, true), id, false) == xs
  {
    RemoveAllKeepsOrder(xs, [id], id);
    assert RemoveAll([id], id) == [];
  }

  /** The object written under "systemQs": exactly the three answers. */
  function Payload(a: Answers): (j: Json)
    ensures j.JObj? && j.fields.Keys == {"dataClassification", "complianceRequirements", "additionalNotes"}
  {
    JObj(map[
      "dataClassification" := JStr(a.dataClassification),
      "complianceRequirements" := JArr(EncodeStrings(a.complianceRequirements)),
      "additionalNotes" := JStr(a.additionalNotes)])
  }

  /** `payload?.[field] || []`, for a list of strings. */
  function StringsField(j: Json, field: string): seq<string>
  {
    if j.JObj? && field in j.fields && j.fields[field].JArr? && DecodeStrings(j.fields[field].items).Some?
    then DecodeStrings(j.fields[field].items).value
    else []
  }

  /** The form's initial answers, read from `stepData.systemQs`. */
  function InitialAnswers(stepData: map<string, Json>): (a: Answers)
    ensures StepKey !in stepData ==> a == DefaultAnswers
  {
    if StepKey !in stepData then DefaultAnswers
    else
      var j := stepData[StepKey];
      Answers(StringFieldOrEmpty(j, "dataClassification"),
              StringsField(j, "complianceRequirements"),
              StringFieldOrEmpty(j, "additionalNotes"))
  }

  /** What the step writes is what it reads back when it is mounted again. */
  lemma InitialAnswersReadBack(stepData: map<string, Json>, a: Answers)
    ensures InitialAnswers(stepData[StepKey := Payload(a)]) == a
  {
    DecodeEncodeStrings(a.complianceRequirements);
  }

  /**
   * The written payload passes `systemQuestionsSchema` exactly when a
   * classification is chosen and at least one compliance entry is checked;
   * the defaults written on mount do not pass.
   */
  lemma PayloadValidIff(a: Answers)
    ensures Validates(SystemQuestionsSchema, Payload(a))
            <==> |a.dataClassification| >= 1 && |a.complianceRequirements| >= 1
    ensures !Validates(SystemQuestionsSchema, Payload(DefaultAnswers))
  {
    DecodeEncodeStrings(a.complianceRequirements);
    DecodeEncodeStrings([]);
  }

  /** The step's local form state, bound to the store it writes to. */
  class SystemQuestionsForm {
    var dataClassification: string
    var complianceRequirements: seq<string>
    var additionalNotes: string
    const store: WizardStore

    function Current(): Answers
      reads this
    {
      Answers(dataClassification, complianceRequirements, additionalNotes)
    }

    /** Mounting: the three fields start from the captured data, or their defaults. */
    constructor (store: WizardStore)
      ensures this.store == store
      ensures Current() == InitialAnswers(store.stepData)
    {
      this.store := store;
      var a := InitialAnswers(store.stepData);
      dataClassification, complianceRequirements, additionalNotes :=
        a.dataClassification, a.complianceRequirements, a.additionalNotes;
    }

    /** `handleComplianceChange`. */
    method HandleComplianceChange(complianceId: string, checked: bool)
      modifies this
      ensures complianceRequirements == ToggleCompliance(old(complianceRequirements), complianceId, checked)
      ensures dataClassification == old(dataClassification) && additionalNotes == old(additionalNotes)
    {
      if checked {
        complianceRequirements := complianceRequirements + [complianceId];
      } else {
        complianceRequirements := RemoveAll(complianceRequirements, complianceId);
      }
    }

    /** The effect: all three answers written under "systemQs", nothing else in the store touched. */
    method SyncToStore()
      modifies store
      ensures store.State() == old(store.State()).(stepData := old(store.stepData)[StepKey := Payload(Current())])
    {
      store.UpdateStepData(StepKey, Payload(Current()));
    }
  }
}
