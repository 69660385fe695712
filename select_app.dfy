/**
 * The application step (components/wizard/steps/SelectApp.tsx): the
 * application catalog, the case-insensitive search filter, the lookup of
 * the selected id and the write under the "selectApp" key.
 */
module SelectApp {
  import opened Wrappers
  import opened Types
  import opened Seqs
  import opened Flows
  import opened Store

  const StepKey := "selectApp"

  datatype App = App(id: string, name: string, description: string, riskLevel: string)

  /** `mockApplications`. */
  const MockApplications: seq<App> := [
    App("app-1", "Customer Portal", "Web-based customer service portal", "medium"),
    App("app-2", "Payment Gateway", "Financial transaction processing system", "high"),
    App("app-3", "Internal Dashboard", "Employee management dashboard", "low"),
    App("app-4", "Mobile Banking App", "Consumer mobile banking application", "high"),
    App("app-5", "HR Management System", "Human resources information system", "medium")
  ]

  /** The catalog: five applications with distinct, non-empty ids and names. */
  lemma MockApplicationsWellFormed()
    ensures |MockApplications| == 5
    ensures forall i, j :: 0 <= i < j < |MockApplications| ==>
              MockApplications[i].id != MockApplications[j].id && MockApplications[i].name != MockApplications[j].name
    ensures forall i :: 0 <= i < |MockApplications| ==>
              MockApplications[i].id != "" && MockApplications[i].name != ""
              && MockApplications[i].riskLevel in {"low", "medium", "high"}
  {
  }

  // ---- Search ---------------------------------------------------------------

  /** `toLowerCase` on one character, ASCII letters only. */
  function LowerChar(c: char): char
  {
    if 'A' <= c <= 'Z' then (c as int + 32) as char else c
  }

  /** `toLowerCase`: same length, each character lowered, no ASCII capital left. */
  function Lower(s: string): (r: string)
    ensures |r| == |s|
    ensures forall i :: 0 <= i < |s| ==> r[i] == LowerChar(s[i])
    ensures forall i :: 0 <= i < |r| ==> !('A' <= r[i] <= 'Z')
  {
    seq(|s|, i requires 0 <= i < |s| => LowerChar(s[i]))
  }

  predicate OccursAt(hay: string, needle: string, i: int)
  {
    0 <= i && i + |needle| <= |hay| && hay[i..i + |needle|] == needle
  }

  /** `String.prototype.includes`: the needle occurs somewhere in the haystack. */
  function Includes(hay: string, needle: string): (r: bool)
    ensures r <==> exists i :: OccursAt(hay, needle, i)
    decreases |hay|
  {
    if |needle| <= |hay| && hay[..|needle|] == needle then
      assert OccursAt(hay, needle, 0);
      true
    else if hay == [] then
      false
    else
      var r := Includes(hay[1..], needle);
      assert r ==> exists i :: OccursAt(hay, needle, i) by {
        if r {
          var k :| OccursAt(hay[1..], needle, k);
          assert hay[1..][k..k + |needle|] == hay[k + 1..k + 1 + |needle|];
          assert OccursAt(hay, needle, k + 1);
        }
      }
      assert (exists i :: OccursAt(hay, needle, i)) ==> r by {
        if exists i :: OccursAt(hay, needle, i) {
          var k :| OccursAt(hay, needle, k);
          assert k != 0;
          assert hay[1..][k - 1..k - 1 + |needle|] == hay[k..k + |needle|];
          assert OccursAt(hay[1..], needle, k - 1);
        }
      }
      r
  }

  /** The filter's test: the lower-cased name or description contains the lower-cased term. */
  predicate Matches(app: App, searchTerm: string)
  {
    Includes(Lower(app.name), Lower(searchTerm)) || Includes(Lower(app.description), Lower(searchTerm))
  }

  function MatchesTerm(searchTerm: string): App -> bool
  {
    (a: App) => Matches(a, searchTerm)
  }

  /** `filteredApps`: the matching applications, in their catalog order. */
  function FilteredApps(apps: seq<App>, searchTerm: string): (r: seq<App>)
    ensures |r| <= |apps|
    ensures forall a :: a in r <==> a in apps && Matches(a, searchTerm)
    ensures forall a :: Matches(a, searchTerm) ==> multiset(r)[a] == multiset(apps)[a]
  {
    Filter(apps, MatchesTerm(searchTerm))
  }

  /** The filter keeps the catalog's order: filtering a concatenation concatenates the results. */
  lemma FilteredAppsKeepOrder(a: seq<App>, b: seq<App>, searchTerm: string)
    ensures FilteredApps(a + b, searchTerm) == FilteredApps(a, searchTerm) + FilteredApps(b, searchTerm)
  {
    FilterConcat(a, b, MatchesTerm(searchTerm));
  }

  /** An empty search term keeps all five applications. */
  lemma EmptySearchKeepsAll()
    ensures FilteredApps(MockApplications, "") == MockApplications
    ensures |FilteredApps(MockApplications, "")| == 5
  {
    forall i | 0 <= i < |MockApplications|
      ensures MatchesTerm("")(MockApplications[i])
    {
      assert OccursAt(Lower(MockApplications[i].name), Lower(""), 0);
    }
    FilterKeepsAll(MockApplications, MatchesTerm(""));
  }

  // ---- Selection ------------------------------------------------------------

  function HasId(id: string): App -> bool
  {
    (a: App) => a.id == id
  }

  /** `mockApplications.find((a) => a.id === selectedApp)`. */
  function FindApp(id: string): (r: Option<App>)
    ensures r.Some? ==> r.value in MockApplications && r.value.id == id
    ensures r.None? <==> forall i :: 0 <= i < |MockApplications| ==> MockApplications[i].id != id
  {
    Find(MockApplications, HasId(id))
  }

  /** Catalog ids are distinct, so each id finds exactly its own entry. */
  lemma FindAppDeterministic(k: nat)
    requires k < |MockApplications|
    ensures FindApp(MockApplications[k].id) == Some(MockApplications[k])
  {
    FindFirst(MockApplications, HasId(MockApplications[k].id), k);
  }

  /** The object written under "selectApp". */
  function AppPayload(app: App): Json
  {
    JObj(map[
      "applicationId" := JStr(app.id),
      "applicationName" := JStr(app.name),
      "description" := JStr(app.description),
      "riskLevel" := JStr(app.riskLevel)])
  }

  /**
   * The effect's write: with a non-empty selection that names a catalog
   * entry, that entry's payload under "selectApp"; otherwise the captured
   * data is left as it was.
   */
  function SelectionWrite(stepData: map<string, Json>, selectedApp: string): (r: map<string, Json>)
    ensures selectedApp == "" || FindApp(selectedApp).None? ==> r == stepData
    ensures selectedApp != "" && FindApp(selectedApp).Some? ==>
              r == stepData[StepKey := AppPayload(FindApp(selectedApp).value)]
              && FindApp(selectedApp).value.id == selectedApp
  {
    if selectedApp != "" && FindApp(selectedApp).Some? then
      stepData[StepKey := AppPayload(FindApp(selectedApp).value)]
    else stepData
  }

  /** Every catalog entry's payload passes `selectAppSchema`, carrying its id and name. */
  lemma PayloadPassesSchema(app: App)
    requires app in MockApplications
    ensures ParseSelectApp(AppPayload(app)) == Some(AppSelection(app.id, app.name))
  {
  }

  /** `stepData.selectApp?.applicationId || ""`: the selection the step starts from. */
  function InitialSelection(stepData: map<string, Json>): (id: string)
    ensures StepKey !in stepData ==> id == ""
  {
    if StepKey in stepData then StringFieldOrEmpty(stepData[StepKey], "applicationId") else ""
  }

  /** A selection that was written is the one the step starts from when mounted again. */
  lemma SelectionReadBack(stepData: map<string, Json>, selectedApp: string)
    requires FindApp(selectedApp).Some?
    ensures InitialSelection(SelectionWrite(stepData, selectedApp)) == selectedApp
  {
    var app := FindApp(selectedApp).value;
    assert |app.id| == 5 by {
      assert forall a :: a in MockApplications ==> |a.id| == 5;
    }
    var written := stepData[StepKey := AppPayload(app)];
    assert SelectionWrite(stepData, selectedApp) == written;
    assert StringFieldOrEmpty(AppPayload(app), "applicationId") == app.id;
  }

  /** The step's local state, bound to the store it writes to. */
  class SelectAppForm {
    var searchTerm: string
    var selectedApp: string
    const store: WizardStore

    /** Mounting: an empty search, and the selection recorded in the captured data. */
    constructor (store: WizardStore)
      ensures this.store == store
      ensures searchTerm == "" && selectedApp == InitialSelection(store.stepData)
    {
      this.store := store;
      searchTerm := "";
      selectedApp := InitialSelection(store.stepData);
    }

    /** The effect on `selectedApp`. */
    method SyncSelection()
      modifies store
      ensures store.State() == old(store.State()).(stepData := SelectionWrite(old(store.stepData), selectedApp))
    {
      if selectedApp != "" {
        var app := FindApp(selectedApp);
        if app.Some? {
          store.UpdateStepData(StepKey, AppPayload(app.value));
        }
      }
    }
  }
}
