# Wizard flow engine of the Themis IPRM front end

This project models, in Dafny, the core of a Next.js wizard that guides a
user through an IPRM (information protection requirements) workflow:

- the **flow catalog** (`config/flows.ts`): which ordered steps an author, or an
  implementer with a developer, tester or support profile, goes through, and the
  three step schemas;
- the **persisted record and its load-time validation** (`types/wizard.ts`);
- the **wizard store** (`hooks/useWizardState.ts`): one record of role, profile,
  current step index and captured step data, its setters, and `migrate`;
- the **flow resolver** (`hooks/useFlowConfig.ts`);
- the **navigation gate** of the wizard layout: accessible and completed steps,
  progress, the guarded Next / Previous / step-click moves, the display name;
- the **role-selection screen**, where "a profile only under implementer" is
  established before anything reaches the store;
- the **three step screens** that write captured data: system questions, the
  application picker with its search, and the IPRM-profile picker;
- the **routing tables** of the four pages (`/`, `/auth`, `/select-role`,
  `/wizard`), and what happens when their redirects are followed one after
  another.

Pure code (catalog, schemas, resolver, predicates, decision tables) is written
as datatypes, functions and lemmas. Code that updates state in place is
written as classes:

- `Store.WizardStore` is the store, with one method per setter;
- `RoleSelection.RoleSelectionScreen`, `SystemQuestions.SystemQuestionsForm`,
  `SelectApp.SelectAppForm` and `SelectProfile.SelectProfileForm` hold each
  screen's local state and a reference to the store they write to;
- the layout's moves and each page's effect are methods that change the store.

Each method is specified against a function that states its result. The
properties of those functions are proved as lemmas.

Inputs the code reads from outside are parameters: whether the user is
authenticated, and whether the session is still valid. The store the pages
read them from defines neither (see Findings).

Two points where the model follows what the code does rather than what it appears to say:

- `isValidConfig` tests `step.key && step.title && step.component`, but `component` is a
  function, and a function is always truthy, so only a non-empty key and title
  matter (`FlowConfig.IsUsableStep`). The catalog's component names are proved
  non-empty separately (`Flows.CatalogWellFormed`).
- Each page's effect decides its redirect from the role of the render that
  scheduled it. On the home page a reset and a redirect to `/wizard` can
  therefore happen in the same pass.

## Model

| member | source | states |
|---|---|---|
| `Types.ParseRole` | types/wizard.ts:20 | accepts exactly "author", "implementer", "qa", and the accepted role's name is the input |
| `Types.ParseProfile` | types/wizard.ts:21 | accepts exactly "developer", "tester", "support", and the accepted profile's name is the input |
| `Types.DecodeStrings` | config/flows.ts:17 | an array of strings is accepted exactly when every item is a string, item for item |
| `Types.DecodeEncodeStrings` | config/flows.ts:17 | decoding an encoded list of strings gives back that list |
| `Types.StringFieldOrEmpty` | components/wizard/steps/SelectApp.tsx:22 | a present string field reads as itself, a missing field or payload as "" |
| `Types.ParseNullableRole` | types/wizard.ts:24 | the role field is accepted exactly when it is null or one of the three role names; null gives no role and a name gives that role |
| `Types.ParseNullableProfile` | types/wizard.ts:25 | the profile field is accepted exactly when it is null or one of the three profile names; null gives no profile and a name gives that profile |
| `Types.ParseWizardState` | types/wizard.ts:23-28 | a record is accepted exactly when it is an object with a nullable role name, a nullable profile name, a number at least 0 and a stepData object; the result carries those values unchanged |
| `Types.ParseEncodeRoundTrip` | types/wizard.ts:23-28 | every record with a non-negative index survives persisting and re-validation unchanged |
| `Types.SchemaRoleDomain` | types/wizard.ts:20-24 | an accepted record's role is null or author, implementer, qa |
| `Types.SchemaProfileDomain` | types/wizard.ts:21-25 | an accepted record's profile is null or developer, tester, support |
| `Types.SchemaRejectsNegativeIndex` | types/wizard.ts:26 | a negative currentStepIndex is rejected whatever the other fields hold |
| `Types.SchemaAcceptsAnyStepData` | types/wizard.ts:23-28 | any stepData contents are accepted, and an author with the tester profile passes: role and profile are not tied |
| `Flows.ParseSelectApp` | config/flows.ts:5-8 | a payload is accepted exactly when it is an object whose applicationId and applicationName are non-empty strings; the result carries those values |
| `Flows.ParseRisk` | config/flows.ts:12 | accepts exactly "low", "medium", "high", and the accepted level's name is the input |
| `Flows.ParseSelectProfile` | config/flows.ts:10-13 | a payload is accepted exactly when it is an object whose iprmProfile is a non-empty string and whose riskLevel is "low", "medium" or "high"; the result carries those values |
| `Flows.SelectProfileNeedsIdAndRisk` | config/flows.ts:11-12 | an empty iprmProfile, or any riskLevel value other than "low", "medium" and "high", fails the schema |
| `Flows.ParseSystemQuestions` | config/flows.ts:15-18 | a payload is accepted exactly when it is an object whose dataClassification is a non-empty string and whose complianceRequirements is a non-empty array of strings; the result carries those values |
| `Flows.SystemQuestionsNeedsCompliance` | config/flows.ts:17 | an empty compliance list fails the schema |
| `Flows.SelectAppNeedsNames` | config/flows.ts:6-7 | an empty applicationId or applicationName fails the schema |
| `Flows.GetFlowSteps` | config/flows.ts:137-147 | steps exist exactly for an author, or an implementer with a profile; every such flow has at least four steps and opens with the application and IPRM-profile steps |
| `Flows.AuthorIgnoresProfile` | config/flows.ts:137-140 | an author gets the six-step author flow whatever the profile, null or not |
| `Flows.ImplementerGetsProfileFlow` | config/flows.ts:142-144 | an implementer with profile p gets exactly p's flow, which has four steps |
| `Flows.NoFlowWithoutProfileOrForQa` | config/flows.ts:146 | qa, and an implementer without a profile, get no steps |
| `Flows.OpeningSteps` | config/flows.ts:22-33 | the application step has key selectApp, screen SelectApp and the application schema; the profile step has key iprmProfile, screen SelectProfile and the profile schema |
| `Flows.AuthorFlowShape` | config/flows.ts:21-55 | the author flow's keys are selectApp, iprmProfile, systemQs, design, generateCRS, review, with their screens in order; its third step has the system-questions schema and the last three none |
| `Flows.ImplementerFlow` | config/flows.ts:57-130 | every implementer flow has four steps, opens with the application and profile steps, ends with the traceability check under key trace, and its last two steps have no schema |
| `Flows.DeveloperFlowShape` | config/flows.ts:58-81 | the developer flow's keys are selectApp, iprmProfile, sysReqs, trace, with screens SelectApp, SelectProfile, ReqGenerator, TraceabilityCheck |
| `Flows.TesterFlowKeys` | config/flows.ts:82-105 | the tester flow's keys are selectApp, iprmProfile, scenarios, trace, with screens SelectApp, SelectProfile, TestScenarioGen, TraceabilityCheck |
| `Flows.SupportFlowShape` | config/flows.ts:106-129 | the support flow's keys are selectApp, iprmProfile, periodicOps, trace, with screens SelectApp, SelectProfile, OpsListForm, TraceabilityCheck |
| `Flows.CatalogWellFormed` | config/flows.ts:21-130 | in every flow the keys are pairwise distinct, every key, title and component name is non-empty, and the flow starts with selectApp then iprmProfile |
| `FlowConfig.Steps` | hooks/useFlowConfig.ts:11-14 | no role gives no steps; a role gives the catalog's flow for that role and profile |
| `FlowConfig.IsValidConfig` | hooks/useFlowConfig.ts:16-18 | usable exactly when the flow is non-empty and every step in it has a non-empty key and title |
| `FlowConfig.UseFlowConfig` | hooks/useFlowConfig.ts:11-24 | steps as resolved, totalSteps their number, isValidConfig the usability test on those steps, and a usable configuration has at least one step |
| `FlowConfig.ValidConfigIff` | hooks/useFlowConfig.ts:16-18 | the configuration is usable exactly for an author and for an implementer with a profile; not for no role, qa, or an implementer without a profile |
| `Store.InitialStateLoads` | hooks/useWizardState.ts:15-20 | the initial state (no role, no profile, step 0, no data) passes the persisted-record schema and loads back unchanged |
| `Store.Migrate` | hooks/useWizardState.ts:49-56 | an accepted persisted value loads as parsed, anything else as the initial state, and the result always passes validation again |
| `Store.MigrateCorruptRole` | hooks/useWizardState.ts:49-56 | a record whose role is any string other than the three role names loads as the initial state |
| `Store.WizardStore.constructor` | hooks/useWizardState.ts:15-25 | the store starts with no role, no profile, step 0 and no captured data |
| `Store.WizardStore.SetRole` | hooks/useWizardState.ts:27 | sets the role; profile, index and data are unchanged |
| `Store.WizardStore.SetProfile` | hooks/useWizardState.ts:29 | sets the profile whatever the role; role, index and data are unchanged |
| `Store.WizardStore.SetCurrentStep` | hooks/useWizardState.ts:31 | stores any index, unchecked against a flow length; the rest is unchanged |
| `Store.WizardStore.UpdateStepData` | hooks/useWizardState.ts:33-36 | the key now holds the data, every other key keeps its old value, the key set grows by at most that key, and role, profile and index are unchanged |
| `Store.WizardStore.ResetWizard` | hooks/useWizardState.ts:38-44 | all four fields return to the initial state |
| `Store.SetRoleTwice` | hooks/useWizardState.ts:27 | calling `setRole` twice with one role leaves the store as one call does: only the role changes |
| `Store.SetProfileTwice` | hooks/useWizardState.ts:29 | calling `setProfile` twice with one value leaves the store as one call does: only the profile changes |
| `Store.SetCurrentStepTwice` | hooks/useWizardState.ts:31 | calling `setCurrentStep` twice with one index leaves the store as one call does: only the index changes |
| `Store.ResetWizardTwice` | hooks/useWizardState.ts:38-44 | calling `resetWizard` twice leaves the initial state, as one call does |
| `Store.ProfileNotTiedToRole` | hooks/useWizardState.ts:27-29 | the setters can produce an author holding the tester profile |
| `Store.UpdatesMerge` | hooks/useWizardState.ts:33-36 | two updates under different keys both remain, each with its own data |
| `Layout.CanGoNext` | components/wizard/WizardLayout.tsx:31 | from a real step, Next is enabled exactly when the flow has a step after it; never on the last step |
| `Layout.CanGoPrevious` | components/wizard/WizardLayout.tsx:32 | Previous is enabled exactly when the step before the current one has a non-negative index; never on step 0 |
| `Layout.IsStepCompleted` | components/wizard/WizardLayout.tsx:58-61 | a completed step exists, is behind the pointer and is accessible; a step behind the pointer is completed exactly when data is captured under its key |
| `Layout.IsStepAccessible` | components/wizard/WizardLayout.tsx:63-65 | a step is accessible exactly when its index is at most one past the current one |
| `Layout.CompletedOnlyBehind` | components/wizard/WizardLayout.tsx:58-61 | a step at or past the pointer, or one that does not exist, is never completed, whatever is captured |
| `Layout.Progress` | components/wizard/WizardLayout.tsx:29 | 0 with no steps, 100 on the last step, and within (0, 100] for an index in range |
| `Layout.ProgressMonotone` | components/wizard/WizardLayout.tsx:29 | progress grows strictly with the step index |
| `Layout.DisplayName` | components/wizard/WizardLayout.tsx:67-73 | "Author", "implementer - <profile>", the bare role name, or "User" without a role |
| `Layout.DisplayNameIdentifies` | components/wizard/WizardLayout.tsx:67-73 | for role/profile pairs with a profile exactly under implementer, equal display names mean equal role and profile |
| `Layout.NextIndex` | components/wizard/WizardLayout.tsx:31-38 | advances by exactly one iff a next step exists, else stays; an index in range stays in range |
| `Layout.PreviousIndex` | components/wizard/WizardLayout.tsx:32-44 | goes back by exactly one iff the index is positive, else stays; never produces a negative index from a non-negative one |
| `Layout.ClickIndex` | components/wizard/WizardLayout.tsx:46-51 | moves to the clicked index exactly when it is accessible, else stays; never ends more than one past the current index |
| `Layout.HandleNext` | components/wizard/WizardLayout.tsx:26-38 | the store's index becomes the next index against the length of the flow the store's role and profile resolve to, and nothing else in the store changes |
| `Layout.HandlePrevious` | components/wizard/WizardLayout.tsx:40-44 | the store's index becomes the previous index and nothing else in the store changes |
| `Layout.HandleStepClick` | components/wizard/WizardLayout.tsx:46-51 | the store's index becomes the clicked index when accessible and nothing else in the store changes |
| `Layout.NavigateStaysInRange` | components/wizard/WizardLayout.tsx:31-51 | from an index in range, any sequence of Next, Previous and clicks on existing steps keeps it in range and advances at most one per action |
| `Layout.NavigateWithinFlow` | components/wizard/WizardLayout.tsx:25-51 | a store pointing into the flow its role and profile resolve to has a usable configuration, and the layout's controls never take the pointer out of that flow |
| `RoleSelection.IsValid` | components/wizard/RoleSelection.tsx:129 | valid needs a role; an implementer is valid exactly with a profile; any other chosen role is valid |
| `RoleSelection.ContinueWrite` | components/wizard/RoleSelection.tsx:121-129 | something is written exactly when the selection is valid; the role written is the one selected, and a profile is written exactly for an implementer, namely the selected one |
| `RoleSelection.RoleSelectionScreen.constructor` | components/wizard/RoleSelection.tsx:107-108 | nothing selected, and the screen invariant holds |
| `RoleSelection.RoleSelectionScreen.HandleRoleSelect` | components/wizard/RoleSelection.tsx:110-115 | the role is selected; any role but implementer clears the profile |
| `RoleSelection.RoleSelectionScreen.HandleProfileSelect` | components/wizard/RoleSelection.tsx:117-119 | the profile is selected and the role kept |
| `RoleSelection.RoleSelectionScreen.ActivateRoleCard` | components/wizard/RoleSelection.tsx:35-45 | the disabled qa card changes nothing; any other card selects its role; qa is never selected and a profile is only held under implementer |
| `RoleSelection.RoleSelectionScreen.ActivateProfileCard` | components/wizard/RoleSelection.tsx:214-240 | profile cards act only while implementer is selected, and the screen invariant is kept |
| `RoleSelection.RoleSelectionScreen.HandleContinue` | components/wizard/RoleSelection.tsx:121-127 | from a screen state its controls can reach, a valid selection writes role, profile (set exactly for an implementer) and step 0, and the store then resolves to a usable flow; an invalid one leaves the store unchanged |
| `RoleSelection.ContinueGivesValidConfig` | components/wizard/RoleSelection.tsx:121-129 | whatever a successful Continue writes resolves to a usable flow configuration |
| `SystemQuestions.RemoveAll` | components/wizard/steps/SystemQuestions.tsx:48 | the id no longer occurs, every other entry keeps its count, and an absent id leaves the list as it was |
| `SystemQuestions.RemoveAllKeepsOrder` | components/wizard/steps/SystemQuestions.tsx:48 | removal keeps the remaining entries in their original order |
| `SystemQuestions.ToggleCompliance` | components/wizard/steps/SystemQuestions.tsx:44-50 | checking appends the id at the end with the old list as prefix; unchecking removes every occurrence and keeps the rest |
| `SystemQuestions.CheckThenUncheck` | components/wizard/steps/SystemQuestions.tsx:44-50 | checking an absent id and then unchecking it restores the original list |
| `SystemQuestions.Payload` | components/wizard/steps/SystemQuestions.tsx:36-42 | the written object has exactly the fields dataClassification, complianceRequirements and additionalNotes |
| `SystemQuestions.InitialAnswers` | components/wizard/steps/SystemQuestions.tsx:30-34 | without captured answers the form starts from "", [] and "" |
| `SystemQuestions.InitialAnswersReadBack` | components/wizard/steps/SystemQuestions.tsx:30-42 | the answers written are the answers read back when the step is mounted again |
| `SystemQuestions.PayloadValidIff` | components/wizard/steps/SystemQuestions.tsx:36-42 | the written payload passes the step schema exactly when a classification is chosen and a compliance entry is checked; the defaults do not pass |
| `SystemQuestions.SystemQuestionsForm.constructor` | components/wizard/steps/SystemQuestions.tsx:30-34 | the form starts from the captured answers |
| `SystemQuestions.SystemQuestionsForm.HandleComplianceChange` | components/wizard/steps/SystemQuestions.tsx:44-50 | the compliance list becomes the toggled list; the other answers are kept |
| `SystemQuestions.SystemQuestionsForm.SyncToStore` | components/wizard/steps/SystemQuestions.tsx:36-42 | the current answers are written under "systemQs" and nothing else in the store changes |
| `SelectApp.MockApplicationsWellFormed` | components/wizard/steps/SelectApp.tsx:11-17 | the catalog has five applications with distinct non-empty ids and names, each rated low, medium or high |
| `SelectApp.Lower` | components/wizard/steps/SelectApp.tsx:26-27 | lower-casing keeps the length, lowers each character on its own and leaves no ASCII capital |
| `SelectApp.Includes` | components/wizard/steps/SelectApp.tsx:26-27 | true exactly when the term occurs at some position of the text |
| `SelectApp.FilteredApps` | components/wizard/steps/SelectApp.tsx:24-28 | an application is kept exactly when its lower-cased name or description contains the lower-cased term, and each is kept as often as in the catalog |
| `SelectApp.FilteredAppsKeepOrder` | components/wizard/steps/SelectApp.tsx:24-28 | the filter keeps catalog order: filtering a concatenation concatenates the results |
| `SelectApp.EmptySearchKeepsAll` | components/wizard/steps/SelectApp.tsx:11-28 | an empty term keeps all five applications |
| `SelectApp.FindApp` | components/wizard/steps/SelectApp.tsx:32 | a found application is in the catalog with the given id; nothing is found exactly when no entry has that id |
| `SelectApp.FindAppDeterministic` | components/wizard/steps/SelectApp.tsx:11-17 | each catalog id finds exactly its own entry |
| `SelectApp.SelectionWrite` | components/wizard/steps/SelectApp.tsx:30-42 | an empty or unknown selection leaves the data untouched; a catalog id writes that entry's payload under "selectApp", with the selected id |
| `SelectApp.PayloadPassesSchema` | components/wizard/steps/SelectApp.tsx:34-39 | every catalog entry's payload passes the application schema with its own id and name |
| `SelectApp.InitialSelection` | components/wizard/steps/SelectApp.tsx:22 | without captured data the selection starts empty |
| `SelectApp.SelectionReadBack` | components/wizard/steps/SelectApp.tsx:22-42 | a selection that was written is the one the step starts from when mounted again |
| `SelectApp.SelectAppForm.constructor` | components/wizard/steps/SelectApp.tsx:21-22 | an empty search and the captured selection |
| `SelectApp.SelectAppForm.SyncSelection` | components/wizard/steps/SelectApp.tsx:30-42 | the store's data becomes the selection write and nothing else in the store changes |
| `SelectProfile.FindProfile` | components/wizard/steps/SelectProfile.tsx:56 | a found profile is in the catalog with the given id; nothing is found exactly for ids other than standard, enhanced, maximum |
| `SelectProfile.FindProfileDeterministic` | components/wizard/steps/SelectProfile.tsx:11-47 | each catalog id finds exactly its own entry |
| `SelectProfile.ProfilePayloadPassesSchema` | components/wizard/steps/SelectProfile.tsx:59-64 | every catalog profile's payload passes the profile schema, with its id and its catalog risk level |
| `SelectProfile.RiskAfter` | components/wizard/steps/SelectProfile.tsx:54-58 | an empty or unknown selection keeps the risk level; a catalog id sets it to that profile's level, one of low, medium, high |
| `SelectProfile.SelectionWrite` | components/wizard/steps/SelectProfile.tsx:54-67 | the effect's write as the code has it: nothing for an empty or unknown selection, else the profile's payload under "selectProfile" |
| `SelectProfile.ProfileStepNeverCompleted` | components/wizard/steps/SelectProfile.tsx:59 | with that write, the flow's profile step (index 1, key "iprmProfile") is never completed |
| `SelectProfile.SelectionWriteToFlowKey` | components/wizard/steps/SelectProfile.tsx:54-67 | the corrected write: nothing for an empty or unknown selection, else the profile's payload under the flow key "iprmProfile" |
| `SelectProfile.FlowKeyWriteCompletesStep` | components/wizard/steps/SelectProfile.tsx:54-67 | with the corrected write, a chosen profile completes the profile step of every flow once the pointer is past it |
| `SelectProfile.InitialSelection` | components/wizard/steps/SelectProfile.tsx:51 | the selection starts from the "iprmProfile" field of the payload under "selectProfile", and is empty without that payload or field |
| `SelectProfile.InitialRiskLevel` | components/wizard/steps/SelectProfile.tsx:52 | the risk level starts from the "riskLevel" field of the payload under "selectProfile", and is empty without that payload or field |
| `SelectProfile.SelectionReadBack` | components/wizard/steps/SelectProfile.tsx:51-67 | a catalog selection written under "selectProfile" is read back, with its risk level, on the next mount |
| `SelectProfile.SelectProfileForm.constructor` | components/wizard/steps/SelectProfile.tsx:51-52 | selection and risk level start from the payload captured under "selectProfile" |
| `SelectProfile.SelectProfileForm.SyncSelection` | components/wizard/steps/SelectProfile.tsx:54-67 | the risk level follows the selection, the store's data becomes the write under "selectProfile", and nothing else in the store changes |
| `SelectProfile.IprmProfilesWellFormed` | components/wizard/steps/SelectProfile.tsx:11-47 | the catalog is standard, enhanced and maximum with risk levels low, medium and high, each named and with at least three requirements |
| `Routing.ResetIfExpired` | app/wizard/page.tsx:50-52 | the store is reset exactly when the user is authenticated and the session is not valid; otherwise it is unchanged |
| `Routing.RoleAfterEffect` | app/wizard/page.tsx:50-52 | after an effect, the role is cleared exactly when a reset happened |
| `Routing.ResetIfExpiredTwice` | app/wizard/page.tsx:50-52 | running the effect's reset step twice leaves the store where one run leaves it, and the role is the one `RoleAfterEffect` gives |
| `WizardPage.StepLoader` | app/wizard/page.tsx:24-41 | a step screen exactly for SelectApp, SelectProfile and SystemQuestions, registered under that name; any other name gets the notice naming it |
| `WizardPage.StepLoaderFindsRegistered` | app/wizard/page.tsx:17-22 | each registered screen is found under its own name |
| `WizardPage.MountedSteps` | app/wizard/page.tsx:17-41 | in every flow the first two steps have screens, and so does the author's third; all later steps show the notice |
| `WizardPage.Render` | app/wizard/page.tsx:67-92 | the layout exactly for an authenticated, valid session with a role and a usable configuration; inside it, a step exactly when the index is within the flow |
| `WizardPage.EffectRedirect` | app/wizard/page.tsx:54-64 | to /auth exactly without a valid session, to /select-role exactly with one but no role, and nowhere otherwise |
| `WizardPage.RunEffect` | app/wizard/page.tsx:48-65 | resets an expired session (then always sending to /auth) and redirects as decided from the role before the reset |
| `WizardPage.LayoutOnlyWithoutRedirect` | app/wizard/page.tsx:48-76 | whenever the layout shows, the effect does not redirect |
| `WizardPage.LayoutForUsableRole` | app/wizard/page.tsx:67-89 | with a valid session the layout shows exactly for an author or an implementer with a profile, and step 0 mounts the application screen |
| `WizardPage.StuckLoading` | app/wizard/page.tsx:48-76 | with a valid session, qa or an implementer without a profile is neither redirected nor shown the layout |
| `WizardPage.AsWrittenNeverShowsWizard` | app/wizard/page.tsx:45 | with the undefined isAuthenticated the page always redirects to /auth and always shows loading |
| `AuthPage.EffectRedirect` | app/auth/page.tsx:21-27 | redirects exactly for a valid session: to /wizard with a role, to /select-role without one |
| `AuthPage.Render` | app/auth/page.tsx:31-47 | the sign-in screen exactly without a valid session |
| `AuthPage.RunEffect` | app/auth/page.tsx:14-28 | resets an expired session, which is then not redirected, and redirects as decided from the role before the reset |
| `AuthPage.RenderAgreesWithEffect` | app/auth/page.tsx:14-47 | the redirecting notice shows exactly when the effect redirects, and the page never sends to itself |
| `SelectRolePage.EffectRedirect` | app/select-role/page.tsx:22-31 | to /auth exactly without a valid session, to /wizard exactly with one and a role, nowhere otherwise |
| `SelectRolePage.Render` | app/select-role/page.tsx:35-94 | the role-selection screen exactly for a valid session without a role |
| `SelectRolePage.RunEffect` | app/select-role/page.tsx:15-32 | resets an expired session (then always sending to /auth) and redirects as decided from the role before the reset |
| `SelectRolePage.RenderAgreesWithEffect` | app/select-role/page.tsx:15-94 | the screen shows exactly when the effect stays put, and the page never sends to itself |
| `HomePage.RedirectEffect` | app/page.tsx:21-26 | to /wizard exactly when authenticated with a role, without consulting validity |
| `HomePage.Render` | app/page.tsx:28-42 | the sign-in screen without a valid session, the role-selection screen with one |
| `HomePage.RunEffects` | app/page.tsx:14-26 | resets an expired session and redirects as decided from the role before the reset |
| `HomePage.ResetAndRedirectTogether` | app/page.tsx:14-26 | an expired session holding a role is reset, shown the sign-in screen and sent to /wizard in one pass |
| `HomePage.RoleSelectionWhileRedirecting` | app/page.tsx:21-42 | a valid session holding a role sees role selection while being sent to /wizard |
| `RouteGraph.RedirectsSettle` | app/page.tsx:14-42 | following the four pages' redirects and resets from any page comes to rest within two steps: sign-in without a valid session, role selection without a role, the wizard with one |

## Left out

- The session API is not modelled: `isAuthenticated`, `isSessionValid`, `setAuthenticated` and `signOut`, and any expiry rule. The store does not define them, so the pages take authentication and validity as inputs. The sign-out handler of the layout is left out with them.
- Persistence is not modelled: zustand's `persist`, localStorage, the storage name and version, and when `migrate` runs. Only `migrate`'s parse-or-default function is modelled.
- React scheduling is not modelled: effect timing, memoisation, re-render order and `router.push`. A page's effect returns its destination instead, and a render reads the store's record.
- The login page (`app/login/page.tsx`) and the simulated sign-in of `components/auth/AuthPage.tsx` (timers, toasts, demo credentials) are not part of this model. The latter's call to the undefined `setAuthenticated` is not modelled either.
- Not modelled, because they only present or guard rendering: the error boundary, the root layout, header and footer, all markup, icons and tooltips, and the sidebar's open/collapsed flags. The layout's reset buttons only call `resetWizard`, which is modelled as `Store.WizardStore.ResetWizard`.
- The radio, text-area and search-box setters of the step screens are plain assignments of one field and are not modelled as methods.
- Progress is a floating-point percentage in the code and an exact `real` here.
- `toLowerCase` is modelled over ASCII letters only; other characters are left as they are.
- The truthiness test on `stepData[key]` in `isStepCompleted` is modelled as presence of the key. A captured value that is falsy (such as `""` or `0`) would not count as completed in the code.
- `x || default` reads of captured fields are modelled as: a string field (or for compliance, an array of strings) is used, and anything else reads as the default. In the code, other truthy values would be taken as they are.
- Numbers in persisted records are integers: fractional, NaN and infinite values of `currentStepIndex` are not modelled.
- `stepComponents[name]` is a plain object lookup in the code, so names inherited from `Object.prototype` (such as `"constructor"`) would also find something. The model's lookup recognises only the three registered names; no catalog step uses such a name.
- Step components as functions: a step's `component` is kept as the name the function returns.
- `RouteGraph.RedirectsSettle` tracks only the role across a reset, since the reset also clears the rest of the store and no redirect reads those fields.

## Findings

| source | as written | input that shows it | evidently intended | confidence | as-written member | corrected member |
|---|---|---|---|---|---|---|
| app/wizard/page.tsx:45 | the pages destructure `isAuthenticated` and `isSessionValid` from a store that declares neither, so `isAuthenticated` is undefined and every authentication test fails | any store record, e.g. an author after Continue: `/wizard` shows loading and redirects to `/auth` | a signed-in user with a valid session and a usable role sees the wizard | not executed; high, from the store's interface in hooks/useWizardState.ts:7-13 | `WizardPage.AsWrittenNeverShowsWizard` | `WizardPage.LayoutForUsableRole` |
| components/wizard/steps/SelectProfile.tsx:59 | the profile step writes its payload under "selectProfile", but the flow step that mounts it has key "iprmProfile" (config/flows.ts:29), and completion looks up the flow key (components/wizard/WizardLayout.tsx:60) | any flow, profile "standard", pointer at step 3: the profile step is not shown as completed | the payload is stored under the step's key, so a chosen profile marks the step completed | not executed; high | `SelectProfile.ProfileStepNeverCompleted` | `SelectProfile.FlowKeyWriteCompletesStep` |

The profile step's screen (`SelectProfile.SelectProfileForm`) is modelled as written and writes under "selectProfile" (`SelectProfile.SelectionWrite`). The corrected write under the flow key is `SelectProfile.SelectionWriteToFlowKey`.
