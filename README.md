# Project tracking pages: a Dafny model

This project models the five pages at the core of a small construction-project tracking app.
A project manager creates projects on one page and browses them on a dashboard. A contractor
picks a project and talks to a simulated "AI Project Controls Agent" in a chat, which answers
from canned replies and stores nothing. The details page shows a stored project with one fixed
sample update. The chat and details pages read projects from browser storage, which none of
these pages writes; the create page stores projects only in the backend.

Each page is a module. The page's React state is a class whose fields are the `useState` variables.
Each event handler is a method whose `modifies` clause names the state setters it calls.
An awaited backend call splits its handler in two. The first method runs up to the `await`. A second
method receives the outcome as a parameter: `Ok(value)` when the call resolved, `Failed` when it
threw. A value captured by a closure becomes a snapshot value. Examples are the form data read by
the submit handler and the input read by the chat's reply timer.

- `Text`: the JavaScript string operations the pages rely on. These are `toLowerCase`, `includes`,
  `trim`, `split('.')` followed by `pop()`, and `Number.prototype.toString`. Each comes with the
  properties the pages need.
- `ProjectRecords`: the project record stored in the backend, and the signed-in user.
- `ProjectSearch`: the case-insensitive search filter shared by the dashboard and the contractor
  page, plus the sum of `updatesCount`.
- `LocalStore`: the project shape kept in browser storage, and the lookup by id that the chat
  and details pages share.
- `CreateProject`, `ProjectManagerDashboard`, `ContractorInterface`, `ChatInterface`,
  `ProjectDetails`: one module per page.

## Model

| member | source | states |
|---|---|---|
| Text.Lower | src/pages/CreateProject.tsx:74 | `toLowerCase` on ASCII letters; characterised by `LowerAppend`, `LowerCharOfNonLetter` and `LowerAfterLast` |
| Text.Contains | src/pages/ProjectManagerDashboard.tsx:53-54 | `includes`; characterised by `ContainsIffOccurs` (both directions against the positional definition) and `ContainsEmpty` |
| Text.Trim | src/pages/ChatInterface.tsx:73 | `trim()`; characterised by `TrimEmptyIffBlank` |
| Text.LowerAppend | src/pages/CreateProject.tsx:74 | lowering distributes over concatenation |
| Text.LowerCharOfNonLetter | src/pages/CreateProject.tsx:74 | lowering leaves the `.` separator in place and never produces it from another character |
| Text.OccursAtContains | src/pages/ProjectManagerDashboard.tsx:53-54 | an occurrence of the needle at some index makes `includes` true |
| Text.ContainsOccursAt | src/pages/ProjectManagerDashboard.tsx:53-54 | `includes` being true yields an index where the needle occurs |
| Text.ContainsIffOccurs | src/pages/ProjectManagerDashboard.tsx:53-54 | `includes` holds exactly when the needle occurs at some index of the haystack |
| Text.ContainsEmpty | src/pages/ProjectManagerDashboard.tsx:53-54 | every string includes the empty string |
| Text.ContainsInfix | src/pages/ChatInterface.tsx:43 | a string includes anything placed inside it |
| Text.TrimStartBlank | src/pages/ChatInterface.tsx:73 | trimming the start leaves a string all whitespace exactly when it was all whitespace |
| Text.TrimEndEmpty | src/pages/ChatInterface.tsx:73 | trimming the end empties a string exactly when it is all whitespace |
| Text.TrimEmptyIffBlank | src/pages/ChatInterface.tsx:73 | `trim()` returns the empty string exactly when every character is ECMAScript whitespace |
| Text.Split | src/pages/CreateProject.tsx:74 | `split` yields at least one part and no part contains the separator |
| Text.JoinSplit | src/pages/CreateProject.tsx:74 | joining the parts of a split with the separator gives back the original string |
| Text.AfterLastNoSep | src/pages/CreateProject.tsx:74 | with no separator, the text after the last separator is the whole string |
| Text.AfterLastCons | src/pages/CreateProject.tsx:74 | prepending a non-separator character does not move the last separator |
| Text.AfterLastAppend | src/pages/CreateProject.tsx:74 | everything before the last separator is irrelevant to what follows it |
| Text.LastOfSplit | src/pages/CreateProject.tsx:74 | `split(sep).pop()` is the text after the last separator |
| Text.LowerAfterLast | src/pages/CreateProject.tsx:74 | lowering and then taking the final segment is the same as taking it and then lowering |
| Text.IndexOf | src/pages/CreateProject.tsx:99 | the result is the first position holding the character, or the length when the character is absent |
| Text.IndexOfAfter | src/pages/CreateProject.tsx:99 | in `x + [c] + rest` with no `c` in `x`, the first `c` sits right after `x` |
| Text.JoinedAtSeparator | src/pages/CreateProject.tsx:99 | two strings joined at a separator absent from their heads split back into the same two parts |
| Text.Decimal | src/pages/CreateProject.tsx:99 | a number's decimal text is non-empty and all digits |
| Text.DecimalRoundTrip | src/pages/CreateProject.tsx:99 | parsing the decimal text of a number gives the number back |
| Text.DecimalInjective | src/pages/CreateProject.tsx:99 | different numbers have different decimal texts |
| ProjectSearch.Matches | src/pages/ProjectManagerDashboard.tsx:52-55 | the filter callback; characterised through `FilterMembership` and `FilterMultiplicity`, which say a project is kept exactly when it matches |
| ProjectSearch.SumUpdates | src/pages/ProjectManagerDashboard.tsx:163 | the `reduce` left fold; characterised by `SumUpdatesAppend`, `SumUpdatesPermutation` and `SumUpdatesBoundsEach` |
| ProjectSearch.Filter | src/pages/ProjectManagerDashboard.tsx:52-55 | the filtered list is no longer than the loaded list and holds only loaded projects that match |
| ProjectSearch.FilterIsSubsequence | src/pages/ProjectManagerDashboard.tsx:52-55 | the filtered list keeps the loaded order (it is a subsequence) |
| ProjectSearch.FilterMembership | src/pages/ProjectManagerDashboard.tsx:52-55 | a project is shown exactly when it was loaded and its lowered name or description includes the lowered term |
| ProjectSearch.FilterMultiplicity | src/pages/ProjectManagerDashboard.tsx:52-55 | every copy of a matching project is kept and every copy of a non-matching one is dropped |
| ProjectSearch.FilterEmptyTerm | src/pages/ProjectManagerDashboard.tsx:52-55 | an empty search shows every loaded project |
| ProjectSearch.FilterIdempotent | src/pages/ProjectManagerDashboard.tsx:52-55 | filtering twice with one term is the same as filtering once |
| ProjectSearch.FilterAppend | src/pages/ContractorInterface.tsx:50-53 | filtering a concatenation filters each part |
| ProjectSearch.SumUpdatesAppend | src/pages/ProjectManagerDashboard.tsx:163 | the `reduce` over a concatenation is the sum of the two folds |
| ProjectSearch.FilteredUpdatesAtMostTotal | src/pages/ProjectManagerDashboard.tsx:163 | the shown projects' updates never exceed the loaded projects' updates |
| ProjectSearch.SumUpdatesSingle | src/pages/ProjectManagerDashboard.tsx:163 | the sum over one project is its `updatesCount` |
| ProjectSearch.SumUpdatesRemove | src/pages/ProjectManagerDashboard.tsx:163 | removing one project removes exactly its `updatesCount` from the sum |
| ProjectSearch.SumUpdatesPermutation | src/pages/ProjectManagerDashboard.tsx:163 | any reordering of the list has the same sum |
| ProjectSearch.SumUpdatesBoundsEach | src/pages/ProjectManagerDashboard.tsx:163 | every project's count is at most the sum, and the sum is zero exactly when every count is |
| ProjectManagerDashboard.Stats | src/pages/ProjectManagerDashboard.tsx:140-176 | the four card values, with `StatsOrderIndependent`, `TotalUpdatesCoversEachProject` and `TotalUpdatesIgnoresSearch` as partners |
| ProjectManagerDashboard.StatsOrderIndependent | src/pages/ProjectManagerDashboard.tsx:140-176 | the four cards are the same for any ordering of the loaded projects, so the backend's `orderBy` cannot change them |
| ProjectManagerDashboard.TotalUpdatesCoversEachProject | src/pages/ProjectManagerDashboard.tsx:160-165 | Total Updates includes every loaded project's `updatesCount` and is zero exactly when each of them is |
| ProjectManagerDashboard.TotalUpdatesIgnoresSearch | src/pages/ProjectManagerDashboard.tsx:160-165 | Total Updates counts every loaded project whatever the search; it bounds the shown sum and equals it for an empty search |
| ProjectManagerDashboard.EmptyState | src/pages/ProjectManagerDashboard.tsx:192-214 | the card appears exactly when nothing is shown; "No projects yet" with the create button exactly when nothing was loaded, "No projects found" otherwise |
| ProjectManagerDashboard.NotFoundOnlyWhenSearching | src/pages/ProjectManagerDashboard.tsx:192-205 | "No projects found" implies a non-empty term that no loaded project matches |
| ProjectManagerDashboard.DashboardPage.constructor | src/pages/ProjectManagerDashboard.tsx:24-27 | the page starts loading, with no user, no projects and an empty search |
| ProjectManagerDashboard.DashboardPage.OnAuthStateChanged | src/pages/ProjectManagerDashboard.tsx:41-50 | records the user, asks for that user's projects only when there is a user, and always ends loading |
| ProjectManagerDashboard.DashboardPage.OnProjectsLoaded | src/pages/ProjectManagerDashboard.tsx:29-39 | a resolved list replaces the projects; a thrown error leaves them unchanged |
| ProjectManagerDashboard.DashboardPage.OnSearchChange | src/pages/ProjectManagerDashboard.tsx:185 | the search term becomes the typed value |
| ContractorInterface.EmptyState | src/pages/ContractorInterface.tsx:133-149 | the card appears exactly when nothing is shown; "No projects available" exactly when nothing was loaded, "No projects found" otherwise |
| ContractorInterface.ContractorPage.constructor | src/pages/ContractorInterface.tsx:22-25 | the page starts loading, with no user, no projects and an empty search |
| ContractorInterface.ContractorPage.OnAuthStateChanged | src/pages/ContractorInterface.tsx:27-36 | records the user, requests the projects exactly when there is a user, and always ends loading |
| ContractorInterface.ContractorPage.OnProjectsLoaded | src/pages/ContractorInterface.tsx:38-48 | a resolved list replaces the projects; a thrown error leaves them unchanged |
| ContractorInterface.ContractorPage.OnSearchChange | src/pages/ContractorInterface.tsx:126 | the search term becomes the typed value |
| ContractorInterface.ContractorPage.EmptyCard | src/pages/ContractorInterface.tsx:133-149 | the card appears exactly when no loaded project matches; "No projects found" only for a non-empty term |
| CreateProject.FileExtension | src/pages/CreateProject.tsx:74 | `'.' + name.split('.').pop().toLowerCase()`; characterised by `Text.LastOfSplit` and `Text.LowerAfterLast` |
| CreateProject.IsValidFileType | src/pages/CreateProject.tsx:72-76 | `isValidFileType`; characterised by `ValidIffLastSegmentAllowed` and the sample lemmas below |
| CreateProject.ValidIffLastSegmentAllowed | src/pages/CreateProject.tsx:72-76 | a file is accepted exactly when the lowered text after its last dot (the whole name if there is none) is xer, mpp, pdf, xls or xlsx |
| CreateProject.CaseInsensitive | src/pages/CreateProject.tsx:74 | names equal up to letter case get the same verdict |
| CreateProject.OnlyLastSegmentCounts | src/pages/CreateProject.tsx:74-75 | `prefix.last` is accepted exactly when `last` is |
| CreateProject.NoDotJudgedWhole | src/pages/CreateProject.tsx:74-75 | a name with no dot is accepted exactly when the lowered name is an allowed extension |
| CreateProject.SampleUpperCase | src/pages/CreateProject.tsx:72-76 | `PLAN.XLSX` is accepted |
| CreateProject.SampleLowerCase | src/pages/CreateProject.tsx:72-76 | `plan.xlsx` is accepted |
| CreateProject.SampleDisallowedLast | src/pages/CreateProject.tsx:72-76 | `plan.pdf.docx` is rejected |
| CreateProject.SampleAllowedLast | src/pages/CreateProject.tsx:72-76 | `plan.docx.pdf` is accepted |
| CreateProject.SampleBareExtension | src/pages/CreateProject.tsx:72-76 | the dot-less name `xer` is accepted |
| CreateProject.SampleNoDot | src/pages/CreateProject.tsx:72-76 | the dot-less name `plan` is rejected |
| CreateProject.SampleTrailingDot | src/pages/CreateProject.tsx:72-76 | `plan.` (empty last segment) is rejected |
| CreateProject.ProjectIdFor | src/pages/CreateProject.tsx:99 | the `proj_<time>_<suffix>` id; characterised by `ProjectIdInjective` |
| CreateProject.ContractorLink | src/pages/CreateProject.tsx:100 | the `<origin>/chat/<id>` link; `CompleteSubmit` stores it in the record |
| CreateProject.ProjectIdInjective | src/pages/CreateProject.tsx:99 | a project id determines the instant and the random suffix it was built from |
| CreateProject.CreateProjectPage.constructor | src/pages/CreateProject.tsx:13-22 | the page starts loading and not submitting, with three empty form fields, no file and no highlight |
| CreateProject.CreateProjectPage.OnAuthStateChanged | src/pages/CreateProject.tsx:24-30 | records the user and ends loading |
| CreateProject.CreateProjectPage.HandleInputChange | src/pages/CreateProject.tsx:32-38 | the named field takes the value, the field set gains only that name, and every other field keeps its value |
| CreateProject.CreateProjectPage.HandleDrag | src/pages/CreateProject.tsx:40-48 | `dragenter` and `dragover` set the highlight, `dragleave` clears it, any other event leaves it |
| CreateProject.CreateProjectPage.HandleFileSelect | src/pages/CreateProject.tsx:63-70 | only the first file is considered; it replaces the chosen file exactly when its type is valid, otherwise nothing changes |
| CreateProject.CreateProjectPage.HandleDrop | src/pages/CreateProject.tsx:50-61 | a drop always clears the highlight, then keeps the first file exactly when its type is valid |
| CreateProject.CreateProjectPage.RemoveFile | src/pages/CreateProject.tsx:291 | the chosen file is cleared |
| CreateProject.CreateProjectPage.SubmitDisabled | src/pages/CreateProject.tsx:337-341 | the submit button is disabled exactly while submitting or while a required field is empty; its partner is `HandleSubmit`, which shows that a submit started while the button is enabled captures three non-empty fields, and `CompleteSubmit` copies them into the record |
| CreateProject.CreateProjectPage.HandleSubmit | src/pages/CreateProject.tsx:78-82 | without a user nothing happens; otherwise the page is submitting (so the button is disabled) and the form values and file are captured; when the button was enabled, the captured name, description and focus areas are all non-empty |
| CreateProject.CreateProjectPage.CompleteSubmit | src/pages/CreateProject.tsx:83-153 | aborts exactly when the upload or the create throws. Otherwise the record carries the user, the form values, the file name and URL, a link to the project's chat and zero updates, and the page navigates to the project. Analysis is attempted exactly when an upload URL exists, and its failure does not stop the flow. Submitting always ends |
| LocalStore.FindIndex | src/pages/ProjectDetails.tsx:44 | the index found holds the id and no earlier entry does; no index exactly when no entry has the id |
| LocalStore.FindById | src/pages/ChatInterface.tsx:36 | `find` returns the first stored project with the id, and nothing exactly when no entry has it |
| LocalStore.LoadStoredProject | src/pages/ProjectDetails.tsx:39-45 | a project is found exactly when the route id is non-empty, the storage holds a list, and some entry has that id |
| ChatInterface.GreetingText | src/pages/ChatInterface.tsx:43 | the welcome text; characterised by `GreetingNamesProject` |
| ChatInterface.GreetingNamesProject | src/pages/ChatInterface.tsx:43 | the welcome text contains the project's name |
| ChatInterface.Greeting | src/pages/ChatInterface.tsx:40-45 | the first message has id `1`, comes from the agent and names the project |
| ChatInterface.ResponseIndex | src/pages/ChatInterface.tsx:69 | `Math.floor(Math.random() * 10)` is a valid index into the ten replies |
| ChatInterface.EveryResponseReachable | src/pages/ChatInterface.tsx:69 | every one of the ten replies can be drawn |
| ChatInterface.GenerateAIResponse | src/pages/ChatInterface.tsx:54-70 | the reply is always one of the ten canned replies |
| ChatInterface.ResponseIgnoresMessage | src/pages/ChatInterface.tsx:54-70 | the reply does not depend on what the contractor wrote |
| ChatInterface.ChatSession.constructor | src/pages/ChatInterface.tsx:25-28 | the chat starts with no project, no messages, an empty input and no pending reply |
| ChatInterface.ChatSession.LoadProject | src/pages/ChatInterface.tsx:31-48 | a found project is shown and the transcript becomes exactly the greeting; otherwise nothing changes |
| ChatInterface.ChatSession.SendDisabled | src/pages/ChatInterface.tsx:217 | the send button is disabled exactly when the input is all whitespace or a reply is pending |
| ChatInterface.ChatSession.OnInputChange | src/pages/ChatInterface.tsx:207-214 | the input takes the typed value (the box is disabled while a reply is pending) |
| ChatInterface.ChatSession.HandleSendMessage | src/pages/ChatInterface.tsx:72-86 | a blank input or a pending reply makes it a no-op. Otherwise it appends the untrimmed input as a user message, clears the input and starts the pending state. The transcript only grows, and roles keep alternating |
| ChatInterface.ChatSession.OnReplyTimer | src/pages/ChatInterface.tsx:87-96 | appends exactly one agent message with a canned reply and ends the pending state; roles keep alternating |
| ChatInterface.ChatSession.HandleKeyPress | src/pages/ChatInterface.tsx:99-104 | Enter without Shift behaves as a send: it is accepted exactly when the input is not blank and no reply is pending, and then appends the user message, clears the input and records the pending reply; otherwise, and for every other key, nothing changes |
| ProjectDetails.StatusColor | src/pages/ProjectDetails.tsx:80-87 | active is green, completed is blue, on-hold is yellow, and any other status is grey, each in both directions |
| ProjectDetails.TrackingFocusText | src/pages/ProjectDetails.tsx:204 | the card is never empty: the stored focus text, or the fallback sentence when that text is empty |
| ProjectDetails.QuestionAnswerPairs | src/pages/ProjectDetails.tsx:255-258 | one row per question in order, each paired with the response at the same index, or with no answer when responses run out |
| ProjectDetails.MockUpdateFullyAnswered | src/pages/ProjectDetails.tsx:48-64 | every question of the fixed update is shown with an answer |
| ProjectDetails.DetailsPage.constructor | src/pages/ProjectDetails.tsx:35-36 | the page starts with no project and no updates |
| ProjectDetails.DetailsPage.LoadProject | src/pages/ProjectDetails.tsx:38-68 | a found project replaces the shown one together with the fixed mock update; otherwise nothing changes; updates are shown exactly when a project is |
| ProjectDetails.DetailsPage.ShowsNoUpdates | src/pages/ProjectDetails.tsx:220-224 | the "No updates yet" card needs a found project with no updates; every reachable state (`Valid`) pairs a found project with the mock update, so the card never shows |

## Left out

- Rendering is not modelled: layout, icons, toasts, scrolling to the newest message, the loading spinner and the sign-in screens.
- The clipboard writes are not modelled: the dashboard's copy button (src/pages/ProjectManagerDashboard.tsx:57-60) and the details page's `copyShareLink` (src/pages/ProjectDetails.tsx:70-78) only write to the clipboard; the latter also shows a toast.
- The details page's schedule-file card (src/pages/ProjectDetails.tsx:179) is rendering and is not modelled.
- Navigation is not modelled beyond the path that `CompleteSubmit` returns.
- The backend (auth, storage upload, database, text generation) is represented only by its outcomes. The dashboard's `where userId` and both pages' `orderBy createdAt desc` are the backend's promises; the model takes the list it returns as given.
- The upload's storage path (`schedules/<time>-<name>`) and the analysis prompt are not modelled; neither is read back by the pages.
- Text.Lower: lowers ASCII letters only, where JavaScript's `toLowerCase` follows the full Unicode case mapping.
- ChatInterface.ResponseIndex: `Math.random` is a real in [0, 1). Floating-point rounding of `random * 10` is not modelled.
- Message timestamps are the clock reading in milliseconds, not `Date` objects. The details page's locale date formatting is not modelled.
- `JSON.parse` of a corrupt stored list (which throws) is not modelled; the stored list is taken as already parsed.
- The `upsert` flag, the file size and HTML `required` validation on the form fields are not modelled.
- CreateProject.CreateProjectPage.HandleFileSelect: a missing file list (`null`) is modelled as an empty one, which the code treats the same way.
- ProjectRecords.ProjectRecord: `updatesCount` is a natural number, so a negative count from the backend is not modelled.
- ChatInterface.ChatSession.LoadProject: keeps alternation only when no reply is pending. A route change while the reply timer runs replaces the transcript, and the late reply then follows the greeting.
- The landing page and the router are not part of this model.
- Nothing in these pages writes the browser-storage `projects` list that the chat and details pages read (src/pages/ChatInterface.tsx:33, src/pages/ProjectDetails.tsx:41). The create page stores projects only in the backend (src/pages/CreateProject.tsx:102). The model takes the stored list as an input and does not connect it to the backend records.
- The details page's "No updates yet" card (src/pages/ProjectDetails.tsx:220-224) is unreachable, because a found project always comes with the mock update. `ProjectDetails.DetailsPage.ShowsNoUpdates` proves this; the mock update is modelled as written.
- The chat modelled is the version in src/pages/ChatInterface.tsx. It answers from ten canned replies after a timer and stores nothing. A variant that sends a six-message context window to a text-generation service and records each turn (a status-update record plus the project's update counter) is not part of this model.
- The file size shown in megabytes (`toFixed`) is floating-point formatting and is not modelled.
