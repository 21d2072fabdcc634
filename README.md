# InsightFlow core, modelled in Dafny

InsightFlow is a research workspace. A project collects sources: uploaded documents and Obsidian notes. An insight run turns the sources into themes, claims and citations. Decisions are recorded with the sources they cite, and tasks follow up on decisions. This project models the parts of the system that carry logic and proves properties about them.

The web client:

- `UiStore`: the UI store. It holds the selected project, the command-palette flag, the open dialog and the decision draft. It is a class whose setters replace fields.
- `InsightRunViewer`: the insight-run viewer. It covers theme selection, the claim list, the citations drawer and merging a claim into the decision draft.
- `ActionDialogs`: the modal dialogs. The decision form is loaded from the draft and mirrors its edits back into it. The task, project and upload dialogs have submit guards.
- `TaskBoard`: the task board. A loop files each task into a map from decision to status columns. The page also has sections, per-section drafts and the inline editor.
- `CommandPalette`: the command palette's actions, its search filter and what selecting an action does.
- `ProjectList`: the project list's download file names, its newest-first order and the handling of a deleted project.

The API:

- `SourcesApi`: the sources router. It covers tag parsing, source update and delete, and the Obsidian import loop.
- `TasksApi`: the tasks router. It covers list, create, update and delete, and the rule that a task may only link to a decision of its own project.
- `DecisionsApi`: the decisions router. It covers create with citation checks, update that replaces everything, and delete that unlinks the decision's tasks.
- `Export`: the Markdown export. Footnotes are numbered by first appearance.
- `Digest`: the daily digest. It covers the time windows, the sections and the grouping of tasks by status.
- `InsightEngine`: the mock insight generator. Its citations cycle through the sources round-robin.

Shared modules:

- `Wrappers`: `Option`, `Result` and the HTTP errors.
- `Text`: trim, split, join, lower-casing and decimal rendering.
- `Lists`: sets kept as lists, removal and a stable descending sort.
- `Types`: the client's record types.
- `Db`: the backend's rows, and a `Database` class with one map per table.

How things are represented:

- **Imperative code stays imperative.** Code that changes state step by step is a class with fields, or a method with `modifies`. This covers the store, the dialog form, the board page, the palette and the database. Each such method's postcondition gives the whole new state.
- **Loops are methods with invariants.** Each loop is proved to compute a specification function: filing tasks into the board, the import loop, the footnote loops, the digest's grouping and rendering loops, the unlinking loop and the generator's loops. Lemmas then prove properties of those functions.
- **Inputs the code gets from outside become parameters.** Ids that `uuid4()` would generate, the current time, JSON decoding and date parsing are parameters, each with only the properties the code relies on.
- **A failed request changes nothing.** The routers raise before committing, so a failing request leaves the database unchanged. The model states this for each router operation.

### Behaviour of the code that the model makes explicit

- **A task whose decision is not listed appears in no section.** The board files a task under its `decision_id`, and only the listed decisions and "unassigned" have sections (`TaskBoard.DanglingTaskHidden`). A task without a decision is shown under "unassigned" (`TaskBoard.UnlinkedTaskShownUnassigned`).
- **Deleting a decision clears its tasks' links.** `delete_decision` sets `decision_id` to null on every task that named the decision before deleting it (`DecisionsApi.Unlinked`, `DecisionsApi.UnlinkedLeavesNoReference`).
- **Adding a claim to an empty draft gives at least 0.6 confidence.** The empty draft starts at 0.6, and the merge keeps the larger of the draft's and the claim's confidence (`InsightRunViewer.MergedConfidence`).
- **A source that an insight run cites cannot be deleted.** Deleting it would null the `source_id` of its run citations, a column that may not be null, so the request fails with a server error and the row stays (`SourcesApi.DeleteSource`).

## Model

| member | source | states |
|---|---|---|
| UiStore.OverwriteSetsExactlySuppliedFields | apps/web/src/state/uiStore.ts:49-50 | the partial passed to setDecisionDraft overwrites exactly the fields it supplies; every other draft field keeps its value |
| UiStore.OverwriteNoFieldsIsIdentity | apps/web/src/state/uiStore.ts:49-50 | merging the empty partial leaves the draft unchanged |
| UiStore.OverwriteIdempotent | apps/web/src/state/uiStore.ts:49-50 | merging the same partial twice is the same as merging it once |
| UiStore.UIStore.constructor | apps/web/src/state/uiStore.ts:16-48 | the store starts with no selected project, the palette closed, no dialog open and the empty draft (confidence 0.6, no ids) |
| UiStore.UIStore.SetSelectedProjectId | apps/web/src/state/uiStore.ts:42 | sets the selected project and leaves the palette, dialog and draft alone |
| UiStore.UIStore.SetCommandPaletteOpen | apps/web/src/state/uiStore.ts:44 | sets the palette flag and nothing else |
| UiStore.UIStore.OpenDialog | apps/web/src/state/uiStore.ts:46 | makes the given dialog the only open one and nothing else changes |
| UiStore.UIStore.CloseDialog | apps/web/src/state/uiStore.ts:47 | no dialog is open afterwards; project, palette and draft are kept |
| UiStore.UIStore.SetDecisionDraft | apps/web/src/state/uiStore.ts:49-50 | the draft becomes the shallow merge of the old draft with the partial; no list is appended to or deduplicated |
| UiStore.UIStore.ClearDecisionDraft | apps/web/src/state/uiStore.ts:51 | the draft is reset to the empty draft; nothing else changes |
| InsightRunViewer.Max | apps/web/src/pages/InsightRunViewerPage.tsx:100 | the larger of two confidences: at least both, and equal to one of them |
| InsightRunViewer.CitedSourceIds | apps/web/src/pages/InsightRunViewerPage.tsx:90 | one source id per citation, in citation order |
| InsightRunViewer.MergedIdListsAreSets | apps/web/src/pages/InsightRunViewerPage.tsx:86-92 | after adding a claim, neither the claim-id list nor the source-id list of the draft holds a duplicate, whatever the draft held before |
| InsightRunViewer.MergedLinkedClaimIds | apps/web/src/pages/InsightRunViewerPage.tsx:86 | the linked claim ids are the old ids plus the claim's id, first occurrences in order; on a duplicate-free list the id is appended exactly when it is new |
| InsightRunViewer.MergedCitationSourceIds | apps/web/src/pages/InsightRunViewerPage.tsx:87-92 | the source ids are the union of the old ids and the claim's cited sources, old ids first; a claim without citations leaves a duplicate-free list as it was |
| InsightRunViewer.MergeSameClaimTwiceKeepsIds | apps/web/src/pages/InsightRunViewerPage.tsx:85-109 | adding the same claim a second time leaves both id lists unchanged |
| InsightRunViewer.MergedNarrative | apps/web/src/pages/InsightRunViewerPage.tsx:93-103 | rationale and pros get "- statement" as a new line after their trimmed text (or become that line when empty); cons and risks are untouched; an empty title becomes "Decision on <theme>" and a non-empty one is kept |
| InsightRunViewer.MergeSameClaimTwiceRepeatsLine | apps/web/src/pages/InsightRunViewerPage.tsx:93-96 | the narrative merge is not idempotent: adding one claim twice to an empty rationale leaves its line there twice |
| InsightRunViewer.MergedConfidence | apps/web/src/pages/InsightRunViewerPage.tsx:100 | the draft's confidence never drops and is at least the claim's (0.6 when the claim has none) |
| InsightRunViewer.MergedConfidenceCommutes | apps/web/src/pages/InsightRunViewerPage.tsx:100 | the confidence reached does not depend on the order in which two claims are added |
| InsightRunViewer.ShownThemes | apps/web/src/pages/InsightRunViewerPage.tsx:43-50 | the payload's themes are shown when there are any, otherwise the separately fetched themes (none when absent) |
| InsightRunViewer.FallbackMattersOnlyWhenEnabled | apps/web/src/pages/InsightRunViewerPage.tsx:43-50 | for a loaded run, the fallback query's data changes what is shown only while that query is enabled (its payload has no themes); otherwise the payload's themes are shown |
| InsightRunViewer.ShownThemesEmptyIff | apps/web/src/pages/InsightRunViewerPage.tsx:43-50 | no theme is shown exactly when neither the payload nor the fallback has one |
| InsightRunViewer.ShownClaimsFromPayload | apps/web/src/pages/InsightRunViewerPage.tsx:43-52 | when the payload has themes, the listed claims are the payload's claims in theme order and every one of them is listed |
| InsightRunViewer.FlatClaimsAppend | apps/web/src/pages/InsightRunViewerPage.tsx:52 | the flat claim list of two theme lists is the concatenation of theirs: theme order, then claim order |
| InsightRunViewer.FlatClaimsContains | apps/web/src/pages/InsightRunViewerPage.tsx:52 | every claim of every shown theme is in the flat claim list |
| InsightRunViewer.ViewerState.constructor | apps/web/src/pages/InsightRunViewerPage.tsx:32-33 | the page starts with no selected claim and the drawer closed |
| InsightRunViewer.ViewerState.OpenCitations | apps/web/src/pages/InsightRunViewerPage.tsx:76-83 | a claim without citations changes nothing; otherwise it becomes the selected claim and the drawer opens |
| InsightRunViewer.ViewerState.SetDrawerOpen | apps/web/src/pages/InsightRunViewerPage.tsx:229-233 | the drawer takes the requested state, and closing it forgets the selected claim |
| InsightRunViewer.AddClaimToDecision | apps/web/src/pages/InsightRunViewerPage.tsx:85-111 | the store's draft becomes the merge of the old draft with the claim; project, dialog and palette are unchanged |
| ActionDialogs.Toggle | apps/web/src/components/ActionDialogs.tsx:415-421 | the toggled id is in the result exactly when it was not in the list; an absent id is appended at the end, and a present one is removed everywhere with every other id kept in order and multiplicity (via `Lists.Remove`) |
| ActionDialogs.ToggleTwiceRestores | apps/web/src/components/ActionDialogs.tsx:415-421 | toggling an absent source twice gives back the original list |
| ActionDialogs.ToggleKeepsNoDups | apps/web/src/components/ActionDialogs.tsx:415-421 | toggling keeps a duplicate-free list duplicate-free |
| ActionDialogs.DecisionForm.constructor | apps/web/src/components/ActionDialogs.tsx:341-348 | the form starts with the values of the empty draft |
| ActionDialogs.DecisionForm.Prefill | apps/web/src/components/ActionDialogs.tsx:350-361 | while the decision dialog is open, every form field is loaded from the store's draft; otherwise the form is unchanged |
| ActionDialogs.DecisionForm.EditText | apps/web/src/components/ActionDialogs.tsx:441-501 | a text edit sets the form field and the same draft field to the value; nothing else in form or draft changes |
| ActionDialogs.DecisionForm.EditConfidence | apps/web/src/components/ActionDialogs.tsx:512-516 | a confidence edit is mirrored into the draft; nothing else changes |
| ActionDialogs.DecisionForm.ToggleCitation | apps/web/src/components/ActionDialogs.tsx:415-421 | the form's and the draft's cited sources both become the toggled list |
| ActionDialogs.DecisionForm.Submission | apps/web/src/components/ActionDialogs.tsx:369-388 | no request without a selected project or with a blank title; otherwise the request carries the form's fields unchanged |
| ActionDialogs.DecisionForm.OnCreateSuccess | apps/web/src/components/ActionDialogs.tsx:389-402 | after a successful create the form and the draft are both back to the empty draft and the dialog is closed |
| ActionDialogs.DecisionForm.Cancel | apps/web/src/components/ActionDialogs.tsx:426-428 | cancelling or dismissing closes the dialog and keeps the draft |
| ActionDialogs.EditDismissReopen | apps/web/src/components/ActionDialogs.tsx:350-444 | an edit made before a dismissal is what the form shows when the dialog is opened again |
| ActionDialogs.TaskSubmission | apps/web/src/components/ActionDialogs.tsx:579-594 | no request without a project or with a blank title; an empty owner or due date is omitted and a non-empty one is sent |
| ActionDialogs.ProjectSubmission | apps/web/src/components/ActionDialogs.tsx:54-61 | a blank project name is rejected and any other name is sent with the description |
| ActionDialogs.UploadSubmission | apps/web/src/components/ActionDialogs.tsx:123-165 | a project and then a file are required, each with its own error; the request carries the project, the file and the chosen kind, the title only when it is not empty, and exactly the comma tags (`Text.CommaTags`, each trimmed and non-empty) |
| TaskBoard.BoardKey | apps/web/src/pages/TaskBoardPage.tsx:93 | a task without a decision id is filed under "unassigned"; any present id, even an empty one, is its own key |
| TaskBoard.Push | apps/web/src/pages/TaskBoardPage.tsx:96 | filing a task appends it to exactly one status bucket and leaves the other buckets as they were |
| TaskBoard.ColumnTasks | apps/web/src/pages/TaskBoardPage.tsx:92-97 | a bucket's reference contents: only tasks of the input with that key and column |
| TaskBoard.ColumnTasksPartition | apps/web/src/pages/TaskBoardPage.tsx:92-97 | every copy of a task lands in its own key and column and in no other bucket: the buckets partition the input task list |
| TaskBoard.ColumnTasksOfAbsentKey | apps/web/src/pages/TaskBoardPage.tsx:169 | a key no task carries has all three buckets empty |
| TaskBoard.FileOneMore | apps/web/src/pages/TaskBoardPage.tsx:92-97 | filing one more task keeps the board equal to the reference buckets of the longer list |
| TaskBoard.BuildBoard | apps/web/src/pages/TaskBoardPage.tsx:80-99 | the board has an entry for exactly the keys the tasks carry, and each entry's buckets hold that key's tasks per column, in input order; unknown statuses go to To-Do |
| TaskBoard.LookupShowsColumnTasks | apps/web/src/pages/TaskBoardPage.tsx:167-169 | what a section shows (the board entry or empty buckets) is the reference bucket for every key, present or not |
| TaskBoard.DecisionSections | apps/web/src/pages/TaskBoardPage.tsx:75-78 | one section per decision in order, then a final "Unassigned tasks" section |
| TaskBoard.SectionKeysAre | apps/web/src/pages/TaskBoardPage.tsx:75-78 | the keys of the sections are the decision ids plus "unassigned" |
| TaskBoard.UnlinkedTaskShownUnassigned | apps/web/src/pages/TaskBoardPage.tsx:93-169 | a task without a decision appears in the unassigned section under its status column |
| TaskBoard.DanglingTaskHidden | apps/web/src/pages/TaskBoardPage.tsx:93-169 | a task whose decision id names no listed decision appears in no section at all |
| TaskBoard.Take | apps/web/src/pages/TaskBoardPage.tsx:129 | the first n characters of a string, or all of it when it is shorter |
| TaskBoard.EditRequest | apps/web/src/pages/TaskBoardPage.tsx:140-147 | the inline-edit update sends the title, sends an empty owner or due date as null and a non-empty one as itself, and touches neither status nor decision |
| TaskBoard.BoardPage.constructor | apps/web/src/pages/TaskBoardPage.tsx:37-39 | no drafts, nothing being edited |
| TaskBoard.BoardPage.HandleDraftChange | apps/web/src/pages/TaskBoardPage.tsx:101-103 | only the draft under the given key changes |
| TaskBoard.BoardPage.HandleAddTask | apps/web/src/pages/TaskBoardPage.tsx:105-118 | no request and no change without a non-blank draft and a selected project; otherwise a to-do with the trimmed, non-empty title under the section's decision is requested and that draft is emptied |
| TaskBoard.BoardPage.StartEditing | apps/web/src/pages/TaskBoardPage.tsx:124-131 | the editor holds the task's title, its owner or "", and the first ten characters of its due date |
| TaskBoard.BoardPage.EditValue | apps/web/src/pages/TaskBoardPage.tsx:124-149 | an edit changes one field of the open editor and has no effect when nothing is being edited |
| TaskBoard.BoardPage.CancelEditing | apps/web/src/pages/TaskBoardPage.tsx:133-136 | the editor closes; drafts are kept |
| TaskBoard.BoardPage.SaveEditing | apps/web/src/pages/TaskBoardPage.tsx:138-149 | with the editor open, the edit request for the task is issued and the editor closes; with it closed, nothing is requested |
| CommandPalette.Actions | apps/web/src/components/CommandPalette.tsx:26-85 | the palette always lists ten actions |
| CommandPalette.ActionIdsDistinct | apps/web/src/components/CommandPalette.tsx:27-84 | the ten action ids are pairwise distinct |
| CommandPalette.ActionSuffix | apps/web/src/components/CommandPalette.tsx:34-57 | a label carries " (Select project first)" exactly when no project is selected and the action is one of the four project-scoped ones |
| CommandPalette.ActionEffects | apps/web/src/components/CommandPalette.tsx:27-84 | the first five actions open dialogs, each a different one, and the other five navigate |
| CommandPalette.Filter | apps/web/src/components/CommandPalette.tsx:87-91 | an empty search keeps every action; otherwise the actions whose label matches the lowercased search |
| CommandPalette.MatchingKeepsExactlyMatches | apps/web/src/components/CommandPalette.tsx:90 | each action is kept, with its multiplicity, exactly when its lowercased label contains the search, and dropped otherwise |
| CommandPalette.MatchingAppend | apps/web/src/components/CommandPalette.tsx:90 | filtering distributes over concatenation, so the kept actions stay in list order |
| CommandPalette.MatchingOccurs | apps/web/src/components/CommandPalette.tsx:87-91 | every kept action comes from the list and its label contains the search at some position, ignoring ASCII case |
| CommandPalette.Palette.constructor | apps/web/src/components/CommandPalette.tsx:20 | the search starts empty |
| CommandPalette.Palette.SetSearch | apps/web/src/components/CommandPalette.tsx:109 | the search takes the typed value |
| CommandPalette.Palette.SetOpen | apps/web/src/components/CommandPalette.tsx:93-100 | the open flag follows the request, and closing the palette clears the search; nothing else in the store changes |
| CommandPalette.Palette.Select | apps/web/src/components/CommandPalette.tsx:122-125 | selecting closes the palette and clears the search, then opens the action's dialog or returns its route; project and draft are untouched |
| ProjectList.Replacement | apps/web/src/pages/ProjectListPage.tsx:110 | a safe character stays as it is; any other becomes one hyphen per UTF-16 code unit |
| ProjectList.Sanitize | apps/web/src/pages/ProjectListPage.tsx:110 | the result's length is the name's length in UTF-16 code units, and it holds safe characters only |
| ProjectList.SanitizeAppend | apps/web/src/pages/ProjectListPage.tsx:110 | sanitising goes character by character: it distributes over concatenation and a single character becomes its replacement |
| ProjectList.SanitizeIsSafeAndIdempotent | apps/web/src/pages/ProjectListPage.tsx:110 | the sanitised name holds only safe characters, and sanitising it again changes nothing |
| ProjectList.SanitizeFixedPoints | apps/web/src/pages/ProjectListPage.tsx:110 | a name is left unchanged exactly when it is already made of safe characters |
| ProjectList.FileStem | apps/web/src/pages/ProjectListPage.tsx:110 | the stem is never empty and holds only safe characters: the sanitised name, or "project" for an empty name |
| ProjectList.ExportFileName | apps/web/src/pages/ProjectListPage.tsx:110 | the export download is the stem followed by ".md" |
| ProjectList.DigestFileName | apps/web/src/pages/ProjectListPage.tsx:134 | the digest download is the stem followed by "-digest.md" |
| ProjectList.UnsafeCharactersCollide | apps/web/src/pages/ProjectListPage.tsx:110 | two project names that differ only in unsafe characters of the same UTF-16 width download under the same file name |
| ProjectList.Sorted | apps/web/src/pages/ProjectListPage.tsx:21-24 | no projects while loading; otherwise a permutation of the projects in newest-first order |
| ProjectList.SortedKeepsTies | apps/web/src/pages/ProjectListPage.tsx:23 | projects created at the same time keep their relative order (a stable sort) |
| ProjectList.OnProjectDeleted | apps/web/src/pages/ProjectListPage.tsx:42-46 | deleting the selected project clears the selection; deleting another keeps it; nothing else in the store changes |
| SourcesApi.ParseTags | apps/api/app/routers/sources.py:20-35 | no tags for a missing or blank text; a text starting with "[" is decoded as a JSON list (nothing when it is not one); anything else gives the trimmed, non-empty comma-separated pieces |
| SourcesApi.ParseTagsOfJoin | apps/api/app/routers/sources.py:20-35 | tags that are trimmed, non-empty and free of commas survive being joined with commas and parsed again, unless the first starts with "[" |
| SourcesApi.UpdateData | apps/api/app/routers/sources.py:156-158 | the update data has at most the three settable fields, in order |
| SourcesApi.UpdatedSource | apps/api/app/routers/sources.py:156-160 | a supplied field takes its value (a title may become null) and every other field, including id, project and uri, keeps its own |
| SourcesApi.SetFieldsUpdates | apps/api/app/routers/sources.py:159-160 | applying the update data pair by pair gives the updated row |
| SourcesApi.ApplyUpdate | apps/api/app/routers/sources.py:159-160 | the setattr loop computes the updated row |
| SourcesApi.UpdateSource | apps/api/app/routers/sources.py:151-165 | 404 exactly for an unknown id and nothing changes; otherwise the stored row becomes the updated row and the other tables are untouched |
| SourcesApi.EmptyUpdateIsIdentity | apps/api/app/routers/sources.py:156-160 | an update with no field set leaves the row unchanged |
| SourcesApi.UpdateIdempotent | apps/api/app/routers/sources.py:156-160 | sending the same update twice stores what sending it once stores |
| SourcesApi.DeleteSource | apps/api/app/routers/sources.py:168-182 | 404 exactly for an unknown id; a server error with nothing removed exactly when an insight-run citation names the source; otherwise only that row is removed, and decision citations naming it are left in place |
| SourcesApi.DeleteLeavesRunCitationsResolved | apps/api/app/models.py:85-95 | a successful delete leaves every insight-run citation naming an existing source |
| SourcesApi.ImportLimit | apps/api/app/routers/sources.py:111 | a missing or zero limit means 100; any other limit is used as given |
| SourcesApi.SliceTo | apps/api/app/routers/sources.py:118 | the first n notes, with a negative n dropping that many from the end, as a Python slice does |
| SourcesApi.NewNotes | apps/api/app/routers/sources.py:118-121 | the notes whose uri is not already known, and only those, in order |
| SourcesApi.NoteSources | apps/api/app/routers/sources.py:122-138 | one row per taken note, the i-th with the i-th fresh id, kind "obsidian", its uri, its stem as title and no tags |
| SourcesApi.ImportObsidian | apps/api/app/routers/sources.py:91-148 | 404 without the project, the folder's error when the folder is rejected, and no change on either; otherwise one new source per note among the first limit notes whose uri the project does not know yet, stored under fresh ids, existing rows untouched |
| SourcesApi.ImportNotes | apps/api/app/routers/sources.py:118-140 | the loop stores exactly the rows of the new notes, in order, under the fresh ids, and keeps every existing row |
| SourcesApi.ImportedNotesBounds | apps/api/app/routers/sources.py:111-121 | an import takes up no more notes than the folder holds nor than a non-negative limit, and none whose uri is already known |
| SourcesApi.NewNotesAfterImport | apps/api/app/routers/sources.py:114-121 | importing the same notes again right afterwards takes up nothing |
| SourcesApi.NewNotesAllKnown | apps/api/app/routers/sources.py:120-121 | when every uri is already known, nothing is imported |
| Export.NewestRun | apps/api/app/routers/export.py:16-24 | no run exactly when the project has none; otherwise a run of the project whose creation time is the latest |
| Export.ClaimCitationsFilter | apps/api/app/routers/export.py:87 | a claim's citations are exactly the citations that point at it, and there are no more of them than rows in the query result |
| Export.ClaimCitationsCount | apps/api/app/routers/export.py:87 | every matching row is kept as many times as the query returned it, and no other row is kept |
| Export.ClaimCitationsAppend | apps/api/app/routers/export.py:87 | the filter distributes over concatenation, so the citations keep their query order |
| Export.ThemeClaimsFilter | apps/api/app/routers/export.py:79 | a theme's claims are exactly the claims that point at it, and there are no more of them than rows in the query result |
| Export.ThemeClaimsCount | apps/api/app/routers/export.py:79 | every matching row is kept as many times as the query returned it, and no other row is kept |
| Export.ThemeClaimsAppend | apps/api/app/routers/export.py:79 | the filter distributes over concatenation, so the claims keep their query order |
| Export.NumberingFirstAppearance | apps/api/app/routers/export.py:71-106 | footnote numbers are assigned by first appearance: the k-th distinct citation id, in rendering order, gets number k |
| Export.NumberNew | apps/api/app/routers/export.py:91-95 | numbering a citation not seen before with the next number keeps the first-appearance numbering |
| Export.NumberingIsBijection | apps/api/app/routers/export.py:91-95 | every footnote number lies between 1 and the number of distinct citations, and no two citations share one |
| Export.FirstAppearanceInjective | apps/api/app/routers/export.py:91-95 | under a first-appearance numbering each number points back to its citation, so numbers are distinct |
| Export.NumberingExtends | apps/api/app/routers/export.py:91-92 | a citation keeps the number it was given first, whatever is rendered after it |
| Export.FootnoteBlockShape | apps/api/app/routers/export.py:93-105 | a footnote opens with its marker and the source's title (or "Reference" without a source), has a quote line and a location line exactly when those are set, and ends with a blank line |
| Export.BlocksEmptyIff | apps/api/app/routers/export.py:88-106 | there are footnote lines exactly when at least one citation was referenced |
| Export.CiteAll | apps/api/app/routers/export.py:90-107 | rendering a claim's citations adds each new one to the numbering and the footnotes, and the markers are their final numbers |
| Export.Cite | apps/api/app/routers/export.py:91-106 | a citation seen before keeps its number; a new one gets the next number and its footnote block |
| Export.RenderClaims | apps/api/app/routers/export.py:85-108 | the claim loop renders one line per claim of the theme and extends the numbering and footnotes with the claims' citations |
| Export.RenderClaim | apps/api/app/routers/export.py:86-108 | one claim's line, with its markers when it has citations, and the numbering and footnotes extended by them |
| Export.RenderThemes | apps/api/app/routers/export.py:71-109 | the theme loop renders every theme with its claims (or the placeholder), numbered by first appearance over the whole run, and the footnotes in that order |
| Export.Capitalize | apps/api/app/routers/export.py:137 | same length; the first character is upper-cased and the rest lower-cased |
| Export.CapitalizeIdempotent | apps/api/app/routers/export.py:137 | capitalising twice is capitalising once |
| Export.TaskDetails | apps/api/app/routers/export.py:137-145 | the capitalised status, then one part for each of owner, due date and decision that is set |
| Export.TasksSection | apps/api/app/routers/export.py:133-149 | with tasks, the section is its heading and blank line, one line per task and a closing blank line |
| Export.RenderDecisions | apps/api/app/routers/export.py:111-131 | the decision loop renders the decisions section: a bullet per decision with its set details, or the placeholder |
| Export.RenderTasks | apps/api/app/routers/export.py:133-149 | the task loop renders the tasks section: one line per task, or the placeholder |
| Export.ReferencesIffCited | apps/api/app/routers/export.py:151-154 | the references section appears exactly when some claim of the run has a citation |
| Export.ExportProjectMarkdown | apps/api/app/routers/export.py:10-157 | 404 for an unknown project, 400 when it has no run, otherwise the trimmed document for its newest run, ending in one newline |
| Digest.SourceLines | apps/api/app/routers/digest.py:68-70 | one line per source of the day, in order |
| Digest.FirstThree | apps/api/app/routers/digest.py:82 | at most three themes, the first ones, and all of them when there are no more than three |
| Digest.ThemeLines | apps/api/app/routers/digest.py:82-85 | one line per highlighted theme |
| Digest.StatusOrderShape | apps/api/app/routers/digest.py:110-113 | the bucket keys are todo, in_progress and done, then every other status in the order the tasks first show it |
| Digest.StatusOrderNoDups | apps/api/app/routers/digest.py:110-113 | no status has two buckets |
| Digest.StatusOrderCovers | apps/api/app/routers/digest.py:111-113 | every task's status has a bucket |
| Digest.WithStatusFilter | apps/api/app/routers/digest.py:111-113 | a bucket holds exactly the tasks of its status, in input order |
| Digest.TitleFromSpec | apps/api/app/routers/digest.py:117 | the heading upper-cases each letter that starts a word and lower-cases every other letter |
| Digest.TaskItems | apps/api/app/routers/digest.py:118-120 | one line per task of a bucket |
| Digest.GroupByStatus | apps/api/app/routers/digest.py:110-113 | the grouping loop yields the bucket keys in insertion order and, under each key, exactly the tasks of that status in input order |
| Digest.RenderItems | apps/api/app/routers/digest.py:118-120 | the item loop renders each task of a bucket, with its owner when set |
| Digest.RenderBuckets | apps/api/app/routers/digest.py:114-120 | the bucket loop renders each non-empty bucket's heading and tasks, in key order, and skips empty ones |
| Digest.RenderSources | apps/api/app/routers/digest.py:66-73 | the sources section: one line per source of the day, or the placeholder |
| Digest.RenderRuns | apps/api/app/routers/digest.py:75-88 | the runs section: the newest run's status and at most three of its themes, or the placeholder |
| Digest.RenderDecisionUpdates | apps/api/app/routers/digest.py:90-105 | the decisions section: each decision of the week with its date and its non-empty fields, or the placeholder |
| Digest.RenderSnapshot | apps/api/app/routers/digest.py:107-123 | the task snapshot: the non-empty status buckets, or the placeholder |
| Digest.DailyDigest | apps/api/app/routers/digest.py:14-125 | 404 for an unknown project, 400 for a date that does not parse; otherwise the trimmed digest of the project's sources of that day, runs since the day before and decisions and tasks of the past week, each newest first |
| Digest.EmptySectionsShowPlaceholders | apps/api/app/routers/digest.py:66-123 | each section shows its placeholder line when its list is empty |
| Digest.SourcesSectionLines | apps/api/app/routers/digest.py:66-73 | with sources, the section has one line per source and no placeholder |
| Digest.SourceLinesPointwise | apps/api/app/routers/digest.py:69-70 | the i-th source line describes the i-th source |
| Digest.SourceLineShowsTitleOrUri | apps/api/app/routers/digest.py:70 | a source is shown by its title, or by its uri when the title is absent or empty, followed by its kind |
| Digest.OnlyNewestRun | apps/api/app/routers/digest.py:77-85 | only the newest run is described, with at most three theme lines, whatever older runs there are |
| Digest.BucketsLinesLength | apps/api/app/routers/digest.py:114-120 | the snapshot has one heading per non-empty bucket and one line per task in it |
| Digest.NoDupsCountsOnce | apps/api/app/routers/digest.py:110-114 | a bucket key occurs once in the key order |
| Digest.EveryTaskListedOnce | apps/api/app/routers/digest.py:110-120 | over duplicate-free keys that cover every status, each task is listed exactly once |
| Digest.ItemCountEmpty | apps/api/app/routers/digest.py:115-116 | without tasks no bucket lists anything |
| Digest.SnapshotListsEveryTask | apps/api/app/routers/digest.py:109-120 | the snapshot lists every recent task exactly once, whatever its status |
| InsightEngine.PerClaim | apps/api/app/services/insight_engine.py:46 | each claim gets two citations, or as many as there are sources when there are fewer |
| InsightEngine.ClaimConfidence | apps/api/app/services/insight_engine.py:41 | a claim's confidence is its theme's minus 0.08, but never below 0.5 |
| InsightEngine.Head | apps/api/app/services/insight_engine.py:52 | at most n characters, a prefix of the text, exactly n when the text is long enough |
| InsightEngine.DrawCitations | apps/api/app/services/insight_engine.py:45-55 | the citation loop of one claim draws the next min(2, n) sources of the cycle and an id each, and nothing without sources |
| InsightEngine.GenerateClaims | apps/api/app/services/insight_engine.py:40-64 | the claim loop of one theme yields the claims that the generator definition describes, advancing the cycle and the ids |
| InsightEngine.GenerateMockPayload | apps/api/app/services/insight_engine.py:8-76 | the payload is the one the generator definition describes for the sources |
| InsightEngine.GenerateThemes | apps/api/app/services/insight_engine.py:35-74 | the theme loop yields one theme per template, starting from a fresh cycle and no ids drawn |
| InsightEngine.CitationsGenDraws | apps/api/app/services/insight_engine.py:46-55 | m draws yield m citations, take m sources and m ids, and cite the sources that follow the ones already yielded, in order |
| InsightEngine.ClaimGenShape | apps/api/app/services/insight_engine.py:40-64 | a claim keeps its statement, takes its theme's lowered confidence and cites the next min(2, n) sources of the cycle |
| InsightEngine.ClaimsGenShape | apps/api/app/services/insight_engine.py:40-64 | one claim per template claim, in template order, each with its statement, the lowered confidence and min(2, n) citations |
| InsightEngine.ClaimsGenRoundRobin | apps/api/app/services/insight_engine.py:40-64 | the claims of a theme cite the sources in the order the cycle yields them, and the cycle advances by that many |
| InsightEngine.ThemesGenShape | apps/api/app/services/insight_engine.py:36-74 | one theme per template, each built from the state the themes before it left |
| InsightEngine.ThemesGenRoundRobin | apps/api/app/services/insight_engine.py:36-74 | across all themes and claims the k-th citation cites the source after the ones already yielded, and the cycle advances by the number of citations |
| InsightEngine.ThemesFollowTemplates | apps/api/app/services/insight_engine.py:66-74 | each theme has its template's title, summary and confidence and one claim per template claim, in order |
| InsightEngine.MockPayloadShape | apps/api/app/services/insight_engine.py:12-76 | the payload has the two template themes, three claims each |
| InsightEngine.TemplateClaimConfidences | apps/api/app/services/insight_engine.py:16-41 | the claims of the two templates sit at 0.74 and 0.66 |
| InsightEngine.MockPayloadRoundRobin | apps/api/app/services/insight_engine.py:10-55 | with sources, the k-th citation of the whole payload cites source k mod n: the cycle restarts after the last source |
| InsightEngine.NoSourcesNoCitations | apps/api/app/services/insight_engine.py:10-45 | without sources no claim has a citation |
| DecisionsApi.UnknownSources | apps/api/app/routers/decisions.py:45-52 | the missing ids are exactly the cited ids that name no source |
| DecisionsApi.KnownSources | apps/api/app/routers/decisions.py:84-89 | the existing ids are exactly the cited ids that name a source |
| DecisionsApi.CitationsOf | apps/api/app/routers/decisions.py:91 | the citation rows of one decision, and only those |
| DecisionsApi.CitationsNotOf | apps/api/app/routers/decisions.py:91 | the citation rows of every other decision, and only those |
| DecisionsApi.CitationRows | apps/api/app/routers/decisions.py:55-62 | one new citation row per given source id, each for the decision and without a note |
| DecisionsApi.UnknownSourcesError | apps/api/app/routers/decisions.py:53-54 | the 400 names each missing id exactly once after the fixed prefix |
| DecisionsApi.NewDecision | apps/api/app/routers/decisions.py:32-41 | the inserted row carries the payload's project, title and linked claims; a missing confidence takes the column default |
| DecisionsApi.CreateDecision | apps/api/app/routers/decisions.py:26-66 | 404 without the project; 400 naming the unknown ids when a cited source is missing; no change on failure; otherwise the new decision plus exactly one citation row per distinct cited source |
| DecisionsApi.UpdatedDecision | apps/api/app/routers/decisions.py:75-82 | every field of the payload overwrites the decision; id and creation time stay |
| DecisionsApi.UpdateDecision | apps/api/app/routers/decisions.py:69-105 | 404 for an unknown decision or project with no change; otherwise the fields are overwritten and the decision's citations are replaced by one row per distinct cited id that names a source, unknown ids dropped silently |
| DecisionsApi.Unlinked | apps/api/app/routers/decisions.py:114-121 | every task that pointed at the decision loses its link, and no task is removed or otherwise changed |
| DecisionsApi.UnlinkTasks | apps/api/app/routers/decisions.py:119-121 | the unlinking loop computes exactly that map |
| DecisionsApi.DeleteDecision | apps/api/app/routers/decisions.py:108-124 | 404 with no change for an unknown id; otherwise its tasks are unlinked, and the decision and its citation rows are removed |
| DecisionsApi.ListDecisions | apps/api/app/routers/decisions.py:10-15 | the project's decisions (all of them without a filter), each once, newest first |
| DecisionsApi.UnlinkedLeavesNoReference | apps/api/app/routers/decisions.py:114-121 | after a delete no task points at the deleted decision |
| DecisionsApi.DeleteKeepsLinks | apps/api/app/routers/decisions.py:108-124 | when every task link points at a decision of the task's project, that still holds after a delete |
| DecisionsApi.MovingDecisionBreaksLinks | apps/api/app/routers/decisions.py:79-82 | an update may move a decision to another project, leaving a task that links to it pointing across projects |
| DecisionsApi.CitesExactlyOnce | apps/api/app/routers/decisions.py:52-62 | a source cited several times in the request still gets exactly one citation row |
| Db.NewestFirst | apps/api/app/routers/tasks.py:23 | an ordered query returns each selected row once, in descending order of creation time |
| Db.FromSetNoDups | apps/api/app/routers/tasks.py:23 | a query result with the multiplicities of a set holds each row once, and exactly the selected rows |
| TasksApi.ListTasks | apps/api/app/routers/tasks.py:12-23 | every task matching the project and decision filters (an absent or empty filter is not applied), each once, newest first |
| TasksApi.CreatedTask | apps/api/app/routers/tasks.py:26-51 | 404 without the project; 400 when a non-empty decision id is not a decision of that project; otherwise a row with the request's fields as sent, including an empty decision id |
| TasksApi.CreateTask | apps/api/app/routers/tasks.py:26-55 | the outcome is the one described above; only a successful create adds the row, and no other table changes |
| TasksApi.PatchedTask | apps/api/app/routers/tasks.py:64-85 | a field sent as null or left out keeps its value; an empty decision id clears the link; a non-empty one must name a decision of the task's project, or the update fails with 400 |
| TasksApi.UpdateTask | apps/api/app/routers/tasks.py:58-90 | 404 for an unknown task; otherwise the patched row is stored only when no check fails, and no other table changes |
| TasksApi.DeleteTask | apps/api/app/routers/tasks.py:93-99 | 404 exactly for an unknown id; otherwise exactly that task is removed |
| TasksApi.EmptyPatchIsIdentity | apps/api/app/routers/tasks.py:64-85 | an update that carries no field leaves the task as it was |
| TasksApi.PatchIdempotent | apps/api/app/routers/tasks.py:64-85 | sending the same successful update twice stores what sending it once stores |
| TasksApi.CreateKeepsLinks | apps/api/app/routers/tasks.py:39-51 | when every task link points at a decision of the task's project, a successful create keeps that so |
| TasksApi.PatchKeepsLinks | apps/api/app/routers/tasks.py:78-85 | a successful update keeps every task link inside its project |
| TasksApi.BoardEditKeepsOwnerAndDueDate | apps/api/app/routers/tasks.py:68-77 | clearing the owner or due date in the board's inline editor does not clear it: the board sends null, and the update ignores null |
| Text.Trim | apps/api/app/routers/sources.py:24-26 | the trimmed text occurs in the input with only whitespace before and after it, neither starts nor ends with whitespace, and is empty exactly when the input is blank |
| Text.Document | apps/api/app/routers/export.py:156 | the document is the joined lines with only surrounding whitespace removed, followed by one newline; it is just that newline exactly when the joined lines are blank, and otherwise its text neither starts nor ends with whitespace |
| Text.Split | apps/api/app/routers/sources.py:35 | splitting yields at least one piece, none containing the separator |
| Text.JoinSplit | apps/api/app/routers/sources.py:35 | joining the pieces of a split with the separator gives back the text |
| Text.SplitJoin | apps/api/app/routers/sources.py:35 | splitting separator-free pieces joined by the separator gives back the pieces |
| Text.TrimAndDropEmpty | apps/api/app/routers/sources.py:35 | the kept pieces are no more than the input pieces and each is trimmed and non-empty |
| Text.CommaTags | apps/web/src/components/ActionDialogs.tsx:133-136 | every tag is trimmed, non-empty and free of commas |
| Text.CommaTagsOfJoin | apps/web/src/components/ActionDialogs.tsx:133-136 | trimmed, non-empty, comma-free tags are recovered from their comma-joined text |
| Text.Lower | apps/web/src/components/CommandPalette.tsx:89-90 | lower-casing keeps the length and lower-cases each character |
| Text.ContainsIff | apps/web/src/components/CommandPalette.tsx:90 | the containment scan succeeds exactly when the search occurs at some position |
| Text.NatToString | apps/api/app/routers/export.py:94-106 | a footnote number renders as a non-empty string of decimal digits |
| Text.NatToStringRoundTrip | apps/api/app/routers/export.py:94-106 | reading the digits back gives the number |
| Text.NatToStringInjective | apps/api/app/routers/export.py:94-106 | different footnote numbers render as different markers |
| Lists.Dedup | apps/web/src/pages/InsightRunViewerPage.tsx:86 | the list made from a Set holds no duplicate, exactly the input's elements, and is the input itself when that had none |
| Lists.DedupKeepsPrefix | apps/web/src/pages/InsightRunViewerPage.tsx:86-92 | a Set built from a list followed by more elements keeps the first list's distinct elements first, in their order |
| Lists.Remove | apps/web/src/components/ActionDialogs.tsx:417 | filtering an id out removes every copy of it and keeps every other element as many times as it occurred |
| Lists.RemoveAppend | apps/web/src/components/ActionDialogs.tsx:417 | removal distributes over concatenation, so the kept elements stay in order |
| Lists.SortDescendingBy | apps/web/src/pages/ProjectListPage.tsx:23 | the sorted list is a permutation of the input in descending key order |
| Lists.SortKeepsTies | apps/web/src/pages/ProjectListPage.tsx:23 | the sort is stable: elements with equal keys keep their relative order |

## Left out

- JSX markup, styling, toasts, React Query cache invalidation, `isPending` flags and routing are not modelled. `CommandPalette.Palette.Select` returns the route an action navigates to and does not navigate.
- Network I/O, file storage and deletion, text extraction, embeddings, seeding and startup are not modelled. Neither is the Obsidian folder's path-containment and existence check: the folder arrives as a parameter that is either the sorted note list or the error the check raises.
- `upload_source` and `list_sources` in `apps/api/app/routers/sources.py` are not modelled. They are a file write followed by an insert, and a filtered query. The upload dialog's request is modelled (`ActionDialogs.UploadSubmission`), and so is its tag parsing (`SourcesApi.ParseTags`).
- `get_decision` in `apps/api/app/routers/decisions.py` is not modelled. It is a lookup with a 404.
- These page handlers are not modelled, because each only calls the store or the network:
  - the insight-run dialog's submit;
  - the upload dialog's open handler, which preselects a project;
  - the project dialog's success handler;
  - quick create;
  - the viewer's redirect when the selected project changes;
  - run deletion and copying a location;
  - the board's status change and task deletion.
- Ids from `uuid4()` are parameters that the caller guarantees are fresh. Creation times are integers, and the current time is a parameter.
- Confidences are reals, and floating-point rounding is not modelled. The percentages that `export.py` renders (`:.0%`, `int(c * 100)`) are opaque strings inside the rows.
- Dates are integers. `fromisoformat` is a parameter that may fail, and a failure gives the 400. The rendered ISO dates are a parameter as well.
- `TasksApi.CreatedTask`: the 400 for an unparsable `due_date` string is not modelled, because due dates reach the router already parsed by the request schema.
- `TasksApi.CreatedTask`: the request schema's default status, `todo`, is not modelled. The status is always supplied.
- `Db.NewestFirst`: rows with equal creation times may come back from the database in any order. The model picks one stable order.
- `DecisionsApi.UnknownSourcesError`: the order in which the missing ids are joined follows Python's iteration order over a set. The model states only that each missing id is named exactly once.
- `DecisionsApi.CitationRows`: the same holds for the order in which citation rows are added.
- `Text.Trim`: whitespace means space, tab, line feed, carriage return, vertical tab and form feed. JavaScript's `trim()` also removes Unicode spaces and line terminators. Python's `strip()` also removes the separators U+001C to U+001F, U+0085 and Unicode spaces.
- `Text.Lower` and `Export.Capitalize`: case mapping covers ASCII letters only. JavaScript's `toLowerCase()` and Python's `capitalize()` also map other letters, so Python gives "État" for "éTAT" where the model gives "état".
- `ProjectList.Sanitize`: strings are sequences of Unicode scalar values, so a JavaScript string holding a lone surrogate is not modelled.
- `SourcesApi.DeleteSource`: the insight-run citation rows are read but never written, because the insight-run router is not part of this model. When the delete fails because of a citation, the source's files have already been removed; that file removal is not modelled.
- `Digest.TitleFromSpec`: Python's `str.title()` is modelled for ASCII letters only.
- `UiStore.UIStore.SetDecisionDraft`: a partial whose key is present with the value `undefined` is not modelled. In the model a field is either supplied with a value or absent. For the same reason, the `?? 0.6` fallback when the decision form is prefilled never applies.
- `Digest.DailyDigest`: a payload theme whose `title` or `summary` key is present with a null value is not modelled. The key is treated as either absent or holding a string. Likewise, a payload that is not a dict counts as having no themes.
- `SourcesApi.UpdateSource`: a `kind` sent as null is not modelled. The column is not nullable, so the database would reject the commit.
- `ProjectList.Sorted`: timestamps are integers here. Dates that `new Date(...)` cannot parse, which compare as NaN, are not modelled.
- `InsightEngine.GenerateMockPayload`: the citation quote includes the claim's first 40 characters (`InsightEngine.Head`). Beyond that, the quote's exact text is not stated by any lemma.
