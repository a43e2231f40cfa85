# Employee form wizard: a verified model of its client-side rules

This project models the browser-side logic of the form-wizard application (React, TypeScript), covering four parts:

- **The two-step employee wizard.** Step 1 collects the basic info and generates an employee ID. Step 2 collects the details and submits both records.
- **The per-role draft store** that keeps unfinished wizards in `localStorage`.
- **The autocomplete controller** behind the department and location fields, and the photo upload field.
- **The employee list**, which joins the two record kinds and pages through the result with a windowed pagination control.

One Dafny module stands for each source file:

| module | source |
|---|---|
| `Js` | JavaScript semantics the code relies on: `a \|\| b` on strings, ASCII `trim`, `Array.prototype.slice`, `err instanceof Error ? err.message : fallback` |
| `EmployeeTypes` | `src/types/employee.ts`: the `Role` and `EmploymentType` enumerations and the record shapes |
| `FormValidation` | `src/hooks/useFormValidation.ts` |
| `DraftStorage` | `src/services/storage.ts` |
| `EmployeeId` | `src/hooks/useEmployeeId.ts` |
| `EmployeeList` | `src/pages/employees/index.tsx` |
| `Pagination` | `src/components/pagination/index.tsx` |
| `Step1`, `Step2`, `Wizard` | `src/pages/wizard/step1.tsx`, `step2.tsx`, `index.tsx` |
| `Autocomplete` | `src/hooks/useAutocomplete.ts` |
| `FileUpload` | `src/components/fileUpload/index.tsx` |

Components that keep state become classes. Their fields are the `useState` cells, and each handler or effect is one method, treated as one atomic transition.

Pure rules become functions. Those are the e-mail pattern, the validators, the join, the page window, the ID derivation and the progress updaters. Lemmas relate them to each other.

Everything outside the browser becomes a parameter:

- a remote call's outcome (`basicInfoOk`, `detailsOk`, `FetchOutcome`, `SearchOutcome`, a failed ID look-up);
- a store that throws (`storageThrows`);
- the clock (`nowMillis`);
- the Base64 encoder's result.

What the page posts is returned as a log of `RemoteCall`s.

Validation errors are a `map<string, Option<string>>`. `None` is a key set to `undefined`, as step 1 does. `Some("")` is a key set to the empty string, as step 2 does.

The employee list keeps its current page when the page size changes (`src/pages/employees/index.tsx:163`), so a larger size can leave the page past the new last page: the list then shows no rows and the pagination window leaves the page out (`EmployeeList.LargerPageSizeStrandsPage`).

The autocomplete keeps no generation token or other tie between a search result and the query that requested it, so a result that a newer query has superseded is still shown. `Autocomplete.StaleResultOverwrites` shows an older result overwriting a newer one.

## Model

| member | source | states |
|---|---|---|
| FormValidation.ValidateEmailMeansShape | src/hooks/useFormValidation.ts:5-8 | the e-mail test accepts exactly the strings `L@D.T` with non-empty `L`, `D` and `T` that contain no whitespace and no `@` (`D` may contain dots) |
| FormValidation.RunClassifies | src/hooks/useFormValidation.ts:6 | the left-to-right scan that decides the pattern ends in the state that classifies the whole input |
| FormValidation.StepClassifies | src/hooks/useFormValidation.ts:6 | one more character moves the scan from the class of the text read so far to the class of the longer text |
| FormValidation.ShapeOfAccepted | src/hooks/useFormValidation.ts:6 | every string the scan accepts has the shape `L@D.T` |
| FormValidation.AcceptedOfShape | src/hooks/useFormValidation.ts:6 | every string of the shape `L@D.T` is accepted |
| FormValidation.ValidateStep1 | src/hooks/useFormValidation.ts:11-38 | the successive assignments build exactly the step-1 error map |
| FormValidation.Step1ErrorsFacts | src/hooks/useFormValidation.ts:17-37 | keys lie within the four checked fields; the map is empty iff every check passes; `fullName`, `department` and `role` are flagged iff blank or empty, with "Full name is required", "Department is required" and "Role is required"; `email` is flagged iff blank or malformed, with "Email is required" for blank and "Please enter a valid email address" otherwise; every stored message is set |
| FormValidation.ValidateStep2 | src/hooks/useFormValidation.ts:40-55 | the successive assignments build exactly the step-2 error map |
| FormValidation.Step2ErrorsFacts | src/hooks/useFormValidation.ts:44-54 | keys lie within the two checked fields; the map is empty iff both checks pass; an empty employment type is flagged with "Employment type is required" and a blank office location with "Office location is required" |
| DraftStorage.DraftKey | src/services/storage.ts:21-23 | the key is "draft_" followed by the role's name ("draft_admin", "draft_ops") |
| DraftStorage.DraftKeysDistinct | src/services/storage.ts:1-23 | two roles share a key iff they are the same role |
| DraftStorage.SaveDraft | src/services/storage.ts:25-32 | the role's entry is overwritten with the draft; a throwing store is left unchanged and nothing is raised |
| DraftStorage.LoadDraft | src/services/storage.ts:34-43 | a throwing store, a missing key, an empty string or unparsable text give no draft; otherwise the stored draft is returned |
| DraftStorage.ClearDraft | src/services/storage.ts:45-52 | the role's key is removed; a throwing store is left unchanged |
| DraftStorage.SaveThenLoad | src/services/storage.ts:25-43 | a load after a save returns the saved draft |
| DraftStorage.SaveOverwrites | src/services/storage.ts:25-32 | a second save replaces the first outright, with no merge |
| DraftStorage.ClearThenLoad | src/services/storage.ts:34-52 | a load after a clear returns nothing |
| DraftStorage.OtherKeysUntouched | src/services/storage.ts:25-52 | save and clear leave every other key present or absent, with its value |
| DraftStorage.OtherRoleUntouched | src/services/storage.ts:21-52 | saving or clearing one role leaves what loads for the other role unchanged |
| EmployeeId.DecimalRoundTrip | src/hooks/useEmployeeId.ts:23 | `toString` of a count writes digits that read back as that count |
| EmployeeId.Take | src/hooks/useEmployeeId.ts:17 | `substring(0, n)` is the prefix of length `min(n, length)` |
| EmployeeId.Upper | src/hooks/useEmployeeId.ts:18 | `toUpperCase` changes each character in place and keeps the length |
| EmployeeId.DeptPrefix | src/hooks/useEmployeeId.ts:16-19 | the prefix is exactly three characters: the department's first three upper-cased, padded with 'X' |
| EmployeeId.CountWithPrefix | src/hooks/useEmployeeId.ts:20-22 | the count is at most the number of records; it is 0 iff no ID starts with the prefix and equals the number of records iff all do |
| EmployeeId.CountAppend | src/hooks/useEmployeeId.ts:20-22 | one more record raises the count by one exactly when its ID starts with the prefix |
| EmployeeId.SequenceTextFacts | src/hooks/useEmployeeId.ts:23 | the sequence has at least three digits, denotes count + 1, and is never cut to three digits (1000 stays "1000") |
| EmployeeId.LastChars | src/hooks/useEmployeeId.ts:31 | `slice(-n)` is the last `n` characters, or the whole of a shorter string |
| EmployeeId.GenerateEmployeeId | src/hooks/useEmployeeId.ts:7-33 | the ID is empty iff the department is; otherwise it is the three-character prefix, then "-", then at least one more character |
| EmployeeId.GeneratedIdParts | src/hooks/useEmployeeId.ts:16-24 | after a successful look-up the ID splits into prefix, "-" and a digit string of at least three characters denoting one more than the prefix count |
| EmployeeId.NextIdDiffers | src/hooks/useEmployeeId.ts:20-24 | once a generated ID is stored, the next ID generated for the same department differs from it |
| EmployeeList.FirstMatch | src/pages/employees/index.tsx:32-36 | `find` stops at the first details record matching by email or employee ID, or past the end when none matches |
| EmployeeList.MergeBasic | src/pages/employees/index.tsx:31-45 | one entry per basic-info record, in order, each joined with its `find` result |
| EmployeeList.MergeBasicEntry | src/pages/employees/index.tsx:31-45 | each mapped entry keeps all five basic fields; its detail fields come from the first matching record, or are all undefined when nothing matches |
| EmployeeList.Placeholders | src/pages/employees/index.tsx:53-63 | one placeholder row per details record, in order |
| EmployeeList.AppendIfUnmatched | src/pages/employees/index.tsx:47-64 | one `forEach` turn keeps the list as a prefix and grows it by one, a placeholder, iff no entry so far matches the record; afterwards the record is matched |
| EmployeeList.MatchKept | src/pages/employees/index.tsx:48-51 | a record matched by a list stays matched once the list is extended |
| EmployeeList.AppendUnmatchedProps | src/pages/employees/index.tsx:47-65 | the whole `forEach` keeps the mapped list as a prefix, appends at most one placeholder per details record, and leaves every details record matched |
| EmployeeList.MergeEmployees | src/pages/employees/index.tsx:31-65 | the loop computes the join; its length lies between the number of basic records and that number plus the number of details; it starts with the mapped list and ends with placeholders only; every details record is matched |
| EmployeeList.RepeatedDetailAppendedOnce | src/pages/employees/index.tsx:47-65 | an unmatched details record that occurs twice is appended once, because earlier placeholders count as entries |
| EmployeeList.TotalPages | src/pages/employees/index.tsx:77 | the page count is the ceiling of length over page size: the smallest `t` with `t * pageSize >= n` |
| EmployeeList.PageSlice | src/pages/employees/index.tsx:78-80 | a page never holds more than `pageSize` rows |
| EmployeeList.SliceOfWindow | src/pages/employees/index.tsx:80 | `slice` with non-negative bounds is the sub-sequence between the bounds clipped to the length |
| EmployeeList.PageSliceWindow | src/pages/employees/index.tsx:78-80 | page `p` is the rows from `(p-1)*pageSize` up to `p*pageSize`, both clipped to the list |
| EmployeeList.EntryOnItsPage | src/pages/employees/index.tsx:77-80 | row `k` appears on page `k / pageSize + 1` at position `k % pageSize`, and that page is within the page count |
| EmployeeList.PageBeyondLastIsEmpty | src/pages/employees/index.tsx:77-80 | a page past the last one shows no rows |
| EmployeeList.LargerPageSizeStrandsPage | src/pages/employees/index.tsx:77-80 | with 20 rows, page 2 holds rows 10 to 19 at 10 a page, but at 50 a page there is one page and page 2, kept across the size change, shows nothing |
| EmployeeList.PagesUpToLastNonEmpty | src/pages/employees/index.tsx:77-80 | every page from 1 to the last shows at least one row |
| EmployeeList.EmployeesPage.constructor | src/pages/employees/index.tsx:12-16 | the page mounts loading, with no rows and no error, on page 1 with 10 rows per page |
| EmployeeList.EmployeesPage.FetchEmployees | src/pages/employees/index.tsx:22-75 | success stores the join and clears the error; failure keeps the rows and records the Error's message or "Failed to fetch employees"; loading is off either way |
| EmployeeList.EmployeesPage.SetCurrentPage | src/pages/employees/index.tsx:161 | only the current page changes |
| EmployeeList.EmployeesPage.SetPageSize | src/pages/employees/index.tsx:163 | only the page size changes; the current page is kept |
| EmployeeList.EmployeesPage.PageCount | src/pages/employees/index.tsx:77 | the page count covers every row |
| EmployeeList.EmployeesPage.Visible | src/pages/employees/index.tsx:78-80 | the visible rows are at most a page size |
| Pagination.HandlePrevious | src/components/pagination/index.tsx:20-24 | a request is made iff the current page is above 1, and it is for the page before |
| Pagination.HandleNext | src/components/pagination/index.tsx:26-30 | a request is made iff the current page is below the last, and it is for the page after |
| Pagination.RequestsStayInRange | src/components/pagination/index.tsx:20-30 | from a page within range, neither handler asks for a page outside `1..totalPages` |
| Pagination.Run | src/components/pagination/index.tsx:41-43 | a `for`/`push` loop from `lo` to `hi` yields the pages `lo..hi` in order |
| Pagination.GetPageNumbers | src/components/pagination/index.tsx:36-69 | the loops build the four-case window: all pages up to 5; `1..4, …, last`; `1, …, last-3..last`; `1, …, c-1..c+1, …, last` |
| Pagination.Numbers | src/components/pagination/index.tsx:106-117 | the rendered page numbers are exactly those listed in the window |
| Pagination.PageWindowProperties | src/components/pagination/index.tsx:36-69 | for a current page within range the window has at most 7 entries; its page numbers increase, lie in range and include 1, the current page and the last; every ellipsis hides at least one page |
| Pagination.HeadWindow | src/components/pagination/index.tsx:45-50 | the window properties near the first page |
| Pagination.TailWindow | src/components/pagination/index.tsx:51-56 | the window properties near the last page |
| Pagination.MiddleWindow | src/components/pagination/index.tsx:57-65 | the window properties in the middle |
| Pagination.MiddleFacts | src/components/pagination/index.tsx:57-65 | the middle-case list satisfies the window properties |
| Pagination.RunIncreases | src/components/pagination/index.tsx:41-43 | a run of pages is increasing |
| Pagination.FewPagesAllListed | src/components/pagination/index.tsx:40-43 | with at most five pages every page is listed, in order, with no ellipsis |
| Pagination.PageWindowNumbersIncrease | src/components/pagination/index.tsx:36-69 | the window's page numbers strictly increase |
| Pagination.NumbersIncrease | src/components/pagination/index.tsx:36-69 | page items in increasing order give strictly increasing page numbers |
| Pagination.Render | src/components/pagination/index.tsx:71-73 | nothing renders iff there are zero pages; otherwise the window is shown |
| Pagination.DisabledButtonsRequestNothing | src/components/pagination/index.tsx:98-131 | a disabled previous or next button would request nothing anyway |
| Step1.SetField | src/pages/wizard/step1.tsx:50 | only the named field is replaced |
| Step1.InitialStep1 | src/pages/wizard/step1.tsx:27-33 | each field comes from the initial data when it is a non-empty string, otherwise "" (role "Ops") |
| Step1.InitialRestoresReported | src/pages/wizard/step1.tsx:27-41 | a form reported to the wizard and handed back comes back unchanged, except that an empty role becomes "Ops" |
| Step1.ClearError | src/pages/wizard/step1.tsx:51-53 | the key set is unchanged; the edited field's message is no longer set; other entries are unchanged |
| Step1.AsWrittenNeverRecovers | src/pages/wizard/step1.tsx:49-75 | as written, once an error key is stored no edit removes it, so `isFormValid` stays false whatever is typed |
| Step1.CorrectedRecovers | src/pages/wizard/step1.tsx:70-75 | with the intended predicate, editing the flagged fields re-enables a form whose four fields are filled in |
| Step1.PredicatesAgreeWithoutErrors | src/pages/wizard/step1.tsx:70-75 | the as-written and intended predicates agree while no error is stored |
| Step1.Step1Form.constructor | src/pages/wizard/step1.tsx:27-35 | the form starts from the initial data, with no errors and no generated ID |
| Step1.Step1Form.HandleChange | src/pages/wizard/step1.tsx:49-54 | the field is replaced; a set message becomes undefined and its key stays; the new form is reported to the wizard |
| Step1.Step1Form.HandleDepartmentSelect | src/pages/wizard/step1.tsx:56-58 | the department's name goes into the field, with the same error clearing |
| Step1.Step1Form.EmployeeIdEffect | src/hooks/useEmployeeId.ts:7-37 | the hook's ID is regenerated for the form's department; the form and its errors are unchanged |
| Step1.Step1Form.CopyEmployeeId | src/pages/wizard/step1.tsx:43-47 | a non-empty hook ID is copied into the form; an empty one changes nothing |
| Step1.Step1Form.HandleSubmit | src/pages/wizard/step1.tsx:60-68 | failing validation stores the errors and does not call `onNext`; passing hands on the form with the hook's ID; `onNext` is called iff every check passes |
| Step1.Step1Form.SubmitDisabled | src/pages/wizard/step1.tsx:70-75 | the Next button (line 172) is disabled iff a checked field is blank or empty or any error key is stored, so a stored key disables it even once its message is cleared |
| Step1.Step1Form.SubmitDisabledIntended | src/pages/wizard/step1.tsx:70-75 | the corrected guard is disabled iff a checked field is blank or empty or some stored message is still set; it disables no more than the guard as written, and the two agree while no key is stored |
| Step1.StuckAfterInvalidEmail | src/pages/wizard/step1.tsx:49-75 | a submit with an address the browser lets through but the pattern rejects ("ann@x"), followed by correcting it, leaves a form that passes every check while the Next button as written stays disabled; the intended guard enables it |
| Step1.EmailSamples | src/hooks/useFormValidation.ts:5-8 | the scenario's fields are filled in; the address "ann@x" is rejected and "ann@x.io" accepted |
| Step1.TypedErrors | src/hooks/useFormValidation.ts:11-38 | validating the scenario's first form flags the e-mail alone, with "Please enter a valid email address" |
| Step1.CorrectedPasses | src/hooks/useFormValidation.ts:11-38 | the scenario's corrected form passes every step-1 check |
| Step2.Progress | src/pages/wizard/step2.tsx:50-56 | the five stages carry their fixed labels and the given statuses |
| Step2.Statuses | src/pages/wizard/step2.tsx:50-56 | the statuses of a progress list, stage by stage |
| Step2.AfterBasicInfo | src/pages/wizard/step2.tsx:105-111 | stages 0 and 1 become completed, stage 2 in progress, and stages 3 and 4 are unchanged |
| Step2.AfterDetails | src/pages/wizard/step2.tsx:125-131 | stages 2 to 4 become completed, and stages 0 and 1 are unchanged |
| Step2.FirstInProgress | src/pages/wizard/step2.tsx:141-143 | `findIndex` finds the first in-progress stage, or -1 when there is none |
| Step2.MarkFailed | src/pages/wizard/step2.tsx:139-148 | the first in-progress stage becomes an error and every other stage is unchanged |
| Step2.AttemptOutcomes | src/pages/wizard/step2.tsx:87-148 | an attempt starts at `[in-progress, pending ×4]` and ends in one of `[error, pending ×4]`, `[completed ×2, error, pending ×2]` or `[completed ×5]` |
| Step2.AttemptMovesForward | src/pages/wizard/step2.tsx:87-148 | through an attempt the labels are kept, statuses only move forward, and at most one stage is in progress at a time |
| Step2.MarkFailedAdvances | src/pages/wizard/step2.tsx:139-148 | marking the failure moves no stage back |
| Step2.AtMostOneAfterFailure | src/pages/wizard/step2.tsx:139-148 | after the failure is marked, no stage is in progress |
| Step2.BasicInfoPayload | src/pages/wizard/step2.tsx:95-101 | the posted basic info is exactly the five step-1 fields |
| Step2.DetailsPayload | src/pages/wizard/step2.tsx:114-121 | the posted details are step 1's ID and email with the form's employment type, location, notes and photo |
| Step2.SubmittedRecordsJoin | src/pages/wizard/step2.tsx:95-121 | the two records of one submission join in the employee list into one row carrying every collected field |
| Step2.SetField | src/pages/wizard/step2.tsx:65 | only the named field is replaced |
| Step2.InitialStep2 | src/pages/wizard/step2.tsx:41-46 | each field comes from the initial data when it is a non-empty string, otherwise "Full-time" or "" |
| Step2.InitialRestoresReported | src/pages/wizard/step2.tsx:41-62 | a form reported to the wizard and handed back comes back unchanged, except that an empty employment type becomes "Full-time" |
| Step2.GuardImpliesValidation | src/pages/wizard/step2.tsx:153-156 | whenever the submit guard holds, `validateStep2` finds nothing |
| Step2.ErrorKeysBlockForever | src/pages/wizard/step2.tsx:64-156 | a stored error key survives every edit and keeps the form invalid |
| Step2.Step2Form.constructor | src/pages/wizard/step2.tsx:41-56 | the form starts from the initial data, with no errors, not submitting, all stages pending and no navigation |
| Step2.Step2Form.HandleChange | src/pages/wizard/step2.tsx:64-69 | the field is replaced; a set message becomes "" and its key stays; nothing else changes |
| Step2.Step2Form.HandleLocationSelect | src/pages/wizard/step2.tsx:71-73 | the location's name goes into the field; a set `officeLocation` message becomes "" with its key kept, and any other message is unchanged |
| Step2.Step2Form.HandleSubmit | src/pages/wizard/step2.tsx:75-151 | failing validation stores the errors and posts nothing; otherwise basic info is posted, and details only after basic info succeeded; progress follows the attempt trace; only full success schedules "/employees" and leaves `isSubmitting` set |
| Step2.Step2Form.IsFormValid | src/pages/wizard/step2.tsx:153-156 | a stored error key makes the form invalid, and a valid form passes every step-2 check |
| Step2.Step2Form.SubmitDisabled | src/pages/wizard/step2.tsx:227 | the button is disabled while a submission runs; when enabled, no error key is stored and the submit passes validation |
| Wizard.RoleFromParam | src/pages/wizard/index.tsx:20-21 | the role is ops iff the parameter is "ops" |
| Wizard.FallbackStep1 | src/pages/wizard/index.tsx:136-142 | without a handed step-1 record, step 2 gets the draft's fields with ""/"Ops" defaults and an empty ID |
| Wizard.WizardPage.constructor | src/pages/wizard/index.tsx:19-28 | an admin starts on step 1 and an ops user on step 2, with empty drafts and no step-1 record |
| Wizard.WizardPage.EnforceOpsStep | src/pages/wizard/index.tsx:76-80 | an ops wizard on step 1 moves to step 2; nothing else changes |
| Wizard.WizardPage.HandleStep1Next | src/pages/wizard/index.tsx:53-56 | the step-1 record is stored and the wizard is on step 2 |
| Wizard.WizardPage.HandleStep1DataChange | src/pages/wizard/index.tsx:58-60 | the step-1 draft is replaced |
| Wizard.WizardPage.HandleStep2DataChange | src/pages/wizard/index.tsx:62-64 | the step-2 draft is replaced |
| Wizard.WizardPage.HandleClearDraft | src/pages/wizard/index.tsx:66-73 | the role's stored draft and both in-memory drafts are emptied; the step-1 record is dropped only on step 1 |
| Wizard.WizardPage.ApplyRestoredDraft | src/pages/wizard/index.tsx:32-41 | each part present in the restored draft replaces its in-memory draft; no draft changes nothing |
| Wizard.WizardPage.RestoreDraft | src/pages/wizard/index.tsx:30-41 | the drafts become what loads for the role, part by part |
| Wizard.WizardPage.AutoSave | src/pages/wizard/index.tsx:43-51 | both drafts are saved under the role's key |
| Wizard.WizardPage.Step2Input | src/pages/wizard/index.tsx:135-143 | step 2 gets the handed record when there is one, else the draft fallback |
| Wizard.WizardPage.ShowsStep1 | src/pages/wizard/index.tsx:126 | step 1 is shown only to an admin on step 1 |
| Wizard.WizardPage.ShowsStep2 | src/pages/wizard/index.tsx:133 | step 2 is shown on step 2; in a valid state exactly when step 1 is not |
| Wizard.OneStepShown | src/pages/wizard/index.tsx:126-133 | exactly one step is shown, and an ops wizard only ever shows step 2 |
| Wizard.SaveThenReopen | src/pages/wizard/index.tsx:30-51 | the restore effect of a wizard reopened for the same role installs the saved drafts into its in-memory drafts (before the mounted step reports again; see `Wizard.OpenWizard`) |
| Wizard.ClearThenReopen | src/pages/wizard/index.tsx:30-73 | after a clear, the restore effect of a wizard reopened for the same role finds nothing and leaves its in-memory drafts empty (before the mounted step reports again) |
| Wizard.OpenWizard | src/pages/wizard/index.tsx:27-64 | on opening, the shown step's form is the empty mount-time form whatever is stored, its draft ends as that form, and only the part of the step not shown keeps what the store restored |
| Wizard.ReopenLosesSavedForm | src/pages/wizard/index.tsx:27-64 | an admin's saved step-1 form is shown empty on reopening, and the next auto-save stores the empty form over it |
| Wizard.OpenWizardRestoringFirst | src/pages/wizard/index.tsx:30-41 | with the step mounted after the restore, the shown form starts from the restored part and its draft ends as that form |
| Wizard.ReopenKeepsSavedForm | src/pages/wizard/index.tsx:30-51 | with the step mounted after the restore, an admin's saved step-1 form is shown as saved and stored unchanged by the next auto-save |
| Wizard.RestoringFirstShowsReported | src/pages/wizard/step1.tsx:27-33 | a stored form that the step reported, with its role set, comes back as the initial form unchanged |
| Wizard.ClearWhileStep1Shown | src/pages/wizard/index.tsx:66-73 | a clear while step 1 is shown is undone: the re-render writes the step's current form back into its draft, and the next auto-save stores it under the role's key again |
| Autocomplete.Requested | src/hooks/useAutocomplete.ts:55-57 | a changed query becomes the debounced search's argument; an unchanged one leaves the pending search as it was |
| Autocomplete.AutocompleteController.constructor | src/hooks/useAutocomplete.ts:13-20 | the six cells start empty, closed and not loading; the default debounce is 300 ms; a search for "" is pending |
| Autocomplete.AutocompleteController.HandleInputChange | src/hooks/useAutocomplete.ts:59-63 | the query is set, the selection cleared and the list opened; suggestions, loading and error are untouched |
| Autocomplete.AutocompleteController.HandleSelect | src/hooks/useAutocomplete.ts:65-70 | the item is selected, its display text becomes the query, the list closes and the suggestions empty |
| Autocomplete.AutocompleteController.SyncValue | src/hooks/useAutocomplete.ts:76-82 | the query is set; the selection is kept iff its display text equals the value |
| Autocomplete.AutocompleteController.Clear | src/hooks/useAutocomplete.ts:84-89 | query, selection and suggestions are emptied and the list closed; loading and error are kept |
| Autocomplete.AutocompleteController.FireSearch | src/hooks/useAutocomplete.ts:24-34 | a blank query empties the suggestions and stops loading without calling `searchFn`; any other query turns loading on, clears the error and calls `searchFn` with it |
| Autocomplete.AutocompleteController.SettleSearch | src/hooks/useAutocomplete.ts:33-43 | results replace the suggestions; a failure records the Error's message or "Failed to fetch suggestions" and empties them; loading is off either way |
| Autocomplete.SelectThenSync | src/hooks/useAutocomplete.ts:65-82 | a selection followed by a sync is kept iff the synced value is its display text |
| Autocomplete.StaleResultOverwrites | src/hooks/useAutocomplete.ts:24-57 | an older search settling after a newer one overwrites its results, and loading went off while the older search was still running |
| FileUpload.Rejection | src/components/fileUpload/index.tsx:27-36 | a non-image type is refused first, then a size above 5·1024·1024 bytes; anything else is accepted |
| FileUpload.SizeLimitBoundary | src/components/fileUpload/index.tsx:33-36 | the limit is 5,242,880 bytes and inclusive |
| FileUpload.FileUploadField.constructor | src/components/fileUpload/index.tsx:18-19 | an empty value shows no preview, and there is no error |
| FileUpload.FileUploadField.HandleFileChange | src/components/fileUpload/index.tsx:22-48 | no file changes nothing; a refused file shows its message and reports nothing; an accepted file clears the error and its encoding becomes both preview and reported value; a failed encoding shows "Failed to process image" and reports nothing |
| FileUpload.FileUploadField.HandleRemove | src/components/fileUpload/index.tsx:50-52 | the preview goes, "" is reported, and the error stays |

## Left out

- HTTP (`src/services/api.ts`): fetches, JSON bodies and artificial delays. Every remote call is an outcome parameter, and the posts are a returned log.
- The debounce utility, `src/utils/debounce`, is not part of this model. The model assumes it runs the latest call once its timer fires. The timer itself is a separate `FireSearch` step.
- Timers:
  - the 200 ms `handleBlur` of the autocomplete;
  - the auto-save hook's 2000 ms debounce and its once-created closure, with only the save itself kept as `Wizard.WizardPage.AutoSave`;
  - the 1 s delay before navigating, modelled as the scheduled route in `navigation`.
- `Promise.all` in the list page, whose two fetches are one outcome.
- React effect and re-render ordering in general. Each handler or effect is one atomic transition, so an ID look-up that resolves after the department changed again is not modelled. The one ordering the model does follow is the wizard's opening (`Wizard.OpenWizard`): the step's mount report, the restore, then the step's report again after the re-render.
- JSON fidelity of drafts. A stored entry is the draft value itself, the empty string, or text that does not parse.
- Unicode: `trim` uses the ASCII whitespace set and `toUpperCase` maps ASCII letters only.
- `fileToBase64`, `Date.now()` and `console.error`. The first two are parameters; the last has no effect on state.
- Clearing the file input element in `handleRemove`, and `handlePageClick`, which only forwards the clicked page.
- Rendering-only files: `src/components/autocomplete/index.tsx`, `src/components/progressBar/index.tsx`, `src/components/layouts/index.tsx`, `src/pages/home/index.tsx` and `src/App.tsx`. The server scripts are left out too.
- The optional `id` fields of the records. The unchecked `as Role` casts also go: role and employment type stay strings, because the forms hold raw select values.
- Wizard.SaveThenReopen: states the in-memory drafts as the restore effect leaves them; the mounted step's report effect then runs again after every wizard render and writes its mount-time form back over the shown step's draft, which `Wizard.OpenWizard` states.
- Wizard.ClearThenReopen: likewise states the drafts before the mounted step reports again; a clear while a step is shown is itself undone by that report, as `Wizard.ClearWhileStep1Shown` states for step 1.
- Step2.Step2Form.step1Data: the step-1 record is fixed when the form is built. In the program it is a prop, re-derived on every wizard render as the handed record or the draft fallback (`src/pages/wizard/index.tsx:135-143`), so a restore that changes the step-1 draft under a mounted step 2 changes what its next submit posts; the model posts the record the form was built with.
- Browser constraint validation of the `type="email"` input (step1.tsx:109): a submit with an address lacking "@" never reaches `handleSubmit` in a browser; the model's submit runs for every address.
- EmployeeList.TotalPages: requires a positive page size. The source would divide by zero for a page size of 0, and its size selector offers only 10, 20 and 50.
- EmployeeList.EmployeesPage.PageCount: requires a positive page size, for the same reason.

## Findings

| source | as written | input that shows it | evidently intended | confidence | as-written member | corrected member |
|---|---|---|---|---|---|---|
| src/pages/wizard/step1.tsx:70-75 | `isFormValid` counts error keys, but `handleChange` (lines 49-54) only sets a field's message to `undefined` and keeps the key, so after one failed submit the Next button stays disabled for good | fill in "Ann", "ann@x", "Eng"; the guard and the browser's `type="email"` check let "ann@x" through; submit stores an e-mail error; correct the address to "ann@x.io"; every check now passes but the button stays disabled | only a message that is still set should block the form, so correcting the field re-enables Next | not executed | Step1.StuckAfterInvalidEmail | Step1.CorrectedRecovers |
| src/pages/wizard/index.tsx:27-64 | the shown step mounts with the wizard's still-empty draft as initial data; the restore effect sets the draft afterwards, but the step's `useState` has already taken its initial value, and the re-render's new change handler makes the step's report effect (step1.tsx:39-41, step2.tsx:60-62) write the mount-time form back over the restored draft, which the auto-save then stores | save a step-1 form with full name "Ann" as admin and reopen the wizard: the form shows an empty name, and the stored draft ends with an empty name | reopening shows the saved form, as when the step mounts only after the restore | not executed | Wizard.ReopenLosesSavedForm | Wizard.ReopenKeepsSavedForm |
