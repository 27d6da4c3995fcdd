# ApplyVault frontend core, modelled in Dafny

ApplyVault is a single-page React application for tracking job applications.
This project models its logic, leaving out its rendering. That logic covers:

- the application status enum, its labels, and the two copies of the status type;
- the create/edit dialog's form:
  - how an open dialog fills or resets the form;
  - the validity rule;
  - the request body that `submit` builds (trimming, null for blank);
  - which controls are enabled;
- the cell formatting of the applications table and its loading/error/table choice, in the feature table and in the older table;
- the delete confirmation dialog's label and controls;
- the page controller of the applications feature. It tracks which dialog is open and which application is edited or marked for deletion. It routes submissions to create or update, confirmations to delete, and reacts to the mutations settling;
- the react-query keys and what the mutation hooks do once their request is answered: requests, invalidations, callbacks, and their order;
- the start-up language choice of both i18n set-ups.

Modules, one per source unit:

| module | models |
|---|---|
| `Wrappers` | `Option` for `null`/`undefined` (and `??`) |
| `Text` | `trim`, `slice(0, n)`, `toLowerCase`, `startsWith` on `seq<char>` |
| `JobTypes` | `src/types/jobApplication.ts` |
| `FeatureJobTypes` | `src/features/ApplicationTable/types/jobApplication.ts` |
| `StatusTranslation` | `getStatusTranslationKey` and `statusValues` |
| `ApplicationForm` | both `JobApplicationDialog.tsx` files; the form logic is line for line the same in the two, so it is modelled once, and only the texts differ |
| `TableCells`, `ApplicationsTable`, `LegacyApplicationsTable` | both `JobApplicationsTable.tsx` files |
| `TableFeature` | `ApplicationTableFeature.tsx` |
| `ConfirmDeleteDialog` | `ConfirmDeleteDialog.tsx` |
| `JobsQueryKeys`, `JobsQueries` | `src/providers/jobsQueryKeys.ts`, `src/providers/jobsQueries.ts` |
| `AppI18n`, `LegacyI18n` | `src/common/i18n/i18n.ts`, `src/i18n/i18n.ts` |

Modelling choices:

- **Strings** are `seq<char>`. `trim` removes the ECMAScript WhiteSpace and LineTerminator characters. JavaScript falsiness of a `string | null | undefined` is "`None` or empty".
- **Translation.** The lookup `t` is a parameter `string -> string`.
- **The page controller** is a pure transition function `TableFeature.Step` over a `State`, plus a class whose handlers are proved to perform exactly that transition.
  - `Enabled` states which events the user interface lets through. The dialogs are modal, and buttons are disabled while saving.
  - `Inv` is an invariant of every reachable state.
- **The mutation hooks** are a class that appends their effects to a log: the HTTP request, each `invalidateQueries` key, and the success callback. The server's answer is a parameter.

## Model

| member | source | states |
|---|---|---|
| Text.Trim | src/features/ApplicationTable/components/JobApplicationDialog.tsx:136 | `trim`'s result has no whitespace at either end, is empty exactly when the input is blank, and is no longer than the input |
| Text.TrimIsInnerSlice | src/features/ApplicationTable/components/JobApplicationsTable.tsx:69 | `trim` keeps one contiguous slice of its input and removes only blank text before and after it |
| Text.TrimUnique | src/features/ApplicationTable/components/JobApplicationsTable.tsx:69 | any slice with blank surroundings and no whitespace at its ends is what `trim` returns |
| Text.TrimOfTrimmed | src/features/ApplicationTable/components/JobApplicationsTable.tsx:69 | `trim` leaves an already trimmed string unchanged |
| Text.TrimIdempotent | src/features/ApplicationTable/components/JobApplicationsTable.tsx:69-70 | trimming twice is the same as trimming once |
| Text.Take | src/features/ApplicationTable/components/JobApplicationsTable.tsx:61 | `slice(0, n)` returns the prefix of length min(n, length) |
| Text.ToLowerCase | src/common/i18n/i18n.ts:13 | lower-casing keeps the length and maps each character on its own |
| Text.ToLowerChar | src/common/i18n/i18n.ts:13 | A–Z map to the lower-case letter 32 code points above; every other character is unchanged |
| JobTypes.ReverseMapping | src/types/jobApplication.ts:1-8 | the numeric enum's reverse mapping is defined exactly on 0..5 and gives each member's name |
| JobTypes.StatusLabel | src/types/jobApplication.ts:19-20 | 0..5 give the enum member names "Planned" … "Accepted"; every other number gives "Unknown" |
| JobTypes.MemberNamesDistinct | src/types/jobApplication.ts:1-8 | the six member names are pairwise distinct and none is "Unknown" |
| JobTypes.StatusLabelInjective | src/types/jobApplication.ts:1-20 | a label other than "Unknown" identifies its status |
| JobTypes.StatusOptionsMatchLabels | src/types/jobApplication.ts:10-20 | the options list 0..5 in ascending order, each captioned with its label |
| FeatureJobTypes.ApplicationStatusValues | src/features/ApplicationTable/types/jobApplication.ts:1-8 | the constant object maps the six names to 0..5, and its values are exactly 0..5 |
| FeatureJobTypes.StatusLabel | src/features/ApplicationTable/types/jobApplication.ts:22-39 | the switch answers "Unknown" exactly for numbers outside the map; any other answer is the member name mapped to that number |
| FeatureJobTypes.StatusLabelMatchesEnum | src/features/ApplicationTable/types/jobApplication.ts:22-39 | the switch and the enum's reverse mapping give the same label for every number |
| FeatureJobTypes.StatusOptionsMatchLabels | src/features/ApplicationTable/types/jobApplication.ts:13-20 | the options are the values 0..5 in order, each with the label the switch gives it |
| StatusTranslation.StatusTranslationKey | src/features/ApplicationTable/components/JobApplicationDialog.tsx:74-91 | every key starts with "status."; the key is "status.unknown" exactly for numbers outside 0..5 |
| StatusTranslation.KeyIsLowerCasedLabel | src/features/ApplicationTable/components/JobApplicationsTable.tsx:31-48 | each key is "status." followed by the lower-cased enum label, "unknown" included |
| StatusTranslation.KeysDistinct | src/features/ApplicationTable/components/JobApplicationDialog.tsx:74-91 | two statuses with the same known key are equal |
| StatusTranslation.StatusMenuMatchesOptions | src/features/ApplicationTable/components/JobApplicationDialog.tsx:65-72 | the feature dialog's select offers the older options' values in the same order, each with a distinct known key |
| ApplicationForm.ToDateInputValue | src/features/ApplicationTable/components/JobApplicationDialog.tsx:93-96 | null, undefined and "" give ""; any other value gives its first min(10, length) characters, which are non-empty |
| ApplicationForm.LoadForEdit | src/features/ApplicationTable/components/JobApplicationDialog.tsx:112-128 | an edited record loads with company, role, status and remote copied, null texts as "", and each date as "" when null or empty and otherwise its first min(10, length) characters |
| ApplicationForm.IsValid | src/features/ApplicationTable/components/JobApplicationDialog.tsx:135-138 | the form is valid exactly when neither company nor role is blank |
| ApplicationForm.SubmittedRequest | src/features/ApplicationTable/components/JobApplicationDialog.tsx:140-160 | an invalid form sends nothing. A valid one sends trimmed non-empty company and role, status and remote unchanged, optional texts trimmed or null when blank, and dates untouched or null when empty |
| ApplicationForm.ValidityIgnoresOtherFields | src/components/JobApplicationDialog.tsx:108-111 | forms that agree on trimmed company and role are valid or invalid together |
| ApplicationForm.InitialFormIsInvalid | src/components/JobApplicationDialog.tsx:50-65 | a freshly reset form cannot be submitted |
| ApplicationForm.Stored | src/types/jobApplication.ts:22-55 | a server that stores a request as sent returns a record with the request's company and role under the given id |
| ApplicationForm.TextSurvivesReload | src/components/JobApplicationDialog.tsx:122-131 | sending a text, loading the stored value back and sending it again sends the same value |
| ApplicationForm.DateSurvivesReload | src/components/JobApplicationDialog.tsx:67-70 | a date of at most 10 characters survives being sent, loaded back and sent again |
| ApplicationForm.ResaveIsStable | src/components/JobApplicationDialog.tsx:82-133 | opening a stored record for editing and saving it unchanged sends the very request that stored it |
| ApplicationForm.LongDateIsCutOnReload | src/components/JobApplicationDialog.tsx:67-70 | a stored date longer than 10 characters (a year past 9999) comes back from an edit as its first 10 characters, so re-saving sends a different request |
| ApplicationForm.LateYearIsCutOnReload | src/components/JobApplicationDialog.tsx:67-70 | re-saving a record whose date applied is "12345-06-07" sends "12345-06-0" |
| ApplicationForm.DialogControls | src/features/ApplicationTable/components/JobApplicationDialog.tsx:169-358 | backdrop/Escape close only while not saving; Cancel disabled exactly while saving; submit disabled exactly when company or role is blank or while saving |
| ApplicationForm.FeatureTexts | src/features/ApplicationTable/components/JobApplicationDialog.tsx:162-164 | the title follows the mode; the submit button reads the saving text while saving, otherwise save or create by mode |
| ApplicationForm.LegacyTexts | src/components/JobApplicationDialog.tsx:135-136 | the older dialog's English title and submit-button text for each mode and saving state |
| ApplicationForm.LegacyTextsAreEnglishTranslation | src/components/JobApplicationDialog.tsx:322-331 | under a translation giving the older words, both dialogs show the same texts in every state |
| ApplicationForm.EditKeepsValidity | src/features/ApplicationTable/components/JobApplicationDialog.tsx:231-343 | typing into any input other than company or role never changes whether the form can be submitted |
| ApplicationForm.JobApplicationDialog.constructor | src/features/ApplicationTable/components/JobApplicationDialog.tsx:106 | the form starts as `initialFormState` |
| ApplicationForm.JobApplicationDialog.Sync | src/features/ApplicationTable/components/JobApplicationDialog.tsx:109-133 | a closed dialog keeps its form; an open one in edit mode with a record loads it; any other open resets the form |
| ApplicationForm.JobApplicationDialog.EditText | src/components/JobApplicationDialog.tsx:165-175 | a text or date input's change replaces that one field |
| ApplicationForm.JobApplicationDialog.EditStatus | src/features/ApplicationTable/components/JobApplicationDialog.tsx:213-216 | the status select's change replaces only the status |
| ApplicationForm.JobApplicationDialog.EditRemote | src/features/ApplicationTable/components/JobApplicationDialog.tsx:254-257 | the remote checkbox's change replaces only the remote flag |
| ApplicationForm.JobApplicationDialog.Submit | src/components/JobApplicationDialog.tsx:113-133 | `onSubmit` is called exactly when company and role are both non-blank, with the request built from the current form |
| TableCells.FormatDateValue | src/features/ApplicationTable/components/JobApplicationsTable.tsx:58-64 | a missing or empty date shows the placeholder; any other date shows its first min(10, length) characters, which are non-empty |
| TableCells.FormatTextValue | src/components/JobApplicationsTable.tsx:33-37 | a missing or blank text shows the placeholder; any other text shows trimmed and non-empty |
| TableCells.DateCellMatchesDateInput | src/components/JobApplicationsTable.tsx:28-31 | the table shows a date as the edit dialog loads it, with the placeholder where the input is empty |
| TableCells.TextCellMatchesSubmission | src/features/ApplicationTable/components/JobApplicationsTable.tsx:66-73 | a stored text shows as the value the dialog would send for it, or the placeholder where it would send null |
| TableCells.FormatTextIdempotent | src/features/ApplicationTable/components/JobApplicationsTable.tsx:69-70 | with a trimmed placeholder, formatting a shown text again changes nothing |
| TableCells.LinkCell | src/features/ApplicationTable/components/JobApplicationsTable.tsx:136-146 | a link appears exactly for a non-blank value whose trim differs from the placeholder; it opens the untrimmed value; otherwise the placeholder shows |
| TableCells.RowCells | src/components/JobApplicationsTable.tsx:46-120 | a row is the text columns in order as plain text followed by the link column |
| TableCells.ErrorText | src/features/ApplicationTable/components/JobApplicationsTable.tsx:164 | the alert shows the error message, or the fallback when the message is empty |
| ApplicationsTable.TextColumns | src/features/ApplicationTable/components/JobApplicationsTable.tsx:75-135 | thirteen text columns: company, role and location as stored (null location as ""); remote as `t("common.yes")` exactly when remote, else `t("common.no")`; referral, contact, compensation, next action and notes through the text formatter and the three dates through the date formatter, both with the `common.empty` placeholder; status as the translation of its key |
| ApplicationsTable.Row | src/features/ApplicationTable/components/JobApplicationsTable.tsx:75-150 | one cell per column; each cell before the link column is the plain text of that column; the status cell is `t` of the status key; the link cell is the link decision |
| ApplicationsTable.View | src/features/ApplicationTable/components/JobApplicationsTable.tsx:152-169 | loading beats error, error beats table; the alert text falls back to `errors.loadApplications`; the table has one row per application |
| LegacyApplicationsTable.TextColumns | src/components/JobApplicationsTable.tsx:46-103 | thirteen text columns: company, role and location as stored; remote "Yes" exactly when remote, else "No"; optional texts and dates through the formatters with the "-" placeholder; status as its enum label |
| LegacyApplicationsTable.Row | src/components/JobApplicationsTable.tsx:46-120 | one cell per column; each cell before the link column is the plain text of that column; the status cell shows the label ("Unknown" outside 0..5); the link cell uses "-" and "Open" |
| LegacyApplicationsTable.View | src/components/JobApplicationsTable.tsx:122-137 | loading beats error, error beats table; the alert falls back to "Failed to load job applications." |
| LegacyApplicationsTable.RowIsEnglishTranslation | src/components/JobApplicationsTable.tsx:46-120 | under a translation giving the older words, both tables render a row identically |
| LegacyApplicationsTable.ViewIsEnglishTranslation | src/components/JobApplicationsTable.tsx:122-137 | under that translation both tables render identically in every loading and error state |
| TableFeature.Settled | src/features/ApplicationTable/ApplicationTableFeature.tsx:27-39 | a settled mutation is not pending, and has an error exactly when it failed, carrying the failure message |
| TableFeature.Mode | src/features/ApplicationTable/ApplicationTableFeature.tsx:97 | the dialog is in edit mode exactly while an application is being edited |
| TableFeature.SaveError | src/features/ApplicationTable/ApplicationTableFeature.tsx:55-56 | the save error is the update error while editing and the create error otherwise |
| TableFeature.SaveAlert | src/features/ApplicationTable/ApplicationTableFeature.tsx:61-65 | an alert shows exactly when there is a save error: its message, or the translated fallback when it is empty |
| TableFeature.DeleteAlert | src/features/ApplicationTable/ApplicationTableFeature.tsx:66-70 | an alert shows exactly when there is a delete error: its message, or the translated fallback when it is empty |
| TableFeature.Step | src/features/ApplicationTable/ApplicationTableFeature.tsx:41-53 | an event keeps every earlier call and makes at most one more; it makes one exactly on a submit or a confirm with an application marked |
| TableFeature.SubmitRoutes | src/features/ApplicationTable/ApplicationTableFeature.tsx:41-48 | submitting while editing updates the edited application by its id; otherwise it creates; never both, and the dialogs stay as they are |
| TableFeature.ConfirmDeletesMarked | src/features/ApplicationTable/ApplicationTableFeature.tsx:50-53 | confirming with nothing marked changes nothing; otherwise it deletes exactly the marked application |
| TableFeature.SuccessResets | src/features/ApplicationTable/ApplicationTableFeature.tsx:27-39 | create or update success closes the form dialog and forgets the edited application; delete success only unmarks |
| TableFeature.ClicksOpenAndCloseDialogs | src/features/ApplicationTable/ApplicationTableFeature.tsx:74-108 | "New" opens the form in create mode; "Edit" opens it in edit mode on the clicked application; delete marks the clicked application; with nothing pending, closing the form closes it and forgets the edited application, and cancelling unmarks |
| TableFeature.PendingBlocksClosing | src/features/ApplicationTable/ApplicationTableFeature.tsx:90-108 | closing while a save is pending, or cancelling while a delete is pending, changes nothing |
| TableFeature.InitialInv | src/features/ApplicationTable/ApplicationTableFeature.tsx:18-24 | the page starts in a state that satisfies the invariant |
| TableFeature.StepPreservesInv | src/features/ApplicationTable/ApplicationTableFeature.tsx:27-110 | every enabled event keeps the invariant: one dialog at a time, editing only in the open form, a pending save through the hook matching the mode, a pending delete with its application marked |
| TableFeature.FailedSaveIsShown | src/features/ApplicationTable/ApplicationTableFeature.tsx:55-65 | a failed save leaves the dialog open in the same mode, and the save error is the failure |
| TableFeature.RunPreservesInv | src/features/ApplicationTable/ApplicationTableFeature.tsx:27-110 | any sequence of enabled events keeps the invariant |
| TableFeature.ReachableInv | src/features/ApplicationTable/ApplicationTableFeature.tsx:18-110 | every reachable state of the page satisfies the invariant |
| TableFeature.OneDialogAtATime | src/features/ApplicationTable/ApplicationTableFeature.tsx:88-110 | in every reachable state the form dialog and the delete dialog (open exactly while an application is marked) are never open together |
| TableFeature.RunExtendsCalls | src/features/ApplicationTable/ApplicationTableFeature.tsx:41-53 | over any event sequence, calls are only appended, at most one per event |
| TableFeature.ApplicationTableFeature.constructor | src/features/ApplicationTable/ApplicationTableFeature.tsx:18-24 | the page starts with no dialog open, nothing edited or marked, and idle hooks |
| TableFeature.ApplicationTableFeature.OnNewClick | src/features/ApplicationTable/ApplicationTableFeature.tsx:74-77 | the "new" handler performs exactly the step for that event |
| TableFeature.ApplicationTableFeature.OnEditClick | src/features/ApplicationTable/ApplicationTableFeature.tsx:78-81 | the edit handler performs exactly the step for that event |
| TableFeature.ApplicationTableFeature.OnDeleteClick | src/features/ApplicationTable/ApplicationTableFeature.tsx:82-84 | the delete-click handler performs exactly the step for that event |
| TableFeature.ApplicationTableFeature.HandleSubmit | src/features/ApplicationTable/ApplicationTableFeature.tsx:41-48 | `handleSubmit` performs exactly the submit step |
| TableFeature.ApplicationTableFeature.HandleDeleteConfirm | src/features/ApplicationTable/ApplicationTableFeature.tsx:50-53 | `handleDeleteConfirm` performs exactly the confirm step |
| TableFeature.ApplicationTableFeature.OnClose | src/features/ApplicationTable/ApplicationTableFeature.tsx:90-94 | the form dialog's `onClose` performs exactly the close step |
| TableFeature.ApplicationTableFeature.OnCancel | src/features/ApplicationTable/ApplicationTableFeature.tsx:105-108 | the delete dialog's `onCancel` performs exactly the cancel step |
| TableFeature.ApplicationTableFeature.OnCreateSettled | src/features/ApplicationTable/ApplicationTableFeature.tsx:27-30 | the create hook settling performs exactly that step |
| TableFeature.ApplicationTableFeature.OnUpdateSettled | src/features/ApplicationTable/ApplicationTableFeature.tsx:32-35 | the update hook settling performs exactly that step |
| TableFeature.ApplicationTableFeature.OnDeleteSettled | src/features/ApplicationTable/ApplicationTableFeature.tsx:37-39 | the delete hook settling performs exactly that step |
| ConfirmDeleteDialog.DeleteLabel | src/features/ApplicationTable/components/ConfirmDeleteDialog.tsx:26 | with an application the label is its company, " - ", then its role; without one it is "this application" |
| ConfirmDeleteDialog.DeleteLabelIdentifies | src/features/ApplicationTable/components/ConfirmDeleteDialog.tsx:26 | when no company contains a dash, equal labels mean equal company and role |
| ConfirmDeleteDialog.DashAfterCompany | src/features/ApplicationTable/components/ConfirmDeleteDialog.tsx:26 | the label has the separator's dash right after the company |
| ConfirmDeleteDialog.DialogControls | src/features/ApplicationTable/components/ConfirmDeleteDialog.tsx:31-53 | dismissible exactly while not deleting; Cancel disabled exactly while deleting; confirm disabled exactly while deleting or with no application; confirm reads "Deleting..." exactly while deleting, "Delete" otherwise |
| JobsQueryKeys.ById | src/providers/jobsQueryKeys.ts:3 | a single application's key has two elements: the list key's name, then the id |
| JobsQueryKeys.AllIsProperPrefixOfById | src/providers/jobsQueryKeys.ts:2-3 | the list key is a proper prefix of every single-application key |
| JobsQueryKeys.ByIdInjective | src/providers/jobsQueryKeys.ts:3 | different ids have different keys |
| JobsQueries.JobsOrEmpty | src/providers/jobsQueries.ts:26-28 | the list is empty while there is no data, and otherwise exactly the fetched array |
| JobsQueries.InvalidationsOfOne | src/providers/jobsQueries.ts:41-73 | a single effect invalidates its key exactly when it is an invalidation |
| JobsQueries.InvalidationsAppend | src/providers/jobsQueries.ts:41-73 | the invalidations of two logs in sequence are those of the first, then those of the second |
| JobsQueries.InvalidateEach | src/providers/jobsQueries.ts:57-59 | one invalidation per key, in the keys' order |
| JobsQueries.SequencedShape | src/providers/jobsQueries.ts:41-73 | a request, then invalidations, then at most one callback, is a well-sequenced log |
| JobsQueries.SuccessEffects | src/providers/jobsQueries.ts:41-73 | a successful hook's log is well sequenced, starts with the request, invalidates the given keys in order, and ends with a callback exactly when one is given |
| JobsQueries.ShapeInvalidations | src/providers/jobsQueries.ts:41-73 | such a log invalidates exactly the given keys, in order |
| JobsQueries.ShapeLast | src/providers/jobsQueries.ts:41-73 | such a log ends with the callback if there is one, else the last invalidation, else the request |
| JobsQueries.CreateSequencing | src/providers/jobsQueries.ts:33-46 | create: the POST first; on success the list key once, then the callback with the created application; nothing more on failure |
| JobsQueries.UpdateSequencing | src/providers/jobsQueries.ts:48-63 | update: the PUT first; on success the list key, then the application's own key, then the callback with the updated application |
| JobsQueries.DeleteSequencing | src/providers/jobsQueries.ts:65-75 | delete: the DELETE first; on success only the list key, then the callback with no argument |
| JobsQueries.InvalidationsRefreshList | src/providers/jobsQueries.ts:41-73 | every key any hook invalidates has the list key as prefix |
| JobsQueries.UpdateInvalidatesItsOwnKey | src/providers/jobsQueries.ts:48-59 | the id the PUT goes to is the id whose key gets invalidated |
| JobsQueries.JobMutations.constructor | src/providers/jobsQueries.ts:36 | no effects before any mutation |
| JobsQueries.JobMutations.MutateCreate | src/providers/jobsQueries.ts:38-45 | one create mutation appends exactly the create effects |
| JobsQueries.JobMutations.MutateUpdate | src/providers/jobsQueries.ts:54-62 | one update mutation appends exactly the update effects |
| JobsQueries.JobMutations.MutateDelete | src/providers/jobsQueries.ts:68-74 | one delete mutation appends exactly the delete effects |
| AppI18n.LowerCasePrefixIsGermanTag | src/common/i18n/i18n.ts:13 | a lower-cased tag starts with "de" exactly when its first two letters are d and e in any case |
| AppI18n.BrowserPrefersGermanIff | src/common/i18n/i18n.ts:13 | the browser asks for German exactly when there is a navigator and its tag starts with d, e in any case |
| AppI18n.DetectLanguage | src/common/i18n/i18n.ts:10-15 | the result is "en" or "de"; a stored "en" or "de" wins; otherwise "de" exactly when the browser tag is German |
| AppI18n.DetectionExamples | src/common/i18n/i18n.ts:10-15 | a stored "fr" is ignored, "DE-AT" gives German, a stored choice beats the browser, and no navigator gives English |
| LegacyI18n.DetectLanguage | src/i18n/i18n.ts:6-9 | the result is "en" or "de", and "de" exactly when a navigator exists whose tag is German in any case |
| LegacyI18n.AgreesWithApp | src/i18n/i18n.ts:6-17 | without a usable stored preference both set-ups pick the same language |

## Left out

- The warm-up gate is not part of this model: its retry delay uses floating point and randomness, its scheduling belongs to react-query, and its screen reloads the page.
- HTTP clients (`fetch`, JSON parsing, response streams) are not part of this model. A request's outcome is a parameter (`Outcome`, `Reply`).
- react-query internals are not modelled: request de-duplication, cancellation, refetch timing, and the cache itself. Invalidation is an entry in an effect log. The prefix relation (`JobsQueryKeys.IsPrefix`) only states which cached queries an invalidation would match.
- TableFeature.Step: what a mutation hook's state does is modelled as a premise. `mutate` makes it pending and clears its error; settling ends pending and records the failure message, if any.
- TableFeature.StepPreservesInv: `Enabled` is a premise about the user interface, namely that both dialogs are modal and disabled buttons cannot be clicked. The invariant holds only for event sequences the interface lets through.
- The page takes all three of its mutation hooks (create, update with `mutate({ id, dto })`, delete) from a feature-local `./providers/jobsQueries`, which is not part of this model. The controller records `CreateCall`, `UpdateCall(id, request)` and `DeleteCall` against an abstract interface. The sequencing lemmas of `JobsQueries` describe the shared hooks in `src/providers`, which the older components use and whose update hook takes its id when it is created.
- ApplicationForm.ResaveIsStable: holds for a server that stores a request as sent (`Stored`) and for dates of at most 10 characters, that is years up to 9999; a later year is cut on reload (`ApplicationForm.LongDateIsCutOnReload`, `ApplicationForm.LateYearIsCutOnReload`).
- Rendering (Material UI, material-react-table) is not part of this model: layout, styling, column headers, pagination, row-action buttons and aria attributes. Only the texts and enabled flags the components compute are modelled.
- Field labels are not modelled: the form's labels, and the delete dialog's fixed title and question around the label.
- Text.ToLowerChar: maps only A–Z, not JavaScript's full Unicode lower-casing. The only use is the "de" prefix test, which depends on ASCII letters alone.
- Strings are sequences of code points, not UTF-16 code units. `slice(0, 10)` can differ from the model on text with astral characters before the tenth position.
- Status values are integers. `Number(event.target.value)` from the closed select list and non-integer numbers from the server are not modelled.
- JobTypes.JobApplication: `id`, `company` and `role` are non-null strings, as the response type declares. The dialog's `?? ""` on company and role therefore never applies.
- The German resource table is not modelled beyond its placeholder `common.empty`, which is "-" (src/common/i18n/resources/de.ts:35). This is what `LegacyApplicationsTable.RowIsEnglishTranslation` requires of `t`.
- `window.localStorage`, `navigator` and the i18next initialisation are inputs or are left out. The stored preference and the browser tag are `Option` parameters.
- JobTypes.UpdateRequest is the same type as JobTypes.CreateRequest, as in the source. Every create payload is an update payload by construction, and no lemma is needed.
