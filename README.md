# FormWave editor and analytics core in Dafny

FormWave is a Next.js form builder. Users drag field types onto a canvas and
edit each field's settings. They read view and completion analytics, browse
and export submitted responses, and sign in against an API.

This project models the decision logic of that application:

- the editor hook's field list operations: add, update, remove and move;
- the field settings panels (both copies): option editing, single-key update
  requests, the debounced appearance merge and the type gates;
- the advanced settings handlers: sub-record key updates and `parseInt`
  length rules;
- the two canvas components: move up/down, settings toggle, removal, and
  title and description edits;
- the builder page's drag-and-drop field construction;
- the analytics library: view and completion tracking with the thirty-day
  window, completion rate and most active hour;
- the analytics page (totals, performance rows, rate buckets, top five, the
  daily series) and the per-form response chart;
- the responses page: collection across forms, newest-first order, the
  search/form/date filters, deletion and the CSV text;
- the API client's token gate, response handling, error-message classifier
  and logout;
- the route middleware, and the register and login submit handlers.

Modules follow the source files:

| module | models |
|---|---|
| `FormTypes` | the field and patch records of `src/types/form.ts` |
| `FormBuilderHook` | `src/hooks/useFormBuilder.tsx` |
| `FieldSettingsPanel` | `src/components/form-builder/fields/FieldSettings.tsx` |
| `BasicSettings` | `src/components/form-builder/fields/BasicSettings.tsx` |
| `BuilderFieldSettings` | `src/components/builder/FieldSettings.tsx` |
| `AdvancedFieldSettings` | `src/components/builder/AdvancedFieldSettings.tsx` |
| `BuilderCanvas` | `src/components/builder/FormCanvas.tsx` |
| `FormBuilderCanvas` | `src/components/form-builder/canvas/FormCanvas.tsx` |
| `BuilderPage` | `src/app/forms/builder/page.tsx` |
| `Analytics` | `src/lib/analytics.ts` |
| `AnalyticsPage` | `src/app/analytics/page.tsx` |
| `ResponseChart` | `src/components/analytics/ResponseChart.tsx` |
| `ResponsesPage` | `src/app/responses/page.tsx` |
| `Api` | `src/lib/api.ts` |
| `Middleware` | `src/middleware.ts` |
| `AuthPages` | `src/app/register/page.tsx`, `src/app/login/page.tsx` |

`Text`, `Seqs` and `Wrappers` hold the parts of the JavaScript runtime the
code relies on:

- `Text`: ASCII case conversion, `includes`, `startsWith`, `indexOf`,
  `replace` with a string pattern, integer formatting and `parseInt`;
- `Seqs`: `Array.prototype.filter` and a sort by a descending integer key;
- `Wrappers`: `Option` and `Result`.

## How the model is built

- **Component state.** State that a component keeps and updates becomes a
  class whose methods carry `modifies` clauses. This covers the hook's
  `formData`/`activeFieldId`, `localAppearance` with its pending debounced
  update, `activeFieldId` on the canvas, the analytics records, the
  responses page lists, the token cookie, and the login and register form
  state.
- **Pure computations** become functions: the option edits, the type gates,
  the labels, the error classifiers and the route decision.
- **Loops.** Loops that fill counters become methods with loop invariants:
  the hour counts, the rate buckets, the daily series and the chart grouping.
  The hook's `splice` move is also an in-place array method, `SpliceMove`.
- **Injected inputs.** The current time, generated ids, the server's answer,
  the user's confirmation and date formatting are parameters.
- **Time.** Timestamps are integer milliseconds. A local hour or day is taken
  with a fixed time-zone offset `tz`.
- **Store calls as requests.** The form store (`src/lib/formStore.ts`) is
  only a placeholder in this repository. The model therefore never applies
  the calls the editors make to it (`updateField`, `reorderFields`, `addField`
  from the builder page, `updateForm`). Each handler returns them as request
  values: a `FieldPatch` or `FormPatch` with one `Option` per key, a
  `Reorder`, or an `AddRequest`. `KeyCount(p) == 1` says a request touches
  exactly one key.
- **Identical handlers.** The label, description, placeholder and required
  handlers of `src/components/builder/FieldSettings.tsx:105-120` are the same
  one-key patches as in `src/components/form-builder/fields/FieldSettings.tsx:30-44`.
  Both copies therefore use `FieldSettingsPanel.LabelChange` and its three
  siblings.

Two places where the code's behaviour deserves attention are stated as
lemmas:

- **Default labels differ.** The builder page's label table and the editor
  hook's disagree for some types. A website field is "Website URL" on the page
  but "Website Question" in the hook (`BuilderPage.LabelsDifferFromHook`).
- **CSV title not escaped.** The CSV export quotes the form title but does not
  double the quotes inside it. A title containing `"` therefore does not read
  back as one field, whereas the escaped response data does
  (`ResponsesPage.TitleQuoteNotEscaped`, beside the round trip
  `ResponsesPage.EscapeRoundTrip`).

## Model

| member | source | states |
|---|---|---|
| FormBuilderHook.MappedType | src/hooks/useFormBuilder.tsx:6-25 | an alias in the table maps to its canonical type; any other name passes through unchanged |
| FormBuilderHook.DefaultLabel | src/hooks/useFormBuilder.tsx:57-72 | the default label is never empty, and a mapped type without a table entry gets the raw name capitalised followed by " Question" |
| FormBuilderHook.DefaultPlaceholder | src/hooks/useFormBuilder.tsx:86-96 | the placeholder is non-empty exactly for short-answer, long-answer, email, phone, number and website |
| FormBuilderHook.DefaultOptions | src/hooks/useFormBuilder.tsx:74-83 | options exist exactly for checkbox, dropdown and multiple-choice, and are three options valued "Option 1", "Option 2", "Option 3" in order |
| FormBuilderHook.NewField | src/hooks/useFormBuilder.tsx:98-106 | the new field has id "field-" + generated id, the mapped type, the default label, placeholder and options, required false and an empty description |
| FormBuilderHook.UpdatedFields | src/hooks/useFormBuilder.tsx:116-123 | same length; the field with the id is shallow-overwritten by the patch and every other field is identical |
| FormBuilderHook.UpdateUnknownIdIsIdentity | src/hooks/useFormBuilder.tsx:116-123 | updating an id that no field has leaves the list identical |
| FormBuilderHook.RemovedFields | src/hooks/useFormBuilder.tsx:125-134 | the result holds each field without the id exactly as often as the list did, no field with the id, and is a subsequence of the list |
| FormBuilderHook.RemovedFieldsSpec | src/hooks/useFormBuilder.tsx:125-134 | no field with the id remains, every other field remains as often as it occurred, relative order is kept, and removing twice equals removing once |
| FormBuilderHook.SpliceStart | src/hooks/useFormBuilder.tsx:136-147 | the splice insertion point is within the list and equals the hover index whenever that index is in range |
| FormBuilderHook.Moved | src/hooks/useFormBuilder.tsx:136-147 | the moved list has the same length and the same elements, with the dragged element at the hover index |
| FormBuilderHook.MovedAt | src/hooks/useFormBuilder.tsx:136-147 | element k of the moved list, described by position relative to the source and target indices |
| FormBuilderHook.MovedIsReorder | src/hooks/useFormBuilder.tsx:136-147 | the dragged field lands at the hover index, the others keep their relative order, and the result is a permutation |
| FormBuilderHook.MoveBackRestores | src/hooks/useFormBuilder.tsx:136-147 | moving back from the target to the source index restores the original list |
| FormBuilderHook.SpliceMove | src/hooks/useFormBuilder.tsx:139-143 | the in-place remove-then-insert on an array leaves exactly the moved list |
| FormBuilderHook.FormBuilder.constructor | src/hooks/useFormBuilder.tsx:44-50 | starts with an empty form and no active field |
| FormBuilderHook.FormBuilder.AddField | src/hooks/useFormBuilder.tsx:108-113 | appends exactly the new field at the end, keeps title, description and existing fields, and makes the new field active |
| FormBuilderHook.FormBuilder.UpdateField | src/hooks/useFormBuilder.tsx:116-123 | the fields become the updated list and nothing else changes |
| FormBuilderHook.FormBuilder.RemoveField | src/hooks/useFormBuilder.tsx:125-134 | the fields become the filtered list; the active id is cleared only when it was the removed id |
| FormBuilderHook.FormBuilder.MoveField | src/hooks/useFormBuilder.tsx:136-147 | the fields become the moved list with the hover index clamped like a splice start |
| FieldSettingsPanel.LabelChange | src/components/form-builder/fields/FieldSettings.tsx:30-32 | a one-key request setting the label |
| FieldSettingsPanel.DescriptionChange | src/components/form-builder/fields/FieldSettings.tsx:34-36 | a one-key request setting the description |
| FieldSettingsPanel.PlaceholderChange | src/components/form-builder/fields/FieldSettings.tsx:38-40 | a one-key request setting the placeholder |
| FieldSettingsPanel.RequiredChange | src/components/form-builder/fields/FieldSettings.tsx:42-44 | a one-key request setting required to the checkbox state |
| FieldSettingsPanel.OptionsUpdate | src/components/form-builder/fields/FieldSettings.tsx:47-76 | a one-key request replacing the options |
| FieldSettingsPanel.AppearanceUpdate | src/components/form-builder/fields/FieldSettings.tsx:93-97 | a one-key request replacing the appearance record |
| FieldSettingsPanel.AddOption | src/components/form-builder/fields/FieldSettings.tsx:47-57 | keeps every existing option and appends one with id "option-" + time and value "Option n+1" |
| FieldSettingsPanel.ChangeOption | src/components/form-builder/fields/FieldSettings.tsx:68-76 | same length and ids; options with the id take the new value, all others are unchanged |
| FieldSettingsPanel.RemoveOption | src/components/form-builder/fields/FieldSettings.tsx:59-66 | the result holds each option without the id exactly as often as the list did, no option with the id, and is a subsequence of the list |
| FieldSettingsPanel.RemoveOptionSpec | src/components/form-builder/fields/FieldSettings.tsx:59-66 | no option with the id remains, every other option remains as often as it occurred and in order, and removing is idempotent |
| FieldSettingsPanel.RemoveAddedOption | src/components/form-builder/fields/FieldSettings.tsx:47-66 | removing the option just added (with a fresh id) gives back the original options |
| FieldSettingsPanel.RemoveAppended | src/components/form-builder/fields/FieldSettings.tsx:59-66 | removing an id held only by the last option drops exactly that option |
| FieldSettingsPanel.ChangeOptionLastWins | src/components/form-builder/fields/FieldSettings.tsx:68-76 | two edits of the same option leave the second value |
| FieldSettingsPanel.HandleAddOption | src/components/form-builder/fields/FieldSettings.tsx:47-57 | no request when the field has no options; otherwise one request holding only the extended options |
| FieldSettingsPanel.HandleRemoveOption | src/components/form-builder/fields/FieldSettings.tsx:59-66 | no request without options; otherwise one request holding only the filtered options |
| FieldSettingsPanel.HandleOptionChange | src/components/form-builder/fields/FieldSettings.tsx:68-76 | no request without options; otherwise one request holding only the edited options |
| FieldSettingsPanel.AppearanceOrEmpty | src/components/form-builder/fields/FieldSettings.tsx:18-22 | the field's appearance, or the empty record when it has none |
| FieldSettingsPanel.AppearanceDraft.constructor | src/components/form-builder/fields/FieldSettings.tsx:18 | the local draft starts from the field's appearance with nothing pending |
| FieldSettingsPanel.AppearanceDraft.Sync | src/components/form-builder/fields/FieldSettings.tsx:20-22 | the draft is reset to the field's appearance |
| FieldSettingsPanel.AppearanceDraft.HandleAppearanceChange | src/components/form-builder/fields/FieldSettings.tsx:79-98 | the draft gains or overwrites one key and keeps the others, and the pending update is the whole new draft |
| FieldSettingsPanel.AppearanceDraft.TimerFires | src/components/form-builder/fields/FieldSettings.tsx:93-97 | the timer sends the pending update once and clears it |
| FieldSettingsPanel.TwoEditsOneUpdate | src/components/form-builder/fields/FieldSettings.tsx:79-98 | two edits before the timer fires produce a single update that holds both keys |
| BasicSettings.Render | src/components/form-builder/fields/BasicSettings.tsx:27-139 | label input shows the label; placeholder input iff the type supports one, showing the placeholder or "" when absent; option editor iff a choice type, one row per option, removable iff more than one; required checked iff required is true; description shown as "" when absent |
| BasicSettings.SupportsOptions | src/components/form-builder/fields/BasicSettings.tsx:26-29 | the option editor is offered exactly for the types the editor hook gives default options |
| BasicSettings.SupportsPlaceholder | src/components/form-builder/fields/BasicSettings.tsx:31-37 | the placeholder input is offered exactly for the types the editor hook gives a non-empty default placeholder |
| BasicSettings.GatesDisjoint | src/components/form-builder/fields/BasicSettings.tsx:27-37 | no type shows both the option editor and the placeholder input |
| BasicSettings.HookDefaultsFitSettings | src/components/form-builder/fields/BasicSettings.tsx:27-37 | a field created by the editor hook has options exactly when its settings panel shows the option editor |
| BuilderFieldSettings.HandleAddOption | src/components/builder/FieldSettings.tsx:153-164 | no request without options, else one request holding the unchanged options followed by the option with id "option-" + the clock reading and value "Option n+1" |
| BuilderFieldSettings.HandleRemoveOption | src/components/builder/FieldSettings.tsx:166-172 | no request without options, else one request with the id filtered out and every other option kept as often as it occurred, in order |
| BuilderFieldSettings.HandleOptionChange | src/components/builder/FieldSettings.tsx:174-182 | no request without options, else one request with only the matching option's value changed |
| BuilderFieldSettings.HandleAppearanceChange | src/components/builder/FieldSettings.tsx:122-141 | merges one key into the local appearance and makes the whole draft the pending update |
| BuilderFieldSettings.CanRemoveOption | src/components/builder/FieldSettings.tsx:237 | the remove button is enabled iff the field has more than one option |
| BuilderFieldSettings.GatesAgreeWithBasicSettings | src/components/builder/FieldSettings.tsx:212-297 | this copy shows options and placeholder for exactly the same types as the basic settings panel |
| AdvancedFieldSettings.AppearanceChange | src/components/builder/AdvancedFieldSettings.tsx:12-16 | a one-key request whose appearance is the old record with one key set and the others kept |
| AdvancedFieldSettings.ValidationChange | src/components/builder/AdvancedFieldSettings.tsx:18-22 | a one-key request whose validation is the old record with one key set and the others kept |
| AdvancedFieldSettings.LengthInput | src/components/builder/AdvancedFieldSettings.tsx:408 | the stored value is the parsed integer iff parseInt gives a non-zero number, else the empty string |
| AdvancedFieldSettings.LengthInputRoundTrip | src/components/builder/AdvancedFieldSettings.tsx:408 | a non-zero length typed as its decimal text is stored as that number |
| AdvancedFieldSettings.LengthInputZeroClears | src/components/builder/AdvancedFieldSettings.tsx:408 | any run of zeros, bare, signed or after white space, clears the rule |
| AdvancedFieldSettings.Handle | src/components/builder/AdvancedFieldSettings.tsx:389-585 | every input of the appearance and validation tabs yields a one-key request carrying that input's key and value |
| AdvancedFieldSettings.HandleKeepsOtherKeys | src/components/builder/AdvancedFieldSettings.tsx:12-22 | a minLength, maxLength, pattern or customErrorMessage input keeps every other validation key's value, and a styling input keeps every other appearance key's value |
| AdvancedFieldSettings.RuleSetsDisjoint | src/components/builder/AdvancedFieldSettings.tsx:397-429 | no type is offered both the length rules and the number rules |
| BuilderCanvas.FindIndex | src/components/builder/FormCanvas.tsx:72 | the first index holding the id, or none when no field has it |
| BuilderCanvas.FindsFirst | src/components/builder/FormCanvas.tsx:72 | the first index holding the id is the one found |
| BuilderCanvas.TargetIndex | src/components/builder/FormCanvas.tsx:75-77 | up goes one index lower and down one higher, clamped to the list |
| BuilderCanvas.MoveRequest | src/components/builder/FormCanvas.tsx:71-81 | no request for an unknown id or a move past either end; otherwise a reorder from the field's index to the adjacent one |
| BuilderCanvas.MoveUpThenDown | src/components/builder/FormCanvas.tsx:71-81 | after a move up, moving the same field down requests the opposite reorder and restores the list |
| BuilderCanvas.Toggled | src/components/builder/FormCanvas.tsx:98-100 | the clicked field becomes active unless it already was, in which case none is |
| BuilderCanvas.ToggleTwice | src/components/builder/FormCanvas.tsx:98-100 | when no field or that same field was active, clicking the field twice restores the previous state |
| BuilderCanvas.TitleChange | src/components/builder/FormCanvas.tsx:63-65 | a form request setting only the title |
| BuilderCanvas.DescriptionChange | src/components/builder/FormCanvas.tsx:67-69 | a form request setting only the description |
| BuilderCanvas.CanvasState.constructor | src/components/builder/FormCanvas.tsx:59 | no field's settings are open at first |
| BuilderCanvas.CanvasState.ToggleFieldSettings | src/components/builder/FormCanvas.tsx:98-100 | the active id becomes the toggled value |
| BuilderCanvas.CanvasState.HandleRemoveField | src/components/builder/FormCanvas.tsx:106-112 | requests removal of the id and clears the active id only when it was that field |
| FormBuilderCanvas.MoveRequest | src/components/form-builder/canvas/FormCanvas.tsx:35-45 | none at the ends or for unknown ids, else a reorder from the field's index one step toward the start for up and toward the end for down |
| FormBuilderCanvas.TitleChange | src/components/form-builder/canvas/FormCanvas.tsx:27-29 | a form request setting only the title |
| FormBuilderCanvas.DescriptionChange | src/components/form-builder/canvas/FormCanvas.tsx:31-33 | a form request setting only the description |
| FormBuilderCanvas.ToggleFieldSettings | src/components/form-builder/canvas/FormCanvas.tsx:61-63 | the clicked field becomes active iff it was not |
| FormBuilderCanvas.HandleRemoveField | src/components/form-builder/canvas/FormCanvas.tsx:69-75 | requests removal and clears the active id only when it was that field |
| BuilderPage.GetDefaultLabel | src/app/forms/builder/page.tsx:143-159 | a type outside the table gets its name capitalised followed by " Question" |
| BuilderPage.DefaultOptions | src/app/forms/builder/page.tsx:129-135 | three options valued "Option 1".."Option 3", each id from its own clock reading, with pairwise distinct ids |
| BuilderPage.HandleDragEnd | src/app/forms/builder/page.tsx:109-140 | nothing without a destination; a field is added at the top iff a palette item is dropped on the canvas, with the stripped type, its label, required false, empty description, and options iff a choice type, their ids taken from three clock readings |
| BuilderPage.StripTypePrefix | src/app/forms/builder/page.tsx:121 | removing the "field-type-" prefix from a palette id gives back the type |
| BuilderPage.ChoiceTypesMatchSettings | src/app/forms/builder/page.tsx:129 | the page gives options to exactly the types the settings panel and the hook treat as choice types |
| BuilderPage.LabelsAgreeWithHook | src/app/forms/builder/page.tsx:143-159 | for the ten types both tables list, the page and the hook choose the same label |
| BuilderPage.LabelsDifferFromHook | src/app/forms/builder/page.tsx:143-159 | the two tables disagree for website and section fields |
| Analytics.NewRecord | src/lib/analytics.ts:58-67 | a fresh record has zero counters and empty histories |
| Analytics.KeepRecent | src/lib/analytics.ts:74-75 | every kept timestamp lies in the last thirty days, and each timestamp of the window is kept as often as it occurred |
| Analytics.KeepRecentIsSubsequence | src/lib/analytics.ts:74-75 | pruning keeps the order of the history |
| Analytics.AfterView | src/lib/analytics.ts:69-75 | views grow by one, lastViewed is now; the new view history is the old one plus now, pruned: every earlier timestamp of the window survives as often as it occurred, in order, and nothing older stays; completions are untouched |
| Analytics.AfterCompletion | src/lib/analytics.ts:98-103 | completions grow by one; the new completion history is the old one plus now, pruned: every earlier timestamp of the window survives as often as it occurred, in order, and nothing older stays; views are untouched |
| Analytics.TrackingKeepsCountersCovering | src/lib/analytics.ts:54-106 | the counters never fall below the history lengths |
| Analytics.ViewsOutliveHistory | src/lib/analytics.ts:69-75 | two views more than thirty days apart count twice but only the later one stays in the history |
| Analytics.CompletionRate | src/lib/analytics.ts:111-118 | zero for an unknown form or one without views, otherwise completions over views times 100; never negative |
| Analytics.HourOf | src/lib/analytics.ts:134 | the local hour is below 24 |
| Analytics.MostActiveUnique | src/lib/analytics.ts:139-141 | the most active hour, with ties to the later hour, is unique |
| Analytics.CountedHourOccurs | src/lib/analytics.ts:132-136 | an hour with a positive count holds some view |
| Analytics.LastViewHourCounted | src/lib/analytics.ts:132-136 | the hour of the last view has a positive count |
| Analytics.IsMostActive | src/lib/analytics.ts:132-141 | the hour the reduce selects is the local hour of some view |
| Analytics.MostActiveHour | src/lib/analytics.ts:132-141 | the counting loop and the reduce return the hour with the most views, ties going to the later hour |
| Analytics.HourLabel | src/lib/analytics.ts:143 | parseInt of the label gives back the hour it names |
| Analytics.AnalyticsStore.constructor | src/lib/analytics.ts:16-36 | the store starts from the given records |
| Analytics.AnalyticsStore.TrackFormView | src/lib/analytics.ts:54-78 | only the form's record changes, created if missing and then updated by a view, so its earlier in-window timestamps are kept; the counter invariant is kept |
| Analytics.AnalyticsStore.TrackFormCompletion | src/lib/analytics.ts:83-106 | only the form's record changes, created if missing and then updated by a completion, so its earlier in-window timestamps are kept; the counter invariant is kept |
| Analytics.AnalyticsStore.GetCompletionRate | src/lib/analytics.ts:111-118 | zero without a record or views, otherwise completions over views times 100; never negative |
| Analytics.AnalyticsStore.GetMostActiveTime | src/lib/analytics.ts:123-143 | "No data" without a record or with an empty view history, otherwise the label of the most active hour |
| AnalyticsPage.TotalViews | src/app/analytics/page.tsx:72 | zero without forms, and at least the views of every form |
| AnalyticsPage.TotalCompletions | src/app/analytics/page.tsx:73 | zero without forms, and at least the completions of every form |
| AnalyticsPage.TrackedViewAddsOne | src/app/analytics/page.tsx:72-73 | a tracked view raises total views by one and leaves total completions unchanged |
| AnalyticsPage.AverageCompletionRate | src/app/analytics/page.tsx:74 | zero without views, otherwise completions over views times 100 |
| AnalyticsPage.Lookup | src/app/analytics/page.tsx:78 | the record found has the form's id; none means no record has it |
| AnalyticsPage.DisplayName | src/app/analytics/page.tsx:80 | "Untitled" for an empty title, the title up to 20 characters, else its first 20 characters and "..." |
| AnalyticsPage.Row | src/app/analytics/page.tsx:77-87 | the row has the display name and the record's counters (zero when absent); rate times views equals completions times 100 |
| AnalyticsPage.PerformanceData | src/app/analytics/page.tsx:77-87 | one row per form, in form order |
| AnalyticsPage.Bucket | src/app/analytics/page.tsx:100-105 | bucket 0 iff the rate is at least 80, bucket 3 iff below 40 |
| AnalyticsPage.BucketCount | src/app/analytics/page.tsx:100-105 | a bucket holds at most all forms, and there is no bucket beyond the fourth |
| AnalyticsPage.BucketsPartition | src/app/analytics/page.tsx:100-105 | the four bucket counts add up to the number of forms |
| AnalyticsPage.CompletionRateDistribution | src/app/analytics/page.tsx:93-106 | the counter loop yields each bucket's count, summing to the number of forms |
| AnalyticsPage.SortByViews | src/app/analytics/page.tsx:109-110 | sorted by non-increasing views and a permutation of the rows |
| AnalyticsPage.TopForms | src/app/analytics/page.tsx:109-111 | min(5, n) rows by non-increasing views, taken from the input with multiplicity, and every row left out has no more views than any row kept |
| AnalyticsPage.TopFormsAreTop | src/app/analytics/page.tsx:109-111 | a row with more views than some row of the top five is in the top five as often as it occurs among the rows |
| AnalyticsPage.DayCount | src/app/analytics/page.tsx:402-405 | one day never counts more timestamps than the history holds |
| AnalyticsPage.DayCountPositive | src/app/analytics/page.tsx:402-405 | a day counts some timestamps exactly when one of them falls on it |
| AnalyticsPage.DayViews | src/app/analytics/page.tsx:400-416 | the views of a day over all forms are at least that day's views of each form |
| AnalyticsPage.DayViewsWithinTotal | src/app/analytics/page.tsx:401-405 | when every record's counters cover its histories, views counted on one day never exceed total views |
| AnalyticsPage.GenerateDailyData | src/app/analytics/page.tsx:388-425 | one point per day for the period ending today, oldest first, each with that day's views and completions over all forms |
| ResponseChart.InsertDay | src/components/analytics/ResponseChart.tsx:43-44 | inserting a day keeps the days strictly increasing and adds exactly that day |
| ResponseChart.SortDays | src/components/analytics/ResponseChart.tsx:43-44 | the day keys in strictly increasing order, same set |
| ResponseChart.OnDayStep | src/components/analytics/ResponseChart.tsx:25-31 | one more timestamp adds one to its own day's count only |
| ResponseChart.HasDayStep | src/components/analytics/ResponseChart.tsx:25-31 | a day has data in an extended history iff it had before or is the new timestamp's day |
| ResponseChart.GroupViews | src/components/analytics/ResponseChart.tsx:22-31 | one entry per day with views, holding that day's view count and no completions |
| ResponseChart.GroupCompletions | src/components/analytics/ResponseChart.tsx:33-40 | completion days are added and each day holds its view and completion counts |
| ResponseChart.Chart | src/components/analytics/ResponseChart.tsx:43-52 | the last seven days with data, ascending, each with its formatted date and counts |
| ResponseChart.ChartData | src/components/analytics/ResponseChart.tsx:13-53 | empty without a record or views, otherwise the chart of the form's histories |
| ResponseChart.OccursOnce | src/components/analytics/ResponseChart.tsx:43-44 | a strictly increasing day list holds each day at most once |
| ResponseChart.SumSplit | src/components/analytics/ResponseChart.tsx:25-40 | adding a timestamp adds its occurrences to the summed counts |
| ResponseChart.CountsAddUp | src/components/analytics/ResponseChart.tsx:25-40 | over distinct days covering the history, the per-day counts sum to its length |
| ResponseChart.SumEmpty | src/components/analytics/ResponseChart.tsx:25-40 | an empty history counts zero on every day |
| ResponseChart.ChartCountsAddUp | src/components/analytics/ResponseChart.tsx:22-44 | before the last seven are kept, the chart's views and completions add up to the history lengths |
| ResponsesPage.TitleOrDefault | src/app/responses/page.tsx:71 | the form title, or "Untitled Form" when empty |
| ResponsesPage.Tagged | src/app/responses/page.tsx:69-72 | each fetched response, in order, with its form's title |
| ResponsesPage.Collected | src/app/responses/page.tsx:62-77 | nothing is collected without forms |
| ResponsesPage.NothingCollectedWhenAllFail | src/app/responses/page.tsx:62-77 | when every form's fetch fails, nothing is collected |
| ResponsesPage.Fetched | src/app/responses/page.tsx:67-76 | a response is among what one form contributes iff that form's fetch succeeded and returned it, tagged with the form's title or 'Untitled Form'; so a failed fetch contributes nothing |
| ResponsesPage.CollectedFrom | src/app/responses/page.tsx:62-77 | a response is collected iff some form's fetch succeeded, returned it, and it carries that form's title |
| ResponsesPage.NewestFirst | src/app/responses/page.tsx:80 | sorted by non-increasing creation time and a permutation |
| ResponsesPage.Cutoff | src/app/responses/page.tsx:115-134 | today starts at local midnight, week is seven days back, month is the injected month-ago time, any other filter is now |
| ResponsesPage.FilteredIsSubsequence | src/app/responses/page.tsx:97-136 | filtering keeps responses in their order |
| ResponsesPage.Filtered | src/app/responses/page.tsx:97-136 | never longer than the loaded list, and every response shown is a loaded one that passes every active filter |
| ResponsesPage.FilteredCounts | src/app/responses/page.tsx:97-136 | a response passing every active filter is shown as often as it was loaded; any other response is not shown |
| ResponsesPage.FilteredMembers | src/app/responses/page.tsx:97-136 | a response survives iff it matches the search, the form and the date filters |
| ResponsesPage.NoFilterKeepsAll | src/app/responses/page.tsx:97-136 | no search, all forms and all dates keep every response |
| ResponsesPage.EscapeQuotes | src/app/responses/page.tsx:158 | escaping never shortens the text |
| ResponsesPage.EscapeRoundTrip | src/app/responses/page.tsx:158 | unescaping doubled quotes gives back the response data |
| ResponsesPage.JoinLines | src/app/responses/page.tsx:152-161 | joining no lines gives the empty text |
| ResponsesPage.SplitLines | src/app/responses/page.tsx:152-161 | splitting yields at least one line |
| ResponsesPage.SplitOneLine | src/app/responses/page.tsx:152-161 | splitting after a line without line feeds separates that line |
| ResponsesPage.SplitJoin | src/app/responses/page.tsx:152-161 | splitting joined lines without line feeds gives the lines back |
| ResponsesPage.CsvRow | src/app/responses/page.tsx:156-160 | a row whose title, date and data have no line feed has none either, so it stays one CSV line |
| ResponsesPage.Csv | src/app/responses/page.tsx:152-161 | the text is the header alone without responses, and starts with the header and a line feed exactly when there are responses |
| ResponsesPage.CsvLines | src/app/responses/page.tsx:152-161 | when no row holds a line feed, the CSV splits into exactly the header line followed by each response's row, in order |
| ResponsesPage.TitleQuoteNotEscaped | src/app/responses/page.tsx:156 | a title quote is written unescaped and does not read back, unlike escaped data |
| ResponsesPage.ResponsesView.constructor | src/app/responses/page.tsx:26-31 | all lists empty and no error |
| ResponsesPage.ResponsesView.FetchResponses | src/app/responses/page.tsx:58-93 | with forms, both lists become the collected responses newest first; without forms nothing changes |
| ResponsesPage.ResponsesView.ApplyFilters | src/app/responses/page.tsx:96-137 | the shown list becomes the filtered full list |
| ResponsesPage.ResponsesView.HandleDeleteResponse | src/app/responses/page.tsx:139-149 | nothing without confirmation; on success the response is removed; on failure the error message is set |
| ResponsesPage.ResponsesView.ExportResponses | src/app/responses/page.tsx:151-161 | the CSV text of the shown responses |
| ResponsesPage.WithoutResponse | src/app/responses/page.tsx:144 | the result holds each response without the id exactly as often as the list did, none with the id, and is a subsequence of the list |
| ResponsesPage.DeleteSpec | src/app/responses/page.tsx:144 | no response with the id remains, every other response remains as often as it occurred and in order |
| Api.Mentions | src/lib/api.ts:89-112 | a lower-case phrase that occurs in the error text is found by the case-insensitive match |
| Api.MapErrorMessage | src/lib/api.ts:87-126 | the rules apply in the fixed order credentials (text or 401), account exists, weak password, invalid email, network/fetch, 500, 404, 403, each giving its own message when no earlier rule holds; with no rule the text itself, or the generic message when empty; never an empty message |
| Api.CredentialsBeforeInvalidEmail | src/lib/api.ts:89-106 | "invalid email or password" also matches the invalid-email rule but gets the credentials message |
| Api.TextRulesBeforeStatus | src/lib/api.ts:108-122 | a network error text wins over the 500, 404 and 403 rules |
| Api.TokenGate | src/lib/api.ts:29-35 | without a token only login and register proceed, me returns a null user, and everything else is rejected |
| Api.ErrorText | src/lib/api.ts:73 | the server's error text when present, else the HTTP status text |
| Api.ApiClient.constructor | src/lib/api.ts:26 | the client starts with the given cookie |
| Api.ApiClient.FetchWithAuth | src/lib/api.ts:20-82 | gate outcomes as above; non-JSON fails with the status or succeeds; non-ok JSON fails with the mapped message and a 401 drops the token |
| Api.ApiClient.Logout | src/lib/api.ts:179-193 | the token is removed whether or not the call succeeds; a rejection by the gate, a JSON failure (its mapped message) and a non-JSON failure (its HTTP status text) are passed on; success gives no error |
| Api.LogoutWithoutToken | src/lib/api.ts:179-193 | logging out without a token is rejected yet leaves no cookie |
| Middleware.Route | src/middleware.ts:5-42 | the root and static or API paths pass; protected paths without a token go to /login; login and register with a token go to /dashboard; nothing else redirects |
| Middleware.PrefixesExclude | src/middleware.ts:27-28 | two prefixes differing in the second character cannot both start a path |
| Middleware.ProtectedAndAuthDisjoint | src/middleware.ts:27-28 | no path is both protected and an auth path |
| Middleware.NoRedirectWhenAllowed | src/middleware.ts:31-41 | a signed-in user reaches protected pages and a visitor reaches login and register |
| AuthPages.ThrownMessage | src/app/register/page.tsx:50 | an Error's message, or the fallback for anything else |
| AuthPages.ValidatePasswords | src/app/register/page.tsx:27-38 | no error iff the passwords match and have 8 or more characters; a mismatch is reported before length |
| AuthPages.RegisterErrorText | src/app/register/page.tsx:50-56 | "email already registered" is rewritten; any other message is kept |
| AuthPages.RegisterForm.constructor | src/app/register/page.tsx:16-19 | empty error, not submitting, not complete |
| AuthPages.RegisterForm.HandleSubmit | src/app/register/page.tsx:21-60 | register is called iff validation passes; success records the email and completes; failure sets the rewritten message; submitting ends false |
| AuthPages.MismatchReportedFirst | src/app/register/page.tsx:27-38 | short mismatched passwords report the mismatch |
| AuthPages.ClassifyLoginError | src/app/login/page.tsx:31-41 | confirmation view iff "email not confirmed"; else the credentials message or the original text |
| AuthPages.ConfirmationBeforeCredentials | src/app/login/page.tsx:34-40 | the confirmation check wins over the credentials check |
| AuthPages.CredentialsTextAgrees | src/app/login/page.tsx:37-38 | the login page shows the same credentials text as the API client |
| AuthPages.LoginForm.constructor | src/app/login/page.tsx:15-18 | empty error, not submitting, no confirmation view |
| AuthPages.LoginForm.HandleSubmit | src/app/login/page.tsx:20-45 | error and confirmation cleared first; the classified failure sets either the confirmation email or the error; submitting ends false |

## Left out

- Network, cookies, `localStorage` and the DOM are not modelled. These cover:
  `fetch` and the `Authorization` header; reading and writing the analytics
  records and reviving their dates; the Blob download of the CSV;
  `confirm`/`alert`; router pushes. The server's answer, the cookie and the
  user's confirmation are parameters.
- The form store (`src/lib/formStore.ts`) is a placeholder. Its update,
  reorder and save semantics are not modelled; store calls are request values.
- Generated ids (`nanoid`, `Date.now()`) are parameters. Their uniqueness is
  not claimed, except where a lemma states it as a requirement.
- The 300 ms debounce timer is not modelled as time. `TimerFires` stands for
  the timer running out.
- Floating point is modelled as exact reals. This covers the completion-rate
  percentages and `toFixed` rounding, which can move a rate across a bucket
  boundary. The `parseFloat` min/max/step handlers of
  `src/components/builder/AdvancedFieldSettings.tsx:439-467` are not modelled.
- Locale, daylight saving and non-ASCII text are not modelled. Local time is
  a fixed offset. `toLocaleDateString` and `toLocaleString` are injected
  functions. Case conversion covers ASCII letters only. `password.length`
  counts characters, not UTF-16 units.
- `JSON.stringify` of response data is an opaque string, and `String(value)`
  of each data value is given as text.
- `FormBuilderHook.FieldTypeMap`: prototype keys of the JavaScript object
  (such as `constructor`) are not modelled as aliases.
- `FormBuilderHook.FormBuilder.MoveField` requires the drag index to be in
  range; the source reads `undefined` there.
- `Seqs.SortDescending` models the in-place `sort` on values. It states order
  and permutation but not stability.
- The `typeof window` guards of the analytics library are not modelled.
- `Object.values` order is the sequence order of the records.
- `ResponsesPage.ResponsesView.FetchResponses`: the outer `catch` that sets
  "Failed to load responses" (`src/app/responses/page.tsx:85-87`) is not
  modelled, because no modelled step throws outside the per-form `try`. A
  failing per-form fetch is skipped, as in the source.
- The API client's `login` and `register` calls that store a returned token
  are not modelled; only `logout` is.
- `Api.ApiClient.FetchWithAuth` treats the JSON body as having only an
  `error` field, and other payload fields are carried opaquely.
