# Renovation planner: a verified model of its client-side logic

The app helps its user plan the renovation of a flat. The work is split into
sections: electrical, plumbing, carpentry, finishing, the plan and the costs.
For each section the user keeps notes, contractors' estimates and files, and
gets a list of questions to ask the contractors. The plan section holds the
flat's details and an inspection checklist generated from them. The costs
section compares what was planned with what was spent.

This project models the logic behind those screens in Dafny. It covers:

- the client-side stores;
- the validators;
- the list bookkeeping of the components;
- the budget arithmetic.

Each source file of the core is one module:

| module | source file | form |
|---|---|---|
| `Common` | helpers shared by all modules | JavaScript's `trim`, `toLowerCase`, `includes`, `parseInt`/`parseFloat`, `Math.round`, number results of a division by zero, filtering by id |
| `Types` | `src/types/index.ts` | datatypes for the records |
| `Store` | `src/store/index.ts` | one class per store; every action is specified by a pure function of the old state |
| `PlanScreen` | `src/screens/PlanScreen.tsx` | a method that builds the checklist (specified by a function), pure item updates, a class for the screen's state |
| `PropertyForm` | `src/components/PropertyDetailsForm.tsx` | the form as a class; `validateForm` fills the error map field by field |
| `EstimateComparison` | `src/components/EstimateComparison.tsx` | loops that collect item names and insights, each proved against a function |
| `EstimateUploader` | `src/components/EstimateUploader.tsx` | the uploader and the manual entry form as classes |
| `AIChatPanel` | `src/components/AIChatPanel.tsx` | the question bank, personalisation, toggling and regenerating, the panel's state as a class |
| `ContractorNotesEditor` | `src/components/ContractorNotesEditor.tsx` | the editor and its tag input as classes |
| `NoteEditorScreen` | `src/screens/NoteEditorScreen.tsx` | the screen and its tag input as classes; saving calls the notes store |
| `InspectionChecklist` | `src/components/AIInspectionChecklist.tsx` | progress, the grouping `reduce` as a loop, one row's state as a class |
| `FileQuickAccess` | `src/components/FileQuickAccess.tsx` | pure filters, counts, size text and menus |
| `CostsScreen` | `src/screens/CostsScreen.tsx` | pure budget arithmetic |
| `DashboardScreen` | `src/screens/DashboardScreen.tsx` | pure: widget defaults, the first active suggestion, status icons |
| `UseBudget` | `src/hooks/useProject.ts` (`useBudget`) | pure budget arithmetic, related to the two screens above |

How the JavaScript values are modelled:

- **Money and file sizes** are integers.
- **`Math.round(n / d * 100)` and `toFixed(0)`** are modelled by `RoundDiv`,
  which rounds the exact quotient half up. For a positive `d` it equals
  `(2n + d) / (2d)` in integer division. JavaScript computes the quotient in
  double precision first, so at an exact half it can round the other way;
  "## Left out" lists the members this affects.
- **Division by zero.** The costs screen does not guard its division. Its
  percentage is therefore a `JsNumber`: a finite value, an infinity or `NaN`.
  Comparisons and `Math.min` treat `NaN` as JavaScript does.
- **Truthiness.** `x || d` and `!x` are written out, so an empty string and
  the number 0 count as missing.
- **Clocks, randomness and outside results** are parameters:
  - `Date.now()` ids and ISO time stamps;
  - the shuffled list, given together with the fact that it is a permutation;
  - the picker's results, the permission answer, and the contractor's name
    that the file-name regex yields.

## Model

| member | source | states |
|---|---|---|
| Store.WithReplaced | src/store/index.ts:63-68 | the section's list becomes the given list; every other section's list is unchanged |
| Store.WithPrepended | src/store/index.ts:70-75 | the section's list gains the element in front of the old list (a missing section counts as empty); every other section is unchanged |
| Store.WithRemoved | src/store/index.ts:86-93 | the section's new list is an order-preserving subsequence of the old one that keeps exactly the entries whose id differs; it shrinks by the number of entries with the id; other sections are unchanged |
| Store.WithUpdated | src/store/index.ts:77-84 | the section's list keeps its length; entries with another id are untouched; entries with the id are patched; other sections are unchanged |
| Store.UpdateNoteKeepsIds | src/store/index.ts:77-84 | a patch that does not carry an id keeps every note's id at its position |
| Store.SectionsAfterUpdate | src/store/index.ts:35-39 | same length; the sections with the id get the patch; the others are untouched |
| Store.ProjectStore.constructor | src/store/index.ts:27-31 | no project, no sections, not loading, no error |
| Store.ProjectStore.SetCurrentProject | src/store/index.ts:33 | sets the current project |
| Store.ProjectStore.SetSections | src/store/index.ts:34 | replaces the sections |
| Store.ProjectStore.UpdateSection | src/store/index.ts:35-39 | the sections become `SectionsAfterUpdate` of the old ones |
| Store.ProjectStore.SetLoading | src/store/index.ts:40 | sets the flag |
| Store.ProjectStore.SetError | src/store/index.ts:41 | sets the error |
| Store.NotesStore.constructor | src/store/index.ts:58-61 | no notes, not loading, no error |
| Store.NotesStore.SetNotes | src/store/index.ts:63-68 | replaces only the given section's notes |
| Store.NotesStore.AddNote | src/store/index.ts:70-75 | prepends the note to its section |
| Store.NotesStore.UpdateNote | src/store/index.ts:77-84 | patches the notes with the id in that section only |
| Store.NotesStore.DeleteNote | src/store/index.ts:86-93 | removes the notes with the id from that section, in order |
| Store.NotesStore.SetLoading | src/store/index.ts:95 | sets the flag |
| Store.NotesStore.SetError | src/store/index.ts:96 | sets the error |
| Store.EstimatesStore.constructor | src/store/index.ts:113-116 | no estimates, not loading, no error |
| Store.EstimatesStore.SetEstimates | src/store/index.ts:118-123 | replaces only the given section's estimates |
| Store.EstimatesStore.AddEstimate | src/store/index.ts:125-130 | prepends the estimate to its section |
| Store.EstimatesStore.UpdateEstimate | src/store/index.ts:132-139 | patches the estimates with the id in that section only; the length is kept |
| Store.EstimatesStore.DeleteEstimate | src/store/index.ts:141-148 | removes the estimates with the id from that section, in order |
| Store.EstimatesStore.SetLoading | src/store/index.ts:150 | sets the flag |
| Store.EstimatesStore.SetError | src/store/index.ts:151 | sets the error |
| Store.DecrementToZero | src/store/index.ts:182 | `Math.max(0, count - 1)`: never negative; one less for a positive count, 0 otherwise |
| Store.RemoveKeepsCountIff | src/store/index.ts:180-183 | the counter still equals the queue's length after a removal if and only if the queue was empty or held the id exactly once |
| Store.UIStore.constructor | src/store/index.ts:169-172 | online, no pending items, light theme, empty queue |
| Store.UIStore.SetOffline | src/store/index.ts:174 | sets the flag |
| Store.UIStore.SetTheme | src/store/index.ts:175 | sets the theme |
| Store.UIStore.AddToSyncQueue | src/store/index.ts:176-179 | appends the item at the end and raises the counter by exactly one; the counter stays non-negative |
| Store.UIStore.RemoveFromSyncQueue | src/store/index.ts:180-183 | drops every item with the id; the counter is decremented to no less than 0, whatever the filter removed |
| Store.UIStore.ClearSyncQueue | src/store/index.ts:184 | empty queue and a zero counter |
| Store.Dismissed | src/store/index.ts:206-210 | same length; a suggestion is dismissed afterwards if and only if it was before or has the id; no other field changes |
| Store.DismissIdempotent | src/store/index.ts:206-210 | dismissing the same id twice equals dismissing it once |
| Store.AISuggestionsStore.constructor | src/store/index.ts:199-200 | no suggestions, not loading |
| Store.AISuggestionsStore.SetSuggestions | src/store/index.ts:202 | replaces the list |
| Store.AISuggestionsStore.AddSuggestion | src/store/index.ts:203-205 | prepends the suggestion |
| Store.AISuggestionsStore.DismissSuggestion | src/store/index.ts:206-210 | the list becomes `Dismissed` of the old list |
| Store.AISuggestionsStore.SetLoading | src/store/index.ts:211 | sets the flag |
| PlanScreen.Task | src/screens/PlanScreen.tsx:23-125 | an entry built for the checklist keeps its id, category, text and priority, and is not completed, with no completion time, note or photos |
| PlanScreen.BaseChecklist | src/screens/PlanScreen.tsx:23-125 | exactly 13 base items with ids "1" to "13" in order |
| PlanScreen.BaseEntry | src/screens/PlanScreen.tsx:23-125 | the n-th base item has id n |
| PlanScreen.GenerateMockChecklist | src/screens/PlanScreen.tsx:22-160 | the array built by the conditional pushes equals `MockChecklist` of the property data |
| PlanScreen.MockChecklistNumbering | src/screens/PlanScreen.tsx:22-160 | the items are numbered 1 to 13 and then the extras, in increasing order |
| PlanScreen.ExtrasNumbered | src/screens/PlanScreen.tsx:127-158 | the extras carry ids from 14 to 16 in increasing order |
| PlanScreen.MockChecklistExtras | src/screens/PlanScreen.tsx:127-158 | item "14" is present if and only if the year is before 1990; "15" if and only if there is no elevator above the third floor; "16" if and only if the market is secondary |
| PlanScreen.MockChecklistFresh | src/screens/PlanScreen.tsx:22-160 | a generated checklist has between 13 and 16 entries, starts with the 13 base entries, and no entry is completed or has a completion time; so `completed` and `completedAt` start in step, the invariant the toggle keeps |
| PlanScreen.MockChecklistIdsDistinct | src/screens/PlanScreen.tsx:22-160 | the ids of the generated checklist are pairwise distinct |
| PlanScreen.ToggledEffect | src/screens/PlanScreen.tsx:233-245 | only the items with the id change, and only in `completed` and `completedAt`; the time is set if and only if the item is completed; ids are kept |
| PlanScreen.WithNoteEffect | src/screens/PlanScreen.tsx:247-253 | only the notes of the items with the id change; ids are kept |
| PlanScreen.ProjectIdParam | src/screens/PlanScreen.tsx:164 | the route's project id, or "default" when it is missing or empty |
| PlanScreen.RemoveAddedPhoto | src/screens/PlanScreen.tsx:260-274 | removing a photo just added with a fresh id restores the list |
| PlanScreen.PlanScreenState.constructor | src/screens/PlanScreen.tsx:164-175 | the project id from the route; no data, plan, items or photos; no flag set |
| PlanScreen.PlanScreenState.HandleGenerateChecklist | src/screens/PlanScreen.tsx:213-231 | refuses if and only if neither the argument nor the stored data is present; otherwise the items become the checklist generated from the argument, else from the stored data |
| PlanScreen.PlanScreenState.HandlePropertySave | src/screens/PlanScreen.tsx:178-194 | stores the data and generates the checklist only when the list was empty |
| PlanScreen.PlanScreenState.HandleFloorPlanSelected | src/screens/PlanScreen.tsx:196-207 | stores the plan's uri |
| PlanScreen.PlanScreenState.HandleFloorPlanRemoved | src/screens/PlanScreen.tsx:209-211 | clears the plan's uri |
| PlanScreen.PlanScreenState.HandleItemToggle | src/screens/PlanScreen.tsx:233-245 | the items become `Toggled` of the old list |
| PlanScreen.PlanScreenState.HandleItemNoteChange | src/screens/PlanScreen.tsx:247-253 | the items become `WithNote` of the old list |
| PlanScreen.PlanScreenState.HandleAddPhoto | src/screens/PlanScreen.tsx:260-270 | appends exactly one photo built from the inputs |
| PlanScreen.PlanScreenState.HandleRemovePhoto | src/screens/PlanScreen.tsx:272-274 | removes every photo with the id, keeping the order |
| PropertyForm.FieldErrorsMeaning | src/components/PropertyDetailsForm.tsx:39-61 | each field has at most one error: "required" if and only if the text does not parse; "out of range" if and only if it parses outside [15, 300], [-2, 50] or [1900, 2025] (bounds included); none otherwise |
| PropertyForm.FormErrors | src/components/PropertyDetailsForm.tsx:36-62 | only the three field keys; a key is present if and only if that field has an error, and it holds that error's text |
| PropertyForm.FormErrorsEmptyIff | src/components/PropertyDetailsForm.tsx:36-64 | the map is empty if and only if all three texts parse within their ranges |
| PropertyForm.PropertyDetailsForm.constructor | src/components/PropertyDetailsForm.tsx:25-34 | fields from the initial data or empty; market type "secondary" and both flags false by default; no errors |
| PropertyForm.PropertyDetailsForm.ValidateForm | src/components/PropertyDetailsForm.tsx:36-65 | stores `FormErrors` of the three texts and returns true if and only if the map is empty (by `FormErrorsEmptyIff`, exactly when all three texts parse to values within their inclusive ranges) |
| PropertyForm.PropertyDetailsForm.HandleSave | src/components/PropertyDetailsForm.tsx:67-78 | hands on data if and only if validation passes, and then exactly the parsed values with the current market type and flags |
| PropertyForm.ParsedDataInRange | src/components/PropertyDetailsForm.tsx:67-78 | saved data always lies within the three ranges |
| PropertyForm.InitialDataRoundTrip | src/components/PropertyDetailsForm.tsx:25-27 | valid data with a whole area, printed back into the form, passes validation and parses to the same values |
| PropertyForm.EmptyFormErrors | src/components/PropertyDetailsForm.tsx:39-61 | an empty form gets the three "required" errors |
| Common.MapSeq | src/components/EstimateComparison.tsx:80-82 | `map`: one image per element, in order (used for the estimates' ids, the checklist's ids and the reset of the questions) |
| EstimateComparison.InitialSelection | src/components/EstimateComparison.tsx:80-82 | the ids of the first min(3, n) estimates |
| EstimateComparison.ToggleKeepsSelectionValid | src/components/EstimateComparison.tsx:145-153 | toggling keeps the selection at most 3 long and free of duplicates |
| EstimateComparison.Toggle | src/components/EstimateComparison.tsx:145-153 | a selected id is removed, leaving the other ids in their order; an unselected id is appended while fewer than 3 are selected; otherwise the selection is unchanged |
| EstimateComparison.ToggleAddThenRemove | src/components/EstimateComparison.tsx:145-153 | adding an unselected id while fewer than 3 are selected, then toggling it again, restores the selection |
| EstimateComparison.Selected | src/components/EstimateComparison.tsx:86 | the estimates whose id is selected, as an order-preserving subsequence of the input |
| EstimateComparison.Totals | src/components/EstimateComparison.tsx:89 | the selected estimates' totals, in order |
| EstimateComparison.MinOf | src/components/EstimateComparison.tsx:90 | an element of the list, no greater than any other |
| EstimateComparison.MaxOf | src/components/EstimateComparison.tsx:91 | an element of the list, no smaller than any other |
| EstimateComparison.AverageBetween | src/components/EstimateComparison.tsx:90-92 | lowest ≤ average ≤ highest |
| EstimateComparison.PriceCell | src/components/EstimateComparison.tsx:51-69 | lowest if and only if the price equals the lowest; highest likewise; the "lowest" label if and only if lowest; the "+%" label never on the lowest |
| EstimateComparison.PriceCellIncrease | src/components/EstimateComparison.tsx:53-67 | with 0 ≤ lowest ≤ price, the "+%" label shows if and only if the price exceeds the lowest |
| EstimateComparison.AllItemNamesSpec | src/components/EstimateComparison.tsx:95-99 | the set of names has no duplicates and holds exactly the lower-cased item names of the selected estimates |
| EstimateComparison.CollectItemNames | src/components/EstimateComparison.tsx:95-99 | the nested loops yield `AllItemNames` |
| EstimateComparison.AddItemNames | src/components/EstimateComparison.tsx:97 | the inner loop adds one estimate's names to the set |
| EstimateComparison.MissingNames | src/components/EstimateComparison.tsx:105-106 | exactly the names of the set that the estimate lacks |
| EstimateComparison.LacksSomeNameIff | src/components/EstimateComparison.tsx:104-114 | an estimate gets a warning if and only if some selected estimate has an item name it lacks |
| EstimateComparison.MissingWarningsCount | src/components/EstimateComparison.tsx:104-115 | one missing-items warning for each lacking estimate, and nothing else |
| EstimateComparison.CollectMissingWarnings | src/components/EstimateComparison.tsx:104-115 | the loop yields `MissingWarnings` |
| EstimateComparison.PercentExceedsIff | src/components/EstimateComparison.tsx:117-118 | the JavaScript test `(num / den) * 100 > k` in integer terms, for each sign of `den` |
| EstimateComparison.SpreadInsightIff | src/components/EstimateComparison.tsx:117-118 | for a positive lowest price, the spread insight appears if and only if 5·(highest − lowest) > lowest; for a zero lowest price, if and only if the highest is positive |
| EstimateComparison.InsightsSpec | src/components/EstimateComparison.tsx:101-134 | the number of insights is the warnings plus one per rule that fires; the spread insight is present if and only if the spread exceeds 20 %; the materials warning if and only if some estimate has no "materiały" item |
| EstimateComparison.CitedNames | src/components/EstimateComparison.tsx:110 | `slice(0, 2)`: the first two missing names, or all of them when fewer |
| EstimateComparison.SpreadPercent | src/components/EstimateComparison.tsx:117-120 | `Infinity` for a zero lowest total; otherwise the decimal text of the integer nearest to the spread in percent, halves rounded up |
| EstimateComparison.Text | src/components/EstimateComparison.tsx:107-133 | a missing-items warning names the contractor and cites at most the first two missing names; the spread note shows `SpreadPercent`; the materials warning has its fixed text |
| EstimateComparison.CollectInsights | src/components/EstimateComparison.tsx:101-134 | the loop and the pushes yield `InsightsOf` |
| EstimateComparison.ComputeComparison | src/components/EstimateComparison.tsx:85-143 | the memo's computation yields `ComparisonOf` |
| EstimateComparison.ComparisonSpec | src/components/EstimateComparison.tsx:85-143 | null if and only if no estimate is selected; otherwise the selection in input order, with the lowest and the highest being totals of selected estimates that bound all of them |
| EstimateUploader.ItemsTotalAppend | src/components/EstimateUploader.tsx:237-238 | appending an item raises the items' total by its price |
| EstimateUploader.AnalyzedItemsTotal | src/components/EstimateUploader.tsx:170-209 | each analysed item's total is quantity × unit price, and they sum to 13050 |
| EstimateUploader.NameAfterAnalysis | src/components/EstimateUploader.tsx:215-220 | an entered name is never overwritten; without a match an empty name stays empty |
| EstimateUploader.SeparatorsToSpaces | src/components/EstimateUploader.tsx:218 | every `_` and `-` becomes a space; nothing else changes |
| EstimateUploader.ManualItem | src/components/EstimateUploader.tsx:229-236 | quantity 1, unit "szt", unit and total price both the amount |
| EstimateUploader.QuickTotal | src/components/EstimateUploader.tsx:367 | the parsed amount, or 0 when the text does not parse |
| EstimateUploader.SavedDraftWellFormed | src/components/EstimateUploader.tsx:242-259 | a saved draft has a non-blank, already trimmed name and an item or a non-zero total |
| EstimateUploader.EstimateUploaderState.constructor | src/components/EstimateUploader.tsx:114-123 | no file, no name, no items, total 0, manual entry closed |
| EstimateUploader.EstimateUploaderState.HandleSelectFile | src/components/EstimateUploader.tsx:125-154 | rejects if and only if the picked file's size is known, non-zero and above 5 MB; a rejection or a cancel changes nothing; an accepted file is stored and resets the items and the total |
| EstimateUploader.EstimateUploaderState.HandleAnalyzeWithAI | src/components/EstimateUploader.tsx:156-226 | refuses if and only if no file is selected, changing nothing; otherwise the items become the analysed ones, the total their sum, and the name `NameAfterAnalysis` |
| EstimateUploader.EstimateUploaderState.HandleManualItemAdd | src/components/EstimateUploader.tsx:228-240 | appends `ManualItem` and raises the total by exactly the amount; a total that matched the items still does |
| EstimateUploader.EstimateUploaderState.RemoveFile | src/components/EstimateUploader.tsx:296-302 | clears the file, the items and the total together |
| EstimateUploader.EstimateUploaderState.SetQuickTotal | src/components/EstimateUploader.tsx:366-367 | the total becomes `QuickTotal` of the text |
| EstimateUploader.EstimateUploaderState.SetContractorName | src/components/EstimateUploader.tsx:271 | sets the name |
| EstimateUploader.EstimateUploaderState.ToggleManualEntry | src/components/EstimateUploader.tsx:347 | flips the flag |
| EstimateUploader.EstimateUploaderState.HandleSave | src/components/EstimateUploader.tsx:242-259 | refuses if and only if the trimmed name is empty or there are neither items nor a total; otherwise emits the trimmed name, the total, the items and the file's uri or "" |
| EstimateUploader.ManualEntryForm.constructor | src/components/EstimateUploader.tsx:70-71 | both inputs empty |
| EstimateUploader.ManualEntryForm.HandleAdd | src/components/EstimateUploader.tsx:73-79 | submits if and only if the trimmed name and the amount text are non-empty, with the trimmed name and the parsed amount, then clears both inputs; otherwise nothing changes |
| AIChatPanel.Ask | src/components/AIChatPanel.tsx:33-279 | a bank question numbered n has id n and is not asked |
| AIChatPanel.BankTexts | src/components/AIChatPanel.tsx:32-283 | ten texts for each trade and none for the plan and the costs |
| AIChatPanel.Bank | src/components/AIChatPanel.tsx:32-283 | the questions are numbered "1", "2", … in order, none asked |
| AIChatPanel.SectionQuestions | src/components/AIChatPanel.tsx:32-283 | ten questions for each trade, none for the plan and the costs; ids "1" to "10" in order, none asked |
| AIChatPanel.SectionQuestionsDistinct | src/components/AIChatPanel.tsx:32-283 | a section's questions have distinct ids and none is asked |
| AIChatPanel.OldBuildingQuestion | src/components/AIChatPanel.tsx:315-330 | an extra question exists if and only if the section is electrical ("old-1") or plumbing ("old-2"); it is not asked, and its id cannot clash with a bank id |
| AIChatPanel.PrependToNumbered | src/components/AIChatPanel.tsx:314-330 | putting a question whose id does not start with a digit in front of a numbered bank keeps the ids distinct |
| AIChatPanel.PersonalizedQuestionsSpec | src/components/AIChatPanel.tsx:307-334 | before 1990, for electrical or plumbing, exactly one extra question is in front of the bank; otherwise the bank as it is; always distinct ids and none asked |
| AIChatPanel.Toggled | src/components/AIChatPanel.tsx:339-343 | same length and texts; `asked` is flipped exactly on the questions with the id |
| AIChatPanel.ToggleTwice | src/components/AIChatPanel.tsx:339-343 | toggling the same id twice restores the list |
| AIChatPanel.ResetAll | src/components/AIChatPanel.tsx:353 | same length; every question is kept except that it is not asked |
| AIChatPanel.MapSeqPermutation | src/components/AIChatPanel.tsx:352-353 | mapping a function over two permutations of a list gives two permutations |
| AIChatPanel.ResetAllPermutation | src/components/AIChatPanel.tsx:352-353 | resetting two permutations of a list gives two permutations |
| AIChatPanel.RegenerateSpec | src/components/AIChatPanel.tsx:352-353 | the regenerated list is a permutation of the reset list, of the same length, with nothing asked |
| AIChatPanel.AskedCount | src/components/AIChatPanel.tsx:357 | between 0 and the number of questions |
| AIChatPanel.AskedCountNone | src/components/AIChatPanel.tsx:357 | the count is 0 if and only if no question is asked |
| AIChatPanel.ToggleAskedCount | src/components/AIChatPanel.tsx:338-357 | with distinct ids, toggling a question moves the count by exactly one in the direction of its new flag |
| AIChatPanel.ToggledTailUnchanged | src/components/AIChatPanel.tsx:339-343 | toggling an id that no question has changes nothing |
| AIChatPanel.Displayed | src/components/AIChatPanel.tsx:358 | the whole list when everything is shown, else its first min(5, n) questions |
| AIChatPanel.ShowMoreIff | src/components/AIChatPanel.tsx:443 | the show-more button appears if and only if the collapsed view hides a question |
| AIChatPanel.AIChatPanelState.constructor | src/components/AIChatPanel.tsx:291-293 | no questions, collapsed |
| AIChatPanel.AIChatPanelState.LoadQuestions | src/components/AIChatPanel.tsx:300-336 | the copy-and-unshift code yields `PersonalizedQuestions` |
| AIChatPanel.AIChatPanelState.HandleToggleQuestion | src/components/AIChatPanel.tsx:338-345 | the list becomes `Toggled` of the old one and the id is reported |
| AIChatPanel.AIChatPanelState.HandleRegenerate | src/components/AIChatPanel.tsx:347-355 | given a permutation of the questions, the list becomes that permutation with every flag reset |
| AIChatPanel.AIChatPanelState.ToggleShowAll | src/components/AIChatPanel.tsx:446 | flips the flag |
| ContractorNotesEditor.FilteredSuggestions | src/components/ContractorNotesEditor.tsx:83-85 | an order-preserving subsequence holding exactly the suggestions that contain the input case-insensitively and are not yet tags |
| ContractorNotesEditor.ShownSuggestions | src/components/ContractorNotesEditor.tsx:82-124 | at most 5; none while the list is closed; only matching, unused suggestions of the section |
| ContractorNotesEditor.UnknownSectionSuggestsNothing | src/components/ContractorNotesEditor.tsx:82 | a section without a suggestion list shows nothing |
| ContractorNotesEditor.EmptyInputKeepsAll | src/components/ContractorNotesEditor.tsx:83-85 | an empty input keeps every suggestion that is not yet a tag |
| ContractorNotesEditor.SubmittedTagSpec | src/components/ContractorNotesEditor.tsx:87-93 | a tag is handed on if and only if its trimmed text is non-empty and new, and then it is the trimmed text |
| ContractorNotesEditor.AddSubmittedKeepsDistinct | src/components/ContractorNotesEditor.tsx:87-93 | adding a submitted tag keeps the tags duplicate-free |
| ContractorNotesEditor.RemoveTagSpec | src/components/ContractorNotesEditor.tsx:299-301 | removal drops every equal tag, keeps the order, and keeps the tags duplicate-free |
| ContractorNotesEditor.RemoveMediaSpec | src/components/ContractorNotesEditor.tsx:291-293 | removal drops exactly the attachments with the id, keeps the order, and shrinks the list by their number |
| ContractorNotesEditor.ImageAttachment | src/components/ContractorNotesEditor.tsx:207-264 | an image attachment uses the asset's uri as url and thumbnail, its size or 0, and a ".jpg" name |
| ContractorNotesEditor.AudioAttachment | src/components/ContractorNotesEditor.tsx:278-285 | an audio attachment with an empty url, size 0, type "audio/m4a" and an ".m4a" name |
| ContractorNotesEditor.SaveResultSpec | src/components/ContractorNotesEditor.tsx:303-309 | refused if and only if the content is all whitespace; otherwise the trimmed content with the media and tags |
| ContractorNotesEditor.TagInputState.constructor | src/components/ContractorNotesEditor.tsx:79-80 | empty input, list closed |
| ContractorNotesEditor.TagInputState.ChangeText | src/components/ContractorNotesEditor.tsx:114-115 | stores the text and opens the list if and only if it is non-empty |
| ContractorNotesEditor.TagInputState.Focus | src/components/ContractorNotesEditor.tsx:118 | opens the list if and only if the input is non-empty |
| ContractorNotesEditor.TagInputState.Blur | src/components/ContractorNotesEditor.tsx:119 | closes the list |
| ContractorNotesEditor.TagInputState.Shown | src/components/ContractorNotesEditor.tsx:122-124 | at most 5 suggestions |
| ContractorNotesEditor.TagInputState.HandleAddTag | src/components/ContractorNotesEditor.tsx:87-93 | hands on `SubmittedTag`; on success clears the input and closes the list; otherwise changes nothing |
| ContractorNotesEditor.ContractorNotesEditorState.constructor | src/components/ContractorNotesEditor.tsx:190-193 | the initial content and tags, no media, not recording |
| ContractorNotesEditor.ContractorNotesEditorState.SetContent | src/components/ContractorNotesEditor.tsx:190 | sets the content |
| ContractorNotesEditor.ContractorNotesEditorState.HandleBold | src/components/ContractorNotesEditor.tsx:195-197 | appends exactly "**tekst**" |
| ContractorNotesEditor.ContractorNotesEditorState.HandleItalic | src/components/ContractorNotesEditor.tsx:199-201 | appends exactly "*tekst*" |
| ContractorNotesEditor.ContractorNotesEditorState.HandleList | src/components/ContractorNotesEditor.tsx:203-205 | appends exactly a newline and "- " |
| ContractorNotesEditor.ContractorNotesEditorState.HandlePickImage | src/components/ContractorNotesEditor.tsx:207-264 | appends one image attachment if and only if permission was granted and an image was picked |
| ContractorNotesEditor.ContractorNotesEditorState.HandleRecordAudio | src/components/ContractorNotesEditor.tsx:266-289 | flips the flag; stopping a recording appends exactly one audio attachment, starting one appends none |
| ContractorNotesEditor.ContractorNotesEditorState.HandleRemoveMedia | src/components/ContractorNotesEditor.tsx:291-293 | removes the attachments with the id |
| ContractorNotesEditor.ContractorNotesEditorState.HandleAddTag | src/components/ContractorNotesEditor.tsx:295-297 | appends the tag |
| ContractorNotesEditor.ContractorNotesEditorState.HandleRemoveTag | src/components/ContractorNotesEditor.tsx:299-301 | removes every equal tag |
| ContractorNotesEditor.ContractorNotesEditorState.SubmitTag | src/components/ContractorNotesEditor.tsx:87-93 | a typed tag is added only when `SubmittedTag` accepts it, so the tags stay duplicate-free |
| ContractorNotesEditor.ContractorNotesEditorState.HandleSave | src/components/ContractorNotesEditor.tsx:303-309 | nothing is saved if and only if the content is white space only; a saved note holds the trimmed, non-blank content with the current attachments and tags |
| NoteEditorScreen.NewNote | src/screens/NoteEditorScreen.tsx:185-195 | the note has the trimmed content, the route's section and project, the current media and tags, and no transcript |
| NoteEditorScreen.NotesAfterSaveSpec | src/screens/NoteEditorScreen.tsx:179-197 | whitespace-only content leaves the store as it was; otherwise the section gains exactly the new, non-empty note in front, and every other section is unchanged; a passed note id plays no part |
| NoteEditorScreen.TagInput.constructor | src/screens/NoteEditorScreen.tsx:94 | empty input |
| NoteEditorScreen.TagInput.ChangeText | src/screens/NoteEditorScreen.tsx:121-122 | stores the text |
| NoteEditorScreen.TagInput.HandleAddTag | src/screens/NoteEditorScreen.tsx:96-101 | hands on the trimmed text if and only if it is non-empty and new, then clears the input; a refused text stays |
| NoteEditorScreen.NoteEditorScreenState.constructor | src/screens/NoteEditorScreen.tsx:134-147 | empty content, media and tags, not recording |
| NoteEditorScreen.NoteEditorScreenState.SetContent | src/screens/NoteEditorScreen.tsx:144 | sets the content |
| NoteEditorScreen.NoteEditorScreenState.HandleRecordAudio | src/screens/NoteEditorScreen.tsx:162-165 | flips the flag |
| NoteEditorScreen.NoteEditorScreenState.HandleAddTag | src/screens/NoteEditorScreen.tsx:167-169 | appends the tag at the end |
| NoteEditorScreen.NoteEditorScreenState.HandleRemoveTag | src/screens/NoteEditorScreen.tsx:171-173 | removes every equal tag |
| NoteEditorScreen.NoteEditorScreenState.HandleRemoveMedia | src/screens/NoteEditorScreen.tsx:175-177 | removes the attachments with the id |
| NoteEditorScreen.NoteEditorScreenState.SubmitTag | src/screens/NoteEditorScreen.tsx:96-101 | a typed tag is added only when accepted, so the tags stay duplicate-free |
| NoteEditorScreen.NoteEditorScreenState.HandleSave | src/screens/NoteEditorScreen.tsx:179-197 | saves if and only if the trimmed content is non-empty; the notes store becomes `NotesAfterSave` through `addNote` |
| InspectionChecklist.CompletedCount | src/components/AIInspectionChecklist.tsx:150 | at most the number of items |
| InspectionChecklist.CompletedCountFull | src/components/AIInspectionChecklist.tsx:150-151 | the count equals the total if and only if every item is completed |
| InspectionChecklist.ProgressSpec | src/components/AIInspectionChecklist.tsx:150-152 | progress lies in [0, 100] and is 0 for no items; it is exactly 100 (the completed style) if and only if a non-empty list is all done |
| InspectionChecklist.ProgressLabel | src/components/AIInspectionChecklist.tsx:230 | the rounded percentage lies in [0, 100] |
| InspectionChecklist.ItemsIn | src/components/AIInspectionChecklist.tsx:155-161 | a category's group is an order-preserving subsequence holding exactly the items of that category |
| InspectionChecklist.CategoryOrder | src/components/AIInspectionChecklist.tsx:155-161 | the groups' keys: no duplicates, exactly the categories that occur |
| InspectionChecklist.GroupStep | src/components/AIInspectionChecklist.tsx:156-160 | one more item joins the end of its category's group, and a new category joins the keys with an empty group |
| InspectionChecklist.AddToGroup | src/components/AIInspectionChecklist.tsx:156-160 | one step of the `reduce` keeps the accumulator equal to the grouping of the items so far |
| InspectionChecklist.GroupByCategory | src/components/AIInspectionChecklist.tsx:155-161 | the `reduce` yields keys in order of first occurrence, each holding exactly its category's items in order |
| InspectionChecklist.GroupsCoverAll | src/components/AIInspectionChecklist.tsx:155-161 | the group sizes add up to the number of items, so every item is in exactly one group |
| InspectionChecklist.ViewOf | src/components/AIInspectionChecklist.tsx:163-198 | the generating view if and only if generating; the empty view if and only if not generating and there are no items |
| InspectionChecklist.NoteBlur | src/components/AIInspectionChecklist.tsx:56-60 | a change is reported if and only if the text differs from the stored note (a missing note differs from every text); what is reported is the box's text |
| InspectionChecklist.NoteBlurThenStored | src/components/AIInspectionChecklist.tsx:56-60 | once the reported text is stored as the note, blurring again with the same text reports nothing |
| InspectionChecklist.BlurWithoutEdit | src/components/AIInspectionChecklist.tsx:53-60 | an unedited box reports nothing if and only if the item had a stored note |
| InspectionChecklist.ChecklistItemRowState.constructor | src/components/AIInspectionChecklist.tsx:53-54 | the box is open if and only if there is a non-empty note; it holds the note or "" |
| InspectionChecklist.ChecklistItemRowState.Press | src/components/AIInspectionChecklist.tsx:66 | requests the negation of the item's completed flag |
| InspectionChecklist.ChecklistItemRowState.ToggleNoteBox | src/components/AIInspectionChecklist.tsx:114 | flips the box |
| InspectionChecklist.ChecklistItemRowState.ChangeNote | src/components/AIInspectionChecklist.tsx:133 | stores the text |
| InspectionChecklist.ChecklistItemRowState.ReceiveItem | src/components/AIInspectionChecklist.tsx:42-54 | a later render with a new `item` prop replaces the item; the box flag and the text keep their values, as `useState` initialises them only once |
| InspectionChecklist.ChecklistItemRowState.HandleNoteBlur | src/components/AIInspectionChecklist.tsx:56-60 | reports the box's text if and only if it differs from the current item's note |
| FileQuickAccess.FilterFiles | src/components/FileQuickAccess.tsx:201-212 | an order-preserving subsequence holding exactly the files the filter keeps: estimates are category "estimate" or type "pdf"; photos are images; audio is audio; all is everything |
| FileQuickAccess.FilterAllIsIdentity | src/components/FileQuickAccess.tsx:210-211 | the "all" filter returns the list as it is |
| FileQuickAccess.CountKept | src/components/FileQuickAccess.tsx:215-220 | at most the number of files |
| FileQuickAccess.CountKeptIsFilterLength | src/components/FileQuickAccess.tsx:201-220 | each count is the length of the list its filter gives |
| FileQuickAccess.CountsMatchFilters | src/components/FileQuickAccess.tsx:215-220 | every pill's count equals the length of its filtered list, and "all" counts every file |
| FileQuickAccess.PhotosAndAudioWithinAll | src/components/FileQuickAccess.tsx:217-219 | photos plus audio never exceed all |
| FileQuickAccess.TenthsText | src/components/FileQuickAccess.tsx:61-62 | `toFixed(1)` text: the whole part, a point and one digit |
| FileQuickAccess.SizeText | src/components/FileQuickAccess.tsx:57-62 | below 1024 bytes the size in bytes with " B"; below 1024·1024 a text ending in " KB"; otherwise one ending in " MB" |
| FileQuickAccess.SizeTextShows | src/components/FileQuickAccess.tsx:57-62 | the KB and MB texts show the size in that unit to the nearest tenth: 1.0 to 1024.0 KB, at least 1.0 MB |
| FileQuickAccess.SizeTextRange | src/components/FileQuickAccess.tsx:57-62 | sizes in KB show between 1.0 and 1024.0; sizes in MB show at least 1.0 |
| FileQuickAccess.MenuOptions | src/components/FileQuickAccess.tsx:132-165 | preview first and delete last; AI analysis if and only if the file is a PDF |
| FileQuickAccess.ViewOf | src/components/FileQuickAccess.tsx:273-315 | the empty state if and only if there are no files; no results if and only if the filter keeps nothing; otherwise the filtered list |
| CostsScreen.SummaryOf | src/screens/CostsScreen.tsx:21-53 | remaining is planned − spent; over budget if and only if spent > planned; the percentage is the unguarded rounded ratio; the bar is `Math.min` of it and 100 |
| CostsScreen.SummaryColour | src/screens/CostsScreen.tsx:54-58 | red if and only if over budget; amber if and only if within budget and above 80 %; on a positive plan that is 2·(100·spent − 80·planned) ≥ planned |
| CostsScreen.RoundAbove | src/screens/CostsScreen.tsx:56 | `Math.round(n / d) > k` in integer terms |
| CostsScreen.SummaryBar | src/screens/CostsScreen.tsx:21-53 | on a positive plan, overspending fills the bar; spending within the plan gives a percentage in [0, 100] and a bar of that width |
| CostsScreen.SummaryZeroPlan | src/screens/CostsScreen.tsx:21-58 | with nothing planned, any spending gives a full red bar and nothing spent gives `NaN` with green |
| CostsScreen.RowOf | src/screens/CostsScreen.tsx:81-118 | diff is actual − planned; the percentage is 0 without a positive plan; the plus sign and the negative style if and only if diff > 0 |
| CostsScreen.RowPercentSign | src/screens/CostsScreen.tsx:82 | the row's percentage has the sign of its difference and lies within half a percent of the exact ratio |
| CostsScreen.ScreenFiguresConsistent | src/screens/CostsScreen.tsx:202-213 | 100000 and 67500 are the sums of the six sections; the card shows 68 % in green; the electrical row shows +8 % |
| DashboardScreen.WidgetPlanned | src/screens/DashboardScreen.tsx:17 | never 0; the project's figure when it is non-zero |
| DashboardScreen.WidgetOf | src/screens/DashboardScreen.tsx:17-42 | the bar is at most 100 and is either the percentage or 100; red if and only if the percentage exceeds 100; overspent if and only if spent > planned |
| DashboardScreen.WidgetPercentage | src/screens/DashboardScreen.tsx:19 | the rounded percentage is always finite |
| DashboardScreen.WidgetDefaults | src/screens/DashboardScreen.tsx:17-18 | without a project the widget shows 100000, 45000 and 45 %; a zero spent figure shows 45000 |
| DashboardScreen.WidgetColourAndOverspent | src/screens/DashboardScreen.tsx:31-42 | on a positive plan, red implies overspent; overspent without red means less than half a percent over |
| DashboardScreen.ActiveSuggestion | src/screens/DashboardScreen.tsx:55-59 | a suggestion of the list that is not dismissed; none if and only if all are dismissed |
| DashboardScreen.ActiveSuggestionIsFirst | src/screens/DashboardScreen.tsx:55 | the card's suggestion is the first one not dismissed |
| DashboardScreen.DismissActive | src/screens/DashboardScreen.tsx:55-59 | after the shown suggestion is dismissed, the card shows a different suggestion or none |
| DashboardScreen.StatusIcon | src/screens/DashboardScreen.tsx:84 | ✓ if and only if completed; ◐ if and only if in progress; ○ if and only if not started |
| UseBudget.BudgetOf | src/hooks/useProject.ts:79-95 | zeros without a project; remaining = planned − spent; over budget if and only if spent > planned; 0 % without a positive plan, else within half a percent of the exact ratio |
| UseBudget.BudgetPercentageRange | src/hooks/useProject.ts:85-86 | on a positive plan, spending within it gives [0, 100] and being over budget gives at least 100 |
| UseBudget.BudgetAgreesWithSummary | src/hooks/useProject.ts:82-86 | the hook agrees with the costs card on a positive plan; with no plan the card has no finite percentage where the hook shows 0 |
| UseBudget.BudgetAgreesWithWidget | src/hooks/useProject.ts:82-83 | the hook and the dashboard widget show the same figures if and only if both fields are non-zero |

## Left out

- Rendering and styling, navigation, `Alert` dialogs, and loading and saving flags that only drive a spinner. Examples: `isLoading` in the question panel, `isAnalyzing` in the uploader, and `isSaving`/`isUploading` on the plan screen. None of them affects the data.
- `setTimeout` delays are left out. This includes the 200 ms delay before the suggestion list closes on blur. `Blur` closes the list at once.
- `src/services/api.ts`, `src/hooks/useNotes.ts` and the query parts of `src/hooks/useProject.ts` are not part of this model. They are database, storage and cache calls.
- Screens without logic of their own, and the upload and gallery widgets, are not part of this model.
- `Date.now()` and `new Date().toISOString()` are parameters of the members that use them. So are `Math.random`, the image picker, the document picker and the permission request.
- The contractor-name regex on the file name is a parameter (`fileNameMatch`). The model keeps only what is done with its result.
- `toLocaleString` and `toLocaleDateString` are left out. `toFixed(1)` of a file size is modelled exactly, because a division by 1024 or 1024² is exact in double precision; `toFixed(0)` of the spread is modelled by `RoundDiv` (see the next line).
- CostsScreen.SummaryOf, CostsScreen.RowOf, DashboardScreen.WidgetOf, UseBudget.BudgetOf, EstimateComparison.Text, EstimateComparison.SpreadPercent, InspectionChecklist.ProgressLabel: the percentage is rounded from the exact quotient, not from the double JavaScript computes. The double can fall just below an exact half and round down. For example, planned 1000 and spent 145 give `(145 / 1000) * 100 = 14.499999999999998`, which JavaScript rounds to 14 and the model to 15; lowest 40 and highest 63 show "57%" in the source and "58%" in the model.
- Common.LowerChar: folds only ASCII and Polish capital letters. `toLowerCase` folds all of Unicode, so item names and tags with other capitals compare differently in the model.
- Common.IsSpace: omits U+1680, U+2000 to U+200A, U+202F, U+205F and U+3000, which `trim` removes. Text padded with those characters is trimmed less in the model.
- EstimateUploader.EstimateUploaderState.HandleAnalyzeWithAI: the step is atomic. The source awaits 2 s and then uses the contractor name read before the wait, so a name typed during the analysis is overwritten by the suggested one; the model cannot show this.
- EstimateUploader.EstimateUploaderState.SetQuickTotal: callable at any time. The source shows the quick-total input only while there are no parsed items.
- `parseInt` and `parseFloat` read only optionally signed decimal text. Hexadecimal, exponents and `Infinity` are not modelled.
- EstimateUploader.QuickTotal: whole amounts only. A fractional amount is cut to its integer part, because money is modelled as integers.
- EstimateUploader.EstimateUploaderState.HandleManualItemAdd: the amount is an integer. The form's `parseFloat` may produce a fraction or `NaN`.
- InspectionChecklist.Progress: real arithmetic, not IEEE doubles. A rounding error in `completed / total * 100` is not modelled. The same holds for the progress bar of the question panel (`src/components/AIChatPanel.tsx:391`), which is left out.
- AIChatPanel.AIChatPanelState.HandleRegenerate: JavaScript's random shuffle is a permutation that the caller passes in. Which permutation comes out is not modelled.
- The editor places its tag input with the fixed section type `"electrical"` (`src/components/ContractorNotesEditor.tsx:369`). `TagInputState` takes the section type as a parameter.
- The question texts and "why" explanations of the bank are modelled verbatim. The properties are stated over ids and flags only.
