# Screen registry of a screen-printing workflow tracker

This project models the core of a small React application that tracks print jobs ("screens")
through three stages: 'Em Produção' (in production), 'Gravada' (recorded) and 'Retirada'
(collected or delivered). The model covers:

- the in-memory registry of screens and its three handlers: register a screen, record it,
  deliver it;
- the case-insensitive search by NR number or client name, and the "replace if the id matches"
  status update;
- the three input schemas, stated as predicates;
- the settings dialog that edits the two name rosters (art finishers and delivery people);
- the views derived from the registry: the stage filters, the month filter, the newest-first
  sort and the search box, as the recording form, the delivery form and the monthly report
  compose them.

Modules follow the source files:

- `Types`: `types/index.ts`.
- `ScreenUtils`: `utils/screenUtils.ts`.
- `Validators`: `utils/validators.ts`.
- `App`: `App.tsx`.
- `SettingsDialog`, `EntryForm`, `RecordingForm`, `DeliveryForm` and `ReportView`: the
  components with those names.
- Three helper modules hold what several files share:
  - `Lists`: `Array.prototype.filter`, subsequences and lists without duplicates.
  - `Text`: `toLowerCase`, `includes`, `startsWith` and decimal rendering.
  - `Queries`: the month filter and the newest-first sort.

Pure code becomes functions and lemmas. Each component whose handlers replace state becomes a
class whose fields are that state (`screens`, `activeTab`, `settings`, `localSettings`,
`formData`, `selectedScreen`, `searchTerm`, `filterMonth`). Each handler becomes a method whose
`ensures` gives the whole new state.

The clock is a parameter everywhere it is read:

- a new screen's `id` and `createdAt`;
- the delivery timestamp;
- the date the recording form pre-fills;
- the default `YYYY-MM` month;
- the parse of `createdAt` into milliseconds (`timeOf: string -> int`), which the sort uses.

The code has these behaviours, which the model keeps:

- `updateScreenStatus` does not check the prior status. Recording a delivered screen moves it
  back to 'Gravada' (`App.RecordingIsNotGuarded`), so the status does not only move forward.
  Each handler still leaves every screen's data in agreement with its stage (`App.App.Valid`).
- A recording date, recorder or delivery block, once set, is never cleared, because both patches
  write only present values (`App.RecordingNeverClears`, `App.DeliveryNeverClears`). They are not
  set once only: recording or delivering the same id again overwrites the earlier date, recorder
  or delivery block.
- Ids come from the clock and are not checked for uniqueness. One update changes every screen
  that shares the id (`App.SharedIdUpdatesBoth`).
- Registration is not validated by the schema. The schemas in `validators.ts` are not imported
  by any component. The only check that runs is the entry form's "NR and client not empty"
  guard, which is weaker than the schema (`EntryForm.GuardWeakerThanSchema`).
- The entry form offers a fixed finisher list and does not use the settings roster. The
  recording and delivery forms do not use the delivery-people roster either.
- The settings dialog keeps its local copy when it is cancelled. Its state is created once and
  is not reset by closing, so unsaved edits are still shown the next time it opens.

## Model

| member | source | states |
|---|---|---|
| `Types.WeekDayLabels` | project/src/types/index.ts:2 | a string is a weekday iff it is one of the six labels, each naming exactly one day |
| `Types.DeliveryMethodLabels` | project/src/types/index.ts:3 | a string is a delivery method iff it is 'Motoboy', 'Cliente' or 'Correio', each naming exactly one method |
| `Types.DeliveryObjectKeys` | project/src/App.tsx:57-61 | the stored delivery object has exactly the keys method, deliveryPerson and date; reading `seller` gives `undefined`, and the other reads give the block's fields |
| `Types.StatusLabels` | project/src/types/index.ts:4 | a string is a status iff it is 'Em Produção', 'Gravada' or 'Retirada', each naming exactly one status; it records the strings the union type admits, since the model itself never renders or parses a status |
| `Text.IncludesIff` | project/src/utils/screenUtils.ts:7-8 | `includes` holds iff the term occurs in the string at some position |
| `ScreenUtils.FindScreenByNrOrClient` | project/src/utils/screenUtils.ts:3-10 | the result is a subsequence of the input in its order; each screen whose lowercased NR or client name includes the lowercased term occurs in it as often as in the input, and no other screen occurs |
| `ScreenUtils.FindWithEmptyTerm` | project/src/utils/screenUtils.ts:4-9 | an empty search term returns the input unchanged |
| `ScreenUtils.FindIgnoresTermCase` | project/src/utils/screenUtils.ts:4 | searching for the lowercased term gives the same result as searching for the term |
| `ScreenUtils.FindIdempotent` | project/src/utils/screenUtils.ts:5-9 | searching a search result again with the same term changes nothing |
| `ScreenUtils.Merge` | project/src/utils/screenUtils.ts:20 | the merged screen has the given status; an empty patch changes only the status; a patch without an id keeps the screen's id |
| `ScreenUtils.MergeFields` | project/src/utils/screenUtils.ts:20 | the merged screen takes every field present in the patch and keeps every absent one; its status is always the given one, even when the patch carries a status |
| `ScreenUtils.MergeIdempotent` | project/src/utils/screenUtils.ts:20 | merging the same patch and status twice equals merging once |
| `ScreenUtils.UpdateScreenStatus` | project/src/utils/screenUtils.ts:12-23 | same length; element i comes from input element i; screens with another id are unchanged; each matching screen is the merge of itself with the patch and status; the prior status is not checked |
| `ScreenUtils.UpdateWithoutMatch` | project/src/utils/screenUtils.ts:18-22 | when no screen has the id, the output equals the input |
| `ScreenUtils.UpdateIdempotent` | project/src/utils/screenUtils.ts:18-22 | applying the same update twice equals applying it once, even when the patch changes the matched id |
| `Validators.TimeMatches` | project/src/utils/validators.ts:10 | an accepted time has 4 or 5 characters, starts with a digit and ends in ":00" |
| `Validators.EntrySchemaAccepts` | project/src/utils/validators.ts:4-11 | accepted data has a 6-character NR, a non-empty client, a quantity of at least 1, a day that is one of the weekday labels, and a 4- or 5-character time |
| `Validators.RecordingSchemaAccepts` | project/src/utils/validators.ts:13-16 | accepted iff the recorder is non-empty |
| `Validators.DeliverySchemaAccepts` | project/src/utils/validators.ts:18-21 | an accepted method is the label of one of the three methods, and the seller is non-empty |
| `Validators.TimeMatchesIff` | project/src/utils/validators.ts:10 | the time pattern accepts exactly "h:00" for hours 0-23 written in decimal, plus "0h:00" for hours 0-9 |
| `Validators.TimeExamples` | project/src/utils/validators.ts:10 | "5:00", "05:00" and "23:00" are accepted; "24:00" and "10:30" are rejected |
| `Validators.NrLengthExamples` | project/src/utils/validators.ts:4-11 | with all other fields valid, NR "AB12" is rejected and "AB1234" accepted |
| `Validators.DeliverySchemaIff` | project/src/utils/validators.ts:18-21 | the delivery schema accepts iff the method is the label of one of the three methods and the seller is non-empty |
| `Validators.RecordingSchemaIgnoresDate` | project/src/utils/validators.ts:13-16 | acceptance does not depend on the date (even "" passes); an empty recorder is always rejected |
| `Queries.MonthFilter` | project/src/components/ReportView.tsx:7-9 | a subsequence of the input holding exactly the screens whose `createdAt` starts with the month key |
| `Queries.MonthFilterIdempotent` | project/src/components/ReportView.tsx:7-9 | filtering twice by the same month equals filtering once |
| `Queries.MonthFiltersDisjoint` | project/src/components/ReportView.tsx:7-9 | two different month keys of equal length select no screen in common |
| `Queries.SortNewestFirst` | project/src/components/RecordingForm.tsx:19-22 | a permutation of the input (same multiset) with creation times non-increasing |
| `Queries.SortSorted` | project/src/components/RecordingForm.tsx:20-22 | an input that is already newest first is returned unchanged |
| `Queries.FilterSortCommute` | project/src/components/DeliveryForm.tsx:22-33 | filtering the sorted list equals sorting the filtered list, for any filter |
| `Queries.FilterOfSorted` | project/src/components/RecordingForm.tsx:20-29 | a filter of the sorted list is newest first and holds exactly the input screens satisfying the filter |
| `EntryForm.TimeSlotsAreTenToFive` | project/src/components/EntryForm.tsx:8 | the slots are exactly "10:00" … "17:00", ascending |
| `EntryForm.TimeSlotsPassSchema` | project/src/components/EntryForm.tsx:8 | every slot the form offers passes the entry schema's time pattern |
| `EntryForm.InitialFormStateParts` | project/src/components/EntryForm.tsx:10-17 | the initial form has empty NR and client, so the guard holds it back, and quantity 1; its finisher 'Gustavo', day 'Segunda' and time '10:00' are the first entries of their lists, and the finisher and time are values the schema accepts |
| `EntryForm.SchemaImpliesGuard` | project/src/components/EntryForm.tsx:25-28 | any data the entry schema accepts passes the submit guard |
| `EntryForm.GuardWeakerThanSchema` | project/src/components/EntryForm.tsx:25 | a 3-character NR, quantity 0 and an unknown finisher pass the guard but fail the schema |
| `EntryForm.EntryForm.constructor` | project/src/components/EntryForm.tsx:20 | the form starts in its initial state |
| `EntryForm.EntryForm.HandleSubmit` | project/src/components/EntryForm.tsx:22-33 | with an empty NR or client nothing is submitted and the form is kept; otherwise the current data is submitted and the form resets to its initial state |
| `RecordingForm.FilteredScreens` | project/src/components/RecordingForm.tsx:19-29 | the displayed list is a subsequence of the sorted list and newest first; each screen that matches the term occurs in it as often as in the given list, and no other screen occurs |
| `RecordingForm.FilteredScreensIsSortedSearch` | project/src/components/RecordingForm.tsx:24-29 | for every term, including "", the display is the search of the sorted list, which equals the sorted search of the input |
| `RecordingForm.RecordingForm.constructor` | project/src/components/RecordingForm.tsx:12-17 | empty term, no selection, today's date and an empty recorder |
| `RecordingForm.RecordingForm.SetSearchTerm` | project/src/components/RecordingForm.tsx:44-48 | the term is replaced; nothing else changes |
| `RecordingForm.RecordingForm.SetFormData` | project/src/components/RecordingForm.tsx:101-117 | the form data is replaced; nothing else changes |
| `RecordingForm.RecordingForm.Select` | project/src/components/RecordingForm.tsx:76 | the clicked screen becomes the selection; nothing else changes |
| `RecordingForm.RecordingForm.HandleSubmit` | project/src/components/RecordingForm.tsx:31-39 | without a selection nothing is submitted and nothing changes; with one, its id and the form data are submitted, then the selection and term are cleared and the form data reset |
| `DeliveryForm.SentObjectKeys` | project/src/components/DeliveryForm.tsx:38-41 | the object the form submits has exactly the keys method and seller: reading `seller` gives the typed seller and reading `deliveryPerson` gives `undefined` |
| `DeliveryForm.DeliveryMethodsComplete` | project/src/components/DeliveryForm.tsx:6-20 | the methods list holds each of the three methods exactly once; the form starts on 'Motoboy' with an empty seller |
| `DeliveryForm.FilteredAndSorted` | project/src/components/DeliveryForm.tsx:22-25 | the month's screens (same multiset), newest first |
| `DeliveryForm.DisplayedScreens` | project/src/components/DeliveryForm.tsx:27-33 | a subsequence of the month-filtered, sorted list and newest first; each screen that is in the month and matches the term occurs in it as often as in the given list, and no other screen occurs |
| `DeliveryForm.DisplayedIsSortedSearchOfMonth` | project/src/components/DeliveryForm.tsx:22-33 | the display equals month filter, then search, then sort: the order of the steps does not change the list |
| `DeliveryForm.DeliveryForm.constructor` | project/src/components/DeliveryForm.tsx:14-20 | empty term, no selection, the current month, first method and empty seller |
| `DeliveryForm.DeliveryForm.SetFilterMonth` | project/src/components/DeliveryForm.tsx:53-58 | the month is replaced; nothing else changes |
| `DeliveryForm.DeliveryForm.SetSearchTerm` | project/src/components/DeliveryForm.tsx:61-65 | the term is replaced; nothing else changes |
| `DeliveryForm.DeliveryForm.SetFormData` | project/src/components/DeliveryForm.tsx:118-137 | the form data is replaced; nothing else changes |
| `DeliveryForm.DeliveryForm.Select` | project/src/components/DeliveryForm.tsx:93 | the clicked screen becomes the selection; nothing else changes |
| `DeliveryForm.DeliveryForm.HandleSubmit` | project/src/components/DeliveryForm.tsx:35-46 | without a selection nothing is submitted and nothing changes; with one, `{ id, method, seller }` is submitted, then the selection, term and form data reset and the month is kept |
| `ReportView.Total` | project/src/components/ReportView.tsx:43 | the total is the length of the month's list and equals an independent count of the screens whose `createdAt` starts with the month key; it is at most the registry size, and 0 iff no screen was created in the month |
| `ReportView.MonthFilterCount` | project/src/components/ReportView.tsx:7-9 | the month's list holds exactly as many screens as the count of screens created in the month |
| `ReportView.TotalsOfTwoMonths` | project/src/components/ReportView.tsx:7-9 | the totals of two different equal-length month keys add up to at most the registry size |
| `ReportView.ShownSeller` | project/src/components/ReportView.tsx:88 | as written, the cell reads the `seller` key of the stored delivery object, which has no such key, so no seller is shown for any screen |
| `ReportView.ShownSellerIntended` | project/src/components/ReportView.tsx:88 | corrected: reading the `deliveryPerson` key of the stored object shows a seller iff the screen has a delivery block with a person, and it is that person |
| `ReportView.SellerNeverShown` | project/src/components/ReportView.tsx:88 | the seller the details cell reads is absent even for a delivery that names a person |
| `ReportView.ReportView.constructor` | project/src/components/ReportView.tsx:5 | the report starts on the current month |
| `ReportView.ReportView.SetFilterMonth` | project/src/components/ReportView.tsx:28-33 | the month is replaced |
| `SettingsDialog.AddName` | project/src/components/SettingsDialog.tsx:19-22 | the old roster is a prefix of the result, which is at most one longer; a non-empty name is in the result; every name in it is an old one or the added one |
| `SettingsDialog.RemoveName` | project/src/components/SettingsDialog.tsx:38-43 | the result is a subsequence of the roster; the name does not occur in it; every other name occurs in it as often as in the roster |
| `SettingsDialog.AddNameMembers` | project/src/components/SettingsDialog.tsx:18-26 | the old roster is a prefix of the result, which holds the old names plus the name iff it is non-empty; it grows by one exactly when the name is non-empty and absent |
| `SettingsDialog.AddNameNoDups` | project/src/components/SettingsDialog.tsx:19-22 | a roster without duplicates has none after an add |
| `SettingsDialog.RemoveNameNoDups` | project/src/components/SettingsDialog.tsx:38-50 | a roster without duplicates has none after a remove |
| `SettingsDialog.RemoveAbsentName` | project/src/components/SettingsDialog.tsx:41 | removing an absent name changes nothing |
| `SettingsDialog.AddThenRemove` | project/src/components/SettingsDialog.tsx:18-43 | adding a fresh non-empty name and then removing it restores the roster |
| `SettingsDialog.SettingsDialog.constructor` | project/src/components/SettingsDialog.tsx:14-16 | the local settings are the ones handed in; both pending names are empty; rosters handed in without duplicates give a valid dialog |
| `SettingsDialog.SettingsDialog.SetNewArtFinisher` | project/src/components/SettingsDialog.tsx:79 | the pending finisher name is replaced; nothing else changes |
| `SettingsDialog.SettingsDialog.SetNewDeliveryPerson` | project/src/components/SettingsDialog.tsx:115 | the pending delivery person is replaced; nothing else changes |
| `SettingsDialog.SettingsDialog.HandleAddArtFinisher` | project/src/components/SettingsDialog.tsx:18-26 | the finisher roster becomes the add of the pending name; the other roster is unchanged; the pending name is cleared only when the add succeeds; no-duplicates is kept |
| `SettingsDialog.SettingsDialog.HandleAddDeliveryPerson` | project/src/components/SettingsDialog.tsx:28-36 | the same, for the delivery roster |
| `SettingsDialog.SettingsDialog.HandleRemoveArtFinisher` | project/src/components/SettingsDialog.tsx:38-43 | the finisher roster loses every occurrence of the name; the other roster and the pending names are unchanged; no-duplicates is kept |
| `SettingsDialog.SettingsDialog.HandleRemoveDeliveryPerson` | project/src/components/SettingsDialog.tsx:45-50 | the same, for the delivery roster |
| `SettingsDialog.SettingsDialog.HandleSave` | project/src/components/SettingsDialog.tsx:52-55 | the settings handed to `onSave` are the local settings, unchanged |
| `App.InitialSettingsNoDups` | project/src/App.tsx:17-20 | neither initial roster holds a name twice |
| `App.NewScreen` | project/src/App.tsx:24-36 | the new screen is in production with nothing recorded or delivered, carries the given id and creation time, and copies NR, client, quantity, finisher and deadline (day and time) from the form |
| `App.RecordingKeepsStages` | project/src/App.tsx:41-49 | if every screen agrees with its stage, it still does after a recording, whatever the recorded screens' prior stage |
| `App.DeliveryKeepsStages` | project/src/App.tsx:51-65 | if every screen agrees with its stage, it still does after a delivery, even one straight from production |
| `App.RecordingNeverClears` | project/src/App.tsx:41-49 | a recording clears no recording date, recorder or delivery block that was set; a screen recorded again takes the new date and recorder |
| `App.DeliveryNeverClears` | project/src/App.tsx:51-65 | a delivery clears no recording date, recorder or delivery block that was set; a screen delivered again takes the new delivery block |
| `App.AsHandlerData` | project/src/App.tsx:53-59 | as written: the method the handler uses is the one under the sent object's `method` key, and reading its `deliveryPerson` key gives no person, because the form's object lacks that key |
| `App.AsHandlerDataIntended` | project/src/components/DeliveryForm.tsx:38-41 | corrected: the method is the one under the `method` key, and the delivery person is the value under the `seller` key, the seller typed on the form |
| `App.StageFilter` | project/src/App.tsx:92 | a subsequence of the registry holding exactly the screens in the given stage |
| `App.StagesPartition` | project/src/App.tsx:92-99 | the three stage filters together hold every screen exactly as often as the registry does, and their lengths add up to its length |
| `App.StagesDisjoint` | project/src/App.tsx:92-99 | no screen is in two stage views |
| `App.RegisteredScreenAwaitsRecording` | project/src/App.tsx:23-38 | a registered screen is appended to the recording view and stays out of the other two views, which are unchanged |
| `App.RecordThenDeliver` | project/src/App.tsx:41-62 | recording then delivering an id: each matching screen ends 'Retirada' with the recording data and the delivery block set, and keeps its id, NR and client; other screens are untouched |
| `App.RecordingIsNotGuarded` | project/src/App.tsx:41-49 | recording a delivered screen moves it back to 'Gravada' and keeps its delivery block |
| `App.SharedIdUpdatesBoth` | project/src/App.tsx:25 | two screens sharing an id are both recorded by one submit |
| `App.SellerLostOnDelivery` | project/src/App.tsx:51-62 | as written, every delivered screen stores no delivery person |
| `App.SellerLostExample` | project/src/components/DeliveryForm.tsx:38-41 | the seller "Maria" is entered on the form and is not stored |
| `App.SellerKeptOnDelivery` | project/src/App.tsx:59 | with the intended reading, the seller is stored as the delivery person and the report shows it |
| `App.LifecycleScenario` | project/src/App.tsx:23-62 | register NR0001/Acme, record it (2024-05-01, Maria), deliver it by Motoboy: the stages are in turn 'Em Produção', 'Gravada', 'Retirada'; the id, NR and client are kept; the delivery data reaches the handler as the form sends it, so no delivery person is stored |
| `App.App.constructor` | project/src/App.tsx:15-21 | no screens, tab 'Entrada', dialog closed, rosters [Gustavo, Gleison, Heitor] and [João, Maria, Pedro]; the state is valid: every screen agrees with its stage and no roster holds a duplicate |
| `App.App.SetActiveTab` | project/src/App.tsx:84 | the tab is replaced; nothing else changes |
| `App.App.HandleEntrySubmit` | project/src/App.tsx:23-39 | exactly one new screen is appended: 'Em Produção', its fields copied from the form, no recording or delivery; it joins the end of the recording view; the tab becomes 'Gravação'; settings unchanged; validity is kept |
| `App.App.HandleRecordingSubmit` | project/src/App.tsx:41-49 | the registry becomes the 'Gravada' update of the id with the recording date and recorder; nothing else changes; validity is kept |
| `App.App.HandleDeliverySubmit` | project/src/App.tsx:51-65 | the registry becomes the 'Retirada' update of the id with a delivery block stamped now; nothing else changes; validity is kept |
| `App.App.OpenSettings` | project/src/App.tsx:76 | the dialog opens; nothing else changes |
| `App.App.CloseSettings` | project/src/App.tsx:110 | the dialog closes; nothing else changes |
| `App.App.SaveSettings` | project/src/App.tsx:108-113 | the saved settings replace the session's and the dialog closes; saved rosters without duplicates keep the state valid |

## Left out

- Rendering is not modelled: JSX, the Tailwind class strings, `getStatusClass`, and the `Tabs`, `StatusBadge`, `SearchResults` and `Toaster` components are presentation only.
- `SearchBar.tsx` and `utils/notifications.ts` are not part of this model; the toasts raised by `notify` are not shown.
- The clock is not modelled. `Date.now()`, `toISOString()`, `getTime()` and `toLocaleDateString()` become parameters: `id`, `now`, `today`, `currentMonth` and `timeOf`.
- Text.Lower: only ASCII letters are lowercased; JavaScript's full Unicode case mapping (for example 'Ç' to 'ç') is not modelled.
- Validators.EntrySchemaAccepts: string length counts Dafny characters (Unicode scalar values), not UTF-16 code units; the two differ only for characters outside the Basic Multilingual Plane.
- The schema library's error values and messages are not modelled; each schema is a predicate.
- Quantities are integers. `parseInt` yielding NaN, and fractional numbers that `z.number()` would accept, are not modelled.
- Browser form constraints are not modelled: `required`, `maxLength={6}` and `min="1"` are enforced by the browser, not by the handlers, which are modelled as written.
- React mechanics are not modelled: hooks and re-rendering. Each setter is a method that assigns one field.
- The per-field `onChange` setters of the entry form are not modelled. They rewrite one field of `formData`, which the class exposes directly.
- ScreenUtils.ScreenPatch: a patch field is either absent or present with a value. A key present with the value `undefined`, which the spread would copy, is not modelled; no caller passes one.
- Queries.SortNewestFirst: the creation-time key is a total integer function. The NaN that `getTime()` gives for an unparsable date, and the comparator's behaviour on it, are not modelled.
- Queries.SortNewestFirst: stability (screens with equal times keep their input order) is not stated on its own. Its consequence, that filtering and sorting commute (`Queries.FilterSortCommute`), is proved.
- Lists are values, so the copy `[...screens]` made before sorting is implicit. The caller's list cannot be reordered, and aliasing is not modelled.

## Findings

| source | as written | input that shows it | evidently intended | confidence | as-written member | corrected member |
|---|---|---|---|---|---|---|
| project/src/App.tsx:59 | the delivery handler stores `data.deliveryPerson`, but the delivery form submits `{ method, seller }` (DeliveryForm.tsx:38-41), so the stored delivery person is `undefined` | submit a delivery with seller "Maria": the stored `delivery.deliveryPerson` is missing | the seller typed on the form is stored as the delivery person | not executed | `App.SellerLostExample` | `App.SellerKeptOnDelivery` |
| project/src/components/ReportView.tsx:88 | the details cell reads `delivery.seller`, a key the stored delivery block (App.tsx:57-61) does not have, so no seller is ever shown | any delivered screen, even one whose delivery names a person | the cell shows the delivery block's person | not executed | `ReportView.ShownSeller` | `ReportView.ShownSellerIntended` |

Delivery data travels as plain objects, modelled as maps from property names to values, so a
read of a missing key gives `undefined`. `App.AsHandlerData` models the first row as written,
and `App.AsHandlerDataIntended` is the corrected reading. The registry handler `App.App.HandleDeliverySubmit` takes the data in the
shape it declares, so both readings go through the same registry code.
`App.SellerKeptOnDelivery` proves, for every registry and submission, that the corrected
reading stores the seller. It also proves that `ReportView.ShownSellerIntended` then shows it.
