# Fire-door assessment state model

A Dafny model of the client-side core of a fire-door inspection app. An inspector fills in a
site record and a checklist for each door of a building. They attach up to three photos per
door and then save the assessment as a draft or send it for audit.

The model covers:

- **Assessment store** (`Store`). A class with the store's three fields: the site record, the
  ordered door list and the sidebar flag. It also holds the certificate number generated once
  when the store is loaded. Each store operation is a method whose new state is a pure function
  of the old state: partial merge, bulk initialise, map-update, filter-delete, toggle and
  confirm-gated reset. The lemmas about those functions state the length, order and
  "nothing else changes" guarantees. The certificate-number formatter is modelled down to the
  JavaScript string operations it uses (module `Text`).
- **Door card and site form** (`DoorCard`, `SiteDetailsForm`). These are the handlers that write
  to the store. Each one does nothing in read-only mode. Otherwise an edit writes exactly one
  field (a response key, the location, the notes or a site field), and the card's delete
  button removes the card's own door and nothing else. The response buttons are listed in
  both display modes: 15 checklist items × Pass/Fail/N/A, or Pass/Fail on the overall index 99.
- **Derived views** (`Sidebar`, `Preview`). These cover the per-door fail flag, the failure count
  folded over the doors, the Pass/Fail badges, the ten-door breakdown and its overflow line,
  and the text fallbacks.
- **Images** (`ImageUploader`). Appending is capped at three images, and removal is by index.
- **Saving** (`NewInspection`). Two validation checks run in order, and then the row for the
  inspections table is built from the store as it stands. A client scenario creates a store,
  declares two doors, fails one answer and saves.
- **Report list** (`Reports`). The status-tab filter and the per-report display fallbacks.

Inputs from the environment are passed in as parameters:

- the clock, as an ISO-8601 string;
- `Math.random()`, as the base-36 text it prints as;
- the confirmation dialog, as a boolean;
- the signed-in user, as an optional id.

Things the code does that one might not expect, and which the model follows:

- `resetForm` does not issue a fresh certificate number. It restores the single initial state,
  and that state's number was computed once when the module loaded
  (store/useAssessmentStore.ts:58, :105).
- The store has no operation that loads or hydrates an assessment from a saved record.
- The store itself has no read-only lock. Read-only mode exists only in the components: a
  handler returns early, an input is disabled, or the delete button is not rendered. The model
  treats all three the same way, as a `readOnly` guard on the handler.
- Door ids come from `Math.random()` and are not checked for uniqueness. Where a property needs
  unique ids (`UniqueIds`), the model states it as a precondition.
- The store does not enforce the three-image cap or the allowed response keys. Only the
  components keep to them, and the lemmas show that they do.

## Model

| member | source | states |
|---|---|---|
| Store.MergeSiteDetails | store/useAssessmentStore.ts:73-74 | each site field takes the patch's value when the patch supplies it, and keeps its old value otherwise |
| Store.MergeSiteDetailsAlgebra | store/useAssessmentStore.ts:73-74 | an empty patch is the identity; merging the same patch twice equals merging it once; two merges equal one merge of the combined patch, where later fields win |
| Store.MergeDoor | store/useAssessmentStore.ts:95 | each door field takes the patch's value when supplied, and keeps its old value otherwise |
| Store.MergeDoorIdentity | store/useAssessmentStore.ts:95 | an empty door patch changes nothing, and a door patch is idempotent |
| Store.InitialSiteDetails | store/useAssessmentStore.ts:51-62 | the initial site record carries the given certificate number; every text field is empty, the door count is 0 and remedial work is not flagged |
| Store.CertDatePart | store/useAssessmentStore.ts:7 | the date part contains no '-' and no 'T' and is never longer than the ISO text |
| Store.CertRandomPart | store/useAssessmentStore.ts:8 | the random part has at most 3 characters, exactly 3 when the random text has at least 5 |
| Store.GenerateCertNumber | store/useAssessmentStore.ts:5-10 | the number starts with "MAE-", its length is 5 plus the two parts, and a "-" separates the date part from the random part |
| Store.CertDatePartOfIsoDate | store/useAssessmentStore.ts:7 | for an ISO date `YYYY-MM-DDT…`, taking the text before the first 'T' and removing every '-' gives exactly the eight digits `YYYYMMDD` |
| Store.CertRandomPartShape | store/useAssessmentStore.ts:8 | `substring(2,5).toUpperCase()` gives at most 3 characters, exactly 3 iff the random text has at least 5 characters, and all upper-case letters or digits when that text is base-36 |
| Store.CertNumberFormat | store/useAssessmentStore.ts:5-10 | the number is "MAE-", then the 8 date digits, then "-", then 0 to 3 upper-case alphanumerics (13 to 16 characters, 16 iff the random text is long enough) |
| Store.DoorId | store/useAssessmentStore.ts:78 | a door id has at most 9 characters, and is characters 2 to 10 of the random text when that text is long enough |
| Store.NewDoors | store/useAssessmentStore.ts:76-85 | exactly ToLength(count) doors (a negative count gives none); door i has the label "D"+(i+1), the i-th random id, empty text fields, no responses, no images and no action |
| Store.NewDoorLabelsDistinct | store/useAssessmentStore.ts:79 | bulk-created labels are pairwise distinct |
| Store.NewDoorsUniqueIds | store/useAssessmentStore.ts:78 | the doors have unique ids when the random source yields distinct ids; the code itself does not ensure this |
| Store.UpdateDoors | store/useAssessmentStore.ts:93-96 | the length and positions are kept; each door with the id gets the patch merged in, and every other door is unchanged |
| Store.UpdateDoorsAbsent | store/useAssessmentStore.ts:95 | an id that is not in the list leaves the list identical, so nothing is inserted |
| Store.UpdateDoorsAt | store/useAssessmentStore.ts:95 | with unique ids, updating the id at position k rewrites position k only |
| Store.UpdateDoorsKeepsUniqueIds | store/useAssessmentStore.ts:95 | a patch that does not touch `id` keeps ids unique |
| Store.DeleteDoors | store/useAssessmentStore.ts:98-101 | the result is a subsequence of the list, in the same order with nothing added; it holds no door with the id and every door without it; an absent id is a no-op |
| Store.DeleteDoorsCounts | store/useAssessmentStore.ts:100 | copies are counted: a door record without the id keeps every one of its copies, and one with the id keeps none |
| Store.DeleteDoorsConcat | store/useAssessmentStore.ts:100 | the filter works door by door: deleting from a concatenation is deleting from each part |
| Store.DeleteDoorsSplice | store/useAssessmentStore.ts:100 | deleting the id of a door whose id occurs nowhere else cuts out exactly that door |
| Store.DeleteDoorsAt | store/useAssessmentStore.ts:100 | with unique ids, deleting the id at position k removes exactly that position |
| Store.DeleteDoorsKeepsUniqueIds | store/useAssessmentStore.ts:100 | deletion keeps ids unique |
| Store.AssessmentStore.constructor | store/useAssessmentStore.ts:51-71 | the initial state has blank site fields around a certificate number computed once at load, no doors, and the sidebar expanded |
| Store.AssessmentStore.SetSiteDetails | store/useAssessmentStore.ts:73-74 | the site record becomes the merge of the old record and the patch; the doors and the flag are unchanged |
| Store.AssessmentStore.InitializeDoors | store/useAssessmentStore.ts:76-87 | the door list is replaced wholesale by `NewDoors`, and no previous door survives; the site record and the flag are unchanged |
| Store.AssessmentStore.ToggleSidebar | store/useAssessmentStore.ts:90-91 | the flag is negated, so two toggles restore it; nothing else changes (the sidebar's button at components/layout/Sidebar.tsx:25 calls it) |
| Store.AssessmentStore.UpdateDoor | store/useAssessmentStore.ts:93-96 | the door list becomes `UpdateDoors` of the old list; the site record and the flag are unchanged |
| Store.AssessmentStore.DeleteDoor | store/useAssessmentStore.ts:98-101 | the door list becomes `DeleteDoors` of the old list; the site record and the flag are unchanged |
| Store.AssessmentStore.ResetForm | store/useAssessmentStore.ts:103-107 | when declined, nothing changes; when confirmed, the initial state is restored with the SAME certificate number as at load |
| Text.NatToString | store/useAssessmentStore.ts:79 | `${n}` is non-empty decimal digits with no leading zero: a text starting with '0' is exactly "0", the text of 0 |
| Text.ParseNatToString | store/useAssessmentStore.ts:79 | reading the decimal text back gives the number |
| Text.NatToStringInjective | store/useAssessmentStore.ts:79 | different numbers have different decimal text |
| Text.PrefixBefore | store/useAssessmentStore.ts:7 | `split(c)[0]` is a prefix without `c`, and it stops exactly at the first `c` |
| Text.RemoveAll | store/useAssessmentStore.ts:7 | `replace(/c/g,'')` leaves no `c` and keeps every other character with its multiplicity (so it shortens the text by exactly the number of `c`s); it is the identity on text without `c`; order is kept by RemoveAllConcat |
| Text.RemoveAllConcat | store/useAssessmentStore.ts:7 | removing a character distributes over concatenation |
| Text.Substring | store/useAssessmentStore.ts:8 | for 0≤a≤len and a≤b, `substring(a,b)` is the slice from a to min(b,len), of length max(0, min(b,len)-a); it is empty when both ends are past the end |
| Text.Substr | store/useAssessmentStore.ts:78 | `substr(a,n)` has at most n characters: the slice from a to min(a+n,len) when a is within the text, and empty when a is past its end |
| Text.ToUpper | store/useAssessmentStore.ts:8 | the length is kept; each of 'a'..'z' becomes its own capital (code point minus 32), base-36 text becomes upper-case alphanumerics, and every other character is unchanged |
| Text.ReplaceFirst | app/inspect/reports/page.tsx:98 | the length is kept; text without the pattern is unchanged; otherwise only the first occurrence is replaced |
| DoorCard.ResponseButtons | components/forms/DoorCard.tsx:74-122 | detailed mode offers 45 buttons, covering every index 0..14 with every answer and no other index; overall mode offers only index 99 with Pass and Fail |
| DoorCard.ShippedButtonsWriteChecklistItems | components/forms/DoorCard.tsx:35 | the card as shipped renders the detailed checklist, so its buttons write only the keys 0..14, never the overall key 99, and keep the responses well-formed |
| DoorCard.WithResponse | components/forms/DoorCard.tsx:39 | the new map answers `index` with `value`, keeps every other key and value, and adds no other key |
| DoorCard.ButtonKeepsResponsesWellFormed | components/forms/DoorCard.tsx:79-110 | pressing any rendered button, in either mode, keeps the response keys within 0..14 and 99 |
| DoorCard.NewDoorsResponsesWellFormed | store/useAssessmentStore.ts:82 | freshly initialised doors have well-formed (empty) responses |
| DoorCard.CardPatchesWriteOneField | components/forms/DoorCard.tsx:40 | the responses, location and notes patches each change exactly that one field of the door |
| DoorCard.ResponseEditAt | components/forms/DoorCard.tsx:37-41 | with unique ids, answering a question on the door at position k sets that key on that door only; every other door and field stays the same |
| DoorCard.TextEditsAt | components/forms/DoorCard.tsx:52-57 | with unique ids, a location edit (or a notes edit, line 134) changes that one field of that one door |
| DoorCard.HandleResponseChange | components/forms/DoorCard.tsx:37-41 | read-only: the store is untouched; otherwise `updateDoor` runs on the card's own id with the old responses plus the one key |
| DoorCard.HandleLocationChange | components/forms/DoorCard.tsx:52-57 | disabled: the store is untouched; otherwise only the location of the card's door is written |
| DoorCard.HandleNotesChange | components/forms/DoorCard.tsx:130-134 | disabled: the store is untouched; otherwise only the notes of the card's door are written |
| DoorCard.HandleDelete | components/forms/DoorCard.tsx:62-69 | read-only (no button): the store is untouched; otherwise the card's door is deleted |
| SiteDetailsForm.FieldEditSetsOnlyThatField | components/forms/SiteDetails.tsx:16-19 | an edit of business name, site address or contact name sets that field only; the certificate number and all other fields are kept |
| SiteDetailsForm.HandleChange | components/forms/SiteDetails.tsx:16-19 | read-only: nothing changes; otherwise a single-field merge; the certificate number never changes (it has no input, lines 79-83) |
| Sidebar.HasFail | components/layout/Sidebar.tsx:65 | a door whose answers include no Fail has every answer different from Fail, and a door with no answers has not failed (the same test is used at components/preview/StaticBluePrint.tsx:11 and :53) |
| Sidebar.HasFailMeaning | components/layout/Sidebar.tsx:65 | a door has failed iff some response equals Fail; an empty map is not failing |
| Sidebar.HasFailExamples | components/layout/Sidebar.tsx:65 | {3:Fail} fails; {3:Pass, 7:N/A} and {} do not |
| Sidebar.SidebarLabel | components/layout/Sidebar.tsx:78 | the label is never empty: it is `labelId` when set, else "Door "+(index+1) |
| Sidebar.NewDoorsShowOwnLabels | components/layout/Sidebar.tsx:78 | bulk-created doors never fall back: door i shows "D"+(i+1) |
| Sidebar.SidebarEntries | components/layout/Sidebar.tsx:64-88 | there is one entry per door, in order, carrying that door's id, label and fail flag |
| Sidebar.DoorCountShown | components/layout/Sidebar.tsx:59 | the heading's count equals the number of entries listed, one per door |
| Sidebar.ClientNameShown | components/layout/Sidebar.tsx:96 | the client slot is never blank: the business name when it is set, exactly "N/A" when it is empty |
| Preview.FoldFailures | components/preview/StaticBluePrint.tsx:10-13 | the fold adds at most one per door to its start value |
| Preview.TotalFailures | components/preview/StaticBluePrint.tsx:10-13 | 0 ≤ totalFailures ≤ number of doors |
| Preview.TotalFailuresCountsFailBadges | components/preview/StaticBluePrint.tsx:10-13 | totalFailures equals the number of doors whose badge would be "Fail", counted over all doors (the breakdown shows badges for the first ten only) |
| Preview.Badge | components/preview/StaticBluePrint.tsx:53-57 | the badge is "Fail" iff the door has failed, and "Pass" otherwise |
| Preview.Badges | components/preview/StaticBluePrint.tsx:53-57 | the badge each door would get, one per door, in order (the breakdown renders those of the first ten doors) |
| Preview.FailureTileAlert | components/preview/StaticBluePrint.tsx:40 | the tile is red iff some door has failed |
| Preview.PreviewRowOf | components/preview/StaticBluePrint.tsx:51-57 | the title is exactly "Door ", the decimal 1-based position (which parses back to i+1), " (", the label or "N/A" when it is empty, and ")", with nothing else in between (its length is the sum of those parts); the badge is "Fail" iff the door has failed, else "Pass" |
| Preview.PreviewRows | components/preview/StaticBluePrint.tsx:49-60 | there are min(10, n) rows and row i describes door i, so the first ten doors are listed in order |
| Preview.MoreLine | components/preview/StaticBluePrint.tsx:61 | "+(n-10) more..." appears iff there are more than 10 doors |
| Preview.PreviewAccountsForAllDoors | components/preview/StaticBluePrint.tsx:49-61 | the listed rows plus the hidden count equal the number of doors |
| Preview.SiteHeading | components/preview/StaticBluePrint.tsx:30-31 | neither heading line is blank: the business name when set, else exactly "Client Name"; the site address when set, else exactly "Site Address" |
| ImageUploader.AddImage | components/forms/ImageUploader.tsx:21-22 | below 3 images, the image is appended at the end with the originals kept in order; at 3 or more, the list is unchanged |
| ImageUploader.AddImageKeepsCap | components/forms/ImageUploader.tsx:21 | a list of at most 3 stays at most 3, and its old images stay as a prefix |
| ImageUploader.RemoveImage | components/forms/ImageUploader.tsx:29-32 | an index in range removes exactly that element, keeping the rest in order; an index out of range leaves the list unchanged |
| ImageUploader.UploadOffered | components/forms/ImageUploader.tsx:58 | the upload control is shown exactly when a new image would be appended; when it is hidden, an append would be dropped |
| ImageUploader.CounterText | components/forms/ImageUploader.tsx:40 | the counter ends in "/3", and its number reads back as the image count with no leading zero; an empty list shows exactly "0/3" |
| ImageUploader.FileChangeAsWritten | components/forms/ImageUploader.tsx:13-27 | as written, however many files are chosen, at most one image is added, and the old images stay as a prefix |
| ImageUploader.FileChangeAsWrittenLosesImages | components/forms/ImageUploader.tsx:13-27 | as written, choosing two files for an empty list keeps only the second |
| ImageUploader.FileChangeAppendAll | components/forms/ImageUploader.tsx:13-27 | as intended, the old images stay as a prefix and a list within the cap of 3 stays within it |
| ImageUploader.FileChangeAppendAllFills | components/forms/ImageUploader.tsx:13-27 | appending the reads in turn keeps the old images and adds as many new ones as fit, in order, never exceeding 3 |
| NewInspection.BuildSubmission | app/inspect/fire-door/new/page.tsx:30-54 | an empty business name is refused first, then an empty door list; otherwise the row has type "fire-door", the client and project names, the status argument, the user id, and the unchanged site record and doors |
| NewInspection.HandleFinalSync | app/inspect/fire-door/new/page.tsx:30-71 | the result is built from the store snapshot, and the store is never modified (the method has no frame) |
| NewInspection.SubmitAfterOneAnswer | app/inspect/fire-door/new/page.tsx:43-51 | after init(2) and a Fail on question 0 of door 1, the saved row has 2 doors and `doors[0].responses[0] == Fail` |
| Reports.InTab | app/inspect/reports/page.tsx:33 | the "all" tab shows every report; the Drafts tab shows exactly the reports with status "draft", and the awaiting-audit tab exactly those with status "pending_audit" |
| Reports.FilterReports | app/inspect/reports/page.tsx:32-34 | the "all" tab keeps every report; any other tab keeps exactly the reports with that status, in fetched order, adding none |
| Reports.FilterReportsConcat | app/inspect/reports/page.tsx:32-34 | the filter distributes over concatenation |
| Reports.DoorsShown | app/inspect/reports/page.tsx:108 | the door count is the stored list's length, or 0 when the data or the doors are missing |
| Reports.InspectorShown | app/inspect/reports/page.tsx:118 | never blank: the stored engineer initials when non-empty; exactly "ENG" when the data, the site record or the initials are missing or empty |
| Reports.AddressShown | app/inspect/reports/page.tsx:101 | never blank: the project name when set, exactly "No address provided" when it is empty |
| Reports.StatusLabel | app/inspect/reports/page.tsx:98 | the label has the same length as the status |
| Reports.StatusLabelsOfSavedRows | app/inspect/reports/page.tsx:98 | "pending_audit" reads "pending audit", and "draft" reads "draft" |
| Reports.StatusLabelReplacesOnlyFirst | app/inspect/reports/page.tsx:98 | only the first underscore becomes a space; later ones stay |
| Reports.SubmittedReportListing | app/inspect/reports/page.tsx:108-118 | a saved row, when listed, shows its door count and inspector, and appears under "all" and under its own status tab only |

## Left out

- The `persist` middleware, which mirrors the store to browser storage under a fixed key, is
  not modelled. It is a foreign library over browser storage.
- The remote table is not modelled. That covers the auth lookup, the insert, its error path and
  alert, the report fetch, and routing. The user id is a parameter, a successful
  `BuildSubmission` is the payload that would be inserted, and the fetched report list is an
  input.
- The `isSyncing` flag is not modelled. It disables the save buttons during the insert and is
  restored in `finally`.
- Rendering, styling and scrolling are not modelled. That includes the collapsed-sidebar
  layout, `scrollToDoor`, date formatting of `created_at`, the loading state and the
  empty-list message.
- The photo uploader's `onImagesChange` target is not modelled. DoorCard does not mount
  ImageUploader, and its own "Add Photo" button (components/forms/DoorCard.tsx:151) has no handler.
- The PDF export is not part of this model: `generatePDF` comes from utils/generatePDF
  (app/page.tsx:9), which is not modelled. Neither are
  the page's local summary toggle, the login, register and dashboard pages, the header,
  the build configuration, or constants/questions.ts (static question text that DoorCard
  does not use).
- Store.MergeSiteDetails: a patch field is either absent or carries a value. A key present with
  the value `undefined`, which the spread would copy, is not modelled.
- Store.MergeDoor: the same holds for door patches.
- Store.NewDoors: the count is an integer. JavaScript's truncation of a fractional length is not
  modelled; a negative count gives no doors, as ToLength does.
- Store.UpdateDoorsAt: id uniqueness is a precondition, because the code draws ids from
  `Math.random()` without checking them.
- Text.ToUpper: only the ASCII letters a–z are mapped. Full Unicode case mapping is not
  modelled; base-36 text contains nothing else.
- SiteDetailsForm.HandleChange: `field` is one of the three fields the form has inputs for. The
  handler's signature accepts any key and any value type, but its only callers are the inputs at
  components/forms/SiteDetails.tsx:44, 58 and 72.
- JavaScript numbers are modelled as unbounded integers. Floating-point behaviour is not
  modelled.

## Findings

| source | as written | input that shows it | evidently intended | confidence | as-written member | corrected member |
|---|---|---|---|---|---|---|
| components/forms/ImageUploader.tsx:16-24 | every FileReader callback appends to the `images` captured when the files were chosen, and each call replaces the list, so only the last read to complete survives | an empty list and two chosen files "a", "b": the list ends as ["b"] | every chosen image is appended in turn, up to the cap of 3 | not executed; high (the `multiple` input and the stale closure are both in the code) | ImageUploader.FileChangeAsWrittenLosesImages | ImageUploader.FileChangeAppendAllFills |
