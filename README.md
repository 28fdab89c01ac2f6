# VyapaarTrack core, modelled in Dafny

VyapaarTrack is a small browser expense tracker for a group of businesses.
Staff submit expense records, optionally with a receipt image that a
classification service pre-fills. Admins review the queue of records
awaiting review, approve, reject or delete them one by one or in bulk,
filter and export reports, and maintain the two taxonomies: business units
and expense categories. The whole document lives under one key of the
browser's local store.

This project models the logic layer under the markup:

- `types.dfy` holds the entity vocabulary. `constants.dfy` holds the seed
  data and the role-tagged navigation table.
- `storage.dfy` is the persistence adapter: a class over a key-to-document
  map.
- `lifecycle.dfy` holds the list transforms of the application's handlers
  and the per-business-unit approved totals. `app.dfy` is the state holder
  that applies them and saves after each change, plus route guarding.
- `stats_cards.dfy` (dashboard figures), `reports.dfy` (filters, month list,
  period total, selection) and `review_queue.dfy` (pending queue, select
  mode) are the read-only projections and page state.
- `selection.dfy` holds the toggle, select-all and bulk-action rules that
  both pages share.
- `reports_csv.dfy` is the CSV export. It contains the writer as written, a
  CSV reader in the style of RFC 4180, and a corrected writer whose output
  reads back as the values.
- `gemini_service.dfy` holds the classification service's image-size
  arithmetic, its keyless fixed answer, and the post-processing of the
  model's answer.
- `forms.dfy`, `receipt_uploader.dfy` and `edit_expense_modal.dfy` model
  the two expense forms.
- `expense_card.dfy` models the card's receipt source, click dispatch and
  buttons. `layout.dfy` models role-filtered navigation and the sidebar.
  `settings.dfy` models the taxonomy list manager.
- `common.dfy` (option, result, `filter`) and `text.dfy` (`startsWith`,
  `substring`, sort order, `trim`, `join`, `split`) are shared helpers.

How the source is modelled:

- Amounts are exact `real`s.
- The `uuid`, clock and random sources become parameters. Only
  `App.AppState.SimulateForwardedReceipt` requires its id to be absent from
  the list, to state that ids stay unique. `App.AppState.AddExpense` and
  `ReceiptUploader.ReceiptForm.Submit` accept any id, as the source does.
- `confirm()` becomes a boolean argument.
- Callbacks are modelled as the values they hand over. The pages return a
  bulk command, and the application state runs it.

The code has six default business units (`constants.ts:7-14`), and so
does `Constants.DEFAULT_BUSINESS_UNITS`.

## Model

| member | source | states |
|---|---|---|
| Types.StatusRoundTrip | types.ts:4-8 | a status is one of exactly three values, and each reads back from its stored label |
| Types.PaymentMethodRoundTrip | types.ts:10-16 | each of the five payment methods reads back from its stored label |
| Types.RoleRoundTrip | types.ts:18 | each role reads back from its label `admin` / `staff` |
| Types.IdSetSize | pages/Reports.tsx:54 | the id set of a list is as large as the list exactly when ids are unique, strictly smaller otherwise |
| Types.TotalConcat | components/StatsCards.tsx:10-12 | the amount sum of a concatenation is the sum of the parts' sums |
| Types.FilterTotalWithin | pages/Reports.tsx:25-33 | over non-negative amounts, the total of any filtered sub-list lies between 0 and the whole total |
| Constants.DefaultTaxonomies | constants.ts:7-25 | six distinct default units, eight distinct default categories, and "Other" is a category |
| Constants.PaymentMethodsComplete | constants.ts:27 | the payment-method list names all five methods, each once |
| Constants.NavRoles | constants.ts:29-35 | admin is on every navigation entry; staff is on an entry exactly when it is `/add` |
| Constants.SeedExpenses | constants.ts:43-86 | seed ids are e1, e2, e3 (distinct); one Approved record of 12500 and two Pending Review records of 450 and 3200 |
| Storage.DefaultDataShape | services/storage.ts:12-16 | the default document has three expenses, six units and eight categories |
| Storage.LocalStore.LoadData | services/storage.ts:6-19 | present key: the stored document, store unchanged; absent key: the default document, which is then stored |
| Storage.LocalStore.SaveData | services/storage.ts:21-23 | the one key is overwritten with the whole document, nothing else changes |
| Storage.LocalStore.ClearData | services/storage.ts:25-28 | the key is removed, nothing else changes |
| Storage.SaveThenLoad | services/storage.ts:6-23 | a save followed by a load returns the saved document, whatever the store held |
| Storage.ClearThenLoad | services/storage.ts:6-28 | after a clear, a load reseeds the default document and stores it |
| Storage.LoadTwice | services/storage.ts:6-19 | loading twice gives the same document as loading once |
| Lifecycle.SetStatusWhere | App.tsx:111-117 | exactly the records whose id is in the set take the new status; all other records are kept, length and positions preserved |
| Lifecycle.UpdateStatus | App.tsx:103-108 | exactly the records with the given id take the new status; the rest are unchanged |
| Lifecycle.StatusChangeKeepsIds | App.tsx:116 | a status change keeps every id in place and keeps ids unique |
| Lifecycle.StatusChangeKeepsTotal | App.tsx:116 | a status change keeps the grand total of amounts |
| Lifecycle.StatusChangeNoMatch | App.tsx:107 | ids that name no record leave the list as it was |
| Lifecycle.StatusChangeConcat | App.tsx:116 | a status change applies piecewise across a split of the list (order kept) |
| Lifecycle.StatusChangeCounts | App.tsx:111-117 | the target status bucket grows by the selected records not yet in it; every other bucket shrinks by its selected records |
| Lifecycle.RemoveWhere | App.tsx:120-126 | survivors are exactly the records whose id is not in the set |
| Lifecycle.RemoveId | App.tsx:129-135 | every record with the id goes; every other record stays |
| Lifecycle.RemoveConcat | App.tsx:125 | deleting keeps the survivors' relative order |
| Lifecycle.RemoveLength | App.tsx:125 | new length = old length minus the number of matching records |
| Lifecycle.RemoveNoMatch | App.tsx:125 | ids that name no record delete nothing |
| Lifecycle.RemoveKeepsUnique | App.tsx:125 | deleting keeps ids unique |
| Lifecycle.ReplaceById | App.tsx:140-145 | every record with the edited record's id becomes it; all others are kept; length kept |
| Lifecycle.ReplaceKeepsIds | App.tsx:144 | replacement keeps ids and their uniqueness; with no match it is a no-op; otherwise the edited record is in the list |
| Lifecycle.ReplaceWithSame | App.tsx:144 | replacing a record with itself changes nothing |
| Lifecycle.PrependFresh | App.tsx:97-99 | prepending a record with a fresh id keeps ids unique and puts its id first |
| Lifecycle.SumByUnit | App.tsx:187-190 | the accumulating `reduce`: one entry per unit present, each that unit's total, the unit list naming each unit once, entries summing to the list total |
| Lifecycle.ExpensesByBusiness | App.tsx:185-190 | entries exist exactly for units with an approved record; each is that unit's approved total; they sum to the dashboard's approved total |
| StatsCards.TotalSpent | components/StatsCards.tsx:10-12 | the approved total: over non-negative amounts between 0 and the grand total; 0 when nothing is approved |
| StatsCards.PendingAmount | components/StatsCards.tsx:14-16 | the pending amount: over non-negative amounts between 0 and the grand total; 0 when nothing is pending |
| StatsCards.PendingCount | components/StatsCards.tsx:18 | at most the list length, and 0 exactly when no record is pending |
| StatsCards.ApprovedCount | components/StatsCards.tsx:21 | at most the list length, and 0 exactly when no record is approved |
| StatsCards.AvgTicketSize | components/StatsCards.tsx:21-22 | 0 when nothing is approved; otherwise average times approved count equals the approved total |
| StatsCards.StatusBreakdown | components/StatsCards.tsx:10-21 | the three status counts add up to the list length and the three amounts to the grand total |
| StatsCards.DashboardConcat | components/StatsCards.tsx:10-21 | approved total, pending amount, pending count and approved count are additive over concatenation |
| StatsCards.AvgTicketWithinRange | components/StatsCards.tsx:22 | the average ticket lies between bounds on the approved amounts |
| StatsCards.SeedDashboard | components/StatsCards.tsx:10-22 | on the seed data: approved 12500, pending 3650 over 2 records, 1 approved, average 12500 |
| Layout.FilteredNav | components/Layout.tsx:18-20 | the listed entries come from the navigation table and are visible to the user |
| Layout.FilteredNavAll | components/Layout.tsx:18-20 | without a user, and for an admin, every entry is listed in table order |
| Layout.FilteredNavStaff | components/Layout.tsx:18-20 | a staff member sees exactly the `/add` entry |
| Layout.ShowSignOut | components/Layout.tsx:82-90 | the sign-out button shows only for a signed-in user |
| Layout.LayoutView.constructor | components/Layout.tsx:14 | the sidebar starts closed |
| Layout.LayoutView.ToggleMenu | components/Layout.tsx:27 | the menu button flips the sidebar |
| Layout.LayoutView.NavLinkClick | components/Layout.tsx:66 | following a link closes the sidebar |
| Layout.LayoutView.OverlayClick | components/Layout.tsx:106-109 | the overlay, present while open, closes the sidebar |
| Layout.LayoutView.ToggleTwice | components/Layout.tsx:27 | two menu presses restore the sidebar state |
| Selection.Toggle | pages/Reports.tsx:40-48 | the id's membership flips; every other id keeps its membership |
| Selection.ToggleTwice | pages/ReviewQueue.tsx:20-28 | toggling the same id twice restores the selection |
| Selection.SelectAllOrClear | pages/Reports.tsx:50-56 | clears when the selection size equals the shown count; otherwise exactly the shown ids |
| Selection.SelectAllDecidesOnFullSelection | pages/Reports.tsx:51 | with unique shown ids and a selection among them, the size test is exactly "all selected" |
| Selection.SelectAllTwice | pages/ReviewQueue.tsx:30-36 | on a non-empty list with unique ids select-all alternates between all and nothing |
| Selection.SelectAllWithRepeatedIds | pages/Reports.tsx:51 | with a repeated shown id the size test never holds, so the button always selects |
| Selection.Execute | pages/Reports.tsx:58-72 | a command is issued iff the selection is non-empty and (for delete) confirmed; approve/reject become Approved/Rejected status changes on exactly the selection |
| Reports.FilteredExpenses | pages/Reports.tsx:25-31 | a record is kept iff it matches the unit filter (or "All") and its date starts with the month (or "All") |
| Reports.FilteredConcat | pages/Reports.tsx:25-31 | the filter keeps input order |
| Reports.FilteredAll | pages/Reports.tsx:25-31 | with both filters at "All" nothing is filtered out |
| Reports.TotalAmount | pages/Reports.tsx:33 | over non-negative amounts, the period total lies between 0 and the grand total |
| Reports.TotalAmountAll | pages/Reports.tsx:33 | with both filters at "All" the period total is the grand total |
| Reports.TotalAmountConcat | pages/Reports.tsx:33 | the period total is additive over concatenation |
| Reports.InsertDescending | pages/Reports.tsx:19-21 | adding a month keeps the list strictly descending, with exactly the old months plus the new one |
| Reports.AvailableMonths | pages/Reports.tsx:18-22 | months are distinct, strictly descending, and exactly the 7-character prefixes of the record dates |
| Reports.OfferedMonthSelects | pages/Reports.tsx:18-31 | every offered month selects at least one record |
| Reports.ReportsView.constructor | pages/Reports.tsx:13-15 | both filters start at "All", with no selection |
| Reports.ReportsView.CsvContent | pages/Reports.tsx:76-93 | the export of the shown rows as written: when no shown record is unsafe for it, it reads back as the header and each shown record's ten values; when no value holds a newline, its lines are the header and one row per shown record |
| Reports.ReportsView.ShowActionBar | pages/Reports.tsx:231 | the bulk bar shows while the selection is not empty |
| Reports.ReportsView.AllChecked | pages/Reports.tsx:177 | the header checkbox is ticked iff the selection is non-empty and as large as the shown rows |
| Reports.ReportsView.SetBusiness | pages/Reports.tsx:35-38 | the unit filter is set; a changed filter clears the selection |
| Reports.ReportsView.SetMonth | pages/Reports.tsx:35-38 | the month filter is set; a changed filter clears the selection |
| Reports.ReportsView.ToggleSelection | pages/Reports.tsx:40-48 | the selection becomes the toggle of the old one; filters untouched |
| Reports.ReportsView.SelectAll | pages/Reports.tsx:50-56 | the selection becomes select-all-or-clear over the shown rows |
| Reports.ReportsView.ExecuteBulkAction | pages/Reports.tsx:58-72 | returns the command for the selection; the selection is cleared exactly when a command was issued |
| ReviewQueue.PendingExpenses | pages/ReviewQueue.tsx:18 | exactly the Pending Review records; as many as the dashboard's pending count |
| ReviewQueue.PendingConcat | pages/ReviewQueue.tsx:18 | the queue keeps list order |
| ReviewQueue.ReviewQueueView.constructor | pages/ReviewQueue.tsx:15-16 | the page starts outside select mode with no selection |
| ReviewQueue.ReviewQueueView.ShowSelectButton | pages/ReviewQueue.tsx:64 | the select-mode button shows only while some record is pending review |
| ReviewQueue.ReviewQueueView.ShowActionBar | pages/ReviewQueue.tsx:108 | the floating bar shows in select mode with a non-empty selection |
| ReviewQueue.ReviewQueueView.ToggleSelectMode | pages/ReviewQueue.tsx:64-69 | select mode flips, the selection empties, and the action bar is hidden |
| ReviewQueue.ReviewQueueView.ToggleSelection | pages/ReviewQueue.tsx:20-28 | the selection becomes the toggle of the old one |
| ReviewQueue.ReviewQueueView.SelectAll | pages/ReviewQueue.tsx:30-36 | the selection becomes select-all-or-clear over the pending records |
| ReviewQueue.ReviewQueueView.ExecuteBulkAction | pages/ReviewQueue.tsx:38-54 | a command issued clears the selection, leaves select mode and hides the action bar (line 108); otherwise nothing changes |
| Settings.RemoveAt | pages/Settings.tsx:29 | the list without the entry at the index, the others in order; an index past the end removes nothing |
| Settings.RemoveAtByPosition | pages/Settings.tsx:29 | exactly one occurrence (at the index) goes; equal entries elsewhere survive |
| Settings.HandleDelete | pages/Settings.tsx:27-31 | an update happens iff confirmed; the update is the list without the entry at the index, the others in order, so one entry fewer, the one at the index |
| Settings.ListManager.constructor | pages/Settings.tsx:18 | the input box starts empty |
| Settings.ListManager.SetNewValue | pages/Settings.tsx:44 | typing sets the box to the typed text |
| Settings.ListManager.HandleAdd | pages/Settings.tsx:20-25 | iff the trimmed value is non-blank: appended trimmed at the end, even when already present, and the box is cleared; otherwise nothing changes |
| ReportsCsv.Escape | pages/Reports.tsx:80 | quote doubling changes nothing in a value without quotes |
| ReportsCsv.AsWrittenIsEncoding | pages/Reports.tsx:77-88 | when the business unit holds no double quote, the row as written is the comma-join of ten cells, bare or quoted |
| ReportsCsv.AsWrittenReadsBack | pages/Reports.tsx:77-88 | when the bare and quoted-unescaped values hold no comma, quote or newline, the row as written reads back as the ten values |
| ReportsCsv.AsWrittenCommaInCategory | pages/Reports.tsx:82 | a category with a comma makes the row as written read back as eleven values, splitting the category |
| ReportsCsv.AsWrittenLines | pages/Reports.tsx:90-93 | with no newline in any value, the document as written splits into the header line and one line per record, in order |
| ReportsCsv.AsWrittenDocumentReadsBack | pages/Reports.tsx:76-93 | when no record has a comma, quote or newline in a bare value or a quote in its unit, the whole document as written reads back as the header and each record's ten values, in order |
| ReportsCsv.AsWrittenCsvFacts | pages/Reports.tsx:76-93 | the two conditional facts about the document as written: read back under the safety condition, one line per record without newlines |
| ReportsCsv.CsvReadsBack | pages/Reports.tsx:76-93 | the corrected export reads back as the header and the ten values of each record, in order, whatever they contain |
| GeminiService.RoundDiv | services/geminiService.ts:18 | `Math.round(n / d)`: the nearest integer, halves rounded up |
| GeminiService.ResizeDims | services/geminiService.ts:14-20 | a wider image goes to the cap with its height scaled by the same rounded ratio (never taller); otherwise both sizes kept |
| GeminiService.ResizeWithinCap | services/geminiService.ts:17-20 | the resized width never exceeds 800 and the height never grows |
| GeminiService.OrElse | services/geminiService.ts:64 | JavaScript `a \|\| b` on strings: one of the two; empty iff both are; a non-empty first operand wins |
| GeminiService.MockResult | services/geminiService.ts:58-70 | the keyless answer: confidence 0.9, amount 1234.5, today's date, first category or "Materials", first unit or "Head Office" |
| GeminiService.MockPicksFromLists | services/geminiService.ts:64-68 | the keyless answer picks list entries when the lists start with one, and the fixed labels on empty lists |
| GeminiService.Clamp | services/geminiService.ts:121-133 | an offered category is kept, an absent or unoffered one becomes exactly "Other"; an offered unit is kept, an unoffered one becomes unset; other fields pass through; confidence 1 |
| GeminiService.ClampIdempotent | services/geminiService.ts:121-122 | clamping an already clamped answer changes nothing |
| GeminiService.ClampCategoryInList | services/geminiService.ts:121 | with the default categories the category is always an offered one |
| GeminiService.AnalyzeReceiptImage | services/geminiService.ts:58-138 | no key: the fixed answer; a failed call: exactly the "Failed to analyze receipt image." error; otherwise the clamped answer |
| ExpenseCard.ReceiptSrc | components/ExpenseCard.tsx:38-46 | a `data:` image is kept; other non-empty images get the JPEG data prefix; without an image, the receipt URL |
| ExpenseCard.ReceiptSrcIdempotent | components/ExpenseCard.tsx:41-43 | the computed source, stored back as the image, yields itself |
| ExpenseCard.ShowsReceiptIff | components/ExpenseCard.tsx:113 | the thumbnail shows iff there is a non-empty image or a non-empty URL |
| ExpenseCard.Click | components/ExpenseCard.tsx:51-57 | toggles this id iff in select mode with a toggle handler; otherwise opens the record iff a click handler is supplied |
| ExpenseCard.ShowEditButton | components/ExpenseCard.tsx:102 | the edit button: outside select mode, with an edit handler |
| ExpenseCard.ShowReviewButtons | components/ExpenseCard.tsx:128 | the approve and reject buttons: outside select mode, on a Pending Review record, with a status handler |
| ExpenseCard.ApproveFromCard | components/ExpenseCard.tsx:128-131 | with unique ids, approving from a shown button moves one record from the pending count to the approved count |
| ExpenseCard.RejectFromCard | components/ExpenseCard.tsx:128-137 | with unique ids, rejecting from a shown button moves one record from the pending count to the rejected count |
| ExpenseCard.SelectModeCard | components/ExpenseCard.tsx:51-57 | in select mode no edit or review button shows; a click toggles the id when a toggle handler is given, else opens the record when a click handler is |
| Forms.AmountValue | components/ReceiptUploader.tsx:74 | `parseFloat(v) \|\| 0`: not-a-number becomes 0, a number is kept |
| EditExpenseModal.ApplyEdit | components/EditExpenseModal.tsx:35-41 | the named field takes the control's value (the parsed amount for the amount, the text as reference); every other editable field keeps its value; id, status, submitter, time, images and review note are never touched |
| EditExpenseModal.ApplyEditLastWins | components/EditExpenseModal.tsx:35-41 | two changes of one field: the later wins |
| EditExpenseModal.ApplyEditCommute | components/EditExpenseModal.tsx:35-41 | changes of different fields commute |
| EditExpenseModal.ApplyEdits | components/EditExpenseModal.tsx:35-48 | any sequence of changes keeps the id and the submission fields |
| EditExpenseModal.HasReceiptIffSource | components/EditExpenseModal.tsx:56-59 | the dialog's `hasReceipt` holds iff the receipt source is a non-empty string |
| EditExpenseModal.EditModal.Renders | components/EditExpenseModal.tsx:33 | the dialog renders only when open and given a record |
| EditExpenseModal.EditModal.constructor | components/EditExpenseModal.tsx:25-31 | the form starts as a copy of the supplied record |
| EditExpenseModal.EditModal.SetProps | components/EditExpenseModal.tsx:27-31 | a different supplied record is copied into the form; otherwise the form is kept |
| EditExpenseModal.EditModal.InputChange | components/EditExpenseModal.tsx:35-41 | only the named field of the form changes; the dialog keeps rendering |
| EditExpenseModal.EditModal.Submit | components/EditExpenseModal.tsx:43-48 | hands back the edited record, which has the supplied record's id |
| EditExpenseModal.EditModal.Delete | components/EditExpenseModal.tsx:50-54 | hands back the supplied record's id iff a delete handler is given |
| ReceiptUploader.InitialDraft | components/ReceiptUploader.tsx:23-33 | the initial form, and the form after a submission (stated by the next row) |
| ReceiptUploader.InitialDraftDefaults | components/ReceiptUploader.tsx:23-33 | the form starts pending, UPI, at 0 with empty texts, proposing the first unit and category |
| ReceiptUploader.Pick | components/ReceiptUploader.tsx:55-60 | `suggested \|\| previous` on text: the suggestion iff it is present and non-empty, otherwise the previous value; empty only when both are |
| ReceiptUploader.PickAmount | components/ReceiptUploader.tsx:54 | `suggested \|\| previous` on the amount: the suggestion iff it is present and non-zero, otherwise the previous value; 0 only when both are |
| ReceiptUploader.Merge | components/ReceiptUploader.tsx:52-61 | each of the seven suggested fields takes its truthy suggestion or keeps its value; status and payment method are never touched |
| ReceiptUploader.MergeIdempotent | components/ReceiptUploader.tsx:52-61 | merging the same answer twice is merging it once |
| ReceiptUploader.MergeNothing | components/ReceiptUploader.tsx:52-61 | an answer without truthy suggestions leaves the form as it was |
| ReceiptUploader.MergeAfterClamp | components/ReceiptUploader.tsx:49-61 | after a service answer the category is offered, "Other" or the previous one; the unit is offered or the previous one |
| ReceiptUploader.MergeMock | components/ReceiptUploader.tsx:49-61 | without a key the fixed answer fills amount, merchant, description, reference, category and unit |
| ReceiptUploader.ApplyToDraft | components/ReceiptUploader.tsx:70-76 | the named field takes the control's value (the parsed amount for the amount); every other field keeps its value; the status never changes |
| ReceiptUploader.SameSlots | components/ReceiptUploader.tsx:70-76 | forms that agree on the status and on every field are equal, so the field-by-field statements above fix the whole new form |
| ReceiptUploader.ApplyToDraftFields | components/ReceiptUploader.tsx:70-76 | different fields commute; of one field the later wins |
| ReceiptUploader.StoredImage | components/ReceiptUploader.tsx:85 | `imagePreview \|\| undefined`: a non-empty preview is stored as it is; an absent or empty one stores nothing |
| ReceiptUploader.ToExpense | components/ReceiptUploader.tsx:80-87 | the new record has the fresh id, the user's name and id, the time, and the form's status, amount, date, merchant, unit, category, payment method, description and reference, with the preview as image |
| ReceiptUploader.ReceiptForm.constructor | components/ReceiptUploader.tsx:16-33 | the initial form, no preview, no error |
| ReceiptUploader.ReceiptForm.HandleFileChange | components/ReceiptUploader.tsx:35-68 | no file: nothing; a file: a preview data URL, then the merged answer, or on failure the form unchanged with the scan-failed message; never left analysing |
| ReceiptUploader.ReceiptForm.InputChange | components/ReceiptUploader.tsx:70-76 | only the named field changes; preview and error kept |
| ReceiptUploader.ReceiptForm.Submit | components/ReceiptUploader.tsx:78-102 | returns a Pending Review record with the fresh id, then the form is back at its defaults with no preview |
| ReceiptUploader.ReceiptForm.RemoveImage | components/ReceiptUploader.tsx:143-145 | the preview goes, and amount, merchant, description and reference are cleared; the other fields stay |
| Text.Take | pages/Reports.tsx:20 | `substring(0, n)`: a prefix of length min(n, length) |
| Text.TrimEmptyIff | pages/Settings.tsx:21 | a trimmed value is empty iff the input is all white space |
| Text.TrimIdempotent | pages/Settings.tsx:22 | trimming twice is trimming once |
| Text.SplitJoin | pages/Reports.tsx:90-93 | splitting a join on its separator recovers the parts when no part holds it |
| App.ProtectedRoute | App.tsx:57-63 | no user: redirect to login; the page iff no role list or the user's role is listed; otherwise access denied |
| App.Route | App.tsx:196-295 | without a user only the login screen; `/add` renders for every user; an admin page shows access denied to staff; any other path redirects to `/` for an admin and to `/add` otherwise |
| App.RouteOfGuardedPath | App.tsx:203-292 | on a guarded path a user gets the page iff the path is `/add` or the user is an admin, and access denied otherwise |
| App.RedirectLandsOnPage | App.tsx:295 | the catch-all redirect lands on a page the user may see |
| App.NavAgreesWithRoutes | App.tsx:203-295 | a navigation entry is listed iff following it renders the page; otherwise the route shows access denied |
| App.ForwardedReceipt | App.tsx:162-177 | the forwarded receipt is Pending Review with the first unit and a whole amount in [100, 5099] |
| App.ForwardedReceiptCounts | App.tsx:160-178 | inserting it adds one pending request and its amount to the pending figures; the approved total stays |
| App.AppState.constructor | App.tsx:66-68 | no document, no user, no open editor |
| App.AppState.Mount | App.tsx:71-85 | the stored or default document is loaded and saved; a saved session restores the user |
| App.AppState.Commit | App.tsx:81-85 | the new document is the state and is written under the key |
| App.AppState.Login | App.tsx:87-90 | the user is set and saved as the session |
| App.AppState.Logout | App.tsx:92-95 | the user and the saved session are cleared |
| App.AppState.AddExpense | App.tsx:97-100 | the new record is prepended to the unchanged old list; no document, no change |
| App.AppState.UpdateStatus | App.tsx:103-109 | the list becomes the single-id status change of the old list |
| App.AppState.BulkStatusChange | App.tsx:111-118 | the list becomes the set status change of the old list |
| App.AppState.BulkDelete | App.tsx:120-127 | the list becomes the old list without the records whose id is in the set |
| App.AppState.RunBulkCommand | App.tsx:111-127 | a page's bulk command runs as the matching handler |
| App.AppState.SingleDelete | App.tsx:129-138 | only a confirmed delete removes the records with the id and closes the editor |
| App.AppState.SaveEdit | App.tsx:140-147 | records with the edited id are replaced and the editor closes |
| App.AppState.UpdateBusinessUnits | App.tsx:149-152 | the unit list is replaced wholesale |
| App.AppState.UpdateCategories | App.tsx:154-157 | the category list is replaced wholesale |
| App.AppState.SimulateForwardedReceipt | App.tsx:160-180 | the forwarded receipt with a fresh id is prepended |
| App.AppState.OpenEditor | App.tsx:217 | an edit button opens the editor on that record |
| App.AppState.CloseEditor | App.tsx:301 | closing the dialog clears the record being edited |

## Left out

- Rendering, JSX markup, styling, icons, the chart and the router itself are presentation. The route table is kept as `App.Route`.
- `localStorage` and JSON are modelled as a map of documents, with serialisation taken as an exact round trip. `window.location.reload` after `clearData` is not modelled.
- The classification network call, its prompt and its response schema belong to a foreign, nondeterministic service. Its outcome is a parameter: a parsed answer or an error.
- `FileReader`, `Image`, canvas drawing and JPEG compression in `resizeImage` are browser APIs. Only the width and height arithmetic is modelled.
- `uuidv4`, `new Date()` and `Math.random` become parameters. `alert` is ignored; `confirm` is a boolean argument.
- Floating point is not modelled. Amounts are exact reals, and `parseFloat` is taken as already applied: none stands for NaN.
- The amount-to-text conversion of the CSV export is an abstract `amountText` parameter. The `Blob` and download link are not modelled.
- Only the final state around the asynchronous classification is modelled, not the `isAnalyzing` timing. `Valid()` states that no analysis is running between events.
- JavaScript `undefined` from `xs[0]` on an empty list is written as the empty string.
- The model uses one character order for the month sort. JavaScript's order on UTF-16 code units is not distinguished from code-point order.
- Lifecycle.ExpensesByBusiness: the units come back in first-seen order. The model does not state JavaScript's own key-order rules for objects, such as integer-like keys coming first. Every unit name is an ordinary key here, while the source accumulates into a plain `{}`: a unit named after an `Object.prototype` member such as `constructor` or `toString` starts from the inherited function, so `acc[curr.businessUnit] || 0` is that function and the sum becomes a string entry, and `__proto__` yields no entry at all.
- Lifecycle.SumByUnit: the same `Object.prototype` names are not modelled; the model's per-unit totals hold only for unit names that are not members of `Object.prototype`.
- App.Route: paths are compared as exact strings. React Router matches paths case-insensitively and ignores a trailing slash, so `/Review/` reaches the review page in the source but counts as an unknown path here.
- A selection is a set. `Array.from(selectedIds)` order is not modelled, since the receiving handlers only test membership.
- EditExpenseModal.EditModal.SetProps: the effect fires on a new object reference. The model compares records by value, so re-supplying an equal copy keeps the form.
- The filter sentinel "All" is compared as a plain string. A business unit literally named "All" is therefore indistinguishable from no filter, as in the source.
- The receipt form's payment buttons are modelled as a `PaymentMethodInput` change event of the shared form input type.
- `MOCK_USERS` and the login screen are kept as data only. Choosing a demo user is `App.AppState.Login`.
- Optional record properties are `Option` fields. Unknown extra properties of a stored document are not modelled.

## Findings

| source | as written | input that shows it | evidently intended | confidence | as-written member | corrected member |
|---|---|---|---|---|---|---|
| pages/Reports.tsx:77-88 | id, date, category, amount, status, payment method and submitter are written bare, and the business unit is quoted without doubling its quotes | a record whose category is `Food, Travel` | a ten-column CSV whose every row reads back as the record's ten values | medium, not executed | ReportsCsv.AsWrittenCommaInCategory | ReportsCsv.CsvReadsBack |

`ReportsCsv.AsWrittenCommaInCategory` shows the problem. The row as written
reads back as eleven values, with the category split in two, so every
later column shifts by one. `ReportsCsv.Csv` is the corrected writer: it
quotes every value and doubles its quotes. `ReportsCsv.CsvReadsBack` proves
that its output reads back as the header and each record's ten values,
whatever the values contain. `Reports.ReportsView.CsvContent` writes the
export as the program does. `ReportsCsv.AsWrittenDocumentReadsBack` states
when that output still reads back as the values. A newline inside a bare
value would likewise break the line structure; `ReportsCsv.AsWrittenLines`
states when the written lines are intact.
