# ROI tracker client: a Dafny model

The ROI tracker is a small React client for daily return-on-investment
entries. An entry is a dated record with these parts:

- a total revenue;
- a list of purchase items;
- an `expenses` object made of three item lists (staff salary, staff
  accommodation, other) and twelve flat numeric fields (food, rent, …).

There are two roles:

- The **owner** adds and edits entries freely and approves or rejects
  edit requests.
- **Staff** ask for permission to change one field of one entry by naming
  its *field path* (`purchaseCost[0].amount`, `expenses.food`, …). Once a
  request is approved, the edit page unlocks that one input, and a staff
  save sends only the approved fields that changed.

The pages are:

- the entries list;
- the summary;
- the owner and staff dashboards;
- the details page with its edit-request form;
- the edit page;
- the add page;
- the request list.

Together they compute the same totals — revenue, expenses, profit, ROI and
margin — each with its own guards.

This project models those pages as pure functions over immutable
datatypes, with one module per page and a few shared modules:

- `Values`: amounts (`Num = Blank | Val(n)`) and `Number(x || 0)`
  (`Norm`), JavaScript truthiness, `Number` on URL text, and occurrence
  counting.
- `Records`: the entry record, shared by fetched entries, form states and
  payloads.
- `Paths`: field paths as a datatype, with the following parts.
  - Their string form (`Render`) is what the pages build. A parser shows
    that the string form is injective.
  - `Lookup` and `Apply` read and write the leaf at a path.
  - `LeafPaths` lists every leaf of a form in the order the staff diff
    visits them.
- `Ledger`: edit requests, the confirmation dialog and the pending filter.
- `Finance`: the expense folds, the summary totals and the guarded
  percentage.
- `Queries`: the date-range filter and query parameters shared by the
  entries list, the summary and the staff dashboard.
- One module per page: `EditEntry`, `EntryDetails`, `RequestsPage`,
  `StaffDashboard`, `EntriesPage`, `Dashboard` and `AddEntry`.

## Model

| member | source | states |
|---|---|---|
| Values.JsNumber | src/pages/Requests.jsx:21 | `Number` on a URL parameter, in the integer forms the model reads: the result is a number if and only if the text is empty, all digits, or a minus sign followed by at least one digit and only digits. The empty string reads as 0, digits as the number they denote, and a minus sign before digits as the negated number. |
| Values.JsNumberOfIntText | src/pages/Requests.jsx:45-53 | A page number written into the URL reads back as the same number, negative ones included. |
| Records.AddItem | src/pages/AddEntry.jsx:50-52 | "+ Add" appends exactly one blank item to the chosen list. The existing items, the other lists and every other field are unchanged. The edit page's `addArrayItem` (EditEntry.jsx:140-142) does the same. |
| Records.DatePrefix | src/pages/EditEntry.jsx:73 | The prefilled date has no `T` and is a prefix of the stored timestamp. It ends exactly where the first `T` was. |
| Records.DatePrefixIdempotent | src/pages/EditEntry.jsx:191 | Taking the date part of a date that was already cut changes nothing, so an untouched date field never differs from its baseline. |
| Paths.ParseRender | src/pages/EditEntry.jsx:108-110 | Every path string the pages build (`pcPath`, `expSinglePath`, `expArrPath`, `"totalRevenue"`, `"date"`) parses back to the field it was built for. |
| Paths.RenderInjective | src/pages/EditEntry.jsx:108-110 | Two fields get the same path string exactly when they are the same field, so an approval names one input. |
| Paths.Apply | src/pages/EditEntry.jsx:132-137 | An input edit succeeds exactly when the path names an existing leaf of the same kind (text or number). Otherwise there is no result, where the source would write to a missing item. |
| Paths.ApplyLocality | src/pages/EditEntry.jsx:132-137 | After an edit the edited leaf reads the new value, every other leaf reads as before, and no list changes length. |
| Paths.ItemPathsCount | src/pages/EditEntry.jsx:197-208 | Walking an item list visits each existing item's text key and amount exactly once, and no other path. |
| Paths.SinglePathsFollowKeys | src/pages/EditEntry.jsx:211-225 | The single-field walk visits `expenses.<key>` for the twelve keys in the page's order. |
| Paths.SinglePathsCount | src/pages/EditEntry.jsx:211-231 | The single-field walk visits each single field exactly once. |
| Paths.LeafPathsCount | src/pages/EditEntry.jsx:180-271 | The whole staff diff visits every leaf of the form exactly once, and nothing that is not a leaf. |
| Paths.LeafPathsExact | src/pages/EditEntry.jsx:180-271 | A path is visited by the staff diff if and only if the form has a leaf there. |
| Ledger.OpenDialog | src/pages/Requests.jsx:147-153 | Approve or Reject on a row opens the dialog carrying that row's id and the button's decision. |
| Ledger.ConfirmAction | src/pages/Requests.jsx:55-60 | Confirm sends a status change if and only if the dialog holds both an id and an action, and it sends exactly those. The dialog is closed afterwards in every case. |
| Ledger.ConfirmOnce | src/pages/staffDashboard.jsx:51-56 | Confirming an opened row dialog sends that row's decision once. Confirming again sends nothing. |
| Ledger.PendingRequests | src/pages/Dashboard.jsx:32 | The pending list holds only pending requests and is no longer than the input. |
| Ledger.PendingConcat | src/pages/staffDashboard.jsx:73 | The pending filter keeps input order: filtering a concatenation concatenates the filtered parts. |
| Ledger.PendingCount | src/pages/staffDashboard.jsx:73 | Each pending request is kept as often as it occurs, and every other request is dropped. |
| Ledger.LatestRequests | src/pages/staffDashboard.jsx:74 | The latest requests are the first min(3, number pending) pending requests. |
| EditEntry.ApprovedPaths | src/pages/EditEntry.jsx:37-44 | The approved set holds the path of every unconsumed approved request, and nothing else. |
| EditEntry.IsDisabled | src/pages/EditEntry.jsx:145-149 | The owner can use every input. Staff can use exactly the inputs whose path is approved. Any other role can use none. |
| EditEntry.ApprovalOnlyEnables | src/pages/EditEntry.jsx:145-149 | More approved paths never disable an input that fewer approved paths enabled. |
| EditEntry.StaffApprovalIsExact | src/pages/EditEntry.jsx:145-149 | With one approved path, a staff member can use exactly the input of that field and no other. |
| EditEntry.FieldValue | src/pages/EditEntry.jsx:198-206 | The diff compares a number for every amount, revenue and single field, and a text for every other leaf. A stored number `x` is compared as `Number(x || 0)`, a stored text as itself, and a missing item as `{}`: amount 0 and empty text. |
| EditEntry.Prefill | src/pages/EditEntry.jsx:71-105 | The form is filled with the date part of the stored date and with the entry's revenue, lists and expenses. |
| EditEntry.ChangeSetConcat | src/pages/EditEntry.jsx:180-271 | The updates of consecutive sections are the updates of each section, appended in order. |
| EditEntry.ChangeSet | src/pages/EditEntry.jsx:180-271 | The reference definition of the staff diff sends at most one update per visited path; `EditEntry.ChangeSetSound` and `EditEntry.ChangeSetCount` state which. |
| EditEntry.ChangeSetSound | src/pages/EditEntry.jsx:180-271 | Every update comes from a leaf that is enabled for the caller and differs from the baseline. It carries that leaf's path string and normalised form value. |
| EditEntry.ChangeSetCount | src/pages/EditEntry.jsx:180-271 | An update for a path occurs as often as the path is visited when that path is enabled, changed and holds that value, and never otherwise. |
| EditEntry.ListUpdates | src/pages/EditEntry.jsx:197-208 | The loop over one item list produces the change set of its items in index order, text key before amount. |
| EditEntry.SingleUpdates | src/pages/EditEntry.jsx:211-231 | The loop over the twelve single fields produces their change set in the page's order. |
| EditEntry.ChangeSetSections | src/pages/EditEntry.jsx:183-268 | The change set of all leaves is, in order: revenue, date, purchases, single fields, salaries, accommodation, other. |
| EditEntry.LeafChangeSetFacts | src/pages/EditEntry.jsx:180-271 | No update targets a disabled path. Every enabled leaf that differs from the baseline is sent exactly once. |
| EditEntry.BuildStaffUpdates | src/pages/EditEntry.jsx:180-271 | `buildStaffUpdates` returns exactly the change set of the form's leaves. |
| EditEntry.NothingEnabledNoUpdates | src/pages/EditEntry.jsx:145-149 | Staff without an unconsumed approval, and any other role, produce no update. |
| EditEntry.PrefillUnchanged | src/pages/EditEntry.jsx:71-105 | Saving the prefilled form untouched produces no update. |
| EditEntry.BeyondBaseline | src/pages/EditEntry.jsx:198 | An item past the end of the stored list is compared with `{}`. Its text counts as changed if and only if it is non-empty, and its amount if and only if it is not 0. |
| EditEntry.NormItems | src/pages/EditEntry.jsx:155 | Each payload item keeps its text and carries its amount as a number, a blank read as 0. The list keeps its length. |
| EditEntry.OwnerPayload | src/pages/EditEntry.jsx:152-177 | The owner payload keeps every list's length. |
| EditEntry.OwnerPayloadFaithful | src/pages/EditEntry.jsx:152-177 | The owner payload has a leaf exactly where the form has one, with the same normalised value, and no blank number anywhere. |
| EditEntry.HandleSave | src/pages/EditEntry.jsx:273-287 | The owner always sends the full payload. Staff send their change set, and only when it is non-empty; every path sent is an approved one. Anyone else is refused. |
| Finance.ItemsSumConcat | src/pages/EntrySummary.jsx:31-34 | The guarded amount fold distributes over concatenation of item lists. |
| Finance.ItemsSumNonNegative | src/pages/EntrySummary.jsx:31-34 | With no negative amount, an item list sums to a non-negative number. |
| Finance.CalcExpensesNonNegative | src/pages/EntrySummary.jsx:30-45 | With no negative amount, `calcExpenses` is non-negative. It is at least the purchases alone and at least the expense categories alone. |
| Finance.ItemsSumUpdate | src/pages/EntrySummary.jsx:31-34 | Replacing one item changes the amount fold by exactly the difference of the two amounts, each blank read as 0. |
| Finance.CalcExpensesCountsEachAmountOnce | src/pages/EntrySummary.jsx:30-45 | `calcExpenses` counts every purchase amount, list amount and single field exactly once and nothing else. Editing a leaf changes it by exactly that leaf's change in amount when the leaf is an expense amount, and leaves it unchanged otherwise. |
| Finance.CalcExpensesAddItem | src/pages/EntrySummary.jsx:30-45 | A blank item appended to any list adds nothing to `calcExpenses`. |
| Finance.EntryTotals | src/pages/EntrySummary.jsx:50-54 | What one entry adds to the accumulator has profit equal to revenue minus expenses. |
| Finance.SummaryTotals | src/pages/EntrySummary.jsx:48-58 | The totals' profit equals total revenue minus total expenses, and no entries give all zeros. |
| Finance.SummaryTotalsConcat | src/pages/EntrySummary.jsx:48-58 | The totals are additive: the totals of two batches of entries are the sums of each batch's totals. |
| Finance.SummaryTotalsOne | src/pages/EntrySummary.jsx:48-58 | One entry's totals are what that entry adds. |
| Finance.SummaryTotalsPermutation | src/pages/EntrySummary.jsx:48-58 | Reordering the entries leaves the totals unchanged. |
| Finance.Percent | src/pages/Dashboard.jsx:38-39 | The guarded percentage is 0 for a base that is not positive. Otherwise it times the base equals 100 times the part, and it has the part's sign. |
| Queries.RangeParams | src/pages/entries.jsx:17-24 | The parameters are the filter, plus both dates if and only if the filter is a custom range with both dates set. There are no other parameters. |
| Queries.RangeEnabledSendsDates | src/pages/staffDashboard.jsx:36-44 | An enabled custom-range query always carries both dates. No other filter ever sends a date or is ever disabled. |
| Queries.SelectFilter | src/pages/entries.jsx:49-53 | Choosing a filter sets it and clears both dates. |
| Queries.SelectFilterQuery | src/pages/staffDashboard.jsx:138-145 | Right after a filter is chosen, the query runs if and only if the filter is not "custom", and then with the filter alone. |
| Queries.SummaryFilter | src/pages/EntrySummary.jsx:10-12 | A missing or empty URL filter is "lifetime". Any other filter is taken as given. |
| Queries.SummaryParams | src/pages/EntrySummary.jsx:16-22 | The summary sends the filter if and only if it is not "lifetime", and both dates if and only if it is a complete custom range. |
| Queries.SummaryLifetimeSendsNothing | src/pages/EntrySummary.jsx:10-22 | A summary URL without a filter, or with "lifetime", sends no parameter at all, whatever dates it carries. |
| StaffDashboard.DashboardMatchesSummary | src/pages/staffDashboard.jsx:77-101 | The staff dashboard's revenue, expenses and profit equal the summary page's totals over the same entries. |
| StaffDashboard.ProfitMargin | src/pages/staffDashboard.jsx:101-102 | The margin is 0 unless revenue is positive. Otherwise margin times revenue is 100 times the profit. |
| StaffDashboard.BreakdownAccountsForExpenses | src/pages/staffDashboard.jsx:104-123 | The breakdown values add up to total expenses minus the negative purchase sums, which the `pcSum > 0` guard drops. |
| StaffDashboard.BreakdownSumsToTotal | src/pages/staffDashboard.jsx:104-123 | With no negative purchase sum, the breakdown values add up to the total expenses. |
| StaffDashboard.Breakdown | src/pages/staffDashboard.jsx:104-123 | The "Purchase Cost" breakdown value is never negative, because a non-positive purchase sum is not added. |
| StaffDashboard.BreakdownConcat | src/pages/staffDashboard.jsx:104-123 | Each breakdown value is additive over batches of entries. |
| StaffDashboard.PositiveSlices | src/pages/staffDashboard.jsx:125-127 | Every slice is positive. A slice is present if and only if its category is listed and its value is that category's positive total. |
| StaffDashboard.ExpenseDataExact | src/pages/staffDashboard.jsx:125-127 | The chart has a slice for exactly the categories with a positive total, carrying that total. |
| StaffDashboard.Insert | src/pages/staffDashboard.jsx:304 | Inserting into a newest-first list keeps it newest first and adds exactly the one entry. |
| StaffDashboard.SortNewestFirst | src/pages/staffDashboard.jsx:303-304 | The sorted copy is newest first and is a permutation of the entries. |
| StaffDashboard.RecentEntries | src/pages/staffDashboard.jsx:303-305 | The recent list holds min(5, n) entries, is a prefix of the sorted copy, and is newest first. |
| StaffDashboard.RecentAreLatest | src/pages/staffDashboard.jsx:303-305 | No entry left out of the recent list is later than any entry shown. |
| RequestsPage.ReadFilters | src/pages/Requests.jsx:20-23 | A missing or empty status is "ALL". The page is never 0. A missing or empty page is 1, and so is one that `Values.JsNumber` does not read as a number. Any other non-zero number is taken as given. A missing date is unset. |
| RequestsPage.NonNumericPageIsOne | src/pages/Requests.jsx:21 | In the integer forms the model reads, a page parameter with a character that is neither a digit nor a leading minus sign reads as page 1, and so does a bare minus sign. |
| RequestsPage.DigitPageIsRead | src/pages/Requests.jsx:21 | A page parameter of digits reads as the number it denotes, or as page 1 when that number is 0. |
| RequestsPage.RequestParams | src/pages/Requests.jsx:28-30 | The list query sends the four filter values and a page size of 5. |
| RequestsPage.UpdateFilters | src/pages/Requests.jsx:45-53 | The new URL holds all four keys: the overridden ones with their new values, the rest with their current values. |
| RequestsPage.UpdateFiltersRoundTrip | src/pages/Requests.jsx:20-53 | Reading back the URL that `updateFilters` writes gives the overridden values and keeps every other one. This holds whenever the status is non-empty and the page non-zero. |
| RequestsPage.ChangeStatusResetsPage | src/pages/Requests.jsx:68-70 | Choosing a status sets it, returns to page 1 and keeps the dates. |
| RequestsPage.ChangeDatesResetPage | src/pages/Requests.jsx:79-90 | Choosing a date sets that date, returns to page 1 and keeps everything else. |
| RequestsPage.PrevDisabled | src/pages/Requests.jsx:182 | Prev is disabled exactly where pressing it would not lead to a lower page. |
| RequestsPage.NextDisabled | src/pages/Requests.jsx:192 | Next is never disabled while no page count is loaded, and otherwise only on the last page. |
| RequestsPage.Prev | src/pages/Requests.jsx:183 | Prev moves one page back and keeps status and dates. From page 1 the page 0 written to the URL reads back as 1. |
| RequestsPage.Next | src/pages/Requests.jsx:193 | Next moves one page forward and keeps status and dates. |
| RequestsPage.NavigationStaysInRange | src/pages/Requests.jsx:181-197 | From a page in `1..pages`, an enabled Prev or Next moves exactly one page, stays in `1..pages` and changes nothing else. |
| RequestsPage.NextPastTheEnd | src/pages/Requests.jsx:191-193 | Past the last page, Next is never disabled again: each press moves one page further. |
| RequestsPage.ActionsFor | src/pages/Requests.jsx:142-163 | Only the owner sees the actions column. Only a pending row has Approve and Reject, each opening the dialog for that row. |
| RequestsPage.DecisionsOnlyForPendingRows | src/pages/Requests.jsx:142-163 | A row that is not pending offers no decision to anyone. Where a row offers one, confirming sends that row's id with the decision of the button pressed. |
| RequestsPage.StatusLabel | src/pages/Requests.jsx:137-138 | The badge starts with the status name. It goes on to " (used)" if and only if the request is consumed. |
| RequestsPage.StatusLabelInjective | src/pages/Requests.jsx:137-138 | Two requests get the same badge if and only if they agree on status and consumption. |
| EntryDetails.EntryFigures | src/pages/EntryDetails.jsx:57-73 | Gross income is revenue minus purchases, and commission is 9% of it. Operations are the expense categories. Net profit is 91% of gross minus operations. |
| EntryDetails.NetProfitIsSummaryProfitLessCommission | src/pages/EntryDetails.jsx:67-73 | The details page's net profit is the summary page's profit for the same entry, less the commission. |
| EntryDetails.EditButtonVisible | src/pages/EntryDetails.jsx:75-90 | The owner always sees Edit. Staff see it if and only if they have an approved request for the entry. Any other role never sees it. |
| EntryDetails.EditVisibleButNothingEditable | src/pages/EntryDetails.jsx:75-97 | Staff whose approvals are all consumed still see Edit, yet no input is enabled and a save sends no update. |
| EntryDetails.SelectCategory | src/pages/EntryDetails.jsx:169-174 | Choosing a category puts its name in the path and clears value and reason, so Send is disabled. |
| EntryDetails.SelectField | src/pages/EntryDetails.jsx:197-198 | Choosing a field replaces the path and keeps value and reason. |
| EntryDetails.CategoryIsNotALeaf | src/pages/EntryDetails.jsx:177-188 | No category name parses as a field path, and none equals any field's path string. |
| EntryDetails.GuardAcceptsCategory | src/pages/EntryDetails.jsx:348 | The Send guard accepts a bare category name as the path once a value and a reason are typed. |
| EntryDetails.Snapshot | src/pages/EntryDetails.jsx:329-335 | The old value is the initial `""` exactly when no path is chosen. It is a leaf exactly when the path parses to a field the entry holds, and then it is that field's leaf. It is a whole subtree exactly for `purchaseCost` and `expenses`. |
| EntryDetails.SnapshotOfPath | src/pages/EntryDetails.jsx:329-335 | The old value read for a field's path string is that field's leaf, or missing where the entry has none. |
| EntryDetails.Send | src/pages/EntryDetails.jsx:326-348 | A request is sent if and only if path, value and reason are all non-empty. It carries the form. Its old value is the entry's current value at that path when `require("lodash.get")` succeeds, and the initial `""` when it throws. |
| EntryDetails.CategoryOptions | src/pages/EntryDetails.jsx:177-188 | Revenue is always offered. Purchase Cost is offered if and only if there are purchases, Expenses if and only if some expense is positive, and Staff if and only if a staff list is non-empty. |
| EntryDetails.ExpenseOptionPaths | src/pages/EntryDetails.jsx:247-255 | The Expenses select offers a single field if and only if its value is truthy. Lists are never offered. |
| EntryDetails.ExpenseOptionsExact | src/pages/EntryDetails.jsx:247-255 | Over the twelve single fields, a field is offered exactly when its value is truthy. |
| EntryDetails.StaffListOptions | src/pages/EntryDetails.jsx:269-296 | A staff item's name is offered if and only if it is non-empty, and its amount if and only if it is positive. |
| EntryDetails.PositiveItems | src/pages/EntryDetails.jsx:221-222 | The filter keeps only items with a positive amount and is no longer than its input. |
| EntryDetails.PositiveItemsConcat | src/pages/EntryDetails.jsx:221-222 | The filter keeps input order: filtering a concatenation concatenates the filtered parts. |
| EntryDetails.PositiveItemsCount | src/pages/EntryDetails.jsx:221-222 | Every item with a positive amount is kept as often as it occurs, and every other item is dropped. |
| EntryDetails.FilteredPurchaseOptions | src/pages/EntryDetails.jsx:223-230 | The k-th kept item is offered as `purchaseCost[k].name` and `purchaseCost[k].amount`, numbered after filtering. |
| EntryDetails.PurchaseNameOptionUnlocksNothing | src/pages/EntryDetails.jsx:225 | A `purchaseCost[k].name` option names no input of the edit page, so approving it unlocks nothing. |
| EntryDetails.PurchaseIndexShift | src/pages/EntryDetails.jsx:221-230 | In a concrete counterexample, a zero-amount item before a positive one makes the request name, snapshot and unlock the zero item instead of the positive one. |
| EntryDetails.PurchaseOptionPaths | src/pages/EntryDetails.jsx:221-230 | The corrected purchase options are exactly the `item` and `amount` fields of the items with a positive amount, each under its own index. |
| EntryDetails.OfferedOptionsAreEditable | src/pages/EntryDetails.jsx:194-296 | Every option offered, with the purchase options corrected, names a leaf of the entry and of the prefilled edit form. Its old value is that leaf, and approving it enables exactly that input. |
| EntriesPage.RawSum | src/pages/entries.jsx:104-107 | The unguarded purchase fold is a number if and only if every amount is one, and it then equals the guarded fold. |
| EntriesPage.EntryRow | src/pages/entries.jsx:103-109 | A row's expenses are its purchases and its profit is revenue (0 when blank) minus those. Its ROI is 0 unless the expenses are positive; otherwise it is profit over expenses in percent. |
| EntriesPage.ShownRoi | src/pages/entries.jsx:109 | The ROI cell is the row's ROI where the row has numbers. Where an amount is missing, the cell shows 0. It is non-zero only when the purchases sum to a positive amount. |
| EntriesPage.RowIgnoresCategories | src/pages/entries.jsx:104-108 | A row's expenses fall short of the summary's `calcExpenses` by exactly the expense categories. With no negative amount, the row's profit is at least the summary's. |
| Dashboard.PendingShown | src/pages/Dashboard.jsx:106 | The heading's count is never more than the number of requests. |
| Dashboard.PendingShownCounts | src/pages/Dashboard.jsx:32 | A request is listed as pending if and only if it is one of the fetched requests and is pending. |
| Dashboard.RawRevenue | src/pages/Dashboard.jsx:35 | The unguarded revenue fold is a number if and only if every entry's revenue is one. |
| Dashboard.RawPurchases | src/pages/Dashboard.jsx:36 | The unguarded expense fold is a number if and only if every purchase amount of every entry is one. |
| Dashboard.Aggregates | src/pages/Dashboard.jsx:35-39 | Each card is computed on its own. Revenue and expenses are their unguarded folds. Profit is revenue minus expenses, and is not a number as soon as either is not. ROI is 0 unless the expenses are positive, and is not a number exactly when they are positive and the revenue is not a number. Otherwise it is profit over expenses in percent. The margin is the same with the roles of revenue and expenses swapped. |
| Dashboard.Guarded | src/pages/Dashboard.jsx:38-39 | `base > 0 ? (part / base) * 100 : 0` where either side may be `NaN`. The result is 0 when the base is not a positive number. It is not a number exactly when the base is positive and the part is not a number. Otherwise it is the guarded percentage. |
| Dashboard.MissingRevenueCards | src/pages/Dashboard.jsx:35-39 | With a revenue missing and every purchase amount present, revenue and profit show no number. Expenses show their sum and the margin shows 0. ROI shows no number exactly when the expenses are positive. |
| Dashboard.MissingAmountCards | src/pages/Dashboard.jsx:35-39 | With a purchase amount missing and every revenue present, expenses and profit show no number. Revenue shows its sum and ROI shows 0. The margin shows no number exactly when the revenue is positive. |
| Dashboard.AggregatesVsSummary | src/pages/Dashboard.jsx:35-37 | Where every revenue and every purchase amount is present, the owner dashboard's revenue is the summary's. Its expenses are the summary's minus every expense category. |
| Dashboard.RowProfit | src/pages/Dashboard.jsx:149-150 | A row's profit is a number if and only if its revenue and every purchase amount are, and it then adds back to the revenue. |
| Dashboard.RowProfitMatchesEntries | src/pages/Dashboard.jsx:150 | Where the dashboard row shows a finite profit, it is the entries page's profit for that entry. With every purchase amount present, the dashboard shows no finite profit only for an absent revenue. |
| Dashboard.RowRoi | src/pages/Dashboard.jsx:151 | A row's ROI has no zero guard. It is a finite number if and only if the profit is and the purchases are not zero, and it is then profit over purchases in percent. |
| Dashboard.RowRoiUnguarded | src/pages/Dashboard.jsx:151 | An entry without purchases has no finite ROI on the dashboard but an ROI of 0 on the entries page. |
| AddEntry.InitialFormShape | src/pages/AddEntry.jsx:11-32 | The initial form has one blank item in every list and every single field blank. Its revenue and expenses are 0. |
| AddEntry.ChangeItem | src/pages/AddEntry.jsx:44-48 | An item edit succeeds exactly for an existing item, a key that item carries and a value of the key's kind. Only that leaf changes, and no list changes length. |
| AddEntry.SetSingle | src/pages/AddEntry.jsx:223-225 | A single-field input sets that field. Every other leaf and every list stays as it was. |
| AddEntry.SubmitPayload | src/pages/AddEntry.jsx:54-78 | The payload keeps the date and converts revenue and every list amount with `Number`. It keeps each item's text and passes the single fields on unconverted. |
| AddEntry.SubmitAgreesWithOwnerPayload | src/pages/AddEntry.jsx:54-78 | The add page and the edit page's owner save post the same leaves with the same normalised values. They differ only in a single field, which the add page may leave blank. |
| AddEntry.InitialSubmitKeepsBlanks | src/pages/AddEntry.jsx:62-63 | Submitting the untouched form posts blank single fields. The edit page would post 0 for each (EditEntry.jsx:164-175). |

## Left out

- The server, its ledger of requests and its storage: the model takes fetched entries and requests as inputs. This covers:
  - consuming an approval after a staff update;
  - the server-side date filters and pagination;
  - authentication.
- React plumbing: state hooks, query caching and invalidation, navigation, alerts, `console.log`, loading and error screens.
- All rendering: formatting with `toLocaleString`, `toFixed` and currency signs; badge colours; labels and charts beyond the data they plot.
- Number parsing of form inputs. `Num` holds either a blank or the number an input denotes. The model does not represent the following, all from JavaScript's dynamic typing:
  - `NaN` from non-numeric text;
  - a numeric string that stays a string;
  - string concatenation in an unguarded `+`.
- Floating point: amounts are integers and ratios are exact reals. ROI and margin are stated as products rather than rounded quotients.
- Dashboard.RowRoi: a zero divisor gives `±Infinity` in JavaScript, or `NaN` for 0/0. The model reads all three as `None`, no finite number.
- Dashboard.RowProfit: `Blank` stands for an absent revenue here. In the dashboard's unguarded arithmetic an absent value gives `NaN`, while `""` or `null` would count as 0; the model does not tell those apart.
- Values.JsNumber: restricted to optionally negative decimal integers. These forms of `Number` are not modelled, and all read as `None`:
  - decimals and exponents;
  - surrounding whitespace;
  - a leading `+`;
  - the `0x`, `0b` and `0o` radix prefixes;
  - `Infinity`.

  JavaScript reads each as a number (`+2` is 2, `0x1A` is 26).
- RequestsPage.ReadFilters: reads the page through `Values.JsNumber`, so the forms above give page 1 in the model.
- RequestsPage.NonNumericPageIsOne: holds only for the integer forms `Values.JsNumber` reads. Requests.jsx:21 gives `?page=+2` page 2, `?page=0x10` page 16 and `?page=1.5` page 1.5, where the model gives page 1.
- `lodash.get` is a foreign library. `EntryDetails.Snapshot` models it on the path shapes the page builds: a leaf, a missing index, or a category name naming a subtree. Whether `require("lodash.get")` succeeds depends on the bundler, so it is the `getLoads` parameter of `EntryDetails.Send`.
- Object key order. The sums that fold over `Object.values(expenses)` and `Object.keys` are order-independent in the model. The breakdown's keys are listed in the schema's order.
- The edit page's prefill defaults for lists missing from the stored entry (EditEntry.jsx:80, 84, 100). The model's entry always holds the four lists, so a missing list and an empty list are the same.
- EditEntry.OwnerPayload: its own contract states only lengths. The content is stated by `EditEntry.OwnerPayloadFaithful`.
- Dashboard.PendingShown: states only the bound. What is counted is stated by `Dashboard.PendingShownCounts` and `Ledger.PendingCount`.
- StaffDashboard.SortNewestFirst: does not state the order of entries with equal dates. JavaScript's sort is stable; the model's insertion sort is too, but that is not proved.
- In-place mutation: `handleArrayChange` and the inline purchase handlers change the item object shared with the previous state. The model is functional and does not represent that aliasing.
- The edit page's `ArrayEditor` copies the keys of a list's first item for a new item (EditEntry.jsx:503). For the lists it is used on, this is the blank item that `Records.AddItem` appends.
- The details page's value and reason setters and its Clear button: they set one text each. Clear gives `EntryDetails.EmptyForm`.
- Dashboard.jsx:29 uses the response body itself as the request list, where the other pages read its `requests` field. The model assumes a list.
- The dashboards' filter buttons: Dashboard.jsx sends the chosen filter unchanged. On the staff dashboard these are `Queries.SelectFilter`.
- Dashboard.jsx's Approve and Decline buttons have no handler. The staff dashboard opens no dialog, and passes `onClose` where the dialog reads `onCancel`. Only the dialog logic, `Ledger.ConfirmAction`, is modelled.
- `FinanceTable.jsx`, `EditRequests.jsx`, login, registration, the header and routing are not part of this model.

## Findings

| source | as written | input that shows it | evidently intended | confidence | as-written member | corrected member |
|---|---|---|---|---|---|---|
| src/pages/EntryDetails.jsx:221-230 | The purchase options are numbered after filtering out non-positive amounts, and they offer a `name` key where purchase items carry `item` (EditEntry.jsx:199). | An entry with purchases `rice` amount 0 and `oil` amount 5: the only options are `purchaseCost[0].name` and `purchaseCost[0].amount`. A request for `oil`'s amount records `rice`'s 0 as the old value, and its approval unlocks `rice`'s amount input, not `oil`'s. The `name` option unlocks no input at all. | Each positive item is offered under its own index, with its `item` and `amount` fields. | not executed | EntryDetails.PurchaseIndexShift | EntryDetails.PurchaseOptionPaths |
