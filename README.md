# My Dora dashboard ledger core, in Dafny

This project models the logic of a hotel's bookkeeping dashboard, a Next.js and Supabase application written in Turkish. The dashboard keeps ledger entries (kayıtlar). Each entry has a debt (borç) or receivable (alacak) amount and is posted to an account (alt hesap) under a category (ana hesap). The model covers:

- the two reports: the account statement (hesap ekstresi), with its opening balance (devir) and running balance, and the account summary (hesap özeti), grouped by category;
- their CSV export and their generated titles;
- the create-report dialog and the reports list;
- the ledger page's filters, totals and statement suggestions;
- the ledger table's form guards, in-place list updates and category grouping;
- the daily chart;
- the debounced draft auto-save;
- the accounts and categories pages: filters, totals, sorting, week/day conversion, create and edit payloads;
- the statement autocomplete with its match highlighting;
- the searchable select and the date range picker;
- the relative time label;
- the route table and the header and sidebar rules;
- the user menu texts and the login error texts;
- the session middleware's redirects and cookie copying.

There is one Dafny module per source file. Module `Common` holds the JavaScript idioms the modules share:

- `||` and `?? ""` on optional strings;
- `find`, `includes`, `indexOf`, `startsWith`, `slice`, `trim` and `join`;
- a stable sort, as `Array.prototype.sort` is.

Module `Database` holds the row types. Code that updates state in place becomes a class:

- the React components' state (`LedgerDataTable`, `LedgerPage`, `DraftAutoSaver`, `Autocomplete`, ...);
- the middleware's request and response cookies.

Each such class has methods whose `ensures` tie the new state to a transition function of the old one. The lemmas are proved about those functions. Loops in the source stay loops. Each is proved against a reference function:

- the chart's day map;
- the table's grouping map;
- the suggestion counter;
- the account totals;
- the highlight search;
- the CSV builders.

Amounts are integers. Calendar days are integers (`Database.Day`). Each foreign function is a parameter of the members that call it:

- `normalizeForSearch`, `toLowerCase` and `toUpperCase`;
- the `Intl.NumberFormat` currency formatter;
- the date-fns formats;
- `parseFloat`.

## Model

| member | source | states |
|---|---|---|
| AccountStatement.StatementRpcArgs | src/lib/reports/account-statement.ts:48-52 | the statement procedure is called with the parameters' account id, start date and end date |
| AccountStatement.MapRows | src/lib/reports/account-statement.ts:66-74 | one entry per procedure row, in the same order |
| AccountStatement.FetchAccountStatement | src/lib/reports/account-statement.ts:54-82 | an error gives a failure with "Failed to fetch account statement: " and the message; otherwise every field is copied in order, net is debt minus receivable, a missing entries array gives no entries and the totals are kept |
| AccountStatement.SumNetIsDebtMinusReceivable | src/lib/reports/account-statement.ts:10-11 | when each net is debt minus receivable, the nets add up to total debt minus total receivable |
| AccountStatement.ClosingNetBalances | src/lib/reports/account-statement.ts:12-26 | in a statement that keeps its documented invariants, the closing net is the opening net plus total debt minus total receivable |
| AccountStatement.RunningNetSteps | src/lib/reports/account-statement.ts:12-13 | each running net is the previous one (the opening net for the first entry) plus this entry's net |
| AccountStatement.FetchKeepsConsistency | src/lib/reports/account-statement.ts:66-82 | procedure rows that keep the documented invariants still keep them after the mapping |
| AccountStatement.Before | src/lib/reports/account-statement.ts:17 | the postings before the start day, and only those |
| AccountStatement.Within | src/lib/reports/account-statement.ts:19 | the postings inside the selected range, and only those |
| AccountStatement.Entries | src/lib/reports/account-statement.ts:4-14 | one entry per posting, each with net equal to debt minus receivable |
| AccountStatement.EntriesSums | src/lib/reports/account-statement.ts:21-24 | the entries' debt and receivable columns add up to those of the postings |
| AccountStatement.EntriesRunning | src/lib/reports/account-statement.ts:12-13 | each running net is the opening net plus the nets up to and including that entry |
| AccountStatement.OpeningNet | src/lib/reports/account-statement.ts:17-18 | the opening net: all debts before the start minus all receivables before it (its properties are in BeforeIsWindow and OpeningIsEarlierClosing) |
| AccountStatement.ReferenceStatement | src/lib/reports/account-statement.ts:16-27 | the documented result for a window: the opening net of the postings before it, one entry per posting inside it, and totals equal to the window's debt and receivable sums |
| AccountStatement.EntriesFollowPostings | src/lib/reports/account-statement.ts:4-14 | entry i carries the id, memo and both legs of posting i, and that posting's day as its date |
| AccountStatement.WithinKeepsOrder | src/lib/reports/account-statement.ts:19-20 | the window of chronologically listed postings is itself chronological |
| AccountStatement.ReferenceIsConsistent | src/lib/reports/account-statement.ts:4-27 | the statement the procedure is documented to compute keeps the net, running-net, closing and total invariants; its entries are the window's postings in the window's order; and when the postings are listed chronologically, so is the window |
| AccountStatement.ReferenceDatesAscend | src/lib/reports/account-statement.ts:19-20 | with chronologically listed postings and an order-keeping date format (such as ISO text), the entries' dates never decrease |
| AccountStatement.ReferenceClosing | src/lib/reports/account-statement.ts:17-26 | its closing net is the opening net plus the range's debts minus its receivables |
| AccountStatement.BeforeIsWindow | src/lib/reports/account-statement.ts:17 | with nothing before day lo, the postings before the start are those of the range from lo to the day before the start |
| AccountStatement.OpeningIsEarlierClosing | src/lib/reports/account-statement.ts:17-26 | a range's opening net equals the closing net of the range that ends the day before it |
| AccountSummary.SummaryRpcArgs | src/lib/reports/account-summary.ts:60-65 | the dates and the filter option are passed unchanged; an absent category becomes null, a present one is kept |
| AccountSummary.RebuildCategory | src/lib/reports/account-summary.ts:79-86 | the rebuilt category keeps the group's id and name, with entry type "both", no advance period and empty timestamps |
| AccountSummary.MapAccount | src/lib/reports/account-summary.ts:87-101 | one summary row per procedure account, with the group's rebuilt category, no description and the sums copied (stated through FetchShapesGroups) |
| AccountSummary.MapGroup | src/lib/reports/account-summary.ts:78-109 | one summary group per procedure group: its rebuilt category, its accounts mapped in order, its sums copied (stated through FetchShapesGroups) |
| AccountSummary.FetchAccountSummary | src/lib/reports/account-summary.ts:67-117 | an error gives a failure with "Failed to fetch account summary: " and the message; otherwise the totals are kept (stated through FetchShapesGroups) |
| AccountSummary.FetchShapesGroups | src/lib/reports/account-summary.ts:78-109 | groups and their accounts keep the procedure's order and count; each account points to its group's rebuilt category and has no description; all sums are copied |
| AccountSummary.MissingListsGiveEmpty | src/lib/reports/account-summary.ts:78-87 | a missing groups list, or a group's missing accounts list, gives an empty list |
| AccountSummary.BalanceOf | src/lib/reports/account-summary.ts:9 | a positive net is a debt balance ("Borç Bakiye") and a negative one a receivable balance ("Alacak Bakiye"), shown as its absolute value |
| AccountSummary.RowBalanceSides | src/lib/reports/account-summary.ts:9-10 | for a row whose net is debt minus receivable, the balance side follows whichever total is larger |
| AccountSummary.FetchKeepsRowNets | src/lib/reports/account-summary.ts:87-101 | the mapping keeps every row's net equal to its debt minus its receivable |
| CsvExport.EscapeCSV | src/lib/reports/csv-exporter.ts:15-22 | null and undefined give "", a field with a comma, quote or newline is quoted with its quotes doubled, any other is unchanged |
| CsvExport.EscapeChangesIffQuoted | src/lib/reports/csv-exporter.ts:18-21 | a string is left unchanged exactly when it needs no quoting |
| CsvExport.CarriageReturnNotQuoted | src/lib/reports/csv-exporter.ts:18 | a carriage return alone does not trigger quoting |
| CsvExport.ReadField | src/lib/reports/csv-exporter.ts:15-22 | a reader for the quoting convention (reference partner): what remains is empty or starts with the separator |
| CsvExport.ReadRecord | src/lib/reports/csv-exporter.ts:15-22 | a record reads as at least one field, split at the separators outside quotes (the reference partner of RecordRoundTrip) |
| CsvExport.FieldRoundTrip | src/lib/reports/csv-exporter.ts:15-22 | an escaped cell with no comma, quote or newline left unquoted reads back as the original cell |
| CsvExport.ReadQuotedDoubled | src/lib/reports/csv-exporter.ts:19 | the doubled quotes of a cell, then the closing quote, read back as the cell itself |
| CsvExport.RecordRoundTrip | src/lib/reports/csv-exporter.ts:15-22 | a line of escaped cells joined with commas reads back as the cells |
| CsvExport.BalanceCells | src/lib/reports/csv-exporter.ts:66-95 | a positive net fills only the debt-balance cell, a negative one only the receivable-balance cell with its absolute value, zero neither |
| CsvExport.PositiveCell | src/lib/reports/csv-exporter.ts:77-128 | a positive amount is formatted; any other leaves the cell empty |
| CsvExport.StatementLines | src/lib/reports/csv-exporter.ts:47-97 | the header line, the "Devir" (carried-over balance) line, one line per entry in order and the "Toplam" (total) line |
| CsvExport.MoneyCell | src/lib/reports/csv-exporter.ts:6-22 | the amount formatter with its result escaped, as every amount cell evidently should be |
| CsvExport.SampleEntryLine | src/lib/reports/csv-exporter.ts:72-85 | the sample entry (100 lira of debt on 2024-01-05, no memo) is exported as "05.01.2024,,₺100,00,,₺100,00," |
| CsvExport.EightFields | src/lib/reports/csv-exporter.ts:83 | a line of that shape made of comma-free cells reads back as eight fields |
| CsvExport.AmountCommaSplitsEntryLine | src/lib/reports/csv-exporter.ts:72-85 | as written, that line reads back as eight fields, not the entry's six cells |
| CsvExport.EntryLineReadsBack | src/lib/reports/csv-exporter.ts:72-85 | with the amounts escaped, every entry line reads back as its date, memo, debt, receivable and balance cells |
| CsvExport.DownloadContent | src/lib/reports/csv-exporter.ts:25 | the file content is the byte-order mark followed by the CSV |
| CsvExport.ExportAccountStatement | src/lib/reports/csv-exporter.ts:42-100 | the file is named after the account and the range and holds the header, "Devir", entry and "Toplam" lines joined with newlines, with every amount escaped |
| CsvExport.GroupLines | src/lib/reports/csv-exporter.ts:122-146 | one line per account in order, then the group's "Toplam" line, then an empty line |
| CsvExport.AccountLineReadsBack | src/lib/reports/csv-exporter.ts:122-132 | with the amounts escaped, every account line of the summary reads back as its category, account, debt, receivable and balance cells |
| CsvExport.AllGroupLinesCount | src/lib/reports/csv-exporter.ts:121-147 | the groups together push the sum of their accounts plus two lines per group |
| CsvExport.PushEach | src/lib/reports/csv-exporter.ts:72-134 | a `forEach` that pushes one line per item keeps the lines already there and adds one line per item, in order |
| CsvExport.GroupBlock | src/lib/reports/csv-exporter.ts:121-147 | the lines one group pushes, built by the loop |
| CsvExport.SummaryLines | src/lib/reports/csv-exporter.ts:109-159 | the header, every group's block in order, then the "Genel Toplam" (grand total) line |
| CsvExport.ExportAccountSummary | src/lib/reports/csv-exporter.ts:105-162 | the file is named "Hesap_Ozeti_" and the range and holds the header, the group blocks and the "Genel Toplam" line joined with newlines, with every amount escaped |
| ReportTitle.DateRangeLabel | src/lib/reports/generate-title.ts:22-36 | nothing when either date is empty, "[Tüm Zamanlar]" for the all-time sentinel, one date for a single day, otherwise "start - end" |
| ReportTitle.AllTimeLabelIff | src/lib/reports/generate-title.ts:23-36 | the all-time label appears exactly for the sentinel range (both directions) |
| ReportTitle.TitleParts | src/lib/reports/generate-title.ts:38-50 | one to three parts, the first being the report's name ("Hesap Ekstresi" or "Hesap Özeti") |
| ReportTitle.GenerateReportTitle | src/lib/reports/generate-title.ts:38-50 | the title begins with the report's name; its full shape is stated by StatementTitleShape and SummaryTitleShape |
| ReportTitle.StatementTitleShape | src/lib/reports/generate-title.ts:38-43 | "Hesap Ekstresi", then " - " and the account name exactly when it is non-empty, then the date part when there is one |
| ReportTitle.SummaryTitleShape | src/lib/reports/generate-title.ts:44-50 | "Hesap Özeti", then the category's name exactly when a category id is set and a category is given, then the date part |
| ReportTitle.StatementParametersNameNoCategory | src/lib/reports/generate-title.ts:45-47 | a summary title built from statement parameters never names a category |
| ReportTitle.TitleNeverBlank | src/lib/reports/generate-title.ts:40-46 | every title starts with the report's name, so it is never blank |
| CreateReport.OpenedState | src/components/reports/create-report-dialog.tsx:80-93 | opening picks a statement exactly when an account filter is given, clears the title, copies the dates and filters, resets the filter option, and is all-time exactly when neither date is given |
| CreateReport.WithRange | src/components/reports/create-report-dialog.tsx:237-241 | a range change takes both ends and is all-time exactly when neither end is set; nothing else changes |
| CreateReport.EffectiveDate | src/components/reports/create-report-dialog.tsx:97-106 | the sentinel when all-time, otherwise the ISO date when set, otherwise "" |
| CreateReport.SubmitDecision | src/components/reports/create-report-dialog.tsx:134-187 | the guards in order (date range, then a statement's account, then a blank title, then a signed-in user), each refusing exactly under its condition; the inserted record has the user, the type, the trimmed title, the sentinel or chosen dates, and the statement's account or the summary's category (null when empty) and filter option |
| CreateReport.RangeChangeDateGuard | src/components/reports/create-report-dialog.tsx:237-241 | after a range change, the date guard refuses exactly when one end is chosen and the other is not |
| CreateReport.AutoTitle | src/components/reports/create-report-dialog.tsx:96-121 | the title the effect sets begins with the chosen report type's name |
| CreateReport.AutoTitleNeverRefused | src/components/reports/create-report-dialog.tsx:96-145 | the automatic title is never blank, so the title guard never refuses it |
| CreateReport.AllTimeSummaryTitle | src/components/reports/create-report-dialog.tsx:110-120 | an all-time summary over every category is titled "Hesap Özeti [Tüm Zamanlar]" |
| CreateReport.OpenedWithoutDatesIsAllTime | src/components/reports/create-report-dialog.tsx:90-135 | a dialog opened without dates is all-time, so the date guard never refuses it |
| CreateReport.CreateReportDialog.constructor | src/components/reports/create-report-dialog.tsx:61-78 | the initial state values |
| CreateReport.CreateReportDialog.OnOpenChange | src/components/reports/create-report-dialog.tsx:80-93 | opening resets every field to the opened state; closing changes nothing |
| CreateReport.CreateReportDialog.OnRangeChange | src/components/reports/create-report-dialog.tsx:237-241 | the state becomes the range-changed state |
| CreateReport.CreateReportDialog.RefreshTitle | src/components/reports/create-report-dialog.tsx:96-132 | only the title changes, to the automatic title |
| CreateReport.CreateReportDialog.SetTitle | src/components/reports/create-report-dialog.tsx:62 | only the title changes |
| CreateReport.CreateReportDialog.HandleSubmit | src/components/reports/create-report-dialog.tsx:134-200 | returns the submit decision on the current state; the form is unchanged; the busy flag is idle again after a call |
| ReportsList.UserDisplayName | src/components/reports/reports-list-table.tsx:55-61 | no profile, or one with neither name, gives "Bilinmeyen"; otherwise "first last" trimmed |
| ReportsList.UserInitials | src/components/reports/reports-list-table.tsx:63-72 | no profile gives "?"; both names give their upper-cased first letters; a lone first name its first two characters upper-cased; otherwise "?" |
| ReportsList.LastNameOnly | src/components/reports/reports-list-table.tsx:57-71 | with only a last name, the display name is that name but the initials are "?" |
| ReportsList.ReportTypeLabel | src/components/reports/reports-list-table.tsx:107-109 | "Hesap Ekstresi" exactly for the statement code, "Hesap Özeti" for any other |
| ReportsList.TypeLabelsDistinct | src/components/reports/reports-list-table.tsx:107-109 | the two stored report types get different labels |
| ReportsList.FormatDateRange | src/components/reports/reports-list-table.tsx:111-123 | both dates formatted and joined by " - " when both parse, otherwise "-" |
| ReportsList.DateRangeFallbackOnlyOnFailure | src/components/reports/reports-list-table.tsx:111-123 | the result is "-" exactly when a date fails to parse |
| ReportsList.CanDelete | src/components/reports/reports-list-table.tsx:148 | delete is offered exactly on a report whose owner is the current user |
| LedgerList.TotalsSnoc | src/app/accounting/ledger/page.tsx:228-243 | appending an entry adds its receivable and its debt to the list's totals |
| LedgerList.Prepend | src/components/ledger-data-table.tsx:222 | the new entry first, then the old list unchanged |
| LedgerList.Upsert | src/app/accounting/ledger/page.tsx:228-238 | the page's upsert: a listed id is replaced in place, an unlisted one goes in front (stated by UpsertKeepsUnique and UpsertReplacesInPlace) |
| LedgerList.ReplaceById | src/components/ledger-data-table.tsx:293-297 | same length; every entry with that id is replaced and every other entry kept in its place |
| LedgerList.RemoveById | src/components/ledger-data-table.tsx:324 | exactly the entries with another id stay, and never more entries than before; a list without the id is unchanged |
| LedgerList.RemoveByIdAppend | src/components/ledger-data-table.tsx:324 | the filter works entry by entry in list order: removing from a concatenation concatenates the two removals |
| LedgerList.RemoveByIdSingle | src/components/ledger-data-table.tsx:324 | a single entry with the id is dropped and one with another id kept, so with RemoveByIdAppend order and multiplicity of the kept entries are preserved |
| LedgerList.RemoveKeepsUnique | src/app/accounting/ledger/page.tsx:240-243 | removing leaves no entry with that id and keeps ids unique |
| LedgerList.UpsertKeepsUnique | src/app/accounting/ledger/page.tsx:228-238 | the page's upsert keeps ids unique and lists the new entry; a known id keeps the length, an unknown one is prepended |
| LedgerList.UpsertReplacesInPlace | src/app/accounting/ledger/page.tsx:232-234 | upserting a listed id changes only the entry at its position |
| LedgerList.RemoveUndoesNewUpsert | src/app/accounting/ledger/page.tsx:228-243 | deleting what was just added to a list without that id gives back the list |
| LedgerPage.FilteredEntries | src/app/accounting/ledger/page.tsx:173-192 | at most the loaded entries, in list order; membership is stated by FilteredMembers |
| LedgerPage.FilteredMembers | src/app/accounting/ledger/page.tsx:173-192 | an entry is shown exactly when it is loaded and matches every filter that is set (category, account, first day, last day) |
| LedgerPage.NoFiltersKeepAll | src/app/accounting/ledger/page.tsx:175-191 | with no filter set, every entry is shown, in order |
| LedgerPage.FilterIdempotent | src/app/accounting/ledger/page.tsx:173-192 | filtering the filtered list again changes nothing |
| LedgerPage.StatementsMembers | src/app/accounting/ledger/page.tsx:196-198 | the counted statements are exactly the present, non-blank statements of the entries |
| LedgerPage.Distinct | src/app/accounting/ledger/page.tsx:199-201 | the Map's keys: exactly the strings that occur, in first-occurrence order |
| LedgerPage.CountPairs | src/app/accounting/ledger/page.tsx:199-201 | one pair per distinct statement, with its number of occurrences |
| LedgerPage.Suggestions | src/app/accounting/ledger/page.tsx:194-204 | one suggestion per distinct statement, by descending count (stated by SuggestionsAreDistinctStatements and SuggestionsByCount) |
| LedgerPage.DistinctHasNoRepeats | src/app/accounting/ledger/page.tsx:199-201 | the count map's keys, in first-insertion order, hold no repeats |
| LedgerPage.StatementSuggestions | src/app/accounting/ledger/page.tsx:194-204 | the counting loop computes the suggestions: distinct statements sorted stably by descending count |
| LedgerPage.SuggestionsAreDistinctStatements | src/app/accounting/ledger/page.tsx:194-204 | every suggestible statement is suggested exactly once, and nothing else is |
| LedgerPage.SuggestionsByCount | src/app/accounting/ledger/page.tsx:202 | a suggestion is used at least as often as every later one |
| LedgerPage.PageTotals | src/app/accounting/ledger/page.tsx:206-221 | totals over every loaded entry whatever the filters, with balance = receivable - debt |
| LedgerPage.BalanceIsNegatedNet | src/app/accounting/ledger/page.tsx:219 | the page's balance is the negation of the statement report's net (debt - receivable) over the same entries |
| LedgerPage.SyncedAccountFilter | src/app/accounting/ledger/page.tsx:163-171 | the account filter is cleared exactly when both filters are set and the first account with that id is in another category; nothing else changes |
| LedgerPage.SyncedFilterConsistent | src/app/accounting/ledger/page.tsx:163-171 | after the effect, a selected account that is listed belongs to the selected category |
| LedgerPage.LedgerPage.constructor | src/app/accounting/ledger/page.tsx:84-93 | the loaded entries with no category or account filter |
| LedgerPage.LedgerPage.SetCategoryFilter | src/app/accounting/ledger/page.tsx:163-171 | sets the category, then applies the account-filter effect |
| LedgerPage.LedgerPage.SetAccountFilter | src/app/accounting/ledger/page.tsx:163-171 | sets the account, then applies the account-filter effect |
| LedgerPage.LedgerPage.SetRange | src/app/accounting/ledger/page.tsx:304-306 | sets both dates of the range; nothing else changes |
| LedgerPage.LedgerPage.ClearFilters | src/app/accounting/ledger/page.tsx:223-226 | resets both ids and keeps the dates |
| LedgerPage.LedgerPage.HandleEntryAdded | src/app/accounting/ledger/page.tsx:228-238 | the entries become their upsert with the new entry |
| LedgerPage.LedgerPage.HandleEntryDeleted | src/app/accounting/ledger/page.tsx:240-243 | the entries lose every entry with that id |
| LedgerTable.ValidateEntry | src/components/ledger-data-table.tsx:184-212 | a missing date, category, account or amount is refused; then an amount that does not parse or is not positive; otherwise the payload has the form's day, ids and memo (null when empty), and the amount on the chosen side with 0 on the other |
| LedgerTable.InitialForm | src/components/ledger-data-table.tsx:116-123 | the reset form is dated with the load-time day, of the receivable kind, and lacks the fields a submit requires |
| LedgerTable.ValidateEdit | src/components/ledger-data-table.tsx:253-283 | no selected entry is refused like a missing field; otherwise the form's guards, and the update targets the selected id |
| LedgerTable.OpenEditForm | src/components/ledger-data-table.tsx:348-359 | the entry's day, ids and memo; receivable exactly when its receivable is positive; the amount of that side as text |
| LedgerTable.EditFormRoundTrip | src/components/ledger-data-table.tsx:348-359 | opening a written entry for edit and saving it unchanged writes the same row |
| LedgerTable.SavedEntryReopens | src/components/ledger-data-table.tsx:184-212 | an entry stored from an accepted form reopens with the same kind, memo, day, ids and amount |
| LedgerTable.ZeroEntryNotResaved | src/components/ledger-data-table.tsx:196 | an entry with no positive side cannot be saved back unchanged |
| LedgerTable.AccountChanged | src/components/ledger-data-table.tsx:169-178 | an unknown account leaves the form unchanged; a listed one sets the account and the first match's category |
| LedgerTable.EntriesOfMembers | src/components/ledger-data-table.tsx:530-544 | a category's group collects exactly the entries carrying its id |
| LedgerTable.KeysAreCategoryIds | src/components/ledger-data-table.tsx:530-539 | the Map's keys are exactly the category ids that some entry carries |
| LedgerTable.KeyHasEntries | src/components/ledger-data-table.tsx:532-542 | every key of the Map has at least one entry in its group |
| LedgerTable.GroupOf | src/components/ledger-data-table.tsx:530-544 | the group of a category that some entry carries: the category of its first entry, that category's entries in order, and their sums (KeyHasEntries shows it is never empty; GroupsAreByCategory states its contents) |
| LedgerTable.GroupsInOrder | src/components/ledger-data-table.tsx:546 | one group per Map key, in insertion order |
| LedgerTable.ReferenceGroups | src/components/ledger-data-table.tsx:521-549 | the reference grouping: the groups in key order, stably sorted by category id (stated by GroupsSorted and GroupsAreByCategory) |
| LedgerTable.GroupOfSnocOther | src/components/ledger-data-table.tsx:530-544 | one more entry leaves the groups of every other category unchanged |
| LedgerTable.GroupOfSnocOwn | src/components/ledger-data-table.tsx:540-543 | an entry of a category already seen extends that group by the entry and its amounts |
| LedgerTable.GroupOfSnocNew | src/components/ledger-data-table.tsx:532-543 | an entry of a new category opens a group holding just that entry and its amounts |
| LedgerTable.AddEntry | src/components/ledger-data-table.tsx:531-543 | one loop step: a new category id opens a group and appends its key; then the entry is pushed and its amounts added |
| LedgerTable.GroupEntries | src/components/ledger-data-table.tsx:521-549 | the Map loop computes the reference grouping: groups in key order, then sorted by category id |
| LedgerTable.GroupsAreByCategory | src/components/ledger-data-table.tsx:521-544 | one group per distinct category id, holding exactly its entries in order, with their receivable and debt sums |
| LedgerTable.EntryInExactlyOneGroup | src/components/ledger-data-table.tsx:530-544 | every entry is in exactly one group, the one of its category |
| LedgerTable.GroupsSorted | src/components/ledger-data-table.tsx:546-548 | the shown groups are ordered by category id and are a permutation of the Map's groups |
| LedgerTable.GroupBalanceIsNet | src/components/ledger-data-table.tsx:913-921 | a group's "Bakiye" (balance) row is the receivable minus the debt of its entries |
| LedgerTable.LedgerDataTable.constructor | src/components/ledger-data-table.tsx:142-160 | the table starts with the page's entries, the initial form and no selection |
| LedgerTable.LedgerDataTable.SyncInitialData | src/components/ledger-data-table.tsx:165-167 | new entries from the page replace the local copy; the form and the selection stay |
| LedgerTable.LedgerDataTable.HandleAccountChange | src/components/ledger-data-table.tsx:169-178 | the form becomes the account-changed form |
| LedgerTable.LedgerDataTable.OpenEditDialog | src/components/ledger-data-table.tsx:348-359 | selects the entry and loads its edit form |
| LedgerTable.LedgerDataTable.HandleCreate | src/components/ledger-data-table.tsx:184-251 | returns the validation result; a saved row is prepended and the form reset; a refusal or failed insert changes nothing |
| LedgerTable.LedgerDataTable.HandleEdit | src/components/ledger-data-table.tsx:253-315 | returns the edit validation; a saved row replaces the selected id, the form is reset and the selection cleared; a refusal or failure changes nothing |
| LedgerTable.LedgerDataTable.HandleDelete | src/components/ledger-data-table.tsx:317-346 | no selection does nothing; otherwise the entry is removed before the call, and the selection is cleared and the id reported only when the call succeeds |
| LedgerPage.ClearedFiltersKeepDateRange | src/app/accounting/ledger/page.tsx:173-226 | after clearing the filters an entry is shown exactly when it lies in the date range, which stays in force |
| LedgerTable.KeysDistinct | src/components/ledger-data-table.tsx:530-539 | the Map's keys, in insertion order, hold no repeats |
| LedgerTable.NetIsTotalsDifference | src/components/ledger-data-table.tsx:913-921 | the entry-by-entry net of receivable over debt is total receivable minus total debt |
| LedgerChart.MinDate | src/components/ledger-chart.tsx:58-59 | the earliest entry date: some entry has it and none is earlier |
| LedgerChart.MaxDate | src/components/ledger-chart.tsx:58-60 | the latest entry date: some entry has it and none is later |
| LedgerChart.ChartRange | src/components/ledger-chart.tsx:51-63 | the given range when both ends are given; otherwise the entries' first and last day; no range when there are no entries |
| LedgerChart.ZeroDays | src/components/ledger-chart.tsx:73-76 | the first loop keys one zero entry per day of the range, in order |
| LedgerChart.AddEntries | src/components/ledger-chart.tsx:79-88 | the second loop leaves each day of the range holding the sums of that day's entries and ignores entries outside it |
| LedgerChart.SortedPoints | src/components/ledger-chart.tsx:91-97 | the points come out one per day, ascending, with that day's sums |
| LedgerChart.ChartReference | src/components/ledger-chart.tsx:49-102 | the specified chart: every point carries its own day's receivable and debt sums |
| LedgerChart.ChartData | src/components/ledger-chart.tsx:49-102 | the Map-filling loops compute the reference chart: one point per day of the range with that day's receivable and debt sums |
| LedgerChart.PointsAreReference | src/components/ledger-chart.tsx:70-97 | once every entry is added, the Map's points in key order are the specified ones and already sorted by date |
| LedgerChart.EmptyChart | src/components/ledger-chart.tsx:61-122 | the chart is empty exactly when there is no range or the range is reversed |
| LedgerChart.OnePointPerDay | src/components/ledger-chart.tsx:67-76 | a range of n days gives n points, one per day, strictly ascending |
| LedgerChart.EntryRangeCoversEntries | src/components/ledger-chart.tsx:57-60 | a range taken from the entries contains every entry's date |
| LedgerChart.OutsideEntryIgnored | src/components/ledger-chart.tsx:79-88 | an entry dated outside the range changes no point |
| LedgerChart.DatedWithin | src/components/ledger-chart.tsx:79-88 | exactly the entries dated within the range |
| LedgerChart.ChartSumsEntries | src/components/ledger-chart.tsx:79-88 | the receivable summed over the range's days is the receivable total of the entries within it |
| LedgerChart.ChartReceivableTotal | src/components/ledger-chart.tsx:79-97 | each point carries its day's sums, and the points' receivables add up to the entries within the range |
| DraftAutoSave.AfterRender | src/hooks/use-draft-auto-save.ts:49-94 | the refs take the new props; a save is armed exactly when the dialog is open and some row has an account, capturing the rows, date and draft id of that render |
| DraftAutoSave.TimerWrite | src/hooks/use-draft-auto-save.ts:61-87 | a captured draft id gives an update of that draft, none an insert |
| DraftAutoSave.AfterFire | src/hooks/use-draft-auto-save.ts:83-85 | the timer is spent; an insert whose id came back records it, otherwise the id stays |
| DraftAutoSave.FlushWrite | src/hooks/use-draft-auto-save.ts:112-144 | no write without data; otherwise an update of the current draft or an insert |
| DraftAutoSave.DeleteWrite | src/hooks/use-draft-auto-save.ts:146-156 | a delete of the draft exactly when there is a draft id, otherwise no write |
| DraftAutoSave.Valid | src/hooks/use-draft-auto-save.ts:54-94 | the invariant that a timer is armed only while the dialog is open and its rows hold data; every DraftAutoSaver operation ensures it |
| DraftAutoSave.TransitionsKeepValid | src/hooks/use-draft-auto-save.ts:54-105 | every transition keeps the invariant that a timer is armed only for an open dialog with data |
| DraftAutoSave.SingleTimer | src/hooks/use-draft-auto-save.ts:57-93 | two changes in a row leave only the second one's save armed |
| DraftAutoSave.ClosedNeverArms | src/hooks/use-draft-auto-save.ts:55 | a closed dialog never arms a save |
| DraftAutoSave.InsertThenUpdate | src/hooks/use-draft-auto-save.ts:65-86 | after a first insert whose id came back, the next armed save updates that draft |
| DraftAutoSave.DraftAutoSaver.constructor | src/hooks/use-draft-auto-save.ts:37-51 | the hook starts with no draft id and no timer, so it is valid |
| DraftAutoSave.DraftAutoSaver.Render | src/hooks/use-draft-auto-save.ts:45-94 | the state after a render is the effect's result, and it is valid |
| DraftAutoSave.DraftAutoSaver.Fire | src/hooks/use-draft-auto-save.ts:61-87 | sends the captured write and records an inserted id; the hook stays valid |
| DraftAutoSave.DraftAutoSaver.Close | src/hooks/use-draft-auto-save.ts:97-105 | closing cancels the timer and forgets the draft id; the hook stays valid |
| DraftAutoSave.DraftAutoSaver.FlushSave | src/hooks/use-draft-auto-save.ts:112-144 | cancels the timer and sends the flush write of the current props; the hook stays valid |
| DraftAutoSave.DraftAutoSaver.Delete | src/hooks/use-draft-auto-save.ts:146-156 | cancels the timer; with a draft id, deletes it and forgets it; the hook stays valid |
| DraftAutoSave.DraftAutoSaver.SetDraftId | src/hooks/use-draft-auto-save.ts:16-37 | sets the draft id and nothing else; the hook stays valid |
| AccountsPage.FilteredAccounts | src/app/accounting/accounts/page.tsx:124-146 | an account stays exactly when it is of the chosen category (if one is set) and the normalized query occurs in its name, description or category name (if a query is set) |
| AccountsPage.NoFilterKeepsAccounts | src/app/accounting/accounts/page.tsx:127-131 | without a category and a query every account stays, in order |
| AccountsPage.AccountTotals | src/app/accounting/accounts/page.tsx:148-161 | the loop over the rows gives a record for exactly the account ids that occur, holding their receivable and debt sums |
| AccountsPage.TotalsStep | src/app/accounting/accounts/page.tsx:153-159 | one row's update keeps the totals equal to the sums over the rows seen |
| AccountsPage.NoRowsGiveZero | src/app/accounting/accounts/page.tsx:169-174 | an account with no rows sums to zero, which is the value the sort reads for it |
| AccountsPage.TotalValueIsSum | src/app/accounting/accounts/page.tsx:167-174 | what the sort reads for an account is its sum over the rows of the chosen column |
| AccountsPage.SortedAccounts | src/app/accounting/accounts/page.tsx:163-178 | the filtered list itself without a sort column; in every case a permutation of the filtered list |
| AccountsPage.SortedAccountsOrdered | src/app/accounting/accounts/page.tsx:163-178 | with a sort column the list is a permutation of the filtered list, ascending or descending by the column's total |
| AccountsPage.ToggleSort | src/app/accounting/accounts/page.tsx:180-193 | another column starts descending; on the active column descending turns ascending and ascending turns the sort off |
| AccountsPage.ToggleCycle | src/app/accounting/accounts/page.tsx:180-193 | three clicks on a column go from no sort through descending and ascending back to no sort |
| AccountsPage.AccountPayloadOf | src/app/accounting/accounts/page.tsx:204-216 | refused exactly when the category or the name is empty; otherwise the form's fields, an empty description as null |
| AccountsPage.AccountEditOf | src/app/accounting/accounts/page.tsx:231-246 | no selection is refused; otherwise the create guards, and the update targets the selected id |
| AccountsPage.AccountEditForm | src/app/accounting/accounts/page.tsx:282-290 | the form loaded for editing holds the account's category, name and description, null as "" (stated by EditAccountRoundTrip) |
| AccountsPage.EditAccountRoundTrip | src/app/accounting/accounts/page.tsx:231-290 | opening an account for edit and saving it unchanged writes back its own fields |
| AccountsPage.AccountsView.constructor | src/app/accounting/accounts/page.tsx:78-81 | no category filter, no query, no sort column, descending |
| AccountsPage.AccountsView.Toggle | src/app/accounting/accounts/page.tsx:180-193 | the sort becomes the toggled one; the filters stay |
| AccountsPage.AccountsView.ClearFilters | src/app/accounting/accounts/page.tsx:195-198 | the category and the query are cleared; the sort stays |
| CategoriesPage.FilteredCategories | src/app/accounting/categories/page.tsx:104-112 | an empty query keeps every category; otherwise a category stays exactly when the normalized query occurs in its normalized id or name |
| CategoriesPage.WeeksToDays | src/app/accounting/categories/page.tsx:126-169 | an empty weeks field gives null days, otherwise seven days per week |
| CategoriesPage.WeeksOfDays | src/app/accounting/categories/page.tsx:225-228 | null days give an empty field; otherwise the nearest whole week, within three days |
| CategoriesPage.RoundDiv7 | src/app/accounting/categories/page.tsx:227 | `Math.round(days / 7)` on whole days: a week count within three days of the days, unique by NearestWeekUnique |
| CategoriesPage.NearestWeekUnique | src/app/accounting/categories/page.tsx:227 | the week count shown is the unique one within three days of the stored days |
| CategoriesPage.WeeksRoundTrip | src/app/accounting/categories/page.tsx:126-129 | weeks entered, stored as days and loaded back into the form are the same weeks |
| CategoriesPage.DaysRoundTrip | src/app/accounting/categories/page.tsx:166-228 | a stored whole number of weeks survives an unchanged edit; any other period moves by at most three days |
| CategoriesPage.CreatePayload | src/app/accounting/categories/page.tsx:119-136 | refused exactly when the id or the name is empty; otherwise id, name, entry type and the days of the weeks field |
| CategoriesPage.CreateOutcome | src/app/accounting/categories/page.tsx:119-155 | an incomplete form, a duplicate code exactly for error 23505 after a complete form, saved exactly when the insert reports no error |
| CategoriesPage.EditPayload | src/app/accounting/categories/page.tsx:158-186 | refused exactly without a selection or a name; never an id; the update targets the selected id and carries the entry type only when the selected category has one |
| CategoriesPage.EditForm | src/app/accounting/categories/page.tsx:223-236 | the category's id and name, its entry type or "both" when missing, and its days as weeks |
| CategoriesPage.EditRoundTrip | src/app/accounting/categories/page.tsx:158-236 | saving a named category's edit form unchanged writes back its own name, entry type and days, when they are whole weeks |
| CategoriesPage.CategoryDialogs.constructor | src/app/accounting/categories/page.tsx:68-78 | no query, the empty form, no selection, both dialogs closed |
| CategoriesPage.CategoryDialogs.ClearFilters | src/app/accounting/categories/page.tsx:114-116 | only the query is cleared |
| CategoriesPage.CategoryDialogs.OpenEditDialog | src/app/accounting/categories/page.tsx:223-236 | selects the category, loads its edit form and opens the edit dialog |
| CategoriesPage.CategoryDialogs.HandleCreate | src/app/accounting/categories/page.tsx:118-156 | sends the create payload; a save closes the dialog and resets the form; anything else leaves them |
| CategoriesPage.CategoryDialogs.HandleEdit | src/app/accounting/categories/page.tsx:158-201 | sends the edit payload; a successful update closes the dialog, clears the selection and resets the form; anything else leaves them |
| KategorilerPage.FilteredCategories | src/app/muhasebe/kategoriler/page.tsx:84-92 | an empty query keeps every category; otherwise a category stays exactly when the lower-cased query occurs in its lower-cased id or name |
| KategorilerPage.FilterIdempotent | src/app/muhasebe/kategoriler/page.tsx:84-92 | filtering the filtered list with the same query changes nothing |
| KategorilerPage.CreatePayload | src/app/muhasebe/kategoriler/page.tsx:98-109 | refused exactly when the id or the name is empty; otherwise only the id and the name |
| KategorilerPage.CreateOutcome | src/app/muhasebe/kategoriler/page.tsx:98-128 | an incomplete form, a duplicate code exactly for error 23505, saved exactly when the insert reports no error |
| KategorilerPage.EditPayload | src/app/muhasebe/kategoriler/page.tsx:131-142 | refused exactly without a selection or a name; otherwise the selected id and the new name only |
| KategorilerPage.ApplyEdit | src/app/muhasebe/kategoriler/page.tsx:139-142 | the update changes the name and nothing else |
| KategorilerPage.EditOwnNameKeepsRow | src/app/muhasebe/kategoriler/page.tsx:131-182 | editing a category to its own name leaves its row as it was |
| StatementAutocomplete.OccurrencesOfZeros | src/components/statement-autocomplete.tsx:28-36 | the search loop finds "00" in "1000" twice, at 1 and, overlapping, at 2 |
| StatementAutocomplete.OccurrencesSound | src/components/statement-autocomplete.tsx:28-36 | every listed span is an occurrence of the query, with ascending starts |
| StatementAutocomplete.OccurrencesComplete | src/components/statement-autocomplete.tsx:28-36 | every occurrence is listed, overlapping ones included, since the search resumes one past each match |
| StatementAutocomplete.OccurrencesSkip | src/components/statement-autocomplete.tsx:29-35 | from the search index the list is the first occurrence, then those after it (the indexOf step) |
| StatementAutocomplete.MatchPositions | src/components/statement-autocomplete.tsx:25-36 | the while loop collects exactly the occurrences of the normalized query in the normalized text |
| StatementAutocomplete.RenderedAppend | src/components/statement-autocomplete.tsx:41-64 | the text shown by pieces built in two parts is the text of each part in order |
| StatementAutocomplete.NonOverlappingRoundTrip | src/components/statement-autocomplete.tsx:41-64 | with non-overlapping spans the builder as written shows the text exactly once |
| StatementAutocomplete.HighlightAsWritten | src/components/statement-autocomplete.tsx:18-67 | the highlighting as written; OverlapDuplicatesText and NonOverlappingRoundTrip state what it shows |
| StatementAutocomplete.MarkedZeros | src/components/statement-autocomplete.tsx:44-59 | the builder as written marks "00" twice for the two overlapping spans |
| StatementAutocomplete.OverlapDuplicatesText | src/components/statement-autocomplete.tsx:18-67 | highlighting "00" in "1000" displays "10000": overlapping matches repeat their shared characters |
| StatementAutocomplete.Highlighted | src/components/statement-autocomplete.tsx:18-67 | the corrected highlighting; HighlightKeepsText states that it shows the text unchanged |
| StatementAutocomplete.MergedRoundTrip | src/components/statement-autocomplete.tsx:41-64 | the corrected builder shows the text exactly once for any spans whose ends do not go back |
| StatementAutocomplete.HighlightKeepsText | src/components/statement-autocomplete.tsx:18-67 | the highlighted pieces show the original text unchanged; a blank query or no match gives the plain text |
| StatementAutocomplete.PushStep | src/components/statement-autocomplete.tsx:44-58 | one iteration appends the plain text before the span, when there is any, and then the span's marked part, starting where the previous span ended (the corrected slice) |
| StatementAutocomplete.MergedPieces | src/components/statement-autocomplete.tsx:41-64 | the builder loop and the trailing text compute the corrected pieces for the spans found |
| StatementAutocomplete.Highlight | src/components/statement-autocomplete.tsx:18-67 | the method's loops compute the corrected highlighting |
| StatementAutocomplete.TakeMax | src/components/statement-autocomplete.tsx:122-127 | the first ten suggestions, or all of them when there are fewer |
| StatementAutocomplete.MatchingSuggestions | src/components/statement-autocomplete.tsx:124-126 | exactly the suggestions whose normalized form contains the normalized value |
| StatementAutocomplete.FilteredSuggestions | src/components/statement-autocomplete.tsx:121-128 | never more than ten suggestions; FilteredSuggestionsSpec states which |
| StatementAutocomplete.FilteredSuggestionsSpec | src/components/statement-autocomplete.tsx:121-128 | at most ten; the first ones for a blank value, else the first matching ones, all of them when at most ten match |
| StatementAutocomplete.ShouldShow | src/components/statement-autocomplete.tsx:136-137 | some filtered suggestion and a non-blank value; ShownOnlyWithMatches characterizes it |
| StatementAutocomplete.ShownOnlyWithMatches | src/components/statement-autocomplete.tsx:136-137 | the list shows exactly for a non-blank value some suggestion matches |
| StatementAutocomplete.AfterInput | src/components/statement-autocomplete.tsx:130-155 | the value is the new one; the list opens exactly for a non-blank value; a changed value resets the selection |
| StatementAutocomplete.AfterSelect | src/components/statement-autocomplete.tsx:139-145 | the chosen suggestion becomes the value, the list closes and the selection returns to the top (stated through AfterKey and KeysKeepSelectionInRange) |
| StatementAutocomplete.NextIndex | src/components/statement-autocomplete.tsx:173-175 | one down, wrapping from the last to the first |
| StatementAutocomplete.PrevIndex | src/components/statement-autocomplete.tsx:179-181 | one up, wrapping from the first to the last |
| StatementAutocomplete.ArrowsInverse | src/components/statement-autocomplete.tsx:171-182 | up undoes down and down undoes up on every position in range |
| StatementAutocomplete.AfterKey | src/components/statement-autocomplete.tsx:167-197 | keys do nothing unless the list is open and shown; Enter chooses exactly a non-empty selected suggestion; Escape and Tab close; the arrows move the selection; any other key, and an Enter with nothing to take, leave the state unchanged |
| StatementAutocomplete.KeysKeepSelectionInRange | src/components/statement-autocomplete.tsx:167-197 | a selection in range stays in range under every key, including the Enter that takes a suggestion and resets the selection to the top |
| StatementAutocomplete.Autocomplete.constructor | src/components/statement-autocomplete.tsx:92-93 | closed, with the first suggestion selected |
| StatementAutocomplete.Autocomplete.SetSuggestions | src/components/statement-autocomplete.tsx:121-133 | new suggestions reset the selection |
| StatementAutocomplete.Autocomplete.HandleInputChange | src/components/statement-autocomplete.tsx:147-155 | the state after typing is the input transition |
| StatementAutocomplete.Autocomplete.HandleBlur | src/components/statement-autocomplete.tsx:159-165 | focus leaving for anything but the list closes it |
| StatementAutocomplete.Autocomplete.HandleKeyDown | src/components/statement-autocomplete.tsx:167-197 | the state and the chosen suggestion are those of the key transition |
| ComboboxSelect.Items | src/components/combobox-select.tsx:56-61 | with the "all" entry it comes first, then the external items; without it the external items |
| ComboboxSelect.SelectedItem | src/components/combobox-select.tsx:63-66 | the first item with that value; none exactly when no item has it |
| ComboboxSelect.EmptyValueSelectsAll | src/components/combobox-select.tsx:56-66 | with the "all" entry the value "" selects it |
| ComboboxSelect.UnknownValueSelectsNothing | src/components/combobox-select.tsx:63-66 | without it a value no item carries selects nothing |
| ComboboxSelect.ChangedValue | src/components/combobox-select.tsx:68-77 | null gives "", an array its first element's value or "", an item its value |
| ComboboxSelect.ChosenItemIsSelected | src/components/combobox-select.tsx:63-77 | choosing an item reports a value that selects an item with that value |
| ComboboxSelect.TurkishFilter | src/components/combobox-select.tsx:79-84 | an item is kept when its normalized label contains the normalized query |
| ComboboxSelect.Shown | src/components/combobox-select.tsx:79-84 | exactly the items whose normalized label contains the normalized query |
| DateRangeFilter.PresetRange | src/components/date-range-filter.tsx:71-73 | a range of exactly that many days ending today |
| DateRangeFilter.MountChange | src/components/date-range-filter.tsx:44-51 | applies the last 90 days exactly when neither date is set |
| DateRangeFilter.AfterOpenChange | src/components/date-range-filter.tsx:54-62 | opening copies the props into the calendar when both are set and clears it otherwise; closing keeps it |
| DateRangeFilter.AfterPreset | src/components/date-range-filter.tsx:64-78 | "all" clears the calendar and both dates; a day count selects and applies its range |
| DateRangeFilter.AfterSelect | src/components/date-range-filter.tsx:81-89 | the calendar keeps the pick; exactly a range with both ends is applied, and then the preset is cleared |
| DateRangeFilter.PresetsCoverTheirDays | src/components/date-range-filter.tsx:17-78 | each listed preset applies a range as long as its label says, ending today |
| DateRangeFilter.MountIsNinetyDays | src/components/date-range-filter.tsx:38-51 | the mount effect applies what the initially selected 90-day preset would |
| DateRangeFilter.PresetFor | src/components/date-range-filter.tsx:96 | a listed preset exactly for 7, 30 and 90 days |
| DateRangeFilter.DisplayText | src/components/date-range-filter.tsx:91-108 | "all" first, then the preset's label with its range, then the range, then an open-ended start, then the placeholder |
| DateRangeFilter.PresetShownAfterClick | src/components/date-range-filter.tsx:64-108 | once the new range comes back as props, the text names the clicked preset |
| DateRangeFilter.DateRangePicker.constructor | src/components/date-range-filter.tsx:37-41 | closed, the 90-day preset, no calendar range |
| DateRangeFilter.DateRangePicker.HandleOpenChange | src/components/date-range-filter.tsx:54-62 | the state becomes the open-change transition |
| DateRangeFilter.DateRangePicker.HandlePresetClick | src/components/date-range-filter.tsx:64-78 | the state and the range applied are the preset transition's |
| DateRangeFilter.DateRangePicker.HandleSelect | src/components/date-range-filter.tsx:81-89 | the state and the range applied are the select transition's |
| DateUtils.Decimal | src/lib/date-utils.ts:17-23 | decimal digits with no leading zero |
| DateUtils.DecimalRoundTrip | src/lib/date-utils.ts:17-23 | the digits read back as the number they render |
| DateUtils.ShortRelativeTime | src/lib/date-utils.ts:11-25 | "Az önce" under a minute; minutes below an hour; whole hours (1 to 23) below a day; whole days after |
| DateUtils.RelativeTimeReadsBack | src/lib/date-utils.ts:14-24 | every label after a minute is digits plus its unit, and the digits read back as the count |
| Routes.RouteByPath | src/config/routes.ts:73-75 | the first route with exactly that path; none exactly when no route has it |
| Routes.PageTitle | src/config/routes.ts:80-82 | the route's non-empty title, else "My Dora", also for a known path with an empty title; never empty |
| Routes.KnownTitles | src/config/routes.ts:31-82 | the application's pages get their titles; unknown paths get "My Dora" |
| Routes.RoutesByModule | src/config/routes.ts:87-89 | exactly the routes of that module |
| Routes.RoutesByModuleAppend | src/config/routes.ts:87-89 | the module filter works part by part, so it keeps table order |
| Routes.NavRoutes | src/config/routes.ts:95-97 | exactly the routes shown in the sidebar and, for a non-empty module, of that module |
| Routes.NavigationItems | src/config/routes.ts:94-99 | a permutation of the sidebar routes; NavigationItemsSpec states their order |
| Routes.NavigationItemsSpec | src/config/routes.ts:94-99 | the sidebar items are a permutation of those routes, ascending by nav order with a missing or zero order as 999 |
| Routes.Matching | src/config/routes.ts:106-108 | exactly the routes whose path is a prefix of the pathname |
| Routes.ModuleByPath | src/config/routes.ts:104-110 | nothing when no route path is a prefix |
| Routes.ModuleByPathIsLongestMatch | src/config/routes.ts:104-118 | otherwise the module of a longest match, the last of equally long ones, or nothing when it has no module |
| Routes.AccountingPathsAreMuhasebe | src/config/routes.ts:104-118 | every path under "/accounting" is in the "Muhasebe" module |
| SiteHeader.Title | src/components/site-header.tsx:7-39 | the pathname's own non-empty title, else "My Dora", also for a listed path with an empty title |
| SiteHeader.MatchingPrefixes | src/components/site-header.tsx:23-25 | exactly the keys that are prefixes of the pathname |
| SiteHeader.ModuleName | src/components/site-header.tsx:21-35 | nothing exactly when no key is a prefix; otherwise the name under a longest matching key |
| SiteHeader.MuhasebePaths | src/components/site-header.tsx:16-35 | every "/muhasebe" path is in "Muhasebe"; "/" is in no module |
| SiteHeader.Header | src/components/site-header.tsx:37-40 | the header's title and module name for a pathname; KnownHeaderTitles and MuhasebePaths state them |
| SiteHeader.KnownHeaderTitles | src/components/site-header.tsx:7-39 | a listed pathname shows its title, any other "My Dora" |
| NavMain.IsActive | src/components/nav-main.tsx:35-37 | active on its own url, and on any pathname it prefixes except for "/accounting", which is active only on itself |
| NavMain.PrefixWithoutSeparator | src/components/nav-main.tsx:35-37 | "/accounting/ledgerx" activates the "/accounting/ledger" item; subpages leave "/accounting" inactive |
| NavUser.LocalPart | src/components/nav-user.tsx:78 | the prefix of the email before its first "@", or the whole email; it holds no "@" |
| NavUser.DisplayName | src/components/nav-user.tsx:74-79 | "first last" trimmed when either name is set; otherwise the email's local part, or "Kullanıcı" when that is empty |
| NavUser.NameWithoutProfile | src/components/nav-user.tsx:74-79 | without a profile name the display name never shows the email's domain; an email starting with "@" shows "Kullanıcı" |
| NavUser.Initials | src/components/nav-user.tsx:81-89 | both first letters upper-cased when both names are set; the first two of a lone first name; else the email's first two, or "U" |
| NavUser.MenuTexts | src/components/nav-user.tsx:91-96 | nothing exactly without a user, else the display name and the initials |
| LoginForm.TranslateAuthError | src/components/login-form.tsx:17-32 | a listed message gets its Turkish text; any other the default text; never empty |
| LoginForm.ListedMessagesTranslate | src/components/login-form.tsx:18-31 | every listed message has its own text, different from the default; the two wrong-credential messages read alike |
| LoginForm.CaseVariantIsDefault | src/components/login-form.tsx:31 | the lookup is exact: a message differing only in case gets the default text |
| LoginForm.SubmitEnabled | src/components/login-form.tsx:116 | enabled exactly when not loading and both fields are non-empty |
| Middleware.Decide | src/lib/supabase/middleware.ts:35-65 | unconfigured passes through; no user off the login pages goes to "/login"; a user on them goes to "/muhasebe"; it passes through exactly otherwise |
| Middleware.RedirectSettles | src/lib/supabase/middleware.ts:48-63 | a redirect's target passes through, so redirects never loop |
| Middleware.RootAndLoginPrefix | src/lib/supabase/middleware.ts:48-49 | "/" is not exempt from sign-in, and "/loginx" counts as a login page |
| Middleware.Applied | src/lib/supabase/middleware.ts:21-29 | the jar's names plus exactly the names being set |
| Middleware.AppliedLastWins | src/lib/supabase/middleware.ts:21-29 | a name's last entry wins; a name not being set keeps its value |
| Middleware.Session.constructor | src/lib/supabase/middleware.ts:8-10 | the response starts with no cookies set |
| Middleware.Session.SetAll | src/lib/supabase/middleware.ts:20-30 | the request gets every cookie over its own, and the recreated response holds exactly the cookies being set |
| Database.InsertOutcome | src/app/accounting/categories/page.tsx:138-145 | saved exactly without an error, a duplicate code exactly for error 23505, any other error a failure |

## Left out

- Supabase I/O: every select, insert, update, delete, RPC call and auth call is reduced to its arguments and to the error code or rows it returns. Those are parameters of the members that use them. The SQL aggregation inside the report procedures is stated as a reference definition (`AccountStatement.ReferenceIsConsistent`), not as database code.
- Toasts, router navigation (`router.push`, `router.refresh`) and the refetch after each save are not modelled, since they only display or reload data.
- Timers and `async`: the draft auto-save's 1500 ms debounce becomes discrete events (render, fire, flush, delete, close). The order in which promises settle is not modelled.
- The 500 ms row animation (`newRowIds`), icons, focus, scrolling, textarea auto-resize and every purely presentational component are not modelled, since they have no logic to state.
- The PDF report (src/lib/reports/pdf-generator.tsx), the share dialog's clipboard, the reports page's sessionStorage cache, the sliding-number animation, the report tables, the sidebar and the account and category comboboxes are not part of this model: they render, animate or store data without logic of their own.
- The browser download in `downloadCSV` (Blob, anchor, click) is left out. Only the file name and the content with its byte-order mark are modelled (`CsvExport.DownloadContent`).
- src/app/muhasebe/hesaplar/page.tsx is not part of this model: its only logic is the two-field guard of the accounts page.
- The row deletes of the accounts and categories pages are not modelled: each is a single database call behind a selection check.
- Floating point: amounts are whole numbers of the smallest currency unit. `parseFloat` and `Number` are parameters, and fractional weeks in the categories form are not represented (`CategoriesPage.WeeksToDays` takes whole weeks).
- `String.prototype.localeCompare` is approximated by code-point order (`Common.StrLe`), since the locale's collation tables are not available.
- Dates: dates are day numbers. `startOfDay` and `endOfDay` of a day both denote that day, and `parseISO` and `format` are parameters. Times of day and time zones are not modelled.
- `normalizeForSearch`, `toLowerCase` and `toUpperCase` are parameters, so no Turkish case mapping is modelled.
- StatementAutocomplete.HighlightKeepsText: requires that normalizing keeps the text's length. The source slices the original text at positions found in the normalized text, so with a normalizer that changes the length the shown text can differ in ways not modelled here.
- StatementAutocomplete.Autocomplete.HandleBlur: the blur event's `relatedTarget.closest(...)` test is a boolean parameter.
- LoginForm.TranslateAuthError: does not model JavaScript's inherited object keys (a message such as "constructor" would hit `Object.prototype`). Only the record's own ten entries are modelled.
- SiteHeader.Title: likewise does not model keys inherited from `Object.prototype`.
- Middleware.Session.SetAll: cookie options (path, expiry, flags) are not modelled, only names and values. The user lookup (`auth.getUser`) is the `hasUser` parameter of `Middleware.Decide`.
- The middleware's `isPublicPage` is computed but never used, so it has no member.
- LedgerTable.ValidateEdit: the source shows the caught exception's own message when an update fails. Only the failure itself is modelled.
- CsvExport.ExportAccountStatement and CsvExport.ExportAccountSummary: they use the corrected amount cells (`CsvExport.MoneyCell`) described under Findings. The as-written line builders are `CsvExport.StatementLines` and `CsvExport.SummaryLines` given the plain formatter.
- Strings are sequences of Unicode scalar values, while JavaScript strings index UTF-16 code units. Lengths and slice positions therefore agree with the source only for text inside the Basic Multilingual Plane. This concerns `firstName[0]`, `.slice(0, 2)` and the highlighter's match positions.
- NavUser.Initials: for a name that starts with a character outside the Basic Multilingual Plane, the source takes a lone surrogate and the model takes the whole character.
- ReportsList.UserInitials: the same difference as NavUser.Initials, for the reports list's initials.
- AccountStatement.FetchAccountStatement: a response with no error but with null `data` makes the source throw a TypeError at `raw.entries`. `RpcSuccess` always carries a payload, so that path is not modelled.
- AccountSummary.FetchAccountSummary: likewise, null `data` makes the source throw at `raw.groups`, and that path is not modelled.
- LedgerChart.ChartReference: a reversed range gives no points on the assumption of date-fns version 2, whose `eachDayOfInterval` throws on a reversed interval so that the `catch` returns the empty list. From version 3 on, a reversed interval gives its days in reverse, and the source would then draw them. The source does not fix the version.
- AccountStatement.ReferenceIsConsistent: the chronological order of the entries is proved for postings that are listed chronologically (`Chronological`). How the database procedure orders the rows is SQL and is not part of this model.
- LedgerChart.EmptyChart: rests on the same date-fns version 2 assumption as LedgerChart.ChartReference.

## Findings

| source | as written | input that shows it | evidently intended | confidence | as-written member | corrected member |
|---|---|---|---|---|---|---|
| src/components/statement-autocomplete.tsx:28-36, 44-59 | the search resumes one character after each match, so matches can overlap. The builder then pushes each match's slice in full, so shared characters are shown twice | text "1000", query "00", identity normalizer: the matches are [1,3) and [2,4), and the rendered text is "10000" | every character of the text is shown exactly once, with the matched parts marked | not executed | StatementAutocomplete.OverlapDuplicatesText | StatementAutocomplete.MergedRoundTrip, StatementAutocomplete.HighlightKeepsText, StatementAutocomplete.Highlight |
| src/lib/reports/csv-exporter.ts:6-13, 77-82, 92-95, 127-130, 140-143, 154-157 | amount cells are `formatCurrency` output pushed without `escapeCSV`. The tr-TR currency text uses a decimal comma ("₺100,00"), which then splits the cell | an entry of 100 lira debt on 2024-01-05 with no memo gives the line "05.01.2024,,₺100,00,,₺100,00,", which reads back as 8 fields instead of 6 | every amount cell is escaped like the text cells, so each line reads back as its six cells | not executed | CsvExport.AmountCommaSplitsEntryLine | CsvExport.EntryLineReadsBack, CsvExport.AccountLineReadsBack |
