# Income tracker bookkeeping, modelled in Dafny

This project models the bookkeeping core of a small Hebrew-language income tracker for freelance musicians. Each piece of work is an *income entry*: the date of the work, a client, a description, a gross amount and an amount paid, a VAT treatment, and an invoice lifecycle. That lifecycle runs from done (בוצע) to invoice sent (נשלחה) to paid (שולם).

The model covers:

- **Entry model and labels** (`IncomeTypes`). Entries, statuses, VAT types, KPI records and the status/VAT labels.
- **Money arithmetic** (`Currency`). Every operation rounds to two decimals, as `toFixed(2)` does. It includes the reading of decimal text that `parseFloat` performs, the `toFixed(2)` text and the `String(x)` text.
- **Date helpers** (`Dates`). Past dates, days since a date, month/year and weekday, with a day count in the proleptic Gregorian calendar.
- **Utilities** (`IncomeUtils`). The display status, overdue test, month filter, KPI roll-up, id generation, client list and CSV export.
- **List operations** (`EntryLists`, `Sorting`). The pure list updates shared by the two page state holders, and the stable date sort.
- **Local page state** (`IncomeState.IncomeState`). A class whose fields are the local state hook's state.
- **Server-backed page** (`IncomePage`). It converts database rows to entries and builds the forms sent to the server actions. The `IncomePage.IncomePage` class holds the optimistic local list.
- **Data layer** (`IncomeStore`). Row creation and partial updates, mark-paid and mark-sent, deletion (the `IncomeStore.Store` class over a map of rows), month bounds, the monthly aggregates with their VAT total, and the client list.
- **Table totals** (`TableTotals`). The footer of the income table, with its paid / waiting / to-invoice buckets.
- **Backup script** (`Backup`). `.env.local` parsing into an environment, and the CSV text of a backup.

Money is modelled as exact `real` values, and every rounding the program performs is written out. A numeric database column is text, and a row whose numeric columns all parse is a `StoredRow`. The clock is a parameter `Now` (today's date plus the milliseconds into the day, in UTC). Database I/O, React and the file system are replaced by the values they produce.

Each operation's partner is one of:

- a reference definition, such as a count or sum over the entries, or a reference CSV reader;
- an inverse, as in the round trips through text and through the server forms;
- an invariant it preserves, such as well-formed rows, sortedness or strict ordering.

## Model

| member | source | states |
|---|---|---|
| IncomeTypes.StatusLabel | app/income/types.ts:47-71 | each status has a non-empty Hebrew label |
| IncomeTypes.LabelsDistinct | app/income/types.ts:3-4 | two statuses (or two VAT types) have the same label exactly when they are the same value |
| IncomeTypes.FromDraft | app/income/hooks/useIncomeState.ts:264-274 | a new entry keeps every field of the form draft and takes the given id and weekday |
| Currency.Round2Nearest | app/income/currency.ts:6-10 | rounding to two decimals yields a whole number of cents within half a cent of the value |
| Currency.Round2Exact | app/income/currency.ts:6-10 | a value already in whole cents is left unchanged by rounding |
| Currency.Round2Idempotent | app/income/currency.ts:6-10 | rounding twice is rounding once |
| Currency.Add | app/income/currency.ts:6 | the sum is in whole cents and within half a cent of the exact sum |
| Currency.Subtract | app/income/currency.ts:7 | the difference is in whole cents and within half a cent of the exact difference |
| Currency.Multiply | app/income/currency.ts:8 | the product is in whole cents and within half a cent of the exact product |
| Currency.Divide | app/income/currency.ts:9 | for a non-zero divisor, the quotient is in whole cents and within half a cent of the exact quotient |
| Currency.AddSubtractExact | app/income/currency.ts:6-7 | on whole-cent operands, add and subtract are exact |
| Currency.SubtractUndoesAdd | app/income/currency.ts:6-7 | on whole-cent operands, subtracting what was added restores the first operand, and adding zero changes nothing |
| Currency.AddCommutesSubtractSelf | app/income/currency.ts:6-7 | add is commutative, and a value minus itself is zero, for all operands |
| Currency.MultiplyByHundred | app/income/utils.ts:143-146 | for a whole-cent value, multiplying by 100 is exact and gives an integer |
| Currency.MoneySum | app/income/components/income-table/IncomeTableTotals.tsx:18 | a running sum built with add is always in whole cents |
| Currency.MoneySumExact | app/income/components/income-table/IncomeTableTotals.tsx:18 | over whole-cent amounts, the running sum built with add equals the exact sum |
| Currency.FromString | app/income/currency.ts:10 | parsing text succeeds exactly when `parseFloat` does, and the result is the parsed number rounded to whole cents |
| Currency.ParseToFixed | app/income/data.ts:263-268 | the `toFixed(2)` text of any value parses back as that value rounded to cents |
| Currency.ToFixedRoundTrip | app/income/data.ts:263-268 | reading a stored `toFixed(2)` amount with fromString gives the value rounded to cents |
| Currency.NumberTextRoundTrip | app/income/IncomePageClient.tsx:228-234 | the `String(x)` text of a whole-cent amount parses back as exactly that amount |
| Dates.DayNumberOrder | app/income/data.ts:166-170 | calendar order (year, then month, then day) agrees with day-number order both ways, and equal day numbers mean equal dates |
| Dates.IsPastDateIsBefore | app/income/utils.ts:52-59 | a date is past exactly when it is strictly before today; today is never past |
| Dates.DaysSinceIsDayDifference | app/income/utils.ts:62-67 | the days since a date are today's day number minus that date's day number |
| Dates.MonthYear | app/income/utils.ts:70-76 | the month is between 1 and 12, the date is one of that month's days, and month and year are the date's own |
| Dates.DayOfWeek | app/income/utils.ts:37-40 | the weekday index is below seven |
| Dates.WeekdayNext | app/income/utils.ts:37-40 | the weekday of the following day is the next weekday, modulo seven |
| Dates.EpochWeekday | app/income/utils.ts:37-40 | 1 January 1970 is a Thursday (ה) |
| Text.Trim | scripts/backup.ts:12-13 | the result has no surrounding white space, and it is empty exactly when the text is all white space |
| Text.TrimUnchanged | scripts/backup.ts:12-13 | text without surrounding white space is left unchanged by trimming |
| Text.ToLower | app/income/hooks/useIncomeState.ts:238-246 | the result has the same length as the text, and each character is lower-cased on its own |
| Text.ContainsIsSlice | app/income/hooks/useIncomeState.ts:238-246 | substring search succeeds exactly when the query occurs at some position |
| Text.Split | scripts/backup.ts:9 | splitting yields at least one part, and no part contains the separator |
| Text.JoinSplit | scripts/backup.ts:9 | joining the parts of a split with the separator restores the text |
| Text.SplitJoin | scripts/backup.ts:49 | splitting a join of separator-free parts restores the parts |
| Text.SplitLines | scripts/backup.ts:49 | splitting the lines of a header and rows without line breaks gives back the header and the rows |
| Text.SortedUnique | app/income/utils.ts:176-179 | the result is strictly sorted and holds exactly the given strings |
| Text.StrictlySortedUnique | app/income/utils.ts:176-179 | two strictly sorted lists with the same members are equal, so the de-duplicated sorted client list is unique |
| Sorting.InsertBy | app/income/hooks/useIncomeState.ts:249-253 | inserting adds exactly the new element to the list's elements |
| Sorting.InsertBySorted | app/income/hooks/useIncomeState.ts:249-253 | inserting into a list sorted by the key keeps it sorted |
| Sorting.SortBy | app/income/hooks/useIncomeState.ts:249-253 | the result is sorted by the key and is a permutation of the input |
| Sorting.SortByStable | app/income/hooks/useIncomeState.ts:249-253 | entries with equal keys keep their relative order (the sort is stable) |
| IncomeUtils.DisplayStatus | app/income/utils.ts:83-91 | sent and paid entries show their status; a done entry shows done exactly when its date is past, and no status otherwise |
| IncomeUtils.IsOverdue | app/income/utils.ts:94-97 | an entry is overdue exactly when it is sent, has a sending date, and that date is more than the threshold days before today |
| IncomeUtils.FilterByMonth | app/income/utils.ts:100-109 | the result holds exactly the entries of the given month and year |
| IncomeUtils.FilterByMonthAppend | app/income/utils.ts:100-109 | filtering a concatenation filters each part, so the input order is kept |
| IncomeUtils.FilterByMonthIdempotent | app/income/utils.ts:100-109 | filtering twice equals filtering once |
| IncomeUtils.Trend | app/income/utils.ts:143-146 | the trend is zero without a positive previous month; otherwise it is an integer within half a point of the exact percentage change (for whole-cent totals) |
| IncomeUtils.CalculateKPIs | app/income/utils.ts:112-165 | the counts are bounded (overdue is at most invoiced, which is at most the number of entries); the sums are whole cents; the trend is zero without a previous month |
| IncomeUtils.KpiCounts | app/income/utils.ts:149-152 | each count matches its reference: entries shown as ready, entries in the month, sent entries, overdue entries |
| IncomeUtils.KpiSums | app/income/utils.ts:121-140 | over whole-cent amounts, each sum is the exact sum over its entries: owed on sent, gross on ready, gross in month, paid in month |
| IncomeUtils.MaxPositiveId | app/income/utils.ts:168-173 | the result bounds every numeric id and is zero or one of them |
| IncomeUtils.GenerateId | app/income/utils.ts:168-173 | the new id is positive, clashes with no existing id, exceeds every numeric id, and is one more than the largest |
| IncomeUtils.UniqueClients | app/income/utils.ts:176-179 | the client list is strictly sorted and holds exactly the clients of the entries |
| IncomeUtils.UniqueClientsDetermined | app/income/utils.ts:176-179 | any strictly sorted list of exactly the entries' clients is the client list |
| IncomeUtils.CsvCells | app/income/utils.ts:211-221 | each CSV row has one cell per header |
| IncomeUtils.Quote | app/income/utils.ts:211-221 | a quoted cell is the cell between two double quotes |
| IncomeUtils.CsvFile | app/income/utils.ts:223-228 | the file is the byte-order mark followed by the CSV content |
| IncomeUtils.HeaderHasNoLineBreak | app/income/utils.ts:199-209 | the header line contains no line break |
| IncomeUtils.RowHasNoLineBreak | app/income/utils.ts:211-221 | a row whose cells contain no line break contains none itself |
| IncomeUtils.CsvLines | app/income/utils.ts:223-226 | when no cell has a line break, the file splits into the header followed by exactly one line per entry, in order |
| IncomeUtils.CsvRowCells | app/income/utils.ts:211-221 | when no cell has a comma, a row splits back into its quoted cells |
| EntryLists.ReplaceById | app/income/hooks/useIncomeState.ts:276-284 | every entry with the updated id is replaced and every other entry is kept, in place |
| EntryLists.ReplaceByIdIdempotent | app/income/hooks/useIncomeState.ts:276-284 | replacing twice equals replacing once |
| EntryLists.RemoveById | app/income/hooks/useIncomeState.ts:286-290 | the result holds exactly the entries of other ids |
| EntryLists.RemoveByIdOrder | app/income/hooks/useIncomeState.ts:286-290 | removal distributes over concatenation (order is kept), and a list without the id is unchanged |
| EntryLists.WithStatus | app/income/hooks/useIncomeState.ts:292-314 | the new status is set; sending stamps today only if no sending date exists; paying stamps today and sets paid to gross; nothing else changes |
| EntryLists.WithStatusSentTwice | app/income/hooks/useIncomeState.ts:296-306 | marking sent twice equals marking sent once and always leaves a sending date; paying pays in full |
| EntryLists.SetStatusById | app/income/hooks/useIncomeState.ts:292-314 | exactly the entries with the id get the new status, in place |
| EntryLists.SetSentTwice | app/income/hooks/useIncomeState.ts:320-322 | marking an entry sent twice in a list equals marking it once |
| EntryLists.Duplicate | app/income/hooks/useIncomeState.ts:324-340 | the copy has the new id and today's date and weekday, is done and unpaid with no dates, and keeps description, amount, client, VAT, notes and category |
| EntryLists.FilterStepsSelect | app/income/hooks/useIncomeState.ts:221-246 | the status filter followed by the search filter keeps exactly the entries that match both |
| EntryLists.ViewSelects | app/income/hooks/useIncomeState.ts:221-253 | the view holds entries of the list that match filter and search, and every such entry of the list |
| EntryLists.ViewOrdered | app/income/hooks/useIncomeState.ts:248-253 | the view is ordered by date, newest first for a descending sort and oldest first otherwise |
| EntryLists.ViewSpec | app/income/hooks/useIncomeState.ts:221-253 | the view holds exactly the selected entries, ordered by date in the chosen direction, as a permutation of the selection |
| IncomeState.IncomeState.constructor | app/income/hooks/useIncomeState.ts:188-205 | initial state: no selection, drawer closed, filter "all", empty search, descending sort, the current month |
| IncomeState.IncomeState.Clients | app/income/hooks/useIncomeState.ts:208-211 | the clients are strictly sorted and cover exactly the entries' clients |
| IncomeState.MonthView | app/income/hooks/useIncomeState.ts:214-254 | the view of the month's entries holds exactly the entries of that month that match filter and search, ordered by date in the chosen direction |
| IncomeState.IncomeState.FilteredEntries | app/income/hooks/useIncomeState.ts:214-254 | the visible entries are exactly the entries of the selected month that match filter and search, ordered by date in the chosen direction |
| IncomeState.IncomeState.Kpis | app/income/hooks/useIncomeState.ts:257-261 | the KPIs are bounded, and their trend is taken against the fixed previous-month figure 8500 |
| IncomeState.IncomeState.AddEntry | app/income/hooks/useIncomeState.ts:264-274 | the new entry, with a fresh id and its weekday, is put first; nothing else changes |
| IncomeState.IncomeState.UpdateEntry | app/income/hooks/useIncomeState.ts:276-284 | the entry is replaced by id, and so is the selected entry when it is the same one |
| IncomeState.IncomeState.DeleteEntry | app/income/hooks/useIncomeState.ts:286-290 | the entry is removed; the drawer closes exactly when the deleted entry was selected |
| IncomeState.IncomeState.UpdateStatus | app/income/hooks/useIncomeState.ts:292-314 | the status change is applied to exactly the entries with the id |
| IncomeState.IncomeState.MarkAsPaid | app/income/hooks/useIncomeState.ts:316-318 | the entry is paid in full, dated today |
| IncomeState.IncomeState.MarkInvoiceSent | app/income/hooks/useIncomeState.ts:320-322 | the entry is sent and has a sending date |
| IncomeState.IncomeState.DuplicateEntry | app/income/hooks/useIncomeState.ts:324-340 | a fresh-id copy of the entry is put first |
| IncomeState.IncomeState.OpenDrawer | app/income/hooks/useIncomeState.ts:343-346 | the entry is selected and the drawer is open; entries and settings are unchanged |
| IncomeState.IncomeState.CloseDrawer | app/income/hooks/useIncomeState.ts:348-351 | nothing is selected and the drawer is closed; entries and settings are unchanged |
| IncomeStore.NewRow | app/income/data.ts:256-277 | the stored amounts read back as the input amounts rounded to cents, with paid 0 and VAT rate 17 by default |
| IncomeStore.CreateDefaults | app/income/data.ts:263-268 | a minimal input creates an unpaid draft, paid 0, VAT 17 included, with no dates |
| IncomeStore.TextAfter | app/income/data.ts:303-328 | a supplied amount is stored so that it reads back as its cents value, and a readable column stays readable |
| IncomeStore.WithAmounts | app/income/data.ts:303-328 | updating amounts keeps a well-formed row well-formed |
| IncomeStore.UpdatedStatuses | app/income/data.ts:303-328 | an update sets each status supplied and keeps each status left out |
| IncomeStore.Updated | app/income/data.ts:299-329 | an update keeps the id and creation time and stamps the update time |
| IncomeStore.WriteSupplied | app/income/data.ts:303-328 | the step-by-step update of the supplied columns builds exactly the updated row |
| IncomeStore.UpdateWritesAmounts | app/income/data.ts:303-328 | each supplied amount reads back as its rounded value |
| IncomeStore.UpdateNothing | app/income/data.ts:299-329 | an update with no supplied field changes only the update time |
| IncomeStore.NullKeepsDates | app/income/data.ts:303-328 | explicitly null dates leave the stored dates unchanged |
| IncomeStore.UpdatesCompose | app/income/data.ts:299-329 | two updates in a row equal one update carrying the later value of each field |
| IncomeStore.UpdateIdempotent | app/income/data.ts:299-329 | repeating an update changes only the update time |
| IncomeStore.Store.Create | app/income/data.ts:256-277 | the new row is inserted under its id and returned; the table stays well-formed |
| IncomeStore.Store.Update | app/income/data.ts:299-329 | an unknown id changes nothing and returns none; otherwise the row is replaced by its update and returned |
| IncomeStore.Store.MarkPaid | app/income/data.ts:334-359 | an unknown id changes nothing; otherwise the row is settled (paid in full, dated today) and returned |
| IncomeStore.Store.MarkInvoiceSent | app/income/data.ts:364-378 | an unknown id changes nothing; otherwise the row is marked sent today and returned |
| IncomeStore.Store.Delete | app/income/data.ts:383-390 | the row is gone afterwards, and success is reported exactly when it existed |
| IncomeStore.MonthBounds | app/income/data.ts:34-42 | the bounds are the first day and a later day of the same month |
| IncomeStore.MonthBoundsSpan | app/income/data.ts:34-42 | a date lies within the bounds exactly when it is in that month and year |
| IncomeStore.NextMonth | app/income/data.ts:34-42 | the next month in month arithmetic, with the year wrapping |
| IncomeStore.MonthEndIsDayZeroOfNext | app/income/data.ts:36 | the end bound is the day before the first of the next month |
| IncomeStore.PrevMonth | app/income/data.ts:187-188 | the previous month, with January wrapping to December of the year before |
| IncomeStore.PrevMonthAdjacent | app/income/data.ts:187-189 | the previous month's bounds end the day before this month's begin |
| IncomeStore.VatAmount | app/income/data.ts:127-136 | a defined VAT amount is in whole cents |
| IncomeStore.VatAmountDefined | app/income/data.ts:127-136 | the VAT amount is defined for every non-negative rate |
| IncomeStore.ExclusiveVatNear | app/income/data.ts:134 | VAT on top of the amount is within half a cent of amount times rate |
| IncomeStore.InclusiveVatNear | app/income/data.ts:131 | VAT included in the amount is within a cent of the exact included share |
| IncomeStore.RunningSum | app/income/data.ts:127-136 | the running sum is defined exactly when every term is, and is in whole cents |
| IncomeStore.RunningSumExact | app/income/data.ts:127-136 | over whole-cent terms, the running sum is the exact sum |
| IncomeStore.VatTotal | app/income/data.ts:127-136 | the VAT total is defined exactly when every row's VAT is, is in whole cents, and is zero for no rows |
| IncomeStore.VatTotalIsExactSum | app/income/data.ts:127-136 | a defined VAT total is the exact sum of the row VAT amounts |
| IncomeStore.AggregatesForMonth | app/income/data.ts:87-228 | the counts are bounded (overdue is at most invoiced, which is at most the rows); the unpaid and outstanding sums are whole cents; no rows give zero totals |
| IncomeStore.AggregateCounts | app/income/data.ts:139-184 | the ready, invoiced and overdue counts are the numbers of rows passing the ready, outstanding and overdue queries |
| IncomeStore.SettledRow | app/income/data.ts:346-354 | a settled row has both statuses paid, is paid today, reads its paid amount as its gross amount, is stamped, and keeps every other column |
| IncomeStore.SentRow | app/income/data.ts:366-374 | a sent row has the sent status and today's sending date, is stamped, and keeps every other column |
| IncomeStore.ReadyRow | app/income/data.ts:160-171 | a row ready to invoice is never outstanding |
| IncomeStore.OverdueRow | app/income/data.ts:175-184 | an overdue row is always outstanding |
| IncomeStore.PaidInRange | app/income/data.ts:191-201 | a row counted as paid in the previous month is never outstanding |
| IncomeStore.SettledLeavesQueues | app/income/data.ts:342-354 | a settled row is neither outstanding, nor overdue, nor ready, and is paid in full today |
| IncomeStore.SentJoinsOutstanding | app/income/data.ts:370-371 | a row marked sent is outstanding exactly when it is not paid in full; it is dated today and not overdue |
| IncomeStore.UniqueClientNames | app/income/data.ts:395-402 | the client names are strictly sorted and are exactly the rows' client names |
| IncomePage.ToUIEntry | app/income/IncomePageClient.tsx:39-71 | the entry keeps the row's fields and parsed amounts, and its weekday is the date's; paid exactly when paid in full or the invoice is paid; sent exactly when the invoice is sent and not paid in full; exempt exactly when the VAT rate is zero |
| IncomePage.IfNonEmpty | app/income/IncomePageClient.tsx:273-274 | an optional text is passed on exactly when it is present and non-empty |
| IncomePage.AddFormInput | app/income/IncomePageClient.tsx:226-263 | the create action reads the add form of a whole-cent draft as the draft's fields, status pair and VAT choice, with no dates |
| IncomePage.EntryOfInput | app/income/IncomePageClient.tsx:39-71 | a row created from a draft's input converts back to an entry with the draft's status, VAT type, amounts and text fields, and no dates |
| IncomePage.StatusFieldsShown | app/income/IncomePageClient.tsx:236-244 | the invoice and payment statuses the forms send for a status convert back to that status |
| IncomePage.CreateRoundTrip | app/income/IncomePageClient.tsx:226-263 | a draft with whole-cent amounts, created and read back, has the draft's status, VAT type, amounts and text fields, and no dates |
| IncomePage.IdText | app/income/IncomePageClient.tsx:267 | a text id is sent as is; a numeric id is sent as a minus sign exactly when negative, followed by decimal digits that read back as its magnitude |
| IncomePage.UpdateFormInput | app/income/IncomePageClient.tsx:265-294 | the update action reads the edit form of a whole-cent entry as its amounts, its status pair and its VAT choice |
| IncomePage.PaidAfterUpdate | app/income/IncomePageClient.tsx:277-284 | a paid-in-full row updated with the status pair of any status still converts to a paid entry |
| IncomePage.UpdateStatusRoundTrip | app/income/IncomePageClient.tsx:277-284 | an edit written to a row not paid in full reads back with the edited status |
| IncomePage.PaidRowStaysPaid | app/income/IncomePageClient.tsx:277-284 | a row paid in full reads back as paid whatever status the edit sets |
| IncomePage.RateAfterEdit | app/income/IncomePageClient.tsx:287-294 | after an edit, VAT is included exactly for the inclusive type, and the rate is reset to zero only for the exempt type |
| IncomePage.UpdateVatRoundTrip | app/income/IncomePageClient.tsx:287-294 | the edited VAT type reads back, unless it leaves exempt on a zero-rate row |
| IncomePage.ExemptRowStaysExempt | app/income/IncomePageClient.tsx:287-294 | a zero-rate row reads back as exempt whatever VAT type the edit sets |
| IncomePage.OutstandingIsShownSent | app/income/data.ts:139-157 | a row counts as outstanding on the server exactly when the page shows it as sent |
| IncomePage.OverdueAgrees | app/income/data.ts:175-184 | the server's overdue test agrees with the page's overdue test on every row |
| IncomePage.ReadyAgrees | app/income/data.ts:160-171 | except for cancelled rows and drafts paid in full, the server counts a row as ready exactly when the page shows it done |
| IncomePage.CancelledShowsReady | app/income/data.ts:160-171 | a past cancelled row is shown done on the page but not counted ready on the server |
| IncomePage.PaidDraftCountsReady | app/income/data.ts:160-171 | a past draft paid in full is counted ready on the server but shown paid on the page |
| IncomePage.CountShown | app/income/IncomePageClient.tsx:88-91 | counting rows by a test equals counting their page entries by an agreeing test |
| IncomePage.InvoicedCountAgrees | app/income/IncomePageClient.tsx:127-142 | the server's invoiced count equals the page roll-up's over the same rows |
| IncomePage.OverdueCountAgrees | app/income/IncomePageClient.tsx:127-142 | the server's overdue count equals the page roll-up's over the same rows |
| IncomePage.ReadyCountAgrees | app/income/IncomePageClient.tsx:127-142 | with no cancelled row and no draft paid in full, the server's ready count equals the page roll-up's |
| IncomePage.MonthMatchesBounds | app/income/utils.ts:100-109 | the page's month test on an entry holds exactly when its date lies within the server's month bounds |
| IncomePage.MonthCountAgrees | app/income/data.ts:87-104 | the server's count of the month's jobs equals the page roll-up's count of the month's entries over the same rows |
| IncomePage.ServerCountsAgree | app/income/IncomePageClient.tsx:127-142 | the server's month job count and its invoiced and overdue counts equal the page roll-up's over the same rows, and so does the ready count when no row is cancelled or a draft paid in full |
| IncomePage.MarkPaidById | app/income/IncomePageClient.tsx:342-358 | exactly the entries with the id become paid today, with paid set to gross; the others are kept, in place |
| IncomePage.MarkPaidIsUpdateStatus | app/income/IncomePageClient.tsx:342-358 | the optimistic paid update equals the local hook's status change to paid |
| IncomePage.MarkSentById | app/income/IncomePageClient.tsx:360-375 | exactly the entries with the id become sent with today's sending date; the others are kept, in place |
| IncomePage.MarkSentOverwrites | app/income/IncomePageClient.tsx:360-375 | the optimistic sent update always dates today; it agrees with the local hook exactly when the entry had no sending date or one of today |
| IncomePage.DuplicateDraftIsDuplicate | app/income/IncomePageClient.tsx:377-388 | the duplicate form, once given an id, is the local hook's duplicate |
| IncomePage.IncomePage.constructor | app/income/IncomePageClient.tsx:88-111 | the entries are the converted rows; no selection, drawer closed, filter "all", empty search, descending sort, the given month |
| IncomePage.IncomePage.Reload | app/income/IncomePageClient.tsx:97-99 | new server rows replace the entries; nothing else changes |
| IncomePage.IncomePage.Clients | app/income/IncomePageClient.tsx:118-124 | the clients are strictly sorted and are exactly the server clients plus the entries' clients |
| IncomePage.IncomePage.FilteredEntries | app/income/IncomePageClient.tsx:145-181 | the visible entries are exactly the entries matching filter and search, ordered by date in the chosen direction |
| IncomePage.IncomePage.Kpis | app/income/IncomePageClient.tsx:127-142 | this month and total paid come from the local roll-up; outstanding, ready, trend and the counts come from the server aggregates |
| IncomePage.IncomePage.AddEntry | app/income/IncomePageClient.tsx:226-263 | the draft's form is sent, and the created row, when the server returns one, is put first |
| IncomePage.IncomePage.UpdateEntry | app/income/IncomePageClient.tsx:265-305 | the edit's form is sent, and the entry (and the selection, if the same) is replaced by id |
| IncomePage.IncomePage.DeleteEntry | app/income/IncomePageClient.tsx:307-316 | the entry is removed; the drawer closes exactly when it was selected |
| IncomePage.IncomePage.UpdateStatus | app/income/IncomePageClient.tsx:318-340 | the status change is applied locally, and the server is called exactly for sent and paid |
| IncomePage.IncomePage.MarkAsPaid | app/income/IncomePageClient.tsx:342-358 | the entry is paid in full today, as the status change to paid would do |
| IncomePage.IncomePage.MarkInvoiceSent | app/income/IncomePageClient.tsx:360-375 | the entry is sent and dated today |
| IncomePage.IncomePage.DuplicateEntry | app/income/IncomePageClient.tsx:377-388 | the duplicate's form is sent, and the created row, when returned, is put first |
| IncomePage.IncomePage.OpenDrawer | app/income/IncomePageClient.tsx:394-397 | the entry is selected and the drawer is open |
| IncomePage.IncomePage.CloseDrawer | app/income/IncomePageClient.tsx:399-402 | nothing is selected and the drawer is closed |
| TableTotals.ToInvoiceBucket | app/income/components/income-table/IncomeTableTotals.tsx:27-29 | the to-invoice bucket holds exactly the done entries, whether or not their date is past |
| TableTotals.Accumulate | app/income/components/income-table/IncomeTableTotals.tsx:16-33 | one step adds the gross amount and credits exactly one bucket, paid or waiting by the status shown; a bucket whose count is unchanged keeps its sum |
| TableTotals.TotalsOfSnoc | app/income/components/income-table/IncomeTableTotals.tsx:15-43 | the totals of a list with one more entry are the earlier totals plus that entry |
| TableTotals.FoldIsTotalsOf | app/income/components/income-table/IncomeTableTotals.tsx:15-43 | the left fold of the reducer equals the reference totals |
| TableTotals.ComputeTotals | app/income/components/income-table/IncomeTableTotals.tsx:14-44 | the loop over the entries computes the reference totals |
| TableTotals.BucketCounts | app/income/components/income-table/IncomeTableTotals.tsx:20-29 | every entry falls into exactly one of the three buckets |
| TableTotals.BucketSums | app/income/components/income-table/IncomeTableTotals.tsx:18-29 | over whole-cent amounts, each bucket sum is the exact sum over its entries |
| TableTotals.TotalsBalance | app/income/components/income-table/IncomeTableTotals.tsx:18-29 | when paid entries are paid in full, the gross total is paid plus waiting plus the part paid on sent invoices plus to-invoice |
| TableTotals.RenderTotals | app/income/components/income-table/IncomeTableTotals.tsx:46-89 | no row for an empty table; otherwise the job count and gross total, with the pending figure shown exactly when it is positive |
| TableTotals.PendingShownWhenWorkUnpaid | app/income/components/income-table/IncomeTableTotals.tsx:74-79 | with sane amounts, the pending figure appears exactly when some sent entry is underpaid or some to-invoice entry has a positive amount |
| Backup.FirstIndex | scripts/backup.ts:10 | the first position of a character, or the length when it is absent |
| Backup.StripQuotesOfQuoted | scripts/backup.ts:15-17 | a value between matching double or single quotes loses them |
| Backup.StripQuotesUnquoted | scripts/backup.ts:15-17 | a value that does not start with a quote is unchanged |
| Backup.ParseEnvLine | scripts/backup.ts:10-13 | a line gives an assignment exactly when it matches `key=value` with a non-empty key, and then the key and value are taken at the first `=`, trimmed |
| Backup.SplitIsAtFirstEquals | scripts/backup.ts:10 | any match of the pattern splits at the first `=` |
| Backup.CarriageReturnLineIgnored | scripts/backup.ts:9-10 | a line ending in a carriage return never matches, because `.` does not match it |
| Backup.LastAssignmentWins | scripts/backup.ts:9-18 | a key takes the value of its last assignment |
| Backup.UnassignedKeyKept | scripts/backup.ts:9-18 | a key that is never assigned keeps its earlier value, or stays absent |
| Backup.LoadedKeys | scripts/backup.ts:9-18 | loading never unsets a variable, and every variable it adds is a key some line assigns |
| Backup.Environment.constructor | scripts/backup.ts:18 | the environment starts from the given variables |
| Backup.Environment.Load | scripts/backup.ts:8-20 | loading applies the file's lines in order to the environment |
| Backup.FormatCell | scripts/backup.ts:41-45 | a cell is written as its text, quoted when that text holds a comma |
| Backup.BackupCsv | scripts/backup.ts:33-49 | no backup for an empty table; otherwise a CSV text |
| Backup.ReadFieldOfField | scripts/backup.ts:44 | a written field without quotes, followed by the rest of a line, reads back as the text and that rest |
| Backup.ReadFieldsOfJoin | scripts/backup.ts:46 | a comma-joined line of quote-free fields reads back as those texts |
| Backup.RowReadsBack | scripts/backup.ts:40-46 | a row of quote-free, line-break-free cells reads back as its cell texts, on one line |
| Backup.HeaderReadsBack | scripts/backup.ts:39 | the header reads back as the column names |
| Backup.BackupReadsBack | scripts/backup.ts:39-49 | the CSV has one line per record plus the header; the header reads back as the keys and each line as its record's texts |
| Backup.QuoteInValueSplitsRow | scripts/backup.ts:44 | a value holding both a quote and a comma does not read back as one field |

## Left out

- Host time zone: dates and clocks are UTC; `new Date(y, m, d)` in a time zone east of UTC makes `toISOString` give the previous day. The model uses the calendar date.
- JavaScript dates for years 0 to 99 (mapped to 1900-1999 by `new Date`) and before year 1 are not modelled; years are natural numbers.
- `toISOString` for years above 9999 (six-digit years with a sign) is not modelled; `IsoText` pads to four digits only.
- Floating-point artefacts: money is exact `real`; the rounding each `toFixed(2)` performs is modelled, the binary representation errors before it are not.
- `parseFloat` of exponents and `Infinity` is not modelled; such text reads as its plain decimal prefix, or not at all.
- Currency.NumberTextRoundTrip: `String(x)` is modelled only for values in whole cents; other values have a text that is not the shortest round-trip form.
- Text.ToLower: only ASCII letters are lower-cased; Hebrew has no case, and other scripts are not modelled.
- Client-name order: the default `Array.prototype.sort()` (UTF-16 code units) and the database collation of `orderBy(asc(clientName))` are both modelled as code-point order, which differs from code-unit order only for characters above U+FFFF.
- The server actions file and the database schema file are not part of this model. `IncomePage.ActionCreateInput` and `IncomePage.ActionUpdateInput` state the assumed form reading (amounts read with `parseFloat`; an unreadable amount stops the action). `createdAt` is the insert time. The backup records' column order and types are assumed to match the table.
- Asynchronous ordering, React setters and re-rendering: each page operation is modelled as its effect on the state once the awaited server call has returned. A server call that fails is modelled by a `created` value of none.
- The CSV download (Blob, link click), the file system, `process.exit`, console output, and the backup file name and its timestamp are left out.
- In-place `Array.prototype.sort` is modelled on values (`Sorting.SortBy`), not on an array object.
- Empty-string date fields are not representable: a date is either a valid calendar date or absent.
- The listing queries' order (`date` then `createdAt`) is not modelled; the aggregates are computed over a listing of rows rather than over the store's map.
- A single `today` stands for the database's `CURRENT_DATE` and the server's `getTodayString`.
- The locale formatters `formatCurrency`, `formatDate` and `formatFullDate` are left out (display only).
- `getTodayDateString` is the hook's clock for the sending date, the paid date and the duplicate's date; the model takes that day as the `today` parameter instead of reading a clock.
- `getWeekday` is modelled through the day-of-week index (`Dates.DayOfWeek`) and a table of Hebrew day letters.
- IncomePage.ServerCountsAgree: states agreement of the counts only; the server's outstanding and ready sums are not related to the page's sums.
- The `generateId` closure over a stale `entries` array in the local hook's callbacks is not modelled; the current list is used.
- Backup: `Date`-typed columns other than timestamps, and numbers, are modelled as text cells.
- IncomeStore.MonthBounds: states that the end bound is in the same month and not before the start; that it is the month's last day is stated by `IncomeStore.MonthEndIsDayZeroOfNext`.
