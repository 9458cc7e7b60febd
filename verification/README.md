# Financial tracker bot — a Dafny model of its core

The bot is a Telegram webhook that keeps a personal ledger in a Google Sheet. Each row of the
sheet has seven columns: date, type, category, account 1, account 2, description and amount.

Each message from an authorised user runs through one long chain of tests on the text and on the
user's session (a step, the data collected so far, and a history of earlier steps that
"🔙 Back" pops). The chain drives these flows:
- adding an expense, income, transfer or reimbursement;
- a receivable (lent money or a payment received);
- a payable loan, which writes a whole amortisation schedule in one append;
- deleting or editing one of the last ten rows;
- a monthly or yearly summary;
- a view of recent rows.

This project models that core as pure functions over immutable data, in modules that follow the
source:

| module | file | models |
|---|---|---|
| `Dispatcher` | dispatcher.dfy | the webhook handler `POST` in app/webhook/route.ts |
| `HandlerProperties` | handler_properties.dfy | properties of the handler, including whole conversations |
| `Sessions` | sessions.dfy | the session record and `getSession`/`resetSession`/`saveCurrentState`/`goBackToPreviousStep` |
| `LoanSchedule` | schedule.dfy | the loan schedule built at the last loan step |
| `Ledger` | ledger.dfy | row layout, `columnMap`, delete range, recent window (lib/sheets.ts) |
| `LoanNumbers` | loannumbers.dfy | `getLoanCountForAccount` |
| `DateFilter` | datefilter.dfy | `getTransactionsByDateRange` |
| `Summary` | summary.dfy | `calculateSummary` |
| `Parsing` | parsing.dfy | `parseAmount`, `parseInt`, `parseMonthFromText`, `parseYearFromText`, the billing-date pattern |
| `Calendar` | calendar.dfy | `new Date(y, m, d)`, `getMonthDateRange`, `getYearDateRange` |
| `Keyboards` | keyboards.dfy | the reply keyboards of lib/telegram.ts |
| `Catalog` | catalog.dfy | the type, category and account tables |
| `Auth` | auth.dfy | `isAuthorizedUser` |
| `Strings` | strings.dfy | the JavaScript string operations the source relies on |
| `Wrappers` | wrappers.dfy | `Option` |

The handler is `Dispatcher.HandleText`. It maps a session, the sheet as read at that moment and a
text to a new session, a list of ledger writes (at most one) and at most one reply.
`Dispatcher.HandleMessage` wraps it with the authorisation gate and the map of all users'
sessions. Replies are tags (`Ask(step)`, `Invalid(step)`, `Saved(t)`, …) with their keyboard,
not the rendered HTML text.

`HandlerProperties.Converse` runs a list of texts through the handler one after the other. The
whole-flow lemmas use it: what a full receivable conversation writes, what listing and
choosing a number deletes, and so on.

## Model

| member | source | states |
|---|---|---|
| Dispatcher.HandleText | app/webhook/route.ts:118-1301 | Every handled text writes at most once, and a write ends the flow (the session is reset). A write happens only at a step that stores something. No reply is the unauthorised refusal. |
| Dispatcher.HandleMessage | app/webhook/route.ts:105-116 | An unauthorised sender gets the refusal, and no session or sheet changes. An authorised sender's session is created on first use and updated; every other user's session is untouched. |
| HandlerProperties.GlobalCommandResets | app/webhook/route.ts:118-138 | "/start", "❌ Cancel" and "🔙 Back to Menu" reset the session at any step and write nothing. Each gives its own reply (welcome, cancelled, main menu) with the main menu keyboard. |
| HandlerProperties.BackRestores | app/webhook/route.ts:140-175 | "🔙 Back" at any step restores the last saved step and data with the shorter history and writes nothing. With an empty history the session is reset and the main menu shown. |
| Sessions.Save | app/webhook/route.ts:86-91 | Saving keeps the step and data and appends exactly their snapshot to the history. |
| Sessions.GoBack | app/webhook/route.ts:76-84 | Going back fails exactly when the history is empty; otherwise it drops the last snapshot from the history. |
| Sessions.BackUndoesSave | app/webhook/route.ts:76-91 | Saving, moving to any step with any data, then going back gives back the session exactly as it was. |
| Sessions.BackAfterSaves | app/webhook/route.ts:76-91 | After n saves, n backs restore the original session. |
| HandlerProperties.StartThenBack | app/webhook/route.ts:140-191 | Pressing a flow-start button (add payable, receivable, summary, expense, income, transfer, reimbursement) at a step where that button reaches its flow saves the current state, and pressing Back at once returns the session exactly as it was. Add Payable reaches its flow at every step. Add Receivable reaches it outside the loan flow. The other five reach it where no loan, receivable or edit input is being read. |
| HandlerProperties.ListingThenBack | app/webhook/route.ts:622-662 | Opening the delete or edit listing keeps the history, so a Back right after it restores what was saved before. |
| HandlerProperties.LoanOrReceivableStarts | app/webhook/route.ts:177-191 | "💵 Add Payable" (at any step) and "🤝 Add Receivable" (outside the loan flow) save the state and start their flow at its first question. |
| HandlerProperties.EntryOrSummaryStarts | app/webhook/route.ts:1021-1161 | The summary and the four entry buttons start their flow with the type and category they preset. The summary button is handled at lines 1021-1031 and the four entry buttons at lines 1115-1161. This holds at any step that does not read loan, receivable or edit input. |
| HandlerProperties.LoanFlowCapturesInput | app/webhook/route.ts:193-376 | While the loan flow runs, an input leaves the session unchanged exactly when it breaks that step's rule (RefusedLoanInput: proceeds and principal positive, interest and fee not negative, account from the list, MM/DD/YYYY date, 1..360 terms). Any other input saves the step and moves on, or ends the flow. |
| Dispatcher.PayableInput | app/webhook/route.ts:193-492 | Only the fee step writes, and the session is then reset. At a loan step the session stays the same exactly when the input is refused. |
| Dispatcher.CreateLoan | app/webhook/route.ts:378-492 | A fee ends the loan flow: the session is reset and exactly one append is sent, of 2 + 2·terms rows plus one when the fee is positive. The reply names the loan number, which is at least the account's starting number, and the number of rows written. |
| HandlerProperties.LoanScheduleWritten | app/webhook/route.ts:378-492 | A valid fee writes the whole schedule in one append and resets the session. The loan number is above every loan number already on the sheet for that account. The row count is 2 + 2·terms (+1 with a fee). The expense total is terms × (principal + interest) + fee. Nothing counts as income. |
| LoanSchedule.ScheduleShape | app/webhook/route.ts:399-465 | The schedule's rows, in order: the Loan row of the proceeds into "Loan - clearing"; the transfer to "Maribank"; each month's principal and interest expense, both dated that month; the processing-fee row when the fee is positive. |
| LoanSchedule.ScheduleMonth | app/webhook/route.ts:423-451 | Month i contributes exactly its principal row and then its interest row, numbered i + 1. |
| LoanSchedule.ScheduleExpense | app/webhook/route.ts:399-465 | A summary of the schedule counts terms × (principal + interest) + fee as expense and nothing as income. |
| LoanSchedule.InstallmentDatesAdvanceMonthly | app/webhook/route.ts:421-430 | For a billing day of at most 28, installment i falls on the same day, i months later. |
| LoanNumbers.NextLoanNumberMeaning | lib/sheets.ts:223-253 | The next loan number is at least the account's starting number (2 for BPI Platinum, 5 for Eastwest Gold, else 1). It exceeds every "Loan #n" on a row of that account, the header skipped. It is either the starting number or one more than such an n. |
| LoanNumbers.InstallmentRowNumber | lib/sheets.ts:237-246 | A row the schedule writes, "<account> Loan #<n> - …" on that account, is read back by the scan as loan n. This holds for every account whose name does not itself contain "Loan #". |
| LoanNumbers.HeaderIsSkipped | lib/sheets.ts:236 | The scan ignores the first row whatever it holds. |
| LoanNumbers.TwoEarlierLoansExample | lib/sheets.ts:223-253 | With loans 3 and 7 already on the sheet and starting number 1, the next loan is 8. |
| HandlerProperties.NewReceivableWrites | app/webhook/route.ts:495-620 | Add Receivable, New Receivable, an account of the list, a description and a positive amount write exactly one row, and nothing earlier. The row is a Transfer with empty category, dated now, from the chosen account to "Receivable", with the amount as entered. The flow then ends. |
| HandlerProperties.PaymentReceivedWrites | app/webhook/route.ts:495-620 | The same for Payment Received: the row moves the amount from "Receivable" to the chosen account. |
| HandlerProperties.ReceivableTail | app/webhook/route.ts:532-620 | From the account step, an account, a description and a positive amount append the collected row and end the flow. |
| Dispatcher.ReceivableInput | app/webhook/route.ts:532-620 | Only the amount step writes, with one append, after which the session is reset. |
| HandlerProperties.ListThenDelete | app/webhook/route.ts:622-695 | Listing for delete and sending number k deletes exactly the sheet row shown as k: the half-open range [target-1, target) of the row numbered target. It replies with that row and resets the session. |
| HandlerProperties.NumberDeletes | app/webhook/route.ts:664-695 | At the delete step, a listed number k deletes the row the listing showed as k. |
| Dispatcher.DeleteChoice | app/webhook/route.ts:664-695 | A delete choice ends the flow with at most one request, and that request deletes exactly one row (a range of length one). |
| HandlerProperties.BadDeleteSelectionEnds | app/webhook/route.ts:664-671 | At the delete step, a text that is not a listed number (out of range or not a number) is refused. The session is reset and nothing is written. |
| HandlerProperties.ListThenEdit | app/webhook/route.ts:697-764 | Listing for edit and sending number k selects the sheet row shown as k and offers the field buttons. It writes nothing and keeps the history. |
| HandlerProperties.NumberSelects | app/webhook/route.ts:735-764 | At the edit step, a listed number k selects the row shown as k, without a write. |
| HandlerProperties.BadEditSelectionEnds | app/webhook/route.ts:735-742 | At the edit step, a text that is not a listed number is refused. The session is reset and nothing is written. |
| Dispatcher.EditChoice | app/webhook/route.ts:735-764 | An edit choice never writes. When it does not end the flow, the history is kept as it was: the selection moves to the field buttons without saving the state. |
| HandlerProperties.EditAmountStored | app/webhook/route.ts:982-1019 | A new amount for a selected row is written to column G (the amount column) of that row. It is stored as -abs for a row of type Expense and as typed otherwise, and the flow ends. |
| Dispatcher.EditInput | app/webhook/route.ts:834-1019 | An edit writes at most one cell, only at a field-input step, and then resets the session. What each field step writes or refuses is stated by HandlerProperties.TextFieldEditStored and HandlerProperties.EditAmountStored. |
| HandlerProperties.TextFieldEditStored | app/webhook/route.ts:834-980 | At the date, type, category, account 1, account 2 or description input, an accepted text is written to that field's column of the selected row and the session is reset. The date must match MM/DD/YYYY, the type be a transaction type, the category an income or expense category, an account one of the list; a description is always accepted. A refused text writes nothing and replies with the step's invalid message; a refused category resets the session, any other refusal keeps it unchanged. |
| HandlerProperties.EntrySaved | app/webhook/route.ts:1248-1299 | At the amount step, a non-positive amount is refused with the session unchanged. A positive amount appends one row dated now, with the collected fields, amount magnitude as typed and negative exactly for an Expense. The flow then ends. |
| Dispatcher.EntryInput | app/webhook/route.ts:1163-1299 | Only the amount step writes, with one append of a single row. The row is dated now, its amount is never zero, and it is negative exactly when the collected type is Expense. |
| HandlerProperties.PeriodSummaryMeaning | app/webhook/route.ts:1310-1369 | A period with no transactions reports none. Otherwise the report's totals, net and count are those of the period's transactions. |
| HandlerProperties.YearButtonChosen | app/webhook/route.ts:1057-1078 | A year button offers the months for a monthly summary. For a yearly summary it ends with that year's report. Nothing is written. |
| HandlerProperties.MonthlySummaryFlow | app/webhook/route.ts:1033-1091 | After a year button, a month button ends with the report for that month of that year. |
| Dispatcher.YearChoice | app/webhook/route.ts:1057-1078 | A year choice never writes. A text that is not a year, or a year not above 0, is ignored: no reply and the same session. Otherwise the flow either ends (yearly report) or moves to the month buttons with the current state saved on the history. |
| Dispatcher.MonthChoice | app/webhook/route.ts:1080-1091 | A month choice never writes. A month name (after the first "📅 " is removed) ends the flow with a reply; any other text is ignored with no reply and the same session. |
| HandlerProperties.MainMenuAnswered | app/webhook/route.ts:1301 | At the main menu (the session's step is idle), no button of the main menu falls through to "Use menu buttons". |
| HandlerProperties.FallbackKeepsSession | app/webhook/route.ts:1301 | At the main menu, any text that is no button keeps the session and answers "Use menu buttons" with the main menu. |
| Dispatcher.ViewRecent | app/webhook/route.ts:1093-1113 | View Recent neither writes nor changes the session. |
| Ledger.RowRoundTrip | lib/sheets.ts:52-60 | A transaction written as a row in column order A..G reads back as the same transaction, and a row reads back as a transaction only when it is exactly that transaction's written row. |
| Ledger.ColumnMatchesRow | lib/sheets.ts:187-200 | A field name has a column exactly when it is one of the seven fields, and that column holds the field in the written row. |
| Ledger.UpdateCellContents | lib/sheets.ts:202-215 | Updating a cell changes exactly that cell of that row, padding a short row with empty cells. |
| Ledger.DeleteRemovesOneRow | lib/sheets.ts:162-163 | Deleting row n (1-based) removes exactly that row and shifts the later rows up. |
| Ledger.RecentWindowIsSuffix | lib/sheets.ts:114 | `slice(-limit)` is the last `limit` rows (all rows when there are fewer, or when the limit is 0). |
| Ledger.SelectionTargetsShownRow | app/webhook/route.ts:676-678 | The row number computed for a listed choice k is a real row of the sheet and holds the row shown as k. |
| Ledger.SmallSheetSelectionOneIsHeader | app/webhook/route.ts:676-678 | On a sheet of at most ten rows the window holds the header, and choice 1 targets row 1, the first row of the sheet. That is the header, which the listing itself skips when its first cell is "Date". |
| DateFilter.TransactionsInRangeMeaning | lib/sheets.ts:281-323 | The filter keeps, in sheet order, exactly the data rows with seven cells whose date parses and lies in the range. A date that `new Date` cannot read is retried as M/D/Y. |
| DateFilter.UnreadableRowsDropped | lib/sheets.ts:284-312 | A short row or one whose date cannot be read adds nothing. |
| DateFilter.FallbackReadsMonthDayYear | lib/sheets.ts:294-302 | The fallback reads "M/D/YYYY …" as that calendar day. |
| Summary.SummaryMeaning | lib/sheets.ts:343-376 | Total income is the sum of abs(amount) over Income rows. Total expense is the same over Expense rows outside "Reimbursibles". Net is their difference and the count is all rows. Each category's breakdown is its share, and the breakdowns add up to the totals. |
| Summary.UncountedRowsChangeOnlyTheCount | lib/sheets.ts:360-371 | A transfer, loan or reimbursement row changes only the transaction count. |
| Summary.SummaryExample | lib/sheets.ts:343-376 | A salary, a meal and a reimbursible give income 1000, expense 200 and net 800. |
| Parsing.ParseAmountIgnoresSeparator | lib/telegram.ts:174-179 | Commas are dropped before parsing. |
| Parsing.ParseAmountOfDecimal | lib/telegram.ts:174-179 | "w.f" parses to w + f/10^len(f). |
| Parsing.ParseAmountOfNat | lib/telegram.ts:174-179 | A whole number's decimal text parses to itself. |
| Parsing.ParseAmountNegated | lib/telegram.ts:174-179 | A leading minus negates the amount. |
| Parsing.ParseAmountWithoutMinus | lib/telegram.ts:174-179 | A text without a minus never parses to a negative amount. |
| Parsing.IntRoundTrip | lib/telegram.ts:243-246 | `parseInt` reads back every integer's decimal text, with or without a radix. |
| Parsing.BillingDateMeaning | app/webhook/route.ts:257 | The billing-date pattern accepts exactly MM/DD/YYYY with month 01..12 and day 01..31. |
| Parsing.ParseMonthMeaning | lib/telegram.ts:223-241 | The month number is m exactly when the text, with its first "📅 " removed, is the m-th month name. |
| Parsing.ParseMonthFromText | lib/telegram.ts:223-241 | The result is -1 or a month index 0..11. It is a month index exactly when the text, with its first "📅 " removed, is a month name, and then that name is the month's. |
| Parsing.MonthButtonRoundTrip | lib/telegram.ts:223-241 | Each month button parses to its month. |
| Parsing.YearButtonRoundTrip | lib/telegram.ts:243-246 | Each year button parses to its year. |
| Calendar.MonthRangeSpansMonth | lib/telegram.ts:203-211 | The month range runs from the 1st at 00:00:00.000 to the month's last day at 23:59:59.999. Years 0..99 count as 1900+y and months roll over. |
| Calendar.MonthRangeMembership | lib/telegram.ts:203-211 | A valid date lies in a month's range exactly when it has that year and month. |
| Calendar.YearRangeIsJanuaryToDecember | lib/telegram.ts:213-221 | The year range starts where January's range starts and ends where December's ends. |
| Calendar.DaysInMonth | lib/telegram.ts:207 | A month has 28..31 days: 29 in February exactly in a Gregorian leap year, and 30 exactly in April, June, September and November. |
| Calendar.MakeDate | lib/telegram.ts:204-207 | `new Date(y, m, d)` gives a valid date at midnight. For a month 0..11 and a day within that month it is exactly that day of year y (1900 + y for y in 0..99). |
| Calendar.AddMonths | app/webhook/route.ts:424-425 | Adding months keeps the time of day and gives a valid date; a day of at most 28 is kept and the month moves by exactly k. |
| Calendar.AddMonthsKeepsEarlyDay | app/webhook/route.ts:424-425 | `setMonth(getMonth() + k)` on a day of at most 28 keeps the day and moves k months. |
| Calendar.AddMonthsRollsOver | app/webhook/route.ts:424-425 | 31 January plus three months rolls over to 1 May. |
| Keyboards.PickerLayout | lib/telegram.ts:106-145 | The category and account keyboards list the items two per row, in order, then Back. |
| Keyboards.PairRows | lib/telegram.ts:106-145 | The pairing loop gives ⌈n/2⌉ rows of one or two buttons, and row r opens with item 2r. |
| Keyboards.CategoryAndAccountKeyboards | lib/telegram.ts:106-145 | The category keyboard offers the type's list, or only Back for a type without one. The account keyboard offers every account. |
| Keyboards.MonthKeyboardRoundTrip | lib/telegram.ts:92-104 | Each month button reads back as its month. |
| Keyboards.YearKeyboardRoundTrip | lib/telegram.ts:78-90 | The three year buttons read back as this year and the two before. |
| Keyboards.MainMenuLabelsDistinct | lib/telegram.ts:39-52 | The main menu has eleven distinct buttons. |
| Keyboards.TypeKeyboardOffersTransactionTypes | lib/telegram.ts:161-172 | The type keyboard offers the five transaction types, then Back. |
| Catalog.EntryCategoryKey | app/webhook/route.ts:1163-1184 | An expense offers the expense categories and every other type the income ones. |
| Catalog.EditableCategoriesUnion | app/webhook/route.ts:893 | An edited category is accepted exactly when it is an income or expense category. |
| Catalog.IncomeAndExpenseDisjoint | lib/telegram.ts:15-16 | No category is both an income and an expense category. |
| Catalog.ReimbursementWithinExpense | lib/telegram.ts:16-17 | Every reimbursement category is also an expense category. |
| Catalog.SentinelsAreAccounts | lib/telegram.ts:22-37 | "Receivable", "Loan - clearing" and "Maribank" are accounts of the list. |
| Auth.NobodyWithoutConfiguration | lib/auth.ts:6-24 | With neither variable set, nobody is authorised. |
| Auth.SingleIdMeaning | lib/auth.ts:11-13 | With only the single id set, a user is authorised exactly when it is non-empty and equals their id written in decimal. |
| Auth.ListMeaning | lib/auth.ts:16-21 | With only the list set, a user is authorised exactly when their id is one of the comma-separated entries. |
| Auth.PaddedEntryAuthorizes | lib/auth.ts:17-18 | Entries are trimmed, so an id padded with spaces still matches. |
| Auth.AddingEntryKeepsAccess | lib/auth.ts:16-21 | Adding an entry to the list never removes anybody's access. |
| Auth.AddedEntryAuthorizes | lib/auth.ts:16-21 | Adding a user's id to the list authorises that user. |

The functions that only compute — Auth.IsAuthorized, Summary.CalculateSummary,
LoanNumbers.NextLoanNumber, LoanSchedule.BuildSchedule, DateFilter.TransactionsInRange,
Parsing.ParseAmount, Parsing.ParseInt, Parsing.ParseYearFromText, Calendar.MonthDateRange,
Calendar.YearDateRange, Ledger.ToRow, Ledger.ColumnFor, Ledger.DeleteRange, Ledger.RecentWindow,
Ledger.SelectionTarget, Keyboards.MonthKeyboard, Keyboards.YearKeyboard and
Dispatcher.PeriodSummary — are stated by the lemmas named after them in the table above
(for example Summary.SummaryMeaning, LoanNumbers.NextLoanNumberMeaning,
LoanSchedule.ScheduleShape, Parsing.IntRoundTrip, Calendar.MonthRangeSpansMonth,
Ledger.RowRoundTrip, Keyboards.MonthKeyboardRoundTrip, HandlerProperties.PeriodSummaryMeaning).

## Left out

- Dispatcher.Env: `parseDate` and `formatDate` stand in for the engine's `new Date(string)` and `toLocaleDateString` (app/webhook/route.ts:421-430, lib/sheets.ts:290); `setMonth` itself is modelled by Calendar.AddMonths. The behaviour is engine- and locale-dependent. Properties about them are stated for whatever parser and formatter are passed in.
- Dispatcher.Env: `now` stands in for `getCurrentDateTime()` and `currentYear` for `new Date().getFullYear()` (lib/telegram.ts:79, 191). These are clock readings.
- Summary.CalculateSummary, Parsing.ParseAmount: amounts are exact reals, not IEEE doubles. Rounding, `NaN` from arithmetic and `Infinity` are not modelled.
- Dispatcher.HandleText: replies are tags with their keyboard, not the rendered HTML text.
  - Formatting (`formatCurrency`, `toLocaleDateString`) is not modelled.
  - A failed sheet write is not modelled, and neither is its "❌ Error …" reply. The outcome is the success reply. For example, Dispatcher.CreateLoan always replies `LoanCreated`, while app/webhook/route.ts:480-489 replies "❌ Error creating loan" after a failed append.
  - Both paths reset the session, so the session results agree.
- LoanNumbers.NextLoanNumber: the `catch` table of lib/sheets.ts:254-261 (Eastwest 4 instead of 5) is not modelled. A sheet that cannot be read does not reach it: `getAllTransactions` (lib/sheets.ts:121-135) catches its own failure and returns `[]`, which the model covers as `sheet == []` and which gives the starting number. Nothing else in the loop of lines 236-250 throws on the arrays the Sheets API returns.
- Dispatcher.HandleMessage: the early return for an update without a `message` (app/webhook/route.ts:99-101) is left out; the model starts from a message. The outer `catch` (app/webhook/route.ts:1303-1306) only swallows errors of the I/O the model does not perform. A message without text is handled as `''`.
- Parsing.ParseMonthFromText: a lookup of an inherited property of the months table (for example "toString") returns a function, not a number; the model gives -1. The only caller ignores both alike.
- Parsing.ParseMonthFromText follows the code, not the stated promise that every other string gives -1. `text.replace('📅 ', '')` removes the first "📅 " wherever it is, so "January" and "Jan📅 uary" both give 0 (lib/telegram.ts:239). Parsing.ParseMonthMeaning states exactly this.
- Summary.CalculateSummary: the per-category tallies are lists kept in insertion order. Two behaviours of JavaScript objects are lost:
  - integer-like category names are listed first by `Object.entries` (app/webhook/route.ts:1337, 1346);
  - a category named like an `Object.prototype` member ("constructor", "toString") reads an inherited value, so `(obj[c] || 0) + abs` builds a string.
- Sessions: the module-level `userSessions` map is shared by concurrent webhook calls, and the read-then-append race of two loans numbered at once is not modelled. Each message is handled against one snapshot of the sessions and the sheet.
- Dispatcher.ViewRecent: the message text built from the rows (`formatCurrency`, HTML) is not modelled. The reply carries the rows shown.
- IntRoundTrip (Parsing.IntRoundTrip): `parseInt` returns a double, which holds an integer exactly only up to 2^53 in magnitude; the model's `ParseInt` returns the exact integer for every digit string, so the round trip is stated for every integer. The same holds for the `parseInt(match[1], 10)` of a loan number (lib/sheets.ts:245) and the year of a year button.
- MonthRangeSpansMonth (Calendar.MonthRangeSpansMonth): a JavaScript `Date` holds only times within 8.64e15 ms of 1970 (about the years -271821 to 275760, the exact edge depending on the local time zone); beyond that `new Date(y, m, d)` is an Invalid Date. Calendar.MakeDate, Calendar.MonthDateRange and Calendar.YearDateRange build a valid calendar date for every year, so the range is stated for every year.
- MonthRangeMembership (Calendar.MonthRangeMembership): for the same reason it also holds for years where the JavaScript range is an Invalid Date, which no date lies in.
- Dispatcher.PeriodSummary: for a year past the `Date` range, `startDate.toISOString()` throws (lib/sheets.ts:279), the catch at lines 326-329 returns `[]` and the bot reports no transactions; the model filters the rows by the calendar range and can report a summary. DateFilter.TransactionsInRange likewise keeps a row whose M/D/Y fallback date lies past the `Date` range, which the source drops. The edge depends on the local time zone, which the model does not have.
- Calendar.MakeDate: it builds a valid calendar date for every year, while a JavaScript `new Date(y, m, d)` more than 8.64e15 ms from 1970 is an Invalid Date; Calendar.MonthDateRange, Calendar.YearDateRange and Calendar.AddMonths inherit this.
- Sending messages, the Google Sheets API calls and their authentication, logging, `getUnauthorizedMessage`'s text and app/page.tsx and app/layout.tsx are I/O or presentation, outside the model.
