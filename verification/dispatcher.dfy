/** The webhook's handling of one message: the authorisation gate, then a chain of tests on
    the text and the session's step, in the handler's order, each ending in a new session, at
    most one write to the ledger and at most one reply. The ledger is read once, as the sheet
    the message sees; the clock, the year and the engine's date parsing and formatting come in
    an environment. */
module Dispatcher {

  import opened Wrappers
  import opened Strings
  import opened Calendar
  import opened Catalog
  import opened Parsing
  import opened Keyboards
  import opened Ledger
  import opened LoanNumbers
  import opened DateFilter
  import opened Summary
  import opened LoanSchedule
  import opened Sessions
  import opened Auth

  /** What the handler takes from its surroundings: the `getCurrentDateTime()` string, the
      current year, and how the engine parses and formats dates. */
  datatype Env = Env(now: string, currentYear: int, parseDate: DateParser, formatDate: DateTime -> string)

  /** The two environment variables of the authorisation check. */
  datatype Config = Config(authorizedUserId: Option<string>, authorizedUserIds: Option<string>)

  /** A write to the ledger: append rows at the bottom, overwrite one cell, or delete the
      0-based half-open row range. */
  datatype LedgerRequest =
    | AppendRows(transactions: seq<Transaction>)
    | UpdateCellAt(rowIndex: int, column: char, value: Cell)
    | DeleteRows(start: int, end: int)

  /** What a reply says. `Ask(step)` is the prompt for the input `step` reads and
      `Invalid(step)` refuses that input; amounts and dates are kept as data, their locale
      rendering is not modelled. */
  datatype Message =
    | Welcome
    | Cancelled
    | MainMenuShown
    | Unauthorized
    | UseMenuButtons
    | Ask(step: StepName)
    | Invalid(step: StepName)
    | Saved(entry: Transaction)
    | LoanCreated(loanNumber: int, rowCount: nat)
    | Choices(entries: seq<(nat, SheetRow)>)
    | NothingToList
    | Deleted(row: SheetRow)
    | Updated(field: string, value: Cell)
    | UpdateFailed
    | Report(periodName: string, summary: Option<SummaryData>)
    | Recent(rows: seq<SheetRow>)
    | NoTransactionsYet

  /** A message with its reply keyboard; `[]` is a message without one. */
  datatype Reply = Reply(message: Message, keyboard: Keyboard)

  /** The result of handling one text: the user's new session, the ledger writes, the reply. */
  datatype Outcome = Outcome(session: Session, requests: seq<LedgerRequest>, reply: Option<Reply>)

  /** The result of one webhook call over all users' sessions. */
  datatype Delivery = Delivery(sessions: map<int, Session>, requests: seq<LedgerRequest>, reply: Option<Reply>)

  /** The keyboard holding only Back, and the one holding only Back to Menu. */
  const BackKeyboard: Keyboard := [[BackLabel]]
  const BackToMenuKeyboard: Keyboard := [[BackToMenuLabel]]

  // ---------------------------------------------------------------------------------------
  // Building outcomes

  function Say(m: Message, kb: Keyboard): Option<Reply> {
    Some(Reply(m, kb))
  }

  /** Keep the session and reply. */
  function Stay(s: Session, m: Message, kb: Keyboard): Outcome {
    Outcome(s, [], Say(m, kb))
  }

  /** Keep the session and say nothing. */
  function Silent(s: Session): Outcome {
    Outcome(s, [], None)
  }

  /** Reset the session and reply with the main menu. */
  function Done(m: Message): Outcome {
    Outcome(Fresh, [], Say(m, MainMenuKeyboard()))
  }

  /** Write, reset the session and reply with the main menu. */
  function DoneWriting(request: LedgerRequest, m: Message): Outcome {
    Outcome(Fresh, [request], Say(m, MainMenuKeyboard()))
  }

  /** Save the current state, then move to `step` with `data`. */
  function Advance(s: Session, step: StepName, data: Data, kb: Keyboard): Outcome {
    Outcome(Save(s).(step := step, data := data), [], Say(Ask(step), kb))
  }

  /** The texts the handler acts on at any step: they end the current flow. */
  const GlobalCommands: set<string> := {"/start", CancelLabel, BackToMenuLabel}

  /** The buttons the handler recognises by their text alone, at any step but a loan or
      receivable step (the global commands and Back at every step). */
  const MenuLabels: set<string> :=
    GlobalCommands + {BackLabel, AddPayableLabel, AddReceivableLabel, DeleteLabel, EditLabel, FinancialSummaryLabel,
                      ViewRecentLabel, AddExpenseLabel, AddIncomeLabel, AddTransferLabel, AddReimbursementLabel}

  /** The loan flow's validation rules: the input a step refuses. Proceeds and principal must
      be positive, interest and fee not negative, the account one of the list, the date
      MM/DD/YYYY and the terms a whole number of months from 1 to 360. */
  predicate RefusedLoanInput(step: StepName, text: string) {
    match step
    case PayableProceedsAmount => ParseAmount(text) <= 0.0
    case PayableAccount => text !in Accounts
    case PayableBillingDate => !IsBillingDate(text)
    case PayableTerms => var n := ParseInt(text, Unspecified); !(n.Some? && 1 <= n.value <= 360)
    case PayablePrincipal => ParseAmount(text) <= 0.0
    case PayableInterest => ParseAmount(text) < 0.0
    case PayableProcessingFee => ParseAmount(text) < 0.0
    case _ => false
  }

  /** The steps whose input can end in a write to the ledger: the last step of each flow
      that stores something. */
  predicate WritesAt(step: StepName) {
    step in {PayableProcessingFee, ReceivableAmount, Amount, DeleteSelect, EditDateInput, EditTypeInput,
             EditCategoryInput, EditAccount1Input, EditAccount2Input, EditDescriptionInput, EditAmountInput}
  }

  /** The session Back restores: the last snapshot with the history before it, or a fresh
      session when there is none. */
  function Restored(s: Session): Session {
    if |s.history| == 0 then Fresh
    else
      var last := s.history[|s.history| - 1];
      Session(last.step, last.data, s.history[..|s.history| - 1])
  }

  // ---------------------------------------------------------------------------------------
  // The handler

  /** At most one write, a write always ends the flow, and no reply is the unauthorised
      refusal. */
  predicate Settled(o: Outcome) {
    && |o.requests| <= 1
    && (o.requests != [] ==> o.session == Fresh)
    && (o.reply.Some? ==> o.reply.value.message != Unauthorized)
  }

  /** What every handled text leads to: settled, and a write only at a step that stores
      something. */
  predicate Orderly(s: Session, o: Outcome) {
    Settled(o) && (o.requests != [] ==> WritesAt(s.step))
  }

  /** One authorised text against the user's session, in the handler's order: the global
      commands, Back, the loan flow (which reads every other text while it runs), then the
      receivable flow, delete and edit, the summary flow, View Recent, the four entry flows,
      and the fallback. */
  function HandleText(env: Env, sheet: seq<SheetRow>, s: Session, text: string): (o: Outcome)
    ensures Orderly(s, o)
  {
    if text == "/start" then Done(Welcome)
    else if text == CancelLabel then Done(Cancelled)
    else if text == BackToMenuLabel then Done(MainMenuShown)
    else if text == BackLabel then GoBackStep(s)
    else LoanOrLater(env, sheet, s, text)
  }

  /** The Back button is none of the global commands. */
  lemma BackIsNoGlobalCommand()
    ensures BackLabel != "/start" && BackLabel != CancelLabel && BackLabel != BackToMenuLabel
  {
    assert BackLabel[0] != "/start"[0] && BackLabel[0] != CancelLabel[0];
    assert |BackLabel| != |BackToMenuLabel|;
  }

  /** The loan flow's button and inputs, else what follows. */
  function LoanOrLater(env: Env, sheet: seq<SheetRow>, s: Session, text: string): (o: Outcome)
    ensures Orderly(s, o)
  {
    if text == AddPayableLabel then Advance(s, PayableDescription, EmptyData, BackToMenuKeyboard)
    else if s.step.IsPayable() then PayableInput(env, sheet, s, text)
    else ReceivableOrLater(env, sheet, s, text)
  }

  /** The receivable flow's buttons and inputs, else what follows. */
  function ReceivableOrLater(env: Env, sheet: seq<SheetRow>, s: Session, text: string): (o: Outcome)
    ensures Orderly(s, o)
  {
    if text == AddReceivableLabel then
      Advance(s, ReceivableType, EmptyData.(txType := Some(Transfer), category := Some("")), ReceivableTypeKeyboard())
    else if text == NewReceivableLabel && s.step == ReceivableType then
      Advance(s, ReceivableAccountChoice, s.data.(receivableType := Some("new")), AccountKeyboard())
    else if text == PaymentReceivedLabel && s.step == ReceivableType then
      Advance(s, ReceivableAccountChoice, s.data.(receivableType := Some("payment"), account1 := Some(ReceivableAccount)),
              AccountKeyboard())
    else if s.step.IsReceivableInput() then ReceivableInput(env, s, text)
    else ListingOrLater(env, sheet, s, text)
  }

  /** Deleting and editing, else what follows. */
  function ListingOrLater(env: Env, sheet: seq<SheetRow>, s: Session, text: string): (o: Outcome)
    ensures Orderly(s, o)
  {
    if text == DeleteLabel then ListRows(sheet, s, DeleteSelect)
    else if s.step == DeleteSelect then DeleteChoice(s, text)
    else if text == EditLabel then ListRows(sheet, s, EditSelect)
    else if s.step == EditSelect then EditChoice(s, text)
    else if s.step == EditFieldSelect then FieldChoice(s, text)
    else if s.step.IsEdit() then EditInput(s, text)
    else SummaryOrLater(env, sheet, s, text)
  }

  /** The summary flow and View Recent, else what follows. */
  function SummaryOrLater(env: Env, sheet: seq<SheetRow>, s: Session, text: string): (o: Outcome)
    ensures Orderly(s, o)
  {
    if text == FinancialSummaryLabel then Advance(s, SummarySelectType, EmptyData, SummaryTypeKeyboard())
    else if text == MonthlySummaryLabel && s.step == SummarySelectType then
      Advance(s, SummarySelectYear, s.data.(summaryType := Some("monthly")), YearKeyboard(env.currentYear))
    else if text == YearlySummaryLabel && s.step == SummarySelectType then
      Advance(s, SummarySelectYear, s.data.(summaryType := Some("yearly")), YearKeyboard(env.currentYear))
    else if StartsWith(text, CalendarPrefix) && s.step == SummarySelectYear then YearChoice(env, sheet, s, text)
    else if StartsWith(text, CalendarPrefix) && s.step == SummarySelectMonth then MonthChoice(env, sheet, s, text)
    else if text == ViewRecentLabel then ViewRecent(sheet, s)
    else EntryOrFallback(env, s, text)
  }

  /** The four entry flows, else the fallback. */
  function EntryOrFallback(env: Env, s: Session, text: string): (o: Outcome)
    ensures Orderly(s, o)
  {
    if text == AddExpenseLabel then
      Advance(s, Category, EmptyData.(txType := Some(Expense)), CategoryKeyboard("EXPENSE"))
    else if text == AddIncomeLabel then
      Advance(s, Category, EmptyData.(txType := Some(Income)), CategoryKeyboard("INCOME"))
    else if text == AddTransferLabel then
      Advance(s, Account1, EmptyData.(txType := Some(Transfer), category := Some("")), AccountKeyboard())
    else if text == AddReimbursementLabel then
      Advance(s, Account1, EmptyData.(txType := Some(Reimbursement), category := Some(Reimbursibles)), AccountKeyboard())
    else if s.step.IsEntry() then EntryInput(env, s, text)
    else Stay(s, UseMenuButtons, MainMenuKeyboard())
  }

  /** One webhook call: an unauthorised sender gets the refusal and nothing else happens;
      otherwise the sender's session (created on first use) handles the text, `''` standing in
      for a message without text. */
  function HandleMessage(env: Env, config: Config, sheet: seq<SheetRow>, sessions: map<int, Session>,
                         userId: int, text: Option<string>): (d: Delivery)
    ensures !IsAuthorized(userId, config.authorizedUserId, config.authorizedUserIds)
            ==> d == Delivery(sessions, [], Some(Reply(Unauthorized, [])))
    ensures IsAuthorized(userId, config.authorizedUserId, config.authorizedUserIds)
            ==> && d.sessions.Keys == sessions.Keys + {userId}
                && (forall u :: u in sessions && u != userId ==> d.sessions[u] == sessions[u])
                && (d.reply.Some? ==> d.reply.value.message != Unauthorized)
  {
    if !IsAuthorized(userId, config.authorizedUserId, config.authorizedUserIds) then
      Delivery(sessions, [], Say(Unauthorized, []))
    else
      var s := if userId in sessions then sessions[userId] else Fresh;
      var o := HandleText(env, sheet, s, text.GetOr(""));
      Delivery(sessions[userId := o.session], o.requests, o.reply)
  }

  // ---------------------------------------------------------------------------------------
  // Back

  /** Pop the history; with nothing to pop, back to the main menu. A restored entry step
      asks its question again; other restored steps are restored silently. */
  function GoBackStep(s: Session): Outcome {
    match GoBack(s)
    case None => Done(MainMenuShown)
    case Some(prev) => Outcome(prev, [], BackPrompt(prev))
  }

  function BackPrompt(prev: Session): Option<Reply> {
    if prev.step == Category then Say(Ask(Category), CategoryKeyboard(EntryCategoryKey(prev.data.txType.GetOr(""))))
    else if prev.step == Account1 || prev.step == Account2 then Say(Ask(prev.step), AccountKeyboard())
    else if prev.step == Description then Say(Ask(Description), BackKeyboard)
    else None
  }

  // ---------------------------------------------------------------------------------------
  // The loan flow

  /** The loan flow's inputs: description, proceeds (> 0), paying account (from the list,
      anything else ignored), first billing date (MM/DD/YYYY), terms (1..360 months),
      principal (> 0), interest (>= 0) and fee (>= 0), after which the schedule is written. */
  function PayableInput(env: Env, sheet: seq<SheetRow>, s: Session, text: string): (o: Outcome)
    ensures Settled(o)
    ensures o.requests != [] ==> s.step == PayableProcessingFee
    ensures o.session == Fresh || o.session.step.IsPayable() || o.session == s
    ensures s.step.IsPayable() ==> (o.session == s <==> RefusedLoanInput(s.step, text))
  {
    var amount := ParseAmount(text);
    match s.step
    case PayableDescription =>
      Advance(s, PayableProceedsAmount, s.data.(loanDescription := Some(text)), BackKeyboard)
    case PayableProceedsAmount =>
      if amount <= 0.0 then Stay(s, Invalid(PayableProceedsAmount), BackKeyboard)
      else Advance(s, PayableAccount, s.data.(proceedsAmount := Some(amount)), AccountKeyboard())
    case PayableAccount =>
      if text in Accounts then Advance(s, PayableBillingDate, s.data.(paymentAccount := Some(text)), BackKeyboard)
      else Silent(s)
    case PayableBillingDate =>
      if IsBillingDate(text) then Advance(s, PayableTerms, s.data.(firstBillingDate := Some(text)), BackKeyboard)
      else Stay(s, Invalid(PayableBillingDate), BackKeyboard)
    case PayableTerms =>
      var terms := ParseInt(text, Unspecified);
      if terms.None? || terms.value <= 0 || terms.value > 360 then Stay(s, Invalid(PayableTerms), BackKeyboard)
      else Advance(s, PayablePrincipal, s.data.(loanTerms := terms), BackKeyboard)
    case PayablePrincipal =>
      if amount <= 0.0 then Stay(s, Invalid(PayablePrincipal), BackKeyboard)
      else Advance(s, PayableInterest, s.data.(monthlyPrincipal := Some(amount)), BackKeyboard)
    case PayableInterest =>
      if amount < 0.0 then Stay(s, Invalid(PayableInterest), BackKeyboard)
      else Advance(s, PayableProcessingFee, s.data.(monthlyInterest := Some(amount)), BackKeyboard)
    case PayableProcessingFee =>
      if amount < 0.0 then Stay(s, Invalid(PayableProcessingFee), BackKeyboard)
      else CreateLoan(env, sheet, s.data, amount)
    case _ => Silent(s)
  }

  /** The loop bound `session.data.loanTerms`: no installment when it is unset. */
  function TermsOf(d: Data): nat {
    if d.loanTerms.Some? && d.loanTerms.value > 0 then d.loanTerms.value else 0
  }

  /** The terms the loan flow collected, with the fee just entered. */
  function CollectedTerms(d: Data, fee: real): LoanTerms {
    LoanTerms(d.loanDescription.GetOr(""), d.proceedsAmount.GetOr(0.0), d.paymentAccount.GetOr(""),
              d.firstBillingDate.GetOr(""), TermsOf(d), d.monthlyPrincipal.GetOr(0.0),
              d.monthlyInterest.GetOr(0.0), fee)
  }

  /** The date string of each installment, computed from the first billing date. */
  function ScheduleDates(env: Env, billingDate: string): nat -> string {
    (i: nat) => InstallmentDate(env.parseDate, env.formatDate, billingDate, i)
  }

  /** The last step of the loan flow: number the loan from the sheet, write its whole
      schedule in one append, and reset. */
  function CreateLoan(env: Env, sheet: seq<SheetRow>, d: Data, fee: real): (o: Outcome)
    ensures var terms := CollectedTerms(d, fee);
            var loanNumber := NextLoanNumber(sheet, terms.account);
            && o.session == Fresh && |o.requests| == 1 && o.requests[0].AppendRows?
            && |o.requests[0].transactions| == 2 + 2 * terms.terms + (if terms.fee > 0.0 then 1 else 0)
            && o.reply == Some(Reply(LoanCreated(loanNumber, |o.requests[0].transactions|), MainMenuKeyboard()))
            && loanNumber >= StartingNumber(terms.account)
  {
    var terms := CollectedTerms(d, fee);
    var loanNumber := NextLoanNumber(sheet, terms.account);
    var dates := ScheduleDates(env, terms.firstBillingDate);
    var rows := BuildSchedule(env.now, loanNumber, terms, dates);
    ScheduleShape(env.now, loanNumber, terms, dates);
    NextLoanNumberMeaning(sheet, terms.account);
    DoneWriting(AppendRows(rows), LoanCreated(loanNumber, |rows|))
  }

  // ---------------------------------------------------------------------------------------
  // The receivable flow

  /** The receivable flow's inputs: the account (from the list; for a new receivable it is
      the source and "Receivable" the destination, for a payment the destination), the
      description, and the amount (> 0), which is stored positive. */
  function ReceivableInput(env: Env, s: Session, text: string): (o: Outcome)
    ensures Settled(o)
    ensures o.requests != [] ==> s.step == ReceivableAmount && o.requests[0].AppendRows?
  {
    match s.step
    case ReceivableAccountChoice =>
      if text in Accounts then
        var data := if s.data.receivableType == Some("new")
                    then s.data.(account1 := Some(text), account2 := Some(ReceivableAccount))
                    else s.data.(account2 := Some(text));
        Advance(s, ReceivableDescription, data, BackKeyboard)
      else Silent(s)
    case ReceivableDescription =>
      Advance(s, ReceivableAmount, s.data.(description := Some(text)), BackKeyboard)
    case ReceivableAmount =>
      var amount := ParseAmount(text);
      if amount <= 0.0 then Stay(s, Invalid(ReceivableAmount), BackKeyboard)
      else
        var t := EntryOf(env, s.data, amount);
        DoneWriting(AppendRows([t]), Saved(t))
    case _ => Silent(s)
  }

  /** The transaction an entry or receivable flow writes: dated now, with the collected
      fields; an unset field is written as an empty cell. */
  function EntryOf(env: Env, d: Data, amount: real): (t: Transaction)
    ensures t.date == env.now && t.amount == amount
  {
    Transaction(env.now, d.txType.GetOr(""), d.category.GetOr(""), d.account1.GetOr(""),
                d.account2.GetOr(""), d.description.GetOr(""), amount)
  }

  // ---------------------------------------------------------------------------------------
  // Deleting and editing

  /** The rows of a window the listing numbers, from position `k` on: row `k` is numbered
      `k + 1`. */
  function Numbered(window: seq<SheetRow>, k: nat): (entries: seq<(nat, SheetRow)>)
    requires k <= |window|
    ensures |entries| == |window| - k
    ensures forall j :: 0 <= j < |entries| ==> entries[j] == (k + j + 1, window[k + j])
    decreases |window| - k
  {
    if k == |window| then [] else [(k + 1, window[k])] + Numbered(window, k + 1)
  }

  /** The rows a listing shows: all of the window, except its first row when that is the
      header (first cell "Date"). */
  function Shown(window: seq<SheetRow>): seq<(nat, SheetRow)> {
    if |window| > 0 && |window[0]| > 0 && window[0][0] == "Date" then Numbered(window, 1)
    else Numbered(window, 0)
  }

  /** One button per shown row, labelled with its number, then Back to Menu. */
  function SelectionKeyboard(entries: seq<(nat, SheetRow)>): (kb: Keyboard)
    ensures |kb| == |entries| + 1
  {
    if |entries| == 0 then BackToMenuKeyboard
    else [[NatToString(entries[0].0)]] + SelectionKeyboard(entries[1..])
  }

  /** Delete Transaction and Edit Transaction: with no data row there is nothing to list;
      otherwise the ten most recent rows are listed and remembered with the row count. The
      history is left as it is. */
  function ListRows(sheet: seq<SheetRow>, s: Session, next: StepName): (o: Outcome)
    ensures o.requests == [] && o.reply.Some?
    ensures o.reply.value.message == (if |sheet| <= 1 then NothingToList else Choices(Shown(RecentWindow(sheet, 10))))
  {
    if |sheet| <= 1 then Stay(s, NothingToList, MainMenuKeyboard())
    else
      var window := RecentWindow(sheet, 10);
      var entries := Shown(window);
      Outcome(s.(step := next, data := EmptyData.(listing := Some(Listing(window, |sheet|)))), [],
              Say(Choices(entries), SelectionKeyboard(entries)))
  }

  /** A selection typed after a listing: `parseInt(text)` between 1 and the window's length. */
  function SelectedNumber(l: Listing, text: string): Option<int> {
    var k := ParseInt(text, Unspecified);
    if k.Some? && 1 <= k.value <= |l.rows| then k else None
  }

  /** The row to delete: a bad selection ends the flow; a good one deletes the sheet row the
      listing showed under that number. Without a listing, reading it fails and the call ends
      without a reply. */
  function DeleteChoice(s: Session, text: string): (o: Outcome)
    ensures Settled(o)
    ensures o.requests != [] ==> o.requests[0].DeleteRows? && o.requests[0].end == o.requests[0].start + 1
  {
    match s.data.listing
    case None => Silent(s)
    case Some(l) =>
      match SelectedNumber(l, text)
      case None => Done(Invalid(DeleteSelect))
      case Some(k) =>
        var target := SelectionTarget(l.allCount, |l.rows|, k);
        var range := DeleteRange(target);
        DoneWriting(DeleteRows(range.0, range.1), Deleted(l.rows[k - 1]))
  }

  /** The row to edit: a bad selection ends the flow; a good one is remembered with its sheet
      row number and the field keyboard is offered. */
  function EditChoice(s: Session, text: string): (o: Outcome)
    ensures o.requests == [] && Settled(o)
    ensures o.session != Fresh ==> o.session.history == s.history
  {
    match s.data.listing
    case None => Silent(s)
    case Some(l) =>
      match SelectedNumber(l, text)
      case None => Done(Invalid(EditSelect))
      case Some(k) =>
        var target := SelectionTarget(l.allCount, |l.rows|, k);
        var data := s.data.(selection := Some(Selection(target, l.rows[k - 1])));
        Outcome(s.(step := EditFieldSelect, data := data), [], Say(Ask(EditFieldSelect), EditFieldKeyboard()))
  }

  /** The input step behind each button of the field keyboard. */
  function FieldStep(text: string): Option<StepName> {
    if text == EditDateLabel then Some(EditDateInput)
    else if text == EditTypeLabel then Some(EditTypeInput)
    else if text == EditCategoryLabel then Some(EditCategoryInput)
    else if text == EditAccount1Label then Some(EditAccount1Input)
    else if text == EditAccount2Label then Some(EditAccount2Input)
    else if text == EditDescriptionLabel then Some(EditDescriptionInput)
    else if text == EditAmountLabel then Some(EditAmountInput)
    else None
  }

  /** The keyboard offered for a field's new value; the category list follows the row's type
      (income categories for "Income", expense categories otherwise). */
  function FieldKeyboard(step: StepName, row: SheetRow): Keyboard {
    if step == EditTypeInput then TypeKeyboard()
    else if step == EditCategoryInput then CategoryKeyboard(if |row| > 1 && row[1] == Income then "INCOME" else "EXPENSE")
    else if step == EditAccount1Input || step == EditAccount2Input then AccountKeyboard()
    else BackKeyboard
  }

  /** A field button moves to that field's input; any other text is ignored. The prompt
      shows the current value, so without a selected row the step changes but no reply is
      sent. */
  function FieldChoice(s: Session, text: string): (o: Outcome)
    ensures o.requests == [] && Settled(o)
  {
    match FieldStep(text)
    case None => Silent(s)
    case Some(next) =>
      match s.data.selection
      case None => Silent(s.(step := next))
      case Some(sel) => Outcome(s.(step := next), [], Say(Ask(next), FieldKeyboard(next, sel.row)))
  }

  /** The field an edit input step changes. */
  function FieldOf(step: StepName): string {
    match step
    case EditDateInput => "date"
    case EditTypeInput => "type"
    case EditCategoryInput => "category"
    case EditAccount1Input => "account1"
    case EditAccount2Input => "account2"
    case EditDescriptionInput => "description"
    case _ => "amount"
  }

  /** `updateTransaction(selectedIndex, field, value)` and the end of the flow. The update
      fails (and the flow ends) when no row is selected or the field has no column. */
  function Update(s: Session, field: string, value: Cell): Outcome {
    match s.data.selection
    case None => Done(UpdateFailed)
    case Some(sel) =>
      match ColumnFor(field)
      case None => Done(UpdateFailed)
      case Some(column) => DoneWriting(UpdateCellAt(sel.rowIndex, column, value), Updated(field, value))
  }

  /** The new value of an edited field: a date must match MM/DD/YYYY, a type must be one of
      the five, a category one of the three lists (anything else ends the flow), an account
      one of the list; a description is taken as is, and an amount is parsed and made
      negative for a row of type "Expense". */
  function EditInput(s: Session, text: string): (o: Outcome)
    ensures Settled(o)
    ensures o.requests != [] ==> o.requests[0].UpdateCellAt?
    ensures o.requests != [] ==> s.step in {EditDateInput, EditTypeInput, EditCategoryInput, EditAccount1Input,
                                            EditAccount2Input, EditDescriptionInput, EditAmountInput}
  {
    match s.step
    case EditDateInput =>
      if IsBillingDate(text) then Update(s, "date", Text(text)) else Stay(s, Invalid(EditDateInput), BackKeyboard)
    case EditTypeInput =>
      if text in TransactionTypes then Update(s, "type", Text(text)) else Stay(s, Invalid(EditTypeInput), TypeKeyboard())
    case EditCategoryInput =>
      if text in EditableCategories then Update(s, "category", Text(text)) else Done(Invalid(EditCategoryInput))
    case EditAccount1Input =>
      if text in Accounts then Update(s, "account1", Text(text)) else Stay(s, Invalid(EditAccount1Input), AccountKeyboard())
    case EditAccount2Input =>
      if text in Accounts then Update(s, "account2", Text(text)) else Stay(s, Invalid(EditAccount2Input), AccountKeyboard())
    case EditDescriptionInput => Update(s, "description", Text(text))
    case EditAmountInput =>
      (match s.data.selection
       case None => Silent(s)
       case Some(sel) => Update(s, "amount", Number(EditedAmount(sel.row, ParseAmount(text)))))
    case _ => Silent(s)
  }

  /** The amount an edit stores: `-|a|` for a row whose type cell is "Expense", `a` otherwise. */
  function EditedAmount(row: SheetRow, a: real): real {
    if |row| > 1 && row[1] == Expense then -Abs(a) else a
  }

  // ---------------------------------------------------------------------------------------
  // The summary flow

  /** The summary of the sheet's transactions in a period, `None` when there are none. */
  function PeriodSummary(env: Env, sheet: seq<SheetRow>, range: (DateTime, DateTime)): Option<SummaryData> {
    var ts := TransactionsInRange(env.parseDate, sheet, range.0, range.1);
    if |ts| == 0 then None else Some(CalculateSummary(ts))
  }

  /** A year button: a year that is not a positive number is ignored. For a monthly summary the
      months are offered; for a yearly one the year's report ends the flow. */
  function YearChoice(env: Env, sheet: seq<SheetRow>, s: Session, text: string): (o: Outcome)
    ensures o.requests == [] && Settled(o)
    ensures (ParseYearFromText(text).None? || ParseYearFromText(text).value <= 0) ==> o.session == s && o.reply.None?
    ensures o.session == s || o.session == Fresh
            || (o.session.step == SummarySelectMonth && o.session.history == s.history + [Snapshot(s.step, s.data)])
  {
    var year := ParseYearFromText(text);
    if year.None? || year.value <= 0 then Silent(s)
    else if s.data.summaryType == Some("monthly") then
      Advance(s, SummarySelectMonth, s.data.(selectedYear := year), MonthKeyboard())
    else
      Done(Report("Year " + IntToString(year.value), PeriodSummary(env, sheet, YearDateRange(year.value))))
  }

  /** A month button: a text that is not a month name is ignored; otherwise the month's report
      ends the flow, titled with the button text less its prefix and the year. Without a
      chosen year the period's dates are invalid and no row falls in it. */
  function MonthChoice(env: Env, sheet: seq<SheetRow>, s: Session, text: string): (o: Outcome)
    ensures o.requests == [] && Settled(o)
    ensures ReplaceFirst(text, CalendarPrefix, "") in MonthNames ==> o.session == Fresh && o.reply.Some?
    ensures ReplaceFirst(text, CalendarPrefix, "") !in MonthNames ==> o.session == s && o.reply.None?
  {
    var month := ParseMonthFromText(text);
    if month < 0 then Silent(s)
    else
      var monthName := ReplaceFirst(text, CalendarPrefix, "");
      match s.data.selectedYear
      case None => Done(Report(monthName + " undefined", None))
      case Some(year) =>
        Done(Report(monthName + " " + IntToString(year), PeriodSummary(env, sheet, MonthDateRange(year, month))))
  }

  /** View Recent: the last five rows of the sheet are fetched and all but the first of them
      are shown. */
  function ViewRecent(sheet: seq<SheetRow>, s: Session): (o: Outcome)
    ensures o.requests == [] && o.session == s
  {
    var window := RecentWindow(sheet, 5);
    if |window| == 0 then Stay(s, NoTransactionsYet, MainMenuKeyboard())
    else Stay(s, Recent(window[1..]), MainMenuKeyboard())
  }

  // ---------------------------------------------------------------------------------------
  // The entry flows

  /** Adding an expense, income, transfer or reimbursement: a category from the type's list
      (expense list for expenses, income list otherwise), the first account, the second
      account for a transfer only, the description, and an amount (> 0), stored negative for
      an expense. */
  function EntryInput(env: Env, s: Session, text: string): (o: Outcome)
    ensures Settled(o)
    ensures o.requests != [] ==> s.step == Amount && o.requests[0].AppendRows?
    ensures o.requests != [] ==>
              && |o.requests[0].transactions| == 1
              && var t := o.requests[0].transactions[0];
                 && t.date == env.now && t.amount != 0.0
                 && (t.amount < 0.0 <==> s.data.txType == Some(Expense))
  {
    match s.step
    case Category =>
      var key := EntryCategoryKey(s.data.txType.GetOr(""));
      if text in CategoriesFor(key) then Advance(s, Account1, s.data.(category := Some(text)), AccountKeyboard())
      else Stay(s, Invalid(Category), CategoryKeyboard(key))
    case Account1 =>
      if text !in Accounts then Silent(s)
      else if s.data.txType == Some(Transfer) then Advance(s, Account2, s.data.(account1 := Some(text)), AccountKeyboard())
      else Advance(s, Description, s.data.(account1 := Some(text)), BackKeyboard)
    case Account2 =>
      if text in Accounts then Advance(s, Description, s.data.(account2 := Some(text)), BackKeyboard)
      else Silent(s)
    case Description =>
      Advance(s, Amount, s.data.(description := Some(text)), BackKeyboard)
    case Amount =>
      var amount := ParseAmount(text);
      if amount <= 0.0 then Stay(s, Invalid(Amount), BackKeyboard)
      else
        var t := EntryOf(env, s.data, if s.data.txType == Some(Expense) then -Abs(amount) else amount);
        DoneWriting(AppendRows([t]), Saved(t))
    case _ => Silent(s)
  }
}
