/** Properties of the handler over one or several messages: which texts reach which flow,
    what Back undoes, what the listing's numbers select, what the last step of each flow
    writes, and what the summary buttons report. */
module HandlerProperties {

  import opened Wrappers
  import opened Strings
  import opened Calendar
  import opened Catalog
  import opened Parsing
  import opened Keyboards
  import opened Ledger
  import opened LoanNumbers
  import opened DateFilter
  import opened Summary
  import opened LoanSchedule
  import opened Sessions
  import opened Dispatcher

  // ---------------------------------------------------------------------------------------
  // Conversations

  /** Several texts handled in turn, each against the session the previous one left: the
      last session and reply, with every ledger write in order. */
  function Converse(env: Env, sheet: seq<SheetRow>, s: Session, texts: seq<string>): Outcome
    decreases |texts|
  {
    if |texts| == 0 then Outcome(s, [], None)
    else
      var first := HandleText(env, sheet, s, texts[0]);
      var rest := Converse(env, sheet, first.session, texts[1..]);
      if |texts| == 1 then first else rest.(requests := first.requests + rest.requests)
  }

  /** A text that writes nothing and moves to `next` leaves the rest of the conversation to
      `next`. */
  lemma ConverseStep(env: Env, sheet: seq<SheetRow>, s: Session, text: string, rest: seq<string>, next: Session)
    requires |rest| > 0
    requires HandleText(env, sheet, s, text).session == next && HandleText(env, sheet, s, text).requests == []
    ensures Converse(env, sheet, s, [text] + rest) == Converse(env, sheet, next, rest)
  {
    assert ([text] + rest)[1..] == rest;
  }

  /** A conversation of one text is that text's outcome. */
  lemma ConverseLast(env: Env, sheet: seq<SheetRow>, s: Session, text: string)
    ensures Converse(env, sheet, s, [text]) == HandleText(env, sheet, s, text)
  {
  }

  // ---------------------------------------------------------------------------------------
  // Which texts reach which branch

  /** The global commands end whatever flow runs, at any step: the session is fresh, nothing
      is written, and the main menu comes with the command's own reply. */
  lemma GlobalCommandResets(env: Env, sheet: seq<SheetRow>, s: Session, text: string)
    requires text in GlobalCommands
    ensures var o := HandleText(env, sheet, s, text);
            && o.session == Fresh && o.requests == []
            && o.reply == Some(Reply(if text == "/start" then Welcome
                                     else if text == CancelLabel then Cancelled
                                     else MainMenuShown, MainMenuKeyboard()))
  {
  }

  /** Back, at any step, writes nothing and restores the last snapshot; with an empty
      history it ends in a fresh session and the main menu. */
  lemma BackRestores(env: Env, sheet: seq<SheetRow>, s: Session)
    ensures var o := HandleText(env, sheet, s, BackLabel);
            && o.session == Restored(s) && o.requests == []
            && (|s.history| == 0 ==> o == Done(MainMenuShown))
  {
    BackIsNoGlobalCommand();
  }

  /** Past the global commands and Back, the handler goes on to the loan flow. */
  lemma ToLoanFlow(env: Env, sheet: seq<SheetRow>, s: Session, text: string)
    requires text !in GlobalCommands && text != BackLabel
    ensures HandleText(env, sheet, s, text) == LoanOrLater(env, sheet, s, text)
  {
  }

  /** Past the loan flow, to the receivable flow. */
  lemma ToReceivableFlow(env: Env, sheet: seq<SheetRow>, s: Session, text: string)
    requires text != AddPayableLabel && !s.step.IsPayable()
    ensures LoanOrLater(env, sheet, s, text) == ReceivableOrLater(env, sheet, s, text)
  {
  }

  /** Past the receivable flow, to deleting and editing. */
  lemma ToListings(env: Env, sheet: seq<SheetRow>, s: Session, text: string)
    requires text != AddReceivableLabel && !s.step.IsReceivableInput()
    requires s.step == ReceivableType ==> text != NewReceivableLabel && text != PaymentReceivedLabel
    ensures ReceivableOrLater(env, sheet, s, text) == ListingOrLater(env, sheet, s, text)
  {
  }

  /** Past deleting and editing, to the summary flow. */
  lemma ToSummaries(env: Env, sheet: seq<SheetRow>, s: Session, text: string)
    requires text != DeleteLabel && text != EditLabel && !s.step.IsEdit()
    ensures ListingOrLater(env, sheet, s, text) == SummaryOrLater(env, sheet, s, text)
  {
  }

  /** Past the summary flow and View Recent, to the entry flows. */
  lemma ToEntries(env: Env, sheet: seq<SheetRow>, s: Session, text: string)
    requires text != FinancialSummaryLabel && text != ViewRecentLabel
    requires s.step == SummarySelectType ==> text != MonthlySummaryLabel && text != YearlySummaryLabel
    requires s.step == SummarySelectYear || s.step == SummarySelectMonth ==> !StartsWith(text, CalendarPrefix)
    ensures SummaryOrLater(env, sheet, s, text) == EntryOrFallback(env, s, text)
  {
  }

  /** A text that is no loan or receivable button, at a step that does not read input for
      those flows, reaches deleting and editing. */
  lemma ToListingFlow(env: Env, sheet: seq<SheetRow>, s: Session, text: string)
    requires !s.step.IsPayable() && !s.step.IsReceivableInput()
    requires text !in GlobalCommands && text != BackLabel && text != AddPayableLabel && text != AddReceivableLabel
    requires s.step == ReceivableType ==> text != NewReceivableLabel && text != PaymentReceivedLabel
    ensures HandleText(env, sheet, s, text) == ListingOrLater(env, sheet, s, text)
  {
    ToLoanFlow(env, sheet, s, text);
    ToReceivableFlow(env, sheet, s, text);
    ToListings(env, sheet, s, text);
  }

  /** A text that, in addition, is no delete or edit button, at a step outside deleting and
      editing, reaches the summary flow. */
  lemma ToSummaryFlow(env: Env, sheet: seq<SheetRow>, s: Session, text: string)
    requires !s.step.IsPayable() && !s.step.IsReceivableInput() && !s.step.IsEdit()
    requires text !in GlobalCommands && text != BackLabel && text != AddPayableLabel && text != AddReceivableLabel
    requires s.step == ReceivableType ==> text != NewReceivableLabel && text != PaymentReceivedLabel
    requires text != DeleteLabel && text != EditLabel
    ensures HandleText(env, sheet, s, text) == SummaryOrLater(env, sheet, s, text)
  {
    ToListingFlow(env, sheet, s, text);
    ToSummaries(env, sheet, s, text);
  }

  /** A text that, in addition, is no summary or View Recent button reaches the entry
      flows. */
  lemma ToEntryFlows(env: Env, sheet: seq<SheetRow>, s: Session, text: string)
    requires !s.step.IsPayable() && !s.step.IsReceivableInput() && !s.step.IsEdit()
    requires text !in GlobalCommands && text != BackLabel && text != AddPayableLabel && text != AddReceivableLabel
    requires text != DeleteLabel && text != EditLabel && text != FinancialSummaryLabel && text != ViewRecentLabel
    requires s.step == ReceivableType ==> text != NewReceivableLabel && text != PaymentReceivedLabel
    requires s.step == SummarySelectType ==> text != MonthlySummaryLabel && text != YearlySummaryLabel
    requires s.step == SummarySelectYear || s.step == SummarySelectMonth ==> !StartsWith(text, CalendarPrefix)
    ensures HandleText(env, sheet, s, text) == EntryOrFallback(env, s, text)
  {
    ToSummaryFlow(env, sheet, s, text);
    ToEntries(env, sheet, s, text);
  }

  /** At an entry step, every text but the menu buttons is that step's input. */
  lemma ToEntryInput(env: Env, sheet: seq<SheetRow>, s: Session, text: string)
    requires s.step.IsEntry() && text !in MenuLabels
    ensures HandleText(env, sheet, s, text) == EntryInput(env, s, text)
  {
    NoMenuLabel(text);
    assert !s.step.IsPayable() && !s.step.IsReceivableInput() && !s.step.IsEdit();
    ToEntryFlows(env, sheet, s, text);
    EntryStepInput(env, s, text);
  }

  /** At an entry step, a text that is no entry button is that step's input. */
  lemma EntryStepInput(env: Env, s: Session, text: string)
    requires s.step.IsEntry()
    requires text != AddExpenseLabel && text != AddIncomeLabel && text != AddTransferLabel && text != AddReimbursementLabel
    ensures EntryOrFallback(env, s, text) == EntryInput(env, s, text)
  {
  }

  /** At a step that edits a field, every text but the global commands and the delete, edit,
      loan and receivable buttons is the new value. */
  lemma ToEditInput(env: Env, sheet: seq<SheetRow>, s: Session, text: string)
    requires s.step.IsEdit() && s.step !in {DeleteSelect, EditSelect, EditFieldSelect}
    requires text !in MenuLabels
    ensures HandleText(env, sheet, s, text) == EditInput(s, text)
  {
    ToListingFlow(env, sheet, s, text);
  }

  /** A text that is none of the menu buttons differs from each of them. */
  lemma NoMenuLabel(text: string)
    requires text !in MenuLabels
    ensures text !in GlobalCommands && text != BackLabel && text != AddPayableLabel && text != AddReceivableLabel
    ensures text != DeleteLabel && text != EditLabel && text != FinancialSummaryLabel && text != ViewRecentLabel
    ensures text != AddExpenseLabel && text != AddIncomeLabel && text != AddTransferLabel && text != AddReimbursementLabel
  {
  }

  /** A text whose first character differs from the calendar prefix's is no year or month
      button. */
  lemma NotCalendarButton(text: string)
    requires |text| > 0 && text[0] != CalendarPrefix[0]
    ensures !StartsWith(text, CalendarPrefix)
  {
  }

  /** A listing's number button is none of the menu buttons. */
  lemma NumberIsNoLabel(k: nat)
    ensures NatToString(k) !in MenuLabels
    ensures NatToString(k) != NewReceivableLabel && NatToString(k) != PaymentReceivedLabel
    ensures !StartsWith(NatToString(k), CalendarPrefix)
  {
    var text := NatToString(k);
    assert IsDigit(text[0]);
  }

  /** A month or year button is none of the menu buttons. */
  lemma CalendarButtonIsNoLabel(rest: string)
    ensures CalendarPrefix + rest !in MenuLabels
    ensures StartsWith(CalendarPrefix + rest, CalendarPrefix)
  {
    var text := CalendarPrefix + rest;
    assert text[0] == CalendarPrefix[0];
    assert text[..|CalendarPrefix|] == CalendarPrefix;
  }

  /** While the loan flow runs it reads every text but the global commands, Back and the
      Add Payable button; an input is refused, leaving the session as it was, exactly when
      it breaks that step's rule, and every other input moves the flow on or ends it. */
  lemma LoanFlowCapturesInput(env: Env, sheet: seq<SheetRow>, s: Session, text: string)
    requires s.step.IsPayable()
    requires text !in GlobalCommands && text != BackLabel && text != AddPayableLabel
    ensures var o := HandleText(env, sheet, s, text);
            && (o.session == s <==> RefusedLoanInput(s.step, text))
            && (o.session == s ==> o.requests == [])
            && (o.session != s ==> o.session == Fresh || (o.session.step.IsPayable() && o.session.history == s.history + [Snapshot(s.step, s.data)]))
  {
    ToLoanFlow(env, sheet, s, text);
    PayableStepSaves(env, sheet, s, text);
  }

  /** A loan step that moves on saves the step it leaves. */
  lemma PayableStepSaves(env: Env, sheet: seq<SheetRow>, s: Session, text: string)
    requires s.step.IsPayable()
    ensures var o := PayableInput(env, sheet, s, text);
            o.session != s ==> o.session == Fresh || (o.session.step.IsPayable() && o.session.history == s.history + [Snapshot(s.step, s.data)])
  {
  }

  // ---------------------------------------------------------------------------------------
  // Back

  /** The buttons that start a flow after saving the current state. */
  const FlowStarts: set<string> :=
    {AddPayableLabel, AddReceivableLabel, FinancialSummaryLabel, AddExpenseLabel, AddIncomeLabel, AddTransferLabel,
     AddReimbursementLabel}

  /** Whether a flow-start button reaches its flow from session `s`: Add Payable always does,
      Add Receivable unless the loan flow runs, the others unless a loan, receivable, delete
      or edit step is reading input. */
  predicate Reaches(s: Session, button: string) {
    button == AddPayableLabel
    || (!s.step.IsPayable() && (button == AddReceivableLabel || (!s.step.IsReceivableInput() && !s.step.IsEdit())))
  }

  /** Going back from a step a flow advanced to restores the session it advanced from. */
  lemma BackAfterAdvance(s: Session, step: StepName, data: Data, kb: Keyboard)
    ensures Advance(s, step, data, kb).session.history == s.history + [Snapshot(s.step, s.data)]
    ensures Restored(Advance(s, step, data, kb).session) == s
  {
    BackUndoesSave(s, step, data);
  }

  /** What each flow-start button begins with: the step, the data and the keyboard. */
  function StartOf(button: string): (StepName, Data, Keyboard) {
    if button == AddPayableLabel then (PayableDescription, EmptyData, BackToMenuKeyboard)
    else if button == AddReceivableLabel then
      (ReceivableType, EmptyData.(txType := Some(Transfer), category := Some("")), ReceivableTypeKeyboard())
    else if button == FinancialSummaryLabel then (SummarySelectType, EmptyData, SummaryTypeKeyboard())
    else if button == AddExpenseLabel then (Category, EmptyData.(txType := Some(Expense)), CategoryKeyboard("EXPENSE"))
    else if button == AddIncomeLabel then (Category, EmptyData.(txType := Some(Income)), CategoryKeyboard("INCOME"))
    else if button == AddTransferLabel then
      (Account1, EmptyData.(txType := Some(Transfer), category := Some("")), AccountKeyboard())
    else (Account1, EmptyData.(txType := Some(Reimbursement), category := Some(Reimbursibles)), AccountKeyboard())
  }

  /** The loan and receivable buttons save the state and start their flow. */
  lemma LoanOrReceivableStarts(env: Env, sheet: seq<SheetRow>, s: Session, button: string)
    requires button == AddPayableLabel || (button == AddReceivableLabel && !s.step.IsPayable())
    ensures HandleText(env, sheet, s, button) == Advance(s, StartOf(button).0, StartOf(button).1, StartOf(button).2)
  {
    if button == AddPayableLabel {
      ToLoanFlow(env, sheet, s, AddPayableLabel);
    } else {
      ToLoanFlow(env, sheet, s, AddReceivableLabel);
      ToReceivableFlow(env, sheet, s, AddReceivableLabel);
    }
  }

  /** The entry and summary buttons save the state and start their flow. */
  lemma EntryOrSummaryStarts(env: Env, sheet: seq<SheetRow>, s: Session, button: string)
    requires button in {FinancialSummaryLabel, AddExpenseLabel, AddIncomeLabel, AddTransferLabel, AddReimbursementLabel}
    requires !s.step.IsPayable() && !s.step.IsReceivableInput() && !s.step.IsEdit()
    ensures HandleText(env, sheet, s, button) == Advance(s, StartOf(button).0, StartOf(button).1, StartOf(button).2)
  {
    if button == FinancialSummaryLabel {
      ToSummaryFlow(env, sheet, s, FinancialSummaryLabel);
    } else {
      EntryStarts(env, sheet, s, button);
      EntryButtonStarts(env, s, button);
    }
  }

  /** The entry layer starts each entry flow as its button says. */
  lemma EntryButtonStarts(env: Env, s: Session, button: string)
    requires button in {AddExpenseLabel, AddIncomeLabel, AddTransferLabel, AddReimbursementLabel}
    ensures EntryOrFallback(env, s, button) == Advance(s, StartOf(button).0, StartOf(button).1, StartOf(button).2)
  {
  }

  lemma EntryStarts(env: Env, sheet: seq<SheetRow>, s: Session, button: string)
    requires button in {AddExpenseLabel, AddIncomeLabel, AddTransferLabel, AddReimbursementLabel}
    requires !s.step.IsPayable() && !s.step.IsReceivableInput() && !s.step.IsEdit()
    ensures HandleText(env, sheet, s, button) == EntryOrFallback(env, s, button)
  {
    if button == AddExpenseLabel {
      NotCalendarButton(AddExpenseLabel);
      ToEntryFlows(env, sheet, s, AddExpenseLabel);
    } else if button == AddIncomeLabel {
      NotCalendarButton(AddIncomeLabel);
      ToEntryFlows(env, sheet, s, AddIncomeLabel);
    } else if button == AddTransferLabel {
      NotCalendarButton(AddTransferLabel);
      ToEntryFlows(env, sheet, s, AddTransferLabel);
    } else {
      NotCalendarButton(AddReimbursementLabel);
      ToEntryFlows(env, sheet, s, AddReimbursementLabel);
    }
  }

  /** Starting a flow and pressing Back at once returns to the session exactly as it was. */
  lemma StartThenBack(env: Env, sheet: seq<SheetRow>, s: Session, button: string)
    requires button in FlowStarts && Reaches(s, button)
    ensures var started := HandleText(env, sheet, s, button);
            && started.requests == []
            && started.session.history == s.history + [Snapshot(s.step, s.data)]
            && HandleText(env, sheet, started.session, BackLabel).session == s
  {
    var start := StartOf(button);
    if button == AddPayableLabel || button == AddReceivableLabel {
      LoanOrReceivableStarts(env, sheet, s, button);
    } else {
      EntryOrSummaryStarts(env, sheet, s, button);
    }
    BackAfterAdvance(s, start.0, start.1, start.2);
    BackRestores(env, sheet, HandleText(env, sheet, s, button).session);
  }

  /** Opening the delete or edit listing does not save the current state, so Back from the
      listing skips the step the user was at and returns to the one before it. */
  lemma ListingThenBack(env: Env, sheet: seq<SheetRow>, s: Session, button: string)
    requires button == DeleteLabel || button == EditLabel
    requires !s.step.IsPayable() && !s.step.IsReceivableInput() && |sheet| > 1
    requires button == EditLabel ==> s.step != DeleteSelect
    ensures var listed := HandleText(env, sheet, s, button);
            && listed.session.history == s.history
            && listed.session.step == (if button == DeleteLabel then DeleteSelect else EditSelect)
            && HandleText(env, sheet, listed.session, BackLabel).session == Restored(s)
  {
    ListingOpened(env, sheet, s, button);
    BackRestores(env, sheet, HandleText(env, sheet, s, button).session);
  }

  // ---------------------------------------------------------------------------------------
  // Deleting and editing a listed row

  /** The delete and edit buttons list the ten most recent rows with the sheet's row count,
      leaving the history as it is. */
  lemma ListingOpened(env: Env, sheet: seq<SheetRow>, s: Session, button: string)
    requires button == DeleteLabel || button == EditLabel
    requires !s.step.IsPayable() && !s.step.IsReceivableInput() && |sheet| > 1
    requires button == EditLabel ==> s.step != DeleteSelect
    ensures HandleText(env, sheet, s, button).session
         == s.(step := if button == DeleteLabel then DeleteSelect else EditSelect,
               data := EmptyData.(listing := Some(Listing(RecentWindow(sheet, 10), |sheet|))))
    ensures HandleText(env, sheet, s, button).requests == []
  {
    if button == DeleteLabel {
      ToListingFlow(env, sheet, s, DeleteLabel);
    } else {
      ToListingFlow(env, sheet, s, EditLabel);
    }
  }

  /** Number `k` of a listing, typed at the delete step, deletes the sheet row the listing
      counted back to and ends the flow. */
  lemma NumberDeletes(env: Env, sheet: seq<SheetRow>, s: Session, l: Listing, k: nat)
    requires s.step == DeleteSelect && s.data.listing == Some(l) && 1 <= k <= |l.rows|
    ensures var target := SelectionTarget(l.allCount, |l.rows|, k);
            HandleText(env, sheet, s, NatToString(k)) == DoneWriting(DeleteRows(target - 1, target), Deleted(l.rows[k - 1]))
  {
    var text := NatToString(k);
    NumberIsNoLabel(k);
    ToListingFlow(env, sheet, s, text);
    assert ListingOrLater(env, sheet, s, text) == DeleteChoice(s, text);
    NatRoundTrip(k);
    ListedNumber(l, text, k);
    DeleteChoiceOfNumber(s, l, text, k);
  }

  /** Number `k` of a listing, typed at the edit step, selects the row the listing counted
      back to and offers the field buttons. */
  lemma NumberSelects(env: Env, sheet: seq<SheetRow>, s: Session, l: Listing, k: nat)
    requires s.step == EditSelect && s.data.listing == Some(l) && 1 <= k <= |l.rows|
    ensures var target := SelectionTarget(l.allCount, |l.rows|, k);
            var o := HandleText(env, sheet, s, NatToString(k));
            && o.session == s.(step := EditFieldSelect, data := s.data.(selection := Some(Selection(target, l.rows[k - 1]))))
            && o.requests == []
  {
    var text := NatToString(k);
    NumberIsNoLabel(k);
    ToListingFlow(env, sheet, s, text);
    assert ListingOrLater(env, sheet, s, text) == EditChoice(s, text);
    NatRoundTrip(k);
    ListedNumber(l, text, k);
    EditChoiceOfNumber(s, l, text, k);
  }

  /** At the delete step, a text that is no button and no listed number ends the flow with
      the invalid-selection reply, writing nothing. */
  lemma BadDeleteSelectionEnds(env: Env, sheet: seq<SheetRow>, s: Session, l: Listing, text: string)
    requires s.step == DeleteSelect && s.data.listing == Some(l)
    requires text !in MenuLabels && SelectedNumber(l, text).None?
    ensures HandleText(env, sheet, s, text) == Done(Invalid(DeleteSelect))
  {
    NoMenuLabel(text);
    ToListingFlow(env, sheet, s, text);
    BadSelectionInLayer(env, sheet, s, l, text);
  }

  /** At the edit step, a text that is no button and no listed number ends the flow with the
      invalid-selection reply, writing nothing. */
  lemma BadEditSelectionEnds(env: Env, sheet: seq<SheetRow>, s: Session, l: Listing, text: string)
    requires s.step == EditSelect && s.data.listing == Some(l)
    requires text !in MenuLabels && SelectedNumber(l, text).None?
    ensures HandleText(env, sheet, s, text) == Done(Invalid(EditSelect))
  {
    NoMenuLabel(text);
    ToListingFlow(env, sheet, s, text);
    BadSelectionInLayer(env, sheet, s, l, text);
  }

  /** The listing layer's answer to a bad selection. */
  lemma BadSelectionInLayer(env: Env, sheet: seq<SheetRow>, s: Session, l: Listing, text: string)
    requires (s.step == DeleteSelect || s.step == EditSelect) && s.data.listing == Some(l)
    requires text != DeleteLabel && text != EditLabel && SelectedNumber(l, text).None?
    ensures ListingOrLater(env, sheet, s, text) == Done(Invalid(s.step))
  {
  }

  /** A text that reads as a listed number selects that number. */
  lemma ListedNumber(l: Listing, text: string, k: nat)
    requires ParseInt(text, Unspecified) == Some(k) && 1 <= k <= |l.rows|
    ensures SelectedNumber(l, text) == Some(k)
  {
  }

  /** A listed number typed at the delete step deletes the row the listing counted back to. */
  lemma DeleteChoiceOfNumber(s: Session, l: Listing, text: string, k: nat)
    requires s.data.listing == Some(l) && SelectedNumber(l, text) == Some(k) && 1 <= k <= |l.rows|
    ensures var target := SelectionTarget(l.allCount, |l.rows|, k);
            DeleteChoice(s, text) == DoneWriting(DeleteRows(target - 1, target), Deleted(l.rows[k - 1]))
  {
  }

  /** A listed number typed at the edit step selects the row the listing counted back to. */
  lemma EditChoiceOfNumber(s: Session, l: Listing, text: string, k: nat)
    requires s.data.listing == Some(l) && SelectedNumber(l, text) == Some(k) && 1 <= k <= |l.rows|
    ensures var target := SelectionTarget(l.allCount, |l.rows|, k);
            var o := EditChoice(s, text);
            && o.session == s.(step := EditFieldSelect, data := s.data.(selection := Some(Selection(target, l.rows[k - 1]))))
            && o.requests == []
  {
    var target := SelectionTarget(l.allCount, |l.rows|, k);
    var data := s.data.(selection := Some(Selection(target, l.rows[k - 1])));
    assert EditChoice(s, text) == Outcome(s.(step := EditFieldSelect, data := data), [], Say(Ask(EditFieldSelect), EditFieldKeyboard()));
  }

  /** Listing the rows for deletion and pressing number `k` deletes the sheet row that was
      shown as `k`, and only it, and ends the flow. */
  lemma ListThenDelete(env: Env, sheet: seq<SheetRow>, s: Session, k: nat)
    requires !s.step.IsPayable() && !s.step.IsReceivableInput() && |sheet| > 1
    requires 1 <= k <= |RecentWindow(sheet, 10)|
    ensures var listed := HandleText(env, sheet, s, DeleteLabel);
            var o := HandleText(env, sheet, listed.session, NatToString(k));
            var w := RecentWindow(sheet, 10);
            var target := SelectionTarget(|sheet|, |w|, k);
            && 1 <= target <= |sheet| && sheet[target - 1] == w[k - 1]
            && o.requests == [DeleteRows(target - 1, target)]
            && o.session == Fresh
            && o.reply == Some(Reply(Deleted(sheet[target - 1]), MainMenuKeyboard()))
  {
    ListingOpened(env, sheet, s, DeleteLabel);
    var listed := HandleText(env, sheet, s, DeleteLabel);
    ShownNumberDeletes(env, sheet, listed.session, k);
  }

  /** At the delete step with the sheet's recent rows listed, number `k` deletes the sheet
      row shown as `k`. */
  lemma ShownNumberDeletes(env: Env, sheet: seq<SheetRow>, t: Session, k: nat)
    requires t.step == DeleteSelect && t.data.listing == Some(Listing(RecentWindow(sheet, 10), |sheet|))
    requires |sheet| > 1 && 1 <= k <= |RecentWindow(sheet, 10)|
    ensures var w := RecentWindow(sheet, 10);
            var target := SelectionTarget(|sheet|, |w|, k);
            && 1 <= target <= |sheet| && sheet[target - 1] == w[k - 1]
            && HandleText(env, sheet, t, NatToString(k)) == DoneWriting(DeleteRows(target - 1, target), Deleted(sheet[target - 1]))
  {
    SelectionTargetsShownRow(sheet, k);
    NumberDeletes(env, sheet, t, Listing(RecentWindow(sheet, 10), |sheet|), k);
  }

  /** Listing the rows for editing and pressing number `k` selects the sheet row shown as `k`
      by its 1-based row number, offers the field buttons, and keeps the history. */
  lemma ListThenEdit(env: Env, sheet: seq<SheetRow>, s: Session, k: nat)
    requires !s.step.IsPayable() && !s.step.IsReceivableInput() && s.step != DeleteSelect && |sheet| > 1
    requires 1 <= k <= |RecentWindow(sheet, 10)|
    ensures var listed := HandleText(env, sheet, s, EditLabel);
            var o := HandleText(env, sheet, listed.session, NatToString(k));
            var w := RecentWindow(sheet, 10);
            var target := SelectionTarget(|sheet|, |w|, k);
            && 1 <= target <= |sheet|
            && o.session.step == EditFieldSelect
            && o.session.data.selection == Some(Selection(target, sheet[target - 1]))
            && o.session.history == s.history
            && o.requests == []
  {
    var w := RecentWindow(sheet, 10);
    ListingOpened(env, sheet, s, EditLabel);
    var listed := HandleText(env, sheet, s, EditLabel);
    NumberSelects(env, sheet, listed.session, Listing(w, |sheet|), k);
    SelectionTargetsShownRow(sheet, k);
  }

  /** A new amount for a selected row is written to column G of that row, negated for a row
      of type "Expense"; every other value is written as typed. */
  lemma EditAmountStored(env: Env, sheet: seq<SheetRow>, s: Session, text: string, sel: Selection)
    requires s.step == EditAmountInput && s.data.selection == Some(sel) && text !in MenuLabels
    ensures var o := HandleText(env, sheet, s, text);
            var a := ParseAmount(text);
            var stored := if |sel.row| > 1 && sel.row[1] == Expense then -Abs(a) else a;
            && o.requests == [UpdateCellAt(sel.rowIndex, 'G', Number(stored))]
            && ColumnIndex('G') == 6 && FieldNames[6] == "amount"
            && (|sel.row| > 1 && sel.row[1] == Expense ==> stored <= 0.0)
            && o.session == Fresh
  {
    ToEditInput(env, sheet, s, text);
    AmountEdit(s, text, sel);
  }

  /** The steps of the six fields an edit stores as typed text. */
  const TextFieldSteps: set<StepName> :=
    {EditDateInput, EditTypeInput, EditCategoryInput, EditAccount1Input, EditAccount2Input, EditDescriptionInput}

  /** Which new values an edit accepts: a date in MM/DD/YYYY, one of the five types, a category
      of any list, an account of the list; a description is always accepted. */
  predicate EditAccepts(step: StepName, text: string) {
    match step
    case EditDateInput => IsBillingDate(text)
    case EditTypeInput => text in TransactionTypes
    case EditCategoryInput => text in IncomeCategories || text in ExpenseCategories
    case EditAccount1Input => text in Accounts
    case EditAccount2Input => text in Accounts
    case _ => true
  }

  /** A new value for one of the six text fields of a selected row is written, as typed, to the
      column that holds that field, and the flow ends. A value the field refuses writes nothing
      and is answered as invalid: the step waits for another value, except a refused category,
      which ends the flow. */
  lemma TextFieldEditStored(env: Env, sheet: seq<SheetRow>, s: Session, text: string, sel: Selection)
    requires s.step in TextFieldSteps && s.data.selection == Some(sel) && text !in MenuLabels
    ensures var o := HandleText(env, sheet, s, text);
            var column := ColumnFor(FieldOf(s.step));
            && column.Some? && 0 <= ColumnIndex(column.value) < 7
            && FieldNames[ColumnIndex(column.value)] == FieldOf(s.step)
            && (EditAccepts(s.step, text) ==>
                  o.requests == [UpdateCellAt(sel.rowIndex, column.value, Text(text))] && o.session == Fresh)
            && (!EditAccepts(s.step, text) ==>
                  && o.requests == [] && o.reply.Some? && o.reply.value.message == Invalid(s.step)
                  && (o.session == Fresh <==> s.step == EditCategoryInput)
                  && (s.step != EditCategoryInput ==> o.session == s))
  {
    ToEditInput(env, sheet, s, text);
    TextFieldEdit(s, text, sel);
  }

  /** The six text-field steps of EditInput against the acceptance rule and the column table. */
  lemma TextFieldEdit(s: Session, text: string, sel: Selection)
    requires s.step in TextFieldSteps && s.data.selection == Some(sel)
    ensures var o := EditInput(s, text);
            var column := ColumnFor(FieldOf(s.step));
            && column.Some? && 0 <= ColumnIndex(column.value) < 7
            && FieldNames[ColumnIndex(column.value)] == FieldOf(s.step)
            && (EditAccepts(s.step, text) ==>
                  o.requests == [UpdateCellAt(sel.rowIndex, column.value, Text(text))] && o.session == Fresh)
            && (!EditAccepts(s.step, text) ==>
                  && o.requests == [] && o.reply.Some? && o.reply.value.message == Invalid(s.step)
                  && (o.session == Fresh <==> s.step == EditCategoryInput)
                  && (s.step != EditCategoryInput ==> o.session == s))
  {
    FieldColumn(s.step);
    var written := Update(s, FieldOf(s.step), Text(text));
    assert written == DoneWriting(UpdateCellAt(sel.rowIndex, ColumnFor(FieldOf(s.step)).value, Text(text)),
                                  Updated(FieldOf(s.step), Text(text)));
    match s.step {
      case EditDateInput =>
        assert EditInput(s, text) == if IsBillingDate(text) then written else Stay(s, Invalid(EditDateInput), BackKeyboard);
      case EditTypeInput =>
        assert EditInput(s, text) == if text in TransactionTypes then written else Stay(s, Invalid(EditTypeInput), TypeKeyboard());
      case EditCategoryInput =>
        EditableCategoriesUnion(text);
        assert EditInput(s, text) == if text in EditableCategories then written else Done(Invalid(EditCategoryInput));
      case EditAccount1Input =>
        assert EditInput(s, text) == if text in Accounts then written else Stay(s, Invalid(EditAccount1Input), AccountKeyboard());
      case EditAccount2Input =>
        assert EditInput(s, text) == if text in Accounts then written else Stay(s, Invalid(EditAccount2Input), AccountKeyboard());
      case EditDescriptionInput =>
        assert EditInput(s, text) == written;
    }
  }

  /** Each text-field step names a field of the column table. */
  lemma FieldColumn(step: StepName)
    requires step in TextFieldSteps
    ensures var column := ColumnFor(FieldOf(step));
            && column.Some? && 0 <= ColumnIndex(column.value) < 7
            && FieldNames[ColumnIndex(column.value)] == FieldOf(step)
  {
  }

  /** At the amount step, the edit writes the edited amount to column G of the selected row. */
  lemma AmountEdit(s: Session, text: string, sel: Selection)
    requires s.step == EditAmountInput && s.data.selection == Some(sel)
    ensures EditInput(s, text) == DoneWriting(UpdateCellAt(sel.rowIndex, 'G', Number(EditedAmount(sel.row, ParseAmount(text)))),
                                              Updated("amount", Number(EditedAmount(sel.row, ParseAmount(text)))))
    ensures ColumnIndex('G') == 6 && FieldNames[6] == "amount"
  {
    assert ColumnFor("amount") == Some('G');
  }

  // ---------------------------------------------------------------------------------------
  // Storing entries and loans

  /** The amount step of an entry flow: a non-positive amount is refused and nothing
      changes; a positive one writes exactly one row, dated now, with the collected fields,
      negative for an expense and positive otherwise, and ends the flow. */
  lemma EntrySaved(env: Env, sheet: seq<SheetRow>, s: Session, text: string)
    requires s.step == Amount && text !in MenuLabels
    ensures var o := HandleText(env, sheet, s, text);
            var a := ParseAmount(text);
            && (a <= 0.0 ==> o.session == s && o.requests == [])
            && (a > 0.0 ==>
                  && o.session == Fresh && |o.requests| == 1 && o.requests[0].AppendRows?
                  && |o.requests[0].transactions| == 1
                  && var t := o.requests[0].transactions[0];
                     && t.date == env.now && t.txType == s.data.txType.GetOr("")
                     && t.category == s.data.category.GetOr("") && t.account1 == s.data.account1.GetOr("")
                     && t.account2 == s.data.account2.GetOr("") && t.description == s.data.description.GetOr("")
                     && Abs(t.amount) == a
                     && (t.amount < 0.0 <==> s.data.txType == Some(Expense)))
  {
    ToEntryInput(env, sheet, s, text);
  }

  /** The texts a receivable step reads as its input: all but the global commands, Back and
      the loan and receivable buttons. */
  predicate ReceivableReads(text: string) {
    text !in GlobalCommands && text != BackLabel && text != AddPayableLabel && text != AddReceivableLabel
  }

  /** At a receivable step that reads input, every such text is that step's input. */
  lemma ToReceivableInput(env: Env, sheet: seq<SheetRow>, s: Session, text: string)
    requires s.step.IsReceivableInput() && ReceivableReads(text)
    ensures HandleText(env, sheet, s, text) == ReceivableInput(env, s, text)
  {
    ToLoanFlow(env, sheet, s, text);
    ToReceivableFlow(env, sheet, s, text);
  }

  /** At the receivable type step, New Receivable saves the state and asks for the account
      the amount leaves from. */
  lemma NewReceivableChosen(env: Env, sheet: seq<SheetRow>, s: Session)
    requires s.step == ReceivableType
    ensures HandleText(env, sheet, s, NewReceivableLabel)
         == Advance(s, ReceivableAccountChoice, s.data.(receivableType := Some("new")), AccountKeyboard())
  {
    KindButtonsAreNoMenuButtons();
    ToReceivableLayer(env, sheet, s, NewReceivableLabel);
    NewKindInLayer(env, sheet, s);
  }

  /** Past the global commands, Back and the loan flow, to the receivable flow. */
  lemma ToReceivableLayer(env: Env, sheet: seq<SheetRow>, s: Session, text: string)
    requires text !in GlobalCommands && text != BackLabel && text != AddPayableLabel && !s.step.IsPayable()
    ensures HandleText(env, sheet, s, text) == ReceivableOrLater(env, sheet, s, text)
  {
    ToLoanFlow(env, sheet, s, text);
    ToReceivableFlow(env, sheet, s, text);
  }

  /** At the receivable type step, Payment Received saves the state, takes "Receivable" as the
      first account and asks for the account the amount arrives in. */
  lemma PaymentReceivedChosen(env: Env, sheet: seq<SheetRow>, s: Session)
    requires s.step == ReceivableType
    ensures HandleText(env, sheet, s, PaymentReceivedLabel)
         == Advance(s, ReceivableAccountChoice, s.data.(receivableType := Some("payment"), account1 := Some(ReceivableAccount)),
                    AccountKeyboard())
  {
    KindButtonsAreNoMenuButtons();
    ToReceivableLayer(env, sheet, s, PaymentReceivedLabel);
    PaymentKindInLayer(env, sheet, s);
  }

  /** At the receivable type step, New Receivable is answered by the receivable layer. */
  lemma NewKindInLayer(env: Env, sheet: seq<SheetRow>, s: Session)
    requires s.step == ReceivableType
    ensures ReceivableOrLater(env, sheet, s, NewReceivableLabel)
         == Advance(s, ReceivableAccountChoice, s.data.(receivableType := Some("new")), AccountKeyboard())
  {
    KindButtonsAreNoMenuButtons();
  }

  /** At the receivable type step, Payment Received is answered by the receivable layer. */
  lemma PaymentKindInLayer(env: Env, sheet: seq<SheetRow>, s: Session)
    requires s.step == ReceivableType
    ensures ReceivableOrLater(env, sheet, s, PaymentReceivedLabel)
         == Advance(s, ReceivableAccountChoice, s.data.(receivableType := Some("payment"), account1 := Some(ReceivableAccount)),
                    AccountKeyboard())
  {
    KindButtonsAreNoMenuButtons();
  }

  /** The two receivable kind buttons are none of the buttons the handler tests before them. */
  lemma KindButtonsAreNoMenuButtons()
    ensures NewReceivableLabel !in GlobalCommands && NewReceivableLabel != BackLabel
    ensures NewReceivableLabel != AddPayableLabel && NewReceivableLabel != AddReceivableLabel
    ensures PaymentReceivedLabel !in GlobalCommands && PaymentReceivedLabel != BackLabel
    ensures PaymentReceivedLabel != AddPayableLabel && PaymentReceivedLabel != AddReceivableLabel
  {
  }

  /** The receivable flow for a new receivable: Add Receivable, New Receivable, an account of
      the list, a description and a positive amount write exactly one row, of type Transfer
      with an empty category, dated now, moving the amount as entered from the chosen account
      to "Receivable"; nothing is written before the amount, and the flow ends with it. */
  lemma NewReceivableWrites(env: Env, sheet: seq<SheetRow>, s: Session, account: string, desc: string, amountText: string)
    requires !s.step.IsPayable() && account in Accounts
    requires ReceivableReads(desc) && ReceivableReads(amountText) && ParseAmount(amountText) > 0.0
    ensures var o := Converse(env, sheet, s, [AddReceivableLabel, NewReceivableLabel, account, desc, amountText]);
            && o.requests == [AppendRows([Transaction(env.now, Transfer, "", account, ReceivableAccount, desc, ParseAmount(amountText))])]
            && o.session == Fresh
  {
    var s1 := Save(s).(step := ReceivableType, data := EmptyData.(txType := Some(Transfer), category := Some("")));
    LoanOrReceivableStarts(env, sheet, s, AddReceivableLabel);
    ConverseStep(env, sheet, s, AddReceivableLabel, [NewReceivableLabel, account, desc, amountText], s1);
    var s2 := Save(s1).(step := ReceivableAccountChoice, data := s1.data.(receivableType := Some("new")));
    NewReceivableChosen(env, sheet, s1);
    ConverseStep(env, sheet, s1, NewReceivableLabel, [account, desc, amountText], s2);
    ReceivableTail(env, sheet, s2, account, desc, amountText);
  }

  /** The receivable flow for a payment: Add Receivable, Payment Received, an account of the
      list, a description and a positive amount write exactly one row, of type Transfer with
      an empty category, dated now, moving the amount as entered from "Receivable" to the
      chosen account; nothing is written before the amount, and the flow ends with it. */
  lemma PaymentReceivedWrites(env: Env, sheet: seq<SheetRow>, s: Session, account: string, desc: string, amountText: string)
    requires !s.step.IsPayable() && account in Accounts
    requires ReceivableReads(desc) && ReceivableReads(amountText) && ParseAmount(amountText) > 0.0
    ensures var o := Converse(env, sheet, s, [AddReceivableLabel, PaymentReceivedLabel, account, desc, amountText]);
            && o.requests == [AppendRows([Transaction(env.now, Transfer, "", ReceivableAccount, account, desc, ParseAmount(amountText))])]
            && o.session == Fresh
  {
    var s1 := Save(s).(step := ReceivableType, data := EmptyData.(txType := Some(Transfer), category := Some("")));
    LoanOrReceivableStarts(env, sheet, s, AddReceivableLabel);
    ConverseStep(env, sheet, s, AddReceivableLabel, [PaymentReceivedLabel, account, desc, amountText], s1);
    var s2 := Save(s1).(step := ReceivableAccountChoice,
                        data := s1.data.(receivableType := Some("payment"), account1 := Some(ReceivableAccount)));
    PaymentReceivedChosen(env, sheet, s1);
    ConverseStep(env, sheet, s1, PaymentReceivedLabel, [account, desc, amountText], s2);
    ReceivableTail(env, sheet, s2, account, desc, amountText);
  }

  /** From the account step on: an account of the list, a description and a positive amount
      write the collected row with the chosen account in place and end the flow. */
  lemma ReceivableTail(env: Env, sheet: seq<SheetRow>, s: Session, account: string, desc: string, amountText: string)
    requires s.step == ReceivableAccountChoice && account in Accounts
    requires ReceivableReads(desc) && ReceivableReads(amountText) && ParseAmount(amountText) > 0.0
    ensures var d := if s.data.receivableType == Some("new")
                     then s.data.(account1 := Some(account), account2 := Some(ReceivableAccount))
                     else s.data.(account2 := Some(account));
            var t := EntryOf(env, d.(description := Some(desc)), ParseAmount(amountText));
            Converse(env, sheet, s, [account, desc, amountText]) == DoneWriting(AppendRows([t]), Saved(t))
  {
    var d := if s.data.receivableType == Some("new")
             then s.data.(account1 := Some(account), account2 := Some(ReceivableAccount))
             else s.data.(account2 := Some(account));
    var s3 := Save(s).(step := ReceivableDescription, data := d);
    ReceivableAccountEntered(env, sheet, s, account);
    ConverseStep(env, sheet, s, account, [desc, amountText], s3);
    var s4 := Save(s3).(step := ReceivableAmount, data := d.(description := Some(desc)));
    ReceivableDescriptionEntered(env, sheet, s3, desc);
    ConverseStep(env, sheet, s3, desc, [amountText], s4);
    ReceivableAmountEntered(env, sheet, s4, amountText);
    ConverseLast(env, sheet, s4, amountText);
  }

  /** At the account step of the receivable flow, an account of the list is saved: for a new
      receivable as the first account with "Receivable" as the second, otherwise as the
      second. */
  lemma ReceivableAccountEntered(env: Env, sheet: seq<SheetRow>, s: Session, account: string)
    requires s.step == ReceivableAccountChoice && account in Accounts
    ensures HandleText(env, sheet, s, account)
         == Advance(s, ReceivableDescription,
                    if s.data.receivableType == Some("new")
                    then s.data.(account1 := Some(account), account2 := Some(ReceivableAccount))
                    else s.data.(account2 := Some(account)),
                    BackKeyboard)
  {
    AccountIsNoButton(account);
    ToReceivableInput(env, sheet, s, account);
  }

  /** At the description step of the receivable flow, the text is kept as the description. */
  lemma ReceivableDescriptionEntered(env: Env, sheet: seq<SheetRow>, s: Session, desc: string)
    requires s.step == ReceivableDescription && ReceivableReads(desc)
    ensures HandleText(env, sheet, s, desc)
         == Advance(s, ReceivableAmount, s.data.(description := Some(desc)), BackKeyboard)
  {
    ToReceivableInput(env, sheet, s, desc);
  }

  /** At the amount step of the receivable flow, a positive amount writes the collected row,
      with the amount as entered, and ends the flow. */
  lemma ReceivableAmountEntered(env: Env, sheet: seq<SheetRow>, s: Session, amountText: string)
    requires s.step == ReceivableAmount && ReceivableReads(amountText) && ParseAmount(amountText) > 0.0
    ensures var t := EntryOf(env, s.data, ParseAmount(amountText));
            HandleText(env, sheet, s, amountText) == DoneWriting(AppendRows([t]), Saved(t))
  {
    ToReceivableInput(env, sheet, s, amountText);
  }

  /** No account of the list is a menu button. */
  lemma AccountIsNoButton(account: string)
    requires account in Accounts
    ensures ReceivableReads(account)
  {
  }

  /** The fee step of the loan flow, given a fee that is not negative, appends the whole
      schedule in one write and ends the flow: the two proceeds rows, a principal and an
      interest row per month, and the fee row when there is a fee. The loan is numbered above
      every loan of the same account already on the sheet, and the schedule's expenses add up
      to the monthly payments plus the fee. */
  lemma LoanScheduleWritten(env: Env, sheet: seq<SheetRow>, s: Session, text: string)
    requires s.step == PayableProcessingFee
    requires text !in GlobalCommands && text != BackLabel && text != AddPayableLabel
    requires ParseAmount(text) >= 0.0
    ensures var o := HandleText(env, sheet, s, text);
            var t := CollectedTerms(s.data, ParseAmount(text));
            var n := NextLoanNumber(sheet, t.account);
            var rows := BuildSchedule(env.now, n, t, ScheduleDates(env, t.firstBillingDate));
            && o.session == Fresh && o.requests == [AppendRows(rows)]
            && o.reply == Some(Reply(LoanCreated(n, |rows|), MainMenuKeyboard()))
            && |rows| == 2 + 2 * t.terms + (if t.fee > 0.0 then 1 else 0)
            && rows[0].amount == t.proceeds && rows[1].account2 == ProceedsAccount
            && ExpenseSum(rows) == Times(t.terms, MonthlyCost(t)) + t.fee
            && IncomeSum(rows) == 0.0
            && n >= StartingNumber(t.account)
            && (forall j :: 1 <= j < |sheet| && RowLoanNumber(sheet[j], t.account).Some?
                  ==> RowLoanNumber(sheet[j], t.account).value < n)
  {
    var o := HandleText(env, sheet, s, text);
    var t := CollectedTerms(s.data, ParseAmount(text));
    var n := NextLoanNumber(sheet, t.account);
    var dates := ScheduleDates(env, t.firstBillingDate);
    ToLoanFlow(env, sheet, s, text);
    assert o == PayableInput(env, sheet, s, text);
    assert o == CreateLoan(env, sheet, s.data, ParseAmount(text));
    ScheduleShape(env.now, n, t, dates);
    ScheduleExpense(env.now, n, t, dates);
    NextLoanNumberMeaning(sheet, t.account);
  }

  // ---------------------------------------------------------------------------------------
  // Summaries

  /** A period's summary: none when no row falls in the period; otherwise its totals are the
      period's income and expense sums and it counts every transaction in the period. */
  lemma PeriodSummaryMeaning(env: Env, sheet: seq<SheetRow>, range: (DateTime, DateTime))
    ensures var ts := TransactionsInRange(env.parseDate, sheet, range.0, range.1);
            var r := PeriodSummary(env, sheet, range);
            && (r.None? <==> |ts| == 0)
            && (r.Some? ==> && r.value.totalIncome == IncomeSum(ts) && r.value.totalExpense == ExpenseSum(ts)
                            && r.value.netIncome == IncomeSum(ts) - ExpenseSum(ts)
                            && r.value.transactionCount == |ts|)
  {
    SummaryMeaning(TransactionsInRange(env.parseDate, sheet, range.0, range.1));
  }

  /** At the year or month step, a year or month button is that step's input. */
  lemma ToCalendarChoice(env: Env, sheet: seq<SheetRow>, s: Session, rest: string)
    requires s.step == SummarySelectYear || s.step == SummarySelectMonth
    ensures s.step == SummarySelectYear
            ==> HandleText(env, sheet, s, CalendarPrefix + rest) == YearChoice(env, sheet, s, CalendarPrefix + rest)
    ensures s.step == SummarySelectMonth
            ==> HandleText(env, sheet, s, CalendarPrefix + rest) == MonthChoice(env, sheet, s, CalendarPrefix + rest)
  {
    var text := CalendarPrefix + rest;
    CalendarButtonIsNoLabel(rest);
    ToSummaryFlow(env, sheet, s, text);
  }

  /** A year button, in the year step: for a monthly summary the year is kept and the months
      are offered; for a yearly one the report for January 1 to December 31 of that year ends
      the flow. */
  lemma YearButtonChosen(env: Env, sheet: seq<SheetRow>, s: Session, y: int)
    requires s.step == SummarySelectYear && y > 0
    ensures var o := HandleText(env, sheet, s, CalendarPrefix + IntToString(y));
            && o.requests == []
            && (s.data.summaryType == Some("monthly") ==>
                  && o.session.step == SummarySelectMonth && o.session.data.selectedYear == Some(y)
                  && o.session.history == s.history + [Snapshot(s.step, s.data)])
            && (s.data.summaryType != Some("monthly") ==>
                  o == Done(Report("Year " + IntToString(y), PeriodSummary(env, sheet, YearDateRange(y)))))
  {
    ToCalendarChoice(env, sheet, s, IntToString(y));
    YearButtonRoundTrip(y);
  }

  /** A month button, in the month step with a year chosen, reports that month of that year,
      titled with the month's name and the year, and ends the flow. */
  lemma MonthButtonChosen(env: Env, sheet: seq<SheetRow>, s: Session, m: nat, y: int)
    requires s.step == SummarySelectMonth && s.data.selectedYear == Some(y) && m < 12
    ensures HandleText(env, sheet, s, CalendarPrefix + MonthNames[m])
         == Done(Report(MonthNames[m] + " " + IntToString(y), PeriodSummary(env, sheet, MonthDateRange(y, m))))
  {
    ToCalendarChoice(env, sheet, s, MonthNames[m]);
    MonthButtonRoundTrip(m);
    ReplaceFirstOfPrefixed(CalendarPrefix, MonthNames[m]);
  }

  /** The whole monthly summary: choosing a year and then month `m` reports exactly the rows
      dated in that month of that year. */
  lemma MonthlySummaryFlow(env: Env, sheet: seq<SheetRow>, s: Session, y: int, m: nat)
    requires s.step == SummarySelectYear && s.data.summaryType == Some("monthly") && y > 0 && m < 12
    ensures var afterYear := HandleText(env, sheet, s, CalendarPrefix + IntToString(y));
            var report := Report(MonthNames[m] + " " + IntToString(y), PeriodSummary(env, sheet, MonthDateRange(y, m)));
            HandleText(env, sheet, afterYear.session, CalendarPrefix + MonthNames[m]) == Done(report)
  {
    YearButtonChosen(env, sheet, s, y);
    var afterYear := HandleText(env, sheet, s, CalendarPrefix + IntToString(y));
    MonthButtonChosen(env, sheet, afterYear.session, m, y);
  }

  // ---------------------------------------------------------------------------------------
  // The main menu and the fallback

  /** At the start, every button of the main menu is answered by its own flow, never by the
      fallback. */
  lemma MainMenuAnswered(env: Env, sheet: seq<SheetRow>, s: Session, button: string)
    requires s.step == Idle && button in Flatten(MainMenuKeyboard())
    ensures var o := HandleText(env, sheet, s, button);
            o.reply.Some? && o.reply.value.message != UseMenuButtons
  {
    MainMenuButtons(button);
    if button == CancelLabel {
    } else if button == DeleteLabel || button == EditLabel {
      MenuListing(env, sheet, s, button);
    } else if button == ViewRecentLabel {
      ToSummaryFlow(env, sheet, s, ViewRecentLabel);
    } else if button == AddPayableLabel || button == AddReceivableLabel {
      LoanOrReceivableStarts(env, sheet, s, button);
    } else {
      EntryOrSummaryStarts(env, sheet, s, button);
    }
  }

  /** The buttons of the main menu, in reading order. */
  lemma MainMenuButtons(button: string)
    requires button in Flatten(MainMenuKeyboard())
    ensures || button == AddExpenseLabel || button == AddIncomeLabel || button == AddTransferLabel
            || button == AddReimbursementLabel || button == AddReceivableLabel || button == AddPayableLabel
            || button == ViewRecentLabel || button == FinancialSummaryLabel || button == DeleteLabel
            || button == EditLabel || button == CancelLabel
  {
    assert Flatten(MainMenuKeyboard())
        == [AddExpenseLabel, AddIncomeLabel, AddTransferLabel, AddReimbursementLabel, AddReceivableLabel,
            AddPayableLabel, ViewRecentLabel, FinancialSummaryLabel, DeleteLabel, EditLabel, CancelLabel];
  }

  /** The delete and edit buttons are answered at the start, with a listing or with the
      notice that there is nothing to list. */
  lemma MenuListing(env: Env, sheet: seq<SheetRow>, s: Session, button: string)
    requires s.step == Idle && (button == DeleteLabel || button == EditLabel)
    ensures var o := HandleText(env, sheet, s, button);
            o.reply.Some? && o.reply.value.message != UseMenuButtons
  {
    if button == DeleteLabel {
      ToListingFlow(env, sheet, s, DeleteLabel);
      assert HandleText(env, sheet, s, button) == ListRows(sheet, s, DeleteSelect);
    } else {
      ToListingFlow(env, sheet, s, EditLabel);
      assert HandleText(env, sheet, s, button) == ListRows(sheet, s, EditSelect);
    }
  }

  /** At the start, a text that is no menu button changes nothing and is answered with the
      main menu. */
  lemma FallbackKeepsSession(env: Env, sheet: seq<SheetRow>, s: Session, text: string)
    requires s.step == Idle && text !in MenuLabels
    ensures HandleText(env, sheet, s, text) == Outcome(s, [], Some(Reply(UseMenuButtons, MainMenuKeyboard())))
  {
    ToEntryFlows(env, sheet, s, text);
  }
}
