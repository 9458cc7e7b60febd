/** The conversation state the webhook keeps per user: the step the user is at, what the
    current flow has collected so far, and a history of earlier (step, data) pairs that Back
    pops. Sessions live in memory only. */
module Sessions {

  import opened Wrappers
  import opened Ledger

  /** The value of `session.step`, one constructor per step string of the handler. */
  datatype StepName =
    | Idle
      // adding an expense, income, transfer or reimbursement
    | Category | Account1 | Account2 | Description | Amount
      // the loan ("payable") flow
    | PayableDescription | PayableProceedsAmount | PayableAccount | PayableBillingDate
    | PayableTerms | PayablePrincipal | PayableInterest | PayableProcessingFee
      // the receivable flow
    | ReceivableType | ReceivableAccountChoice | ReceivableDescription | ReceivableAmount
      // deleting and editing a stored row
    | DeleteSelect | EditSelect | EditFieldSelect
    | EditDateInput | EditTypeInput | EditCategoryInput | EditAccount1Input | EditAccount2Input
    | EditDescriptionInput | EditAmountInput
      // the summary flow
    | SummarySelectType | SummarySelectYear | SummarySelectMonth
  {
    /** The steps of the loan flow, which read every text that is not a global command. */
    predicate IsPayable() {
      this in {PayableDescription, PayableProceedsAmount, PayableAccount, PayableBillingDate,
               PayableTerms, PayablePrincipal, PayableInterest, PayableProcessingFee}
    }

    /** The receivable steps that read free input. */
    predicate IsReceivableInput() {
      this in {ReceivableAccountChoice, ReceivableDescription, ReceivableAmount}
    }

    /** The steps of deleting or editing a stored row. */
    predicate IsEdit() {
      this in {DeleteSelect, EditSelect, EditFieldSelect, EditDateInput, EditTypeInput,
               EditCategoryInput, EditAccount1Input, EditAccount2Input, EditDescriptionInput,
               EditAmountInput}
    }

    /** The steps of adding a plain entry. */
    predicate IsEntry() {
      this in {Category, Account1, Account2, Description, Amount}
    }
  }

  /** The ten rows offered for deletion or editing, with the sheet's row count at that time.
      The handler always sets the two together. */
  datatype Listing = Listing(rows: seq<SheetRow>, allCount: int)

  /** The row picked for editing: its 1-based sheet row and its cells as listed. The handler
      always sets the two together. */
  datatype Selection = Selection(rowIndex: int, row: SheetRow)

  /** `session.data`: every key the handler ever writes, `None` while it is unset. */
  datatype Data = Data(
    txType: Option<string>,
    category: Option<string>,
    account1: Option<string>,
    account2: Option<string>,
    description: Option<string>,
    loanDescription: Option<string>,
    proceedsAmount: Option<real>,
    paymentAccount: Option<string>,
    firstBillingDate: Option<string>,
    loanTerms: Option<int>,
    monthlyPrincipal: Option<real>,
    monthlyInterest: Option<real>,
    receivableType: Option<string>,
    listing: Option<Listing>,
    selection: Option<Selection>,
    summaryType: Option<string>,
    selectedYear: Option<int>)

  /** `{}`. */
  const EmptyData := Data(None, None, None, None, None, None, None, None, None, None, None, None,
                          None, None, None, None, None)

  /** One entry of the history: a step and a copy of the data at that step. */
  datatype Snapshot = Snapshot(step: StepName, data: Data)

  datatype Session = Session(step: StepName, data: Data, history: seq<Snapshot>)

  /** `{ step: 'idle', data: {}, history: [] }`: what `getSession` creates and `resetSession`
      puts back. */
  const Fresh := Session(Idle, EmptyData, [])

  /** `saveCurrentState`: push the current step and data. */
  function Save(s: Session): (r: Session)
    ensures r.step == s.step && r.data == s.data
    ensures |r.history| == |s.history| + 1 && r.history[..|s.history|] == s.history
    ensures r.history[|s.history|] == Snapshot(s.step, s.data)
  {
    s.(history := s.history + [Snapshot(s.step, s.data)])
  }

  /** `goBackToPreviousStep`: pop the last snapshot and make it current, or `None` (false) when
      the history is empty. */
  function GoBack(s: Session): (r: Option<Session>)
    ensures r.None? <==> |s.history| == 0
    ensures r.Some? ==> r.value.history == s.history[..|s.history| - 1]
  {
    if |s.history| == 0 then None
    else
      var last := s.history[|s.history| - 1];
      Some(Session(last.step, last.data, s.history[..|s.history| - 1]))
  }

  /** Moving on after a save and then going back restores the session exactly as it was,
      whatever the move changed. */
  lemma BackUndoesSave(s: Session, step: StepName, data: Data)
    ensures GoBack(Save(s).(step := step, data := data)) == Some(s)
  {
    var moved := Save(s).(step := step, data := data);
    assert moved.history[..|moved.history| - 1] == s.history;
  }

  /** Going back never grows the history, and `n` saves can be undone by exactly `n` backs. */
  lemma {:induction false} BackAfterSaves(s: Session, steps: seq<StepName>)
    ensures var moved := SaveAll(s, steps);
            |moved.history| == |s.history| + |steps| && BackN(moved, |steps|) == Some(s)
    decreases |steps|
  {
    if |steps| > 0 {
      var last := steps[|steps| - 1];
      var before := SaveAll(s, steps[..|steps| - 1]);
      BackAfterSaves(s, steps[..|steps| - 1]);
      BackUndoesSave(before, last, before.data);
    }
  }

  /** Saving and moving through `steps` in turn, keeping the data. */
  function SaveAll(s: Session, steps: seq<StepName>): Session
    decreases |steps|
  {
    if |steps| == 0 then s
    else
      var before := SaveAll(s, steps[..|steps| - 1]);
      Save(before).(step := steps[|steps| - 1])
  }

  /** Going back `n` times, `None` once the history runs out. */
  function BackN(s: Session, n: nat): Option<Session>
    decreases n
  {
    if n == 0 then Some(s)
    else
      match GoBack(s)
      case None => None
      case Some(prev) => BackN(prev, n - 1)
  }
}
