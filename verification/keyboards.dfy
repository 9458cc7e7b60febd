/** The reply keyboards whose labels the dispatcher later reads back: category and account
    pickers laid out two per row, and the month and year pickers of the summary flow. A keyboard
    is its rows of button labels. */
module Keyboards {

  import opened Wrappers
  import opened Strings
  import opened Catalog
  import opened Parsing

  type Keyboard = seq<seq<string>>

  // Button labels the dispatcher compares the incoming text with.
  const BackLabel := "🔙 Back"
  const BackToMenuLabel := "🔙 Back to Menu"
  const CancelLabel := "❌ Cancel"
  const AddExpenseLabel := "💸 Add Expense"
  const AddIncomeLabel := "💰 Add Income"
  const AddTransferLabel := "🔄 Add Transfer"
  const AddReimbursementLabel := "💳 Add Reimbursement"
  const AddReceivableLabel := "🤝 Add Receivable"
  const AddPayableLabel := "💵 Add Payable"
  const ViewRecentLabel := "📊 View Recent"
  const FinancialSummaryLabel := "📈 Financial Summary"
  const DeleteLabel := "\U{1F5D1}\U{FE0F} Delete Transaction"
  const EditLabel := "📝 Edit Transaction"
  const NewReceivableLabel := "➕ New Receivable"
  const PaymentReceivedLabel := "💰 Payment Received"
  const MonthlySummaryLabel := "📅 Monthly Summary"
  const YearlySummaryLabel := "📆 Yearly Summary"
  const EditDateLabel := "📅 Edit Date"
  const EditTypeLabel := "📊 Edit Type"
  const EditCategoryLabel := "📁 Edit Category"
  const EditAccount1Label := "💳 Edit Account 1"
  const EditAccount2Label := "💳 Edit Account 2"
  const EditDescriptionLabel := "📝 Edit Description"
  const EditAmountLabel := "💰 Edit Amount"

  /** The rows built by the `for (i = 0; i < n; i += 2)` loop: item `i` opens a row and item
      `i + 1` joins it when it is truthy (present and non-empty). */
  function PairRows(items: seq<string>): (rows: Keyboard)
    ensures |rows| == (|items| + 1) / 2
    ensures forall r :: 0 <= r < |rows| ==> 1 <= |rows[r]| <= 2 && rows[r][0] == items[2 * r]
  {
    if |items| == 0 then []
    else if |items| == 1 then [[items[0]]]
    else (if items[1] != "" then [[items[0], items[1]]] else [[items[0]]]) + PairRows(items[2..])
  }

  function Flatten(rows: Keyboard): seq<string> {
    if |rows| == 0 then [] else rows[0] + Flatten(rows[1..])
  }

  lemma {:induction false} FlattenAppend(a: Keyboard, b: Keyboard)
    ensures Flatten(a + b) == Flatten(a) + Flatten(b)
  {
    if |a| > 0 {
      assert (a + b)[1..] == a[1..] + b;
      FlattenAppend(a[1..], b);
    } else {
      assert a + b == b;
    }
  }

  /** With no empty button, reading the rows left to right gives back the items in order. */
  lemma {:induction false} PairRowsKeepsItems(items: seq<string>)
    requires forall i :: 0 <= i < |items| ==> items[i] != ""
    ensures Flatten(PairRows(items)) == items
  {
    if |items| >= 2 {
      PairRowsKeepsItems(items[2..]);
      assert [items[0], items[1]] + items[2..] == items;
    }
  }

  /** A picker: the items two per row, then a row holding only Back. */
  function PickerKeyboard(items: seq<string>): Keyboard {
    PairRows(items) + [[BackLabel]]
  }

  /** `createCategoryKeyboard(typeKey)`. */
  function CategoryKeyboard(typeKey: string): Keyboard {
    PickerKeyboard(CategoriesFor(typeKey))
  }

  /** `createAccountKeyboard()`. */
  function AccountKeyboard(): Keyboard {
    PickerKeyboard(Accounts)
  }

  /** A picker offers its items in order and then Back, never more than two buttons a row. */
  lemma PickerLayout(items: seq<string>)
    requires forall i :: 0 <= i < |items| ==> items[i] != ""
    ensures Flatten(PickerKeyboard(items)) == items + [BackLabel]
    ensures forall r :: 0 <= r < |PickerKeyboard(items)| ==> 1 <= |PickerKeyboard(items)[r]| <= 2
  {
    PairRowsKeepsItems(items);
    FlattenAppend(PairRows(items), [[BackLabel]]);
    assert Flatten([[BackLabel]]) == [BackLabel] by {
      assert [[BackLabel]][1..] == [];
    }
  }

  /** The category and account pickers offer exactly their table followed by Back; an unknown
      key gives a keyboard with only the Back row. */
  lemma CategoryAndAccountKeyboards(typeKey: string)
    ensures Flatten(CategoryKeyboard(typeKey)) == CategoriesFor(typeKey) + [BackLabel]
    ensures Flatten(AccountKeyboard()) == Accounts + [BackLabel]
    ensures typeKey !in {"INCOME", "EXPENSE", "REIMBURSEMENT"} ==> CategoryKeyboard(typeKey) == [[BackLabel]]
  {
    TablesHaveNoEmptyLabels();
    PickerLayout(CategoriesFor(typeKey));
    PickerLayout(Accounts);
  }

  /** `createMonthSelectionKeyboard()`: four rows of three months, then Back. */
  function MonthKeyboard(): Keyboard {
    [[CalendarPrefix + MonthNames[0], CalendarPrefix + MonthNames[1], CalendarPrefix + MonthNames[2]],
     [CalendarPrefix + MonthNames[3], CalendarPrefix + MonthNames[4], CalendarPrefix + MonthNames[5]],
     [CalendarPrefix + MonthNames[6], CalendarPrefix + MonthNames[7], CalendarPrefix + MonthNames[8]],
     [CalendarPrefix + MonthNames[9], CalendarPrefix + MonthNames[10], CalendarPrefix + MonthNames[11]],
     [BackLabel]]
  }

  /** `createYearSelectionKeyboard()` with the current year passed in: this year and the two
      before it, one per row, then Back. */
  function YearKeyboard(currentYear: int): Keyboard {
    [[CalendarPrefix + IntToString(currentYear)],
     [CalendarPrefix + IntToString(currentYear - 1)],
     [CalendarPrefix + IntToString(currentYear - 2)],
     [BackLabel]]
  }

  /** The button in row `r`, column `c` of the month keyboard names month `3 r + c`. */
  lemma MonthKeyboardCell(r: nat, c: nat)
    requires r < 4 && c < 3
    ensures MonthKeyboard()[r][c] == CalendarPrefix + MonthNames[3 * r + c]
  {
    var kb := MonthKeyboard();
    if r == 0 {
      assert kb[0] == [CalendarPrefix + MonthNames[0], CalendarPrefix + MonthNames[1], CalendarPrefix + MonthNames[2]];
    } else if r == 1 {
      assert kb[1] == [CalendarPrefix + MonthNames[3], CalendarPrefix + MonthNames[4], CalendarPrefix + MonthNames[5]];
    } else if r == 2 {
      assert kb[2] == [CalendarPrefix + MonthNames[6], CalendarPrefix + MonthNames[7], CalendarPrefix + MonthNames[8]];
    } else {
      assert kb[3] == [CalendarPrefix + MonthNames[9], CalendarPrefix + MonthNames[10], CalendarPrefix + MonthNames[11]];
    }
  }

  /** Every month button parses back to its position in reading order (0 = January). */
  lemma MonthKeyboardRoundTrip(r: nat, c: nat)
    requires r < 4 && c < 3
    ensures ParseMonthFromText(MonthKeyboard()[r][c]) == 3 * r + c
  {
    MonthKeyboardCell(r, c);
    MonthButtonRoundTrip(3 * r + c);
  }

  /** Row `k` of the year keyboard holds the year `k` years before the current one. */
  lemma YearKeyboardCell(currentYear: int, k: nat)
    requires k < 3
    ensures YearKeyboard(currentYear)[k] == [CalendarPrefix + IntToString(currentYear - k)]
  {
  }

  /** Every year button parses back to its year. */
  lemma YearKeyboardRoundTrip(currentYear: int, k: nat)
    requires k < 3
    ensures ParseYearFromText(YearKeyboard(currentYear)[k][0]) == Some(currentYear - k)
  {
    YearKeyboardCell(currentYear, k);
    YearRowParses(YearKeyboard(currentYear)[k], currentYear - k);
  }

  /** The button of a one-button year row parses back to its year. */
  lemma YearRowParses(row: seq<string>, y: int)
    requires row == [CalendarPrefix + IntToString(y)]
    ensures ParseYearFromText(row[0]) == Some(y)
  {
    assert row[0] == CalendarPrefix + IntToString(y);
    YearButtonRoundTrip(y);
  }

  // ---------------------------------------------------------------------------------------
  // Fixed keyboards

  /** `createMainMenuKeyboard()`: the eight flows, View Recent and the summary, the two ledger
      edits, and Cancel. */
  function MainMenuKeyboard(): Keyboard {
    [[AddExpenseLabel, AddIncomeLabel],
     [AddTransferLabel, AddReimbursementLabel],
     [AddReceivableLabel, AddPayableLabel],
     [ViewRecentLabel, FinancialSummaryLabel],
     [DeleteLabel, EditLabel],
     [CancelLabel]]
  }

  /** `createReceivableTypeKeyboard()`. */
  function ReceivableTypeKeyboard(): Keyboard {
    [[NewReceivableLabel], [PaymentReceivedLabel], [BackLabel]]
  }

  /** `createSummaryTypeKeyboard()`. */
  function SummaryTypeKeyboard(): Keyboard {
    [[MonthlySummaryLabel], [YearlySummaryLabel], [BackToMenuLabel]]
  }

  /** `createEditFieldKeyboard()`: one button per editable field, then Back to Menu. */
  function EditFieldKeyboard(): Keyboard {
    [[EditDateLabel, EditTypeLabel],
     [EditCategoryLabel, EditAccount1Label],
     [EditAccount2Label, EditDescriptionLabel],
     [EditAmountLabel],
     [BackToMenuLabel]]
  }

  /** `createTypeKeyboard()`: the five transaction types, then Back. */
  function TypeKeyboard(): Keyboard {
    [[Expense, Income], [Transfer, Reimbursement], [Loan], [BackLabel]]
  }

  /** The type picker offers exactly the types an edit accepts, in order, and Back. */
  lemma TypeKeyboardOffersTransactionTypes()
    ensures Flatten(TypeKeyboard()) == TransactionTypes + [BackLabel]
  {
    var kb := TypeKeyboard();
    assert Flatten(kb[3..]) == [BackLabel] by {
      assert kb[3..][1..] == [];
    }
    assert kb[2..][1..] == kb[3..];
    assert kb[1..][1..] == kb[2..];
  }

  /** The labels of the main menu are pairwise different, so each names one action. */
  lemma MainMenuLabelsDistinct()
    ensures var labels := Flatten(MainMenuKeyboard());
            |labels| == 11 && forall i, j :: 0 <= i < j < |labels| ==> labels[i] != labels[j]
  {
    var kb := MainMenuKeyboard();
    assert Flatten(kb[5..]) == [CancelLabel] by {
      assert kb[5..][1..] == [];
    }
    assert kb[4..][1..] == kb[5..];
    assert kb[3..][1..] == kb[4..];
    assert kb[2..][1..] == kb[3..];
    assert kb[1..][1..] == kb[2..];
    assert Flatten(kb) == [AddExpenseLabel, AddIncomeLabel, AddTransferLabel, AddReimbursementLabel,
                           AddReceivableLabel, AddPayableLabel, ViewRecentLabel, FinancialSummaryLabel,
                           DeleteLabel, EditLabel, CancelLabel];
  }
}
