/** The constant tables the bot validates its buttons against: transaction types,
    categories per type and the account list, including the two sentinel accounts. */
module Catalog {

  const Expense := "Expense"
  const Income := "Income"
  const Transfer := "Transfer"
  const Reimbursement := "Reimbursement"
  const Loan := "Loan"

  /** The values offered when a stored row's type is edited. */
  const TransactionTypes: seq<string> := [Expense, Income, Transfer, Reimbursement, Loan]

  const IncomeCategories: seq<string> :=
    ["Salary", "Interest income", "Investment income", "Affiliate income"]

  const ExpenseCategories: seq<string> :=
    ["Food", "Fastfood", "Hygiene", "Bills", "Gym", "Motorcycle", "MExp", "Cats", "Investment",
     "Interest expense", "Reimbursibles", "Other expenses"]

  const ReimbursementCategories: seq<string> := [Reimbursibles]

  /** The expense category that a summary leaves out of the expense total. */
  const Reimbursibles := "Reimbursibles"

  /** The category every loan interest and processing-fee row carries. */
  const InterestExpense := "Interest expense"

  const ReceivableAccount := "Receivable"
  const LoanClearingAccount := "Loan - clearing"

  /** The account that receives loan proceeds, whatever account pays the loan. */
  const ProceedsAccount := "Maribank"

  const Accounts: seq<string> :=
    ["Cash", "Maribank", "BDO", "BPI", "Gcash", "Maya", "Savings - eC-Savings", "EF – UnoDigital",
     "BPI - Platinum MC", "Eastwest - Gold MC", "Unionbank - Platinum Visa", "Settle Up",
     ReceivableAccount, LoanClearingAccount]

  /** `CATEGORIES[typeKey] || []`: the category list behind a key; transfers and loans have none
      and an unknown key has none. */
  function CategoriesFor(typeKey: string): (cats: seq<string>)
    ensures typeKey !in {"INCOME", "EXPENSE", "REIMBURSEMENT"} ==> cats == []
  {
    if typeKey == "INCOME" then IncomeCategories
    else if typeKey == "EXPENSE" then ExpenseCategories
    else if typeKey == "REIMBURSEMENT" then ReimbursementCategories
    else []
  }

  /** The category list offered when adding an entry of type `txType`:
      the expense list for expenses and the income list for everything else. */
  function EntryCategoryKey(txType: string): (key: string)
    ensures key == "EXPENSE" <==> txType == Expense
    ensures key == "EXPENSE" || key == "INCOME"
  {
    if txType == Expense then "EXPENSE" else "INCOME"
  }

  /** The categories an edit accepts: income, expense and reimbursement lists concatenated. */
  const EditableCategories: seq<string> := IncomeCategories + ExpenseCategories + ReimbursementCategories

  lemma IncomeAndExpenseDisjoint()
    ensures forall i, j :: 0 <= i < |IncomeCategories| && 0 <= j < |ExpenseCategories|
                           ==> IncomeCategories[i] != ExpenseCategories[j]
  {
  }

  lemma ReimbursementWithinExpense()
    ensures forall c :: c in ReimbursementCategories ==> c in ExpenseCategories
  {
  }

  lemma SentinelsAreAccounts()
    ensures ReceivableAccount in Accounts && LoanClearingAccount in Accounts && ProceedsAccount in Accounts
  {
  }

  /** Every button label in the tables is non-empty, so the two-per-row keyboards keep them all. */
  lemma TablesHaveNoEmptyLabels()
    ensures forall i :: 0 <= i < |Accounts| ==> Accounts[i] != ""
    ensures forall i :: 0 <= i < |IncomeCategories| ==> IncomeCategories[i] != ""
    ensures forall i :: 0 <= i < |ExpenseCategories| ==> ExpenseCategories[i] != ""
  {
  }

  /** The edit flow accepts exactly the union of the three category lists. */
  lemma EditableCategoriesUnion(c: string)
    ensures c in EditableCategories <==> c in IncomeCategories || c in ExpenseCategories
  {
    ReimbursementWithinExpense();
  }
}
