/** The rows a new loan writes in one batch: the proceeds booked into the clearing account, the
    transfer of the proceeds to the receiving account, two expense rows per monthly installment
    (principal and interest), and a processing-fee row when there is a fee. */
module LoanSchedule {

  import opened Wrappers
  import opened Strings
  import opened Calendar
  import opened Catalog
  import opened Ledger
  import opened DateFilter
  import opened Summary

  /** What the payable flow has collected when the fee is entered. */
  datatype LoanTerms = LoanTerms(
    description: string,
    proceeds: real,
    account: string,
    firstBillingDate: string,
    terms: nat,
    principal: real,
    interest: real,
    fee: real)

  /** `toLocaleDateString` of an invalid date. */
  const InvalidDate := "Invalid Date"

  /** The date string of installment `i`: the billing date as the engine parses it, `i` months
      on, formatted as the en-US locale writes MM/DD/YYYY. Parsing and formatting are
      parameters. */
  function InstallmentDate(parse: DateParser, format: DateTime -> string, billingDate: string, i: nat): string {
    match parse(billingDate)
    case Some(d) => if IsValid(d) then format(AddMonths(d, i)) else InvalidDate
    case None => InvalidDate
  }

  /** "<account> Loan #<n> - <what>". */
  function LoanLabel(account: string, loanNumber: int, what: string): string {
    account + " Loan #" + IntToString(loanNumber) + " - " + what
  }

  function PrincipalRow(t: LoanTerms, loanNumber: int, date: string, i: nat): Transaction {
    Transaction(date, Expense, "", t.account, "", LoanLabel(t.account, loanNumber, "Principal #" + IntToString(i + 1)),
                -t.principal)
  }

  function InterestRow(t: LoanTerms, loanNumber: int, date: string, i: nat): Transaction {
    Transaction(date, Expense, InterestExpense, t.account, "", LoanLabel(t.account, loanNumber, "Interest #" + IntToString(i + 1)),
                -t.interest)
  }

  /** The installment rows from month `i` to the last, principal before interest. */
  function Installments(t: LoanTerms, loanNumber: int, dateOf: nat -> string, i: nat): (rows: seq<Transaction>)
    requires i <= t.terms
    ensures |rows| == 2 * (t.terms - i)
    decreases t.terms - i
  {
    if i == t.terms then []
    else
      var rest := Installments(t, loanNumber, dateOf, i + 1);
      [PrincipalRow(t, loanNumber, dateOf(i), i), InterestRow(t, loanNumber, dateOf(i), i)] + rest
  }

  /** Month `j` of the installments from month `i` on sits at position `2 (j - i)`, principal
      first and interest next. */
  lemma {:induction false} InstallmentAt(t: LoanTerms, loanNumber: int, dateOf: nat -> string, i: nat, j: nat)
    requires i <= j < t.terms
    ensures var rows := Installments(t, loanNumber, dateOf, i);
            && rows[2 * (j - i)] == PrincipalRow(t, loanNumber, dateOf(j), j)
            && rows[2 * (j - i) + 1] == InterestRow(t, loanNumber, dateOf(j), j)
    decreases j - i
  {
    var rows := Installments(t, loanNumber, dateOf, i);
    var rest := Installments(t, loanNumber, dateOf, i + 1);
    var head := [PrincipalRow(t, loanNumber, dateOf(i), i), InterestRow(t, loanNumber, dateOf(i), i)];
    assert rows == head + rest;
    if i < j {
      InstallmentAt(t, loanNumber, dateOf, i + 1, j);
      var k := 2 * (j - (i + 1));
      assert 2 * (j - i) == k + 2;
      assert rows[k + 2] == rest[k];
      assert rows[k + 3] == rest[k + 1];
    }
  }

  /** The two rows written `now` for the proceeds: booked into the clearing account, then moved
      on to the receiving account. */
  function ProceedsRows(now: string, t: LoanTerms): seq<Transaction> {
    [Transaction(now, Loan, "", "", LoanClearingAccount, t.description, t.proceeds),
     Transaction(now, Transfer, "", LoanClearingAccount, ProceedsAccount, "Loan proceeds transfer only", t.proceeds)]
  }

  /** The processing-fee row, dated on the first billing date, when there is a fee. */
  function FeeRows(t: LoanTerms, loanNumber: int): seq<Transaction> {
    if t.fee > 0.0
    then [Transaction(t.firstBillingDate, Expense, InterestExpense, t.account, "",
                      LoanLabel(t.account, loanNumber, "Processing fee"), -t.fee)]
    else []
  }

  /** The loan's rows, as the payable flow appends them: written `now`, numbered `loanNumber`,
      with installment `i` dated `dateOf(i)`. */
  function BuildSchedule(now: string, loanNumber: int, t: LoanTerms, dateOf: nat -> string): seq<Transaction> {
    ProceedsRows(now, t) + Installments(t, loanNumber, dateOf, 0) + FeeRows(t, loanNumber)
  }

  /** The schedule has `2 + 2 terms` rows plus one for a fee; the first books the proceeds
      into the clearing account, the second moves them to the receiving account, then come
      principal and interest for each month on the same date, and the fee row, dated on the
      first billing date, comes last. */
  lemma ScheduleShape(now: string, loanNumber: int, t: LoanTerms, dateOf: nat -> string)
    ensures var rows := BuildSchedule(now, loanNumber, t, dateOf);
            && |rows| == 2 + 2 * t.terms + (if t.fee > 0.0 then 1 else 0)
            && rows[0] == Transaction(now, Loan, "", "", LoanClearingAccount, t.description, t.proceeds)
            && rows[1] == Transaction(now, Transfer, "", LoanClearingAccount, ProceedsAccount, "Loan proceeds transfer only", t.proceeds)
            && (forall i :: 0 <= i < t.terms ==>
                  && rows[2 + 2 * i].txType == Expense && rows[2 + 2 * i].category == ""
                  && rows[2 + 2 * i].account1 == t.account && rows[2 + 2 * i].amount == -t.principal
                  && rows[3 + 2 * i].txType == Expense && rows[3 + 2 * i].category == InterestExpense
                  && rows[3 + 2 * i].account1 == t.account && rows[3 + 2 * i].amount == -t.interest
                  && rows[2 + 2 * i].date == rows[3 + 2 * i].date == dateOf(i))
            && (t.fee > 0.0 ==> rows[|rows| - 1] == Transaction(t.firstBillingDate, Expense, InterestExpense, t.account, "",
                                                                 LoanLabel(t.account, loanNumber, "Processing fee"), -t.fee))
  {
    var rows := BuildSchedule(now, loanNumber, t, dateOf);
    var body := Installments(t, loanNumber, dateOf, 0);
    assert rows == ProceedsRows(now, t) + body + FeeRows(t, loanNumber);
    forall i | 0 <= i < t.terms
      ensures && rows[2 + 2 * i].txType == Expense && rows[2 + 2 * i].category == ""
              && rows[2 + 2 * i].account1 == t.account && rows[2 + 2 * i].amount == -t.principal
              && rows[3 + 2 * i].txType == Expense && rows[3 + 2 * i].category == InterestExpense
              && rows[3 + 2 * i].account1 == t.account && rows[3 + 2 * i].amount == -t.interest
              && rows[2 + 2 * i].date == rows[3 + 2 * i].date == dateOf(i)
    {
      ScheduleMonth(now, loanNumber, t, dateOf, i);
    }
  }

  /** Month `i` of the schedule: its principal row at position `2 + 2 i`, its interest row
      right after. */
  lemma ScheduleMonth(now: string, loanNumber: int, t: LoanTerms, dateOf: nat -> string, i: nat)
    requires i < t.terms
    ensures var rows := BuildSchedule(now, loanNumber, t, dateOf);
            && 3 + 2 * i < |rows|
            && rows[2 + 2 * i] == PrincipalRow(t, loanNumber, dateOf(i), i)
            && rows[3 + 2 * i] == InterestRow(t, loanNumber, dateOf(i), i)
  {
    var head := ProceedsRows(now, t);
    var body := Installments(t, loanNumber, dateOf, 0);
    var rows := head + body + FeeRows(t, loanNumber);
    assert BuildSchedule(now, loanNumber, t, dateOf) == rows;
    InstallmentAt(t, loanNumber, dateOf, 0, i);
    assert rows[2 + 2 * i] == body[2 * i];
    assert rows[3 + 2 * i] == body[2 * i + 1];
  }

  /** What the schedule adds to the expense total of a summary: every installment's principal
      and interest and the fee, as absolute amounts; the proceeds and transfer rows add no
      expense. */
  lemma ScheduleExpense(now: string, loanNumber: int, t: LoanTerms, dateOf: nat -> string)
    ensures ExpenseSum(BuildSchedule(now, loanNumber, t, dateOf))
         == Times(t.terms, MonthlyCost(t)) + (if t.fee > 0.0 then t.fee else 0.0)
    ensures IncomeSum(BuildSchedule(now, loanNumber, t, dateOf)) == 0.0
  {
    var head := ProceedsRows(now, t);
    var body := Installments(t, loanNumber, dateOf, 0);
    var fee := FeeRows(t, loanNumber);
    SumsAppend(head, body);
    SumsAppend(head + body, fee);
    InstallmentSums(t, loanNumber, dateOf, 0);
    assert ExpenseSum(head) == 0.0 && IncomeSum(head) == 0.0 by {
      assert head[1..][1..] == [];
    }
    assert ExpenseSum(fee) == (if t.fee > 0.0 then t.fee else 0.0) && IncomeSum(fee) == 0.0 by {
      if t.fee > 0.0 {
        assert fee[1..] == [];
      }
    }
  }

  /** Each month adds its principal and its interest to the expense total and nothing to
      income. */
  lemma {:induction false} InstallmentSums(t: LoanTerms, loanNumber: int, dateOf: nat -> string, i: nat)
    requires i <= t.terms
    ensures ExpenseSum(Installments(t, loanNumber, dateOf, i)) == Times(t.terms - i, MonthlyCost(t))
    ensures IncomeSum(Installments(t, loanNumber, dateOf, i)) == 0.0
    decreases t.terms - i
  {
    if i < t.terms {
      var rest := Installments(t, loanNumber, dateOf, i + 1);
      var pair := [PrincipalRow(t, loanNumber, dateOf(i), i), InterestRow(t, loanNumber, dateOf(i), i)];
      InstallmentSums(t, loanNumber, dateOf, i + 1);
      SumsAppend(pair, rest);
      MonthSums(t, loanNumber, dateOf(i), i);
      assert t.terms - i == (t.terms - (i + 1)) + 1;
    }
  }

  /** What one month's installment adds to expenses. */
  function MonthlyCost(t: LoanTerms): real {
    Abs(t.principal) + Abs(t.interest)
  }

  /** One month's two rows count as expenses of the principal and the interest. */
  lemma MonthSums(t: LoanTerms, loanNumber: int, date: string, i: nat)
    ensures var pair := [PrincipalRow(t, loanNumber, date, i), InterestRow(t, loanNumber, date, i)];
            ExpenseSum(pair) == MonthlyCost(t) && IncomeSum(pair) == 0.0
  {
    var p, q := PrincipalRow(t, loanNumber, date, i), InterestRow(t, loanNumber, date, i);
    assert CountsAsExpense(p) && CountsAsExpense(q) && !CountsAsIncome(p) && !CountsAsIncome(q);
    PairSums(p, q);
  }

  lemma PairSums(p: Transaction, q: Transaction)
    ensures ExpenseSum([p, q]) == (if CountsAsExpense(p) then Abs(p.amount) else 0.0)
                                  + (if CountsAsExpense(q) then Abs(q.amount) else 0.0)
    ensures IncomeSum([p, q]) == (if CountsAsIncome(p) then Abs(p.amount) else 0.0)
                                 + (if CountsAsIncome(q) then Abs(q.amount) else 0.0)
  {
    assert [p, q][1..] == [q];
    assert [q][1..] == [];
    assert ExpenseSum([q]) == (if CountsAsExpense(q) then Abs(q.amount) else 0.0) + ExpenseSum([]);
    assert ExpenseSum([p, q]) == (if CountsAsExpense(p) then Abs(p.amount) else 0.0) + ExpenseSum([q]);
    assert IncomeSum([q]) == (if CountsAsIncome(q) then Abs(q.amount) else 0.0) + IncomeSum([]);
    assert IncomeSum([p, q]) == (if CountsAsIncome(p) then Abs(p.amount) else 0.0) + IncomeSum([q]);
  }

  /** `x` added up `n` times. */
  function Times(n: nat, x: real): real {
    if n == 0 then 0.0 else Times(n - 1, x) + x
  }

  lemma {:induction false} TimesIsProduct(n: nat, x: real)
    ensures Times(n, x) == (n as real) * x
  {
    if n > 0 {
      TimesIsProduct(n - 1, x);
      assert (n as real) * x == ((n - 1) as real) * x + x;
    }
  }

  /** The income and expense sums of two lists put together add up. */
  lemma {:induction false} SumsAppend(a: seq<Transaction>, b: seq<Transaction>)
    ensures ExpenseSum(a + b) == ExpenseSum(a) + ExpenseSum(b)
    ensures IncomeSum(a + b) == IncomeSum(a) + IncomeSum(b)
  {
    if |a| > 0 {
      assert (a + b)[1..] == a[1..] + b;
      SumsAppend(a[1..], b);
    } else {
      assert a + b == b;
    }
  }

  /** With a billing date the engine reads as a day up to the 28th, installment `i` falls `i`
      months after the first billing, on the same day of the month. */
  lemma InstallmentDatesAdvanceMonthly(parse: DateParser, format: DateTime -> string, billingDate: string, i: nat)
    requires parse(billingDate).Some? && IsValid(parse(billingDate).value) && parse(billingDate).value.day <= 28
    ensures var d := parse(billingDate).value;
            exists r :: IsValid(r) && r.day == d.day && MonthNumber(r) == MonthNumber(d) + i
                        && InstallmentDate(parse, format, billingDate, i) == format(r)
  {
    var d := parse(billingDate).value;
    AddMonthsKeepsEarlyDay(d, i);
    var r := AddMonths(d, i);
    assert IsValid(r) && r.day == d.day && MonthNumber(r) == MonthNumber(d) + i;
  }
}
