/** `calculateSummary`: income and expense totals of a list of transactions, per-category
    breakdowns, the net result and the count. Amounts count by their absolute value; only
    Income rows count as income, and only Expense rows outside the Reimbursibles category count
    as expense. */
module Summary {

  import opened Catalog
  import opened Ledger

  function Abs(x: real): (r: real)
    ensures r >= 0.0 && (r == x || r == -x)
  {
    if x < 0.0 then -x else x
  }

  /** A per-category breakdown: category and running total, in the order the categories were
      first met (the insertion order of the object the source builds). */
  type Tally = seq<(string, real)>

  function Keys(t: Tally): (ks: seq<string>)
    ensures |ks| == |t|
    ensures forall i :: 0 <= i < |t| ==> ks[i] == t[i].0
  {
    if |t| == 0 then [] else [t[0].0] + Keys(t[1..])
  }

  predicate DistinctKeys(t: Tally) {
    forall i, j :: 0 <= i < j < |t| ==> t[i].0 != t[j].0
  }

  /** `tally[key] || 0`. */
  function Lookup(t: Tally, key: string): real {
    if |t| == 0 then 0.0
    else if t[0].0 == key then t[0].1
    else Lookup(t[1..], key)
  }

  /** `tally[key] = (tally[key] || 0) + amount`: a known key grows in place, a new key goes last. */
  function Bump(t: Tally, key: string, amount: real): (r: Tally)
    requires DistinctKeys(t)
    ensures DistinctKeys(r)
    ensures Keys(r) == if key in Keys(t) then Keys(t) else Keys(t) + [key]
  {
    if |t| == 0 then [(key, amount)]
    else if t[0].0 == key then
      NotInTail(t, key);
      [(key, t[0].1 + amount)] + t[1..]
    else
      var rest := Bump(t[1..], key, amount);
      FirstKeyNotInTail(t);
      assert forall i :: 0 <= i < |rest| ==> rest[i].0 == Keys(rest)[i];
      ConsDistinct(t[0], rest);
      KeysCons(t[0], rest);
      KeysCons(t[0], t[1..]);
      assert [t[0]] + t[1..] == t;
      [t[0]] + rest
  }

  /** Bumping a key grows that key's total by the amount and leaves every other key's total
      as it was. */
  lemma {:induction false} BumpLookup(t: Tally, key: string, amount: real, k: string)
    requires DistinctKeys(t)
    ensures Lookup(Bump(t, key, amount), k) == Lookup(t, k) + (if k == key then amount else 0.0)
  {
    if |t| > 0 {
      var r := Bump(t, key, amount);
      if t[0].0 == key {
        NotInTail(t, key);
        assert r[1..] == t[1..];
      } else {
        assert r[1..] == Bump(t[1..], key, amount);
        BumpLookup(t[1..], key, amount, k);
      }
    }
  }

  /** With distinct keys, the first key is not among the later ones. */
  lemma FirstKeyNotInTail(t: Tally)
    requires DistinctKeys(t) && |t| > 0
    ensures t[0].0 !in Keys(t[1..])
  {
    forall m | 0 <= m < |t| - 1
      ensures Keys(t[1..])[m] != t[0].0
    {
      assert Keys(t[1..])[m] == t[m + 1].0;
    }
  }

  lemma ConsDistinct(x: (string, real), rest: Tally)
    requires DistinctKeys(rest) && x.0 !in Keys(rest)
    ensures DistinctKeys([x] + rest)
  {
    var r := [x] + rest;
    forall i, j | 0 <= i < j < |r|
      ensures r[i].0 != r[j].0
    {
      if i == 0 {
        assert r[j].0 == Keys(rest)[j - 1];
      } else {
        assert r[i] == rest[i - 1] && r[j] == rest[j - 1];
      }
    }
  }

  lemma KeysCons(x: (string, real), rest: Tally)
    ensures Keys([x] + rest) == [x.0] + Keys(rest)
  {
    assert ([x] + rest)[1..] == rest;
  }

  /** With distinct keys, the first entry's key appears nowhere after it. */
  lemma NotInTail(t: Tally, key: string)
    requires DistinctKeys(t) && |t| > 0 && t[0].0 == key
    ensures key !in Keys(t[1..]) && Lookup(t[1..], key) == 0.0
  {
    LookupAbsent(t[1..], key);
  }

  /** A key that is not in the tally reads as 0. */
  lemma {:induction false} LookupAbsent(t: Tally, key: string)
    requires key !in Keys(t)
    ensures Lookup(t, key) == 0.0
  {
    if |t| > 0 {
      assert Keys(t)[0] == t[0].0;
      assert Keys(t[1..]) == Keys(t)[1..];
      LookupAbsent(t[1..], key);
    }
  }

  /** The sum of a breakdown's totals. */
  function TallyTotal(t: Tally): real {
    if |t| == 0 then 0.0 else t[0].1 + TallyTotal(t[1..])
  }

  /** Growing one category grows the breakdown's total by the same amount. */
  lemma {:induction false} BumpTotal(t: Tally, key: string, amount: real)
    requires DistinctKeys(t)
    ensures TallyTotal(Bump(t, key, amount)) == TallyTotal(t) + amount
  {
    if |t| > 0 && t[0].0 != key {
      BumpTotal(t[1..], key, amount);
      assert Bump(t, key, amount)[1..] == Bump(t[1..], key, amount);
    } else if |t| > 0 {
      assert Bump(t, key, amount)[1..] == t[1..];
    }
  }

  datatype SummaryData = SummaryData(
    totalIncome: real,
    totalExpense: real,
    netIncome: real,
    incomeByCategory: Tally,
    expenseByCategory: Tally,
    transactionCount: nat)

  predicate CountsAsIncome(t: Transaction) {
    t.txType == Income
  }

  predicate CountsAsExpense(t: Transaction) {
    t.txType == Expense && t.category != Reimbursibles
  }

  /** The totals and breakdowns after the `forEach` has visited every transaction of `ts`,
      first to last. */
  datatype Totals = Totals(income: real, expense: real, incomeBy: Tally, expenseBy: Tally)

  /** One visit of the `forEach` body. */
  function AddTransaction(acc: Totals, t: Transaction): (r: Totals)
    requires DistinctKeys(acc.incomeBy) && DistinctKeys(acc.expenseBy)
    ensures DistinctKeys(r.incomeBy) && DistinctKeys(r.expenseBy)
  {
    var a := Abs(t.amount);
    if t.txType == Income then acc.(income := acc.income + a, incomeBy := Bump(acc.incomeBy, t.category, a))
    else if t.txType == Expense then
      if t.category != Reimbursibles then acc.(expense := acc.expense + a, expenseBy := Bump(acc.expenseBy, t.category, a))
      else acc
    else acc
  }

  function Accumulate(ts: seq<Transaction>): (acc: Totals)
    ensures DistinctKeys(acc.incomeBy) && DistinctKeys(acc.expenseBy)
  {
    if |ts| == 0 then Totals(0.0, 0.0, [], [])
    else AddTransaction(Accumulate(ts[..|ts| - 1]), ts[|ts| - 1])
  }

  lemma AccumulateSnoc(init: seq<Transaction>, t: Transaction)
    ensures Accumulate(init + [t]) == AddTransaction(Accumulate(init), t)
  {
    assert (init + [t])[..|init|] == init;
  }

  /** `calculateSummary(transactions)`. */
  function CalculateSummary(ts: seq<Transaction>): SummaryData {
    var acc := Accumulate(ts);
    SummaryData(acc.income, acc.expense, acc.income - acc.expense, acc.incomeBy, acc.expenseBy, |ts|)
  }

  // ---------------------------------------------------------------------------------------
  // Reference definitions, stated independently of the loop

  /** Sum of |amount| over the income transactions. */
  function IncomeSum(ts: seq<Transaction>): real {
    if |ts| == 0 then 0.0
    else (if CountsAsIncome(ts[0]) then Abs(ts[0].amount) else 0.0) + IncomeSum(ts[1..])
  }

  /** Sum of |amount| over the counted expense transactions. */
  function ExpenseSum(ts: seq<Transaction>): real {
    if |ts| == 0 then 0.0
    else (if CountsAsExpense(ts[0]) then Abs(ts[0].amount) else 0.0) + ExpenseSum(ts[1..])
  }

  /** Sum of |amount| over the income transactions of one category. */
  function IncomeIn(ts: seq<Transaction>, c: string): real {
    if |ts| == 0 then 0.0
    else (if CountsAsIncome(ts[0]) && ts[0].category == c then Abs(ts[0].amount) else 0.0) + IncomeIn(ts[1..], c)
  }

  /** Sum of |amount| over the counted expense transactions of one category. */
  function ExpenseIn(ts: seq<Transaction>, c: string): real {
    if |ts| == 0 then 0.0
    else (if CountsAsExpense(ts[0]) && ts[0].category == c then Abs(ts[0].amount) else 0.0) + ExpenseIn(ts[1..], c)
  }

  lemma {:induction false} IncomeSumSnoc(ts: seq<Transaction>, t: Transaction)
    ensures IncomeSum(ts + [t]) == IncomeSum(ts) + (if CountsAsIncome(t) then Abs(t.amount) else 0.0)
  {
    if |ts| > 0 {
      assert (ts + [t])[1..] == ts[1..] + [t];
      IncomeSumSnoc(ts[1..], t);
    }
  }

  lemma {:induction false} ExpenseSumSnoc(ts: seq<Transaction>, t: Transaction)
    ensures ExpenseSum(ts + [t]) == ExpenseSum(ts) + (if CountsAsExpense(t) then Abs(t.amount) else 0.0)
  {
    if |ts| > 0 {
      assert (ts + [t])[1..] == ts[1..] + [t];
      ExpenseSumSnoc(ts[1..], t);
    }
  }

  lemma {:induction false} IncomeInSnoc(ts: seq<Transaction>, t: Transaction, c: string)
    ensures IncomeIn(ts + [t], c) == IncomeIn(ts, c) + (if CountsAsIncome(t) && t.category == c then Abs(t.amount) else 0.0)
  {
    if |ts| > 0 {
      assert (ts + [t])[1..] == ts[1..] + [t];
      IncomeInSnoc(ts[1..], t, c);
    }
  }

  lemma {:induction false} ExpenseInSnoc(ts: seq<Transaction>, t: Transaction, c: string)
    ensures ExpenseIn(ts + [t], c) == ExpenseIn(ts, c) + (if CountsAsExpense(t) && t.category == c then Abs(t.amount) else 0.0)
  {
    if |ts| > 0 {
      assert (ts + [t])[1..] == ts[1..] + [t];
      ExpenseInSnoc(ts[1..], t, c);
    }
  }

  /** The loop's totals are the independent sums, and each breakdown adds up to its total. */
  lemma {:induction false} AccumulateTotals(ts: seq<Transaction>)
    ensures var acc := Accumulate(ts);
            && acc.income == IncomeSum(ts) && acc.expense == ExpenseSum(ts)
            && TallyTotal(acc.incomeBy) == acc.income && TallyTotal(acc.expenseBy) == acc.expense
  {
    if |ts| > 0 {
      var init := ts[..|ts| - 1];
      var t := ts[|ts| - 1];
      assert ts == init + [t];
      AccumulateTotals(init);
      AccumulateSnoc(init, t);
      var acc := Accumulate(init);
      IncomeSumSnoc(init, t);
      ExpenseSumSnoc(init, t);
      if CountsAsIncome(t) {
        BumpTotal(acc.incomeBy, t.category, Abs(t.amount));
      } else if CountsAsExpense(t) {
        BumpTotal(acc.expenseBy, t.category, Abs(t.amount));
      }
    }
  }

  /** Each breakdown holds, for every category, that category's independent sum. */
  lemma {:induction false} AccumulateBreakdowns(ts: seq<Transaction>, c: string)
    ensures Lookup(Accumulate(ts).incomeBy, c) == IncomeIn(ts, c)
    ensures Lookup(Accumulate(ts).expenseBy, c) == ExpenseIn(ts, c)
  {
    if |ts| > 0 {
      var init := ts[..|ts| - 1];
      var t := ts[|ts| - 1];
      assert ts == init + [t];
      AccumulateBreakdowns(init, c);
      AccumulateSnoc(init, t);
      IncomeInSnoc(init, t, c);
      ExpenseInSnoc(init, t, c);
      AddTransactionLookup(Accumulate(init), t, c);
    }
  }

  /** One visit grows a category's breakdown entry by the row's absolute amount when the row
      counts and carries that category, and leaves it alone otherwise. */
  lemma AddTransactionLookup(acc: Totals, t: Transaction, c: string)
    requires DistinctKeys(acc.incomeBy) && DistinctKeys(acc.expenseBy)
    ensures Lookup(AddTransaction(acc, t).incomeBy, c)
            == Lookup(acc.incomeBy, c) + (if CountsAsIncome(t) && t.category == c then Abs(t.amount) else 0.0)
    ensures Lookup(AddTransaction(acc, t).expenseBy, c)
            == Lookup(acc.expenseBy, c) + (if CountsAsExpense(t) && t.category == c then Abs(t.amount) else 0.0)
  {
    BumpLookup(acc.incomeBy, t.category, Abs(t.amount), c);
    BumpLookup(acc.expenseBy, t.category, Abs(t.amount), c);
  }

  /** A category appears in a breakdown exactly when some counted transaction carries it. */
  lemma {:induction false} AccumulateKeys(ts: seq<Transaction>, c: string)
    ensures c in Keys(Accumulate(ts).incomeBy) <==> exists i :: 0 <= i < |ts| && CountsAsIncome(ts[i]) && ts[i].category == c
    ensures c in Keys(Accumulate(ts).expenseBy) <==> exists i :: 0 <= i < |ts| && CountsAsExpense(ts[i]) && ts[i].category == c
  {
    if |ts| > 0 {
      var init := ts[..|ts| - 1];
      var t := ts[|ts| - 1];
      assert ts == init + [t];
      AccumulateKeys(init, c);
      AccumulateSnoc(init, t);
      KeysSnoc(init, t, c);
      AddTransactionKeys(Accumulate(init), t, c);
    }
  }

  /** One visit adds the row's category to a breakdown when the row counts there, and no
      other key. */
  lemma AddTransactionKeys(acc: Totals, t: Transaction, c: string)
    requires DistinctKeys(acc.incomeBy) && DistinctKeys(acc.expenseBy)
    ensures c in Keys(AddTransaction(acc, t).incomeBy)
            <==> c in Keys(acc.incomeBy) || (CountsAsIncome(t) && t.category == c)
    ensures c in Keys(AddTransaction(acc, t).expenseBy)
            <==> c in Keys(acc.expenseBy) || (CountsAsExpense(t) && t.category == c)
  {
  }

  /** A category is met in `init + [t]` when it is met in `init` or carried by `t`. */
  lemma KeysSnoc(init: seq<Transaction>, t: Transaction, c: string)
    ensures (exists i :: 0 <= i < |init + [t]| && CountsAsIncome((init + [t])[i]) && (init + [t])[i].category == c)
        <==> (exists i :: 0 <= i < |init| && CountsAsIncome(init[i]) && init[i].category == c)
             || (CountsAsIncome(t) && t.category == c)
    ensures (exists i :: 0 <= i < |init + [t]| && CountsAsExpense((init + [t])[i]) && (init + [t])[i].category == c)
        <==> (exists i :: 0 <= i < |init| && CountsAsExpense(init[i]) && init[i].category == c)
             || (CountsAsExpense(t) && t.category == c)
  {
    var ts := init + [t];
    assert ts[|init|] == t;
    assert forall i :: 0 <= i < |init| ==> ts[i] == init[i];
  }

  /** The promises of `calculateSummary`: income and expense totals are the sums of absolute
      amounts over income rows and over non-reimbursable expense rows, both at least 0; the net
      is their difference; the count is the number of transactions; each breakdown adds up to
      its total. */
  lemma SummaryMeaning(ts: seq<Transaction>)
    ensures var s := CalculateSummary(ts);
            && s.totalIncome == IncomeSum(ts) && s.totalExpense == ExpenseSum(ts)
            && s.totalIncome >= 0.0 && s.totalExpense >= 0.0
            && s.netIncome == s.totalIncome - s.totalExpense
            && s.transactionCount == |ts|
            && TallyTotal(s.incomeByCategory) == s.totalIncome
            && TallyTotal(s.expenseByCategory) == s.totalExpense
            && (forall c :: Lookup(s.incomeByCategory, c) == IncomeIn(ts, c))
            && (forall c :: Lookup(s.expenseByCategory, c) == ExpenseIn(ts, c))
  {
    AccumulateTotals(ts);
    SumsNonNegative(ts);
    forall c
      ensures Lookup(CalculateSummary(ts).incomeByCategory, c) == IncomeIn(ts, c)
      ensures Lookup(CalculateSummary(ts).expenseByCategory, c) == ExpenseIn(ts, c)
    {
      AccumulateBreakdowns(ts, c);
    }
  }

  lemma {:induction false} SumsNonNegative(ts: seq<Transaction>)
    ensures IncomeSum(ts) >= 0.0 && ExpenseSum(ts) >= 0.0
  {
    if |ts| > 0 {
      SumsNonNegative(ts[1..]);
    }
  }

  /** Transfers, loans, reimbursements and reimbursable expenses change nothing in a summary
      except the count. */
  lemma UncountedRowsChangeOnlyTheCount(ts: seq<Transaction>, t: Transaction)
    requires !CountsAsIncome(t) && !CountsAsExpense(t)
    ensures var s := CalculateSummary(ts);
            var s' := CalculateSummary(ts + [t]);
            s' == s.(transactionCount := s.transactionCount + 1)
  {
    AccumulateSnoc(ts, t);
  }

  /** A salary of 1000, a food expense of -200 and a reimbursable expense of -50: income 1000,
      expense 200, net 800, three transactions. */
  lemma SummaryExample(date: string)
    ensures var s := CalculateSummary([
              Transaction(date, Income, "Salary", "BPI", "", "pay", 1000.0),
              Transaction(date, Expense, "Food", "Cash", "", "lunch", -200.0),
              Transaction(date, Expense, Reimbursibles, "Cash", "", "for a friend", -50.0)]);
            s.totalIncome == 1000.0 && s.totalExpense == 200.0 && s.netIncome == 800.0
            && s.transactionCount == 3
            && s.incomeByCategory == [("Salary", 1000.0)] && s.expenseByCategory == [("Food", 200.0)]
  {
    var salary := Transaction(date, Income, "Salary", "BPI", "", "pay", 1000.0);
    var food := Transaction(date, Expense, "Food", "Cash", "", "lunch", -200.0);
    var lent := Transaction(date, Expense, Reimbursibles, "Cash", "", "for a friend", -50.0);
    AccumulateSnoc([], salary);
    assert [] + [salary] == [salary];
    var a1 := Accumulate([salary]);
    assert a1 == Totals(1000.0, 0.0, [("Salary", 1000.0)], []);
    AccumulateSnoc([salary], food);
    assert [salary] + [food] == [salary, food];
    var a2 := Accumulate([salary, food]);
    assert a2 == Totals(1000.0, 200.0, [("Salary", 1000.0)], [("Food", 200.0)]);
    AccumulateSnoc([salary, food], lent);
    assert [salary, food] + [lent] == [salary, food, lent];
  }
}
