/** The next loan number for a payment account, found by scanning the ledger for the
    installment rows of earlier loans on that account. */
module LoanNumbers {

  import opened Wrappers
  import opened Strings
  import opened Ledger
  import opened Parsing

  /** The number the first loan of an account gets when the ledger holds none of its rows:
      `startingNumbers[accountName] || 1`. */
  function StartingNumber(account: string): (n: int)
    ensures n >= 1
  {
    if account == "BPI - Platinum MC" then 2
    else if account == "Eastwest - Gold MC" then 5
    else 1
  }

  const LoanMarker := "Loan #"

  /** `/Loan #(\d+)/` is found at `i`: the marker followed by at least one digit. */
  predicate LoanNumberAt(s: string, i: nat) {
    OccursAt(s, LoanMarker, i) && i + |LoanMarker| < |s| && IsDigit(s[i + |LoanMarker|])
  }

  /** The leftmost match of `/Loan #(\d+)/` from position `i` on, as its start position. */
  function FirstLoanNumberFrom(s: string, i: nat): (p: Option<nat>)
    requires i <= |s|
    ensures p.Some? ==> i <= p.value < |s| && LoanNumberAt(s, p.value)
    ensures p.Some? ==> forall j :: i <= j < p.value ==> !LoanNumberAt(s, j)
    ensures p.None? ==> forall j :: i <= j ==> !LoanNumberAt(s, j)
    decreases |s| - i
  {
    if i == |s| then None
    else if LoanNumberAt(s, i) then Some(i)
    else FirstLoanNumberFrom(s, i + 1)
  }

  /** `parseInt(match[1], 10)` for the first match of `/Loan #(\d+)/`: the longest digit run
      after the leftmost marker that has a digit after it. */
  function LoanNumberIn(description: string): Option<nat> {
    match FirstLoanNumberFrom(description, 0)
    case None => None
    case Some(p) => Some(DigitsValue(LeadingDigits(description[p + |LoanMarker|..])))
  }

  /** The loan number a row contributes to the scan: only rows of at least six cells whose first
      account is the account and whose description names "<account> Loan #" count. */
  function RowLoanNumber(row: SheetRow, account: string): Option<nat> {
    if |row| < 6 then None
    else if row[3] == account && Contains(row[5], account + " " + LoanMarker) then LoanNumberIn(row[5])
    else None
  }

  /** The loop of `getLoanCountForAccount` from row `i` on, with the highest number seen so far. */
  function HighestFrom(rows: seq<SheetRow>, account: string, i: nat, highest: int): int
    requires i <= |rows|
    decreases |rows| - i
  {
    if i == |rows| then highest
    else
      var n := RowLoanNumber(rows[i], account);
      HighestFrom(rows, account, i + 1, if n.Some? && n.value > highest then n.value else highest)
  }

  /** `getLoanCountForAccount(accountName)` on a read of the sheet: one past the highest loan
      number on the account's rows, skipping the header row, and never below the account's
      starting number. */
  function NextLoanNumber(rows: seq<SheetRow>, account: string): int {
    if |rows| == 0 then StartingNumber(account)
    else HighestFrom(rows, account, 1, StartingNumber(account) - 1) + 1
  }

  /** The loop's result is at least its start value and every number it passes. */
  lemma {:induction false} HighestFromBounds(rows: seq<SheetRow>, account: string, i: nat, highest: int)
    requires i <= |rows|
    ensures HighestFrom(rows, account, i, highest) >= highest
    ensures forall j :: i <= j < |rows| && RowLoanNumber(rows[j], account).Some?
              ==> RowLoanNumber(rows[j], account).value <= HighestFrom(rows, account, i, highest)
    decreases |rows| - i
  {
    if i < |rows| {
      var n := RowLoanNumber(rows[i], account);
      var next := if n.Some? && n.value > highest then n.value else highest;
      var h := HighestFrom(rows, account, i + 1, next);
      assert HighestFrom(rows, account, i, highest) == h;
      HighestFromBounds(rows, account, i + 1, next);
      forall j | i <= j < |rows| && RowLoanNumber(rows[j], account).Some?
        ensures RowLoanNumber(rows[j], account).value <= h
      {
        if j == i {
          assert RowLoanNumber(rows[j], account) == n;
        }
      }
    }
  }

  /** The loop's result is its start value or a number it passed. */
  lemma {:induction false} HighestFromAttained(rows: seq<SheetRow>, account: string, i: nat, highest: int)
    requires i <= |rows|
    ensures var h := HighestFrom(rows, account, i, highest);
            h == highest || exists j :: i <= j < |rows| && RowLoanNumber(rows[j], account) == Some(h)
    decreases |rows| - i
  {
    if i < |rows| {
      var n := RowLoanNumber(rows[i], account);
      var next := if n.Some? && n.value > highest then n.value else highest;
      var h := HighestFrom(rows, account, i + 1, next);
      assert HighestFrom(rows, account, i, highest) == h;
      HighestFromAttained(rows, account, i + 1, next);
      if h == next && next != highest {
        assert RowLoanNumber(rows[i], account) == Some(h);
      }
    }
  }

  /** The next number is at least the starting number, beyond every number already on a data
      row of the account, and either the starting number or one past such a number: it is
      `max(start - 1, numbers...) + 1`. */
  lemma NextLoanNumberMeaning(rows: seq<SheetRow>, account: string)
    ensures var next := NextLoanNumber(rows, account);
            && next >= StartingNumber(account)
            && (forall j :: 1 <= j < |rows| && RowLoanNumber(rows[j], account).Some?
                  ==> RowLoanNumber(rows[j], account).value < next)
            && (next == StartingNumber(account)
                || exists j :: 1 <= j < |rows| && RowLoanNumber(rows[j], account) == Some(next - 1))
  {
    if |rows| > 0 {
      var start := StartingNumber(account);
      var h := HighestFrom(rows, account, 1, start - 1);
      assert NextLoanNumber(rows, account) == h + 1;
      HighestFromBounds(rows, account, 1, start - 1);
      HighestFromAttained(rows, account, 1, start - 1);
    }
  }

  /** The header row never counts, whatever it says. */
  lemma HeaderIsSkipped(header: SheetRow, rest: seq<SheetRow>, other: SheetRow, account: string)
    ensures NextLoanNumber([header] + rest, account) == NextLoanNumber([other] + rest, account)
  {
    HighestFromSameTail([header] + rest, [other] + rest, account, 1, StartingNumber(account) - 1);
  }

  lemma {:induction false} HighestFromSameTail(a: seq<SheetRow>, b: seq<SheetRow>, account: string, i: nat, highest: int)
    requires i <= |a| == |b|
    requires forall j :: i <= j < |a| ==> a[j] == b[j]
    ensures HighestFrom(a, account, i, highest) == HighestFrom(b, account, i, highest)
    decreases |a| - i
  {
    if i < |a| {
      var n := RowLoanNumber(a[i], account);
      HighestFromSameTail(a, b, account, i + 1, if n.Some? && n.value > highest then n.value else highest);
    }
  }

  /** A description the schedule writes, "<account> Loan #<n>" followed by text that does not
      start with a digit, carries loan number `n`, provided the account name does not itself
      contain "Loan #" (so no earlier marker can start inside it). */
  lemma {:induction false} InstallmentDescriptionNumber(account: string, n: nat, rest: string)
    requires !Contains(account, LoanMarker)
    requires |rest| == 0 || !IsDigit(rest[0])
    ensures LoanNumberIn(account + " " + LoanMarker + NatToString(n) + rest) == Some(n)
  {
    var digits := NatToString(n);
    var s := account + " " + LoanMarker + digits + rest;
    var p := |account| + 1;
    assert s == account + " " + LoanMarker + (digits + rest);
    assert s[p + |LoanMarker|..] == digits + rest;
    assert s[p + |LoanMarker|] == digits[0];
    MarkerAfterAccount(account, digits + rest);
    assert LoanNumberAt(s, p);
    var first := FirstLoanNumberFrom(s, 0);
    assert first == Some(p);
    LeadingDigitsStopAt(digits, rest);
    NatToStringValue(n);
  }

  /** In "<account> Loan #<tail>", with no "Loan #" inside the account name, the written marker
      is the first occurrence of "Loan #". */
  lemma MarkerAfterAccount(account: string, tail: string)
    requires !Contains(account, LoanMarker)
    ensures var s := account + " " + LoanMarker + tail;
            && OccursAt(s, LoanMarker, |account| + 1)
            && forall j :: 0 <= j < |account| + 1 ==> !OccursAt(s, LoanMarker, j)
  {
    var s := account + " " + LoanMarker + tail;
    var p := |account| + 1;
    assert s[p..p + |LoanMarker|] == LoanMarker;
    forall j | 0 <= j < p
      ensures !OccursAt(s, LoanMarker, j)
    {
      if j + |LoanMarker| <= |account| {
        assert account[j..j + |LoanMarker|] == s[j..j + |LoanMarker|];
        ContainsIffOccurs(account, LoanMarker);
        assert !OccursAt(account, LoanMarker, j);
      } else if j + |LoanMarker| <= |s| {
        // Where the marker's '#' would have to be there is the separating space or a letter of
        // the written marker.
        var h := j + |LoanMarker| - 1;
        assert s[h] != '#' by {
          if h == |account| {
            assert s[h] == ' ';
          } else {
            assert s[h] == LoanMarker[h - p] && h - p < |LoanMarker| - 1;
          }
        }
        assert s[j..j + |LoanMarker|][|LoanMarker| - 1] == s[h];
      }
    }
  }

  /** The example of two earlier loans numbered 3 and 7 on an account with no starting number:
      the next loan is number 8. */
  lemma TwoEarlierLoansExample(header: SheetRow, first: SheetRow, second: SheetRow, account: string)
    requires StartingNumber(account) == 1
    requires RowLoanNumber(first, account) == Some(3) && RowLoanNumber(second, account) == Some(7)
    ensures NextLoanNumber([header, first, second], account) == 8
  {
    var rows := [header, first, second];
    assert rows[1] == first && rows[2] == second;
    assert HighestFrom(rows, account, 3, 7) == 7;
    assert HighestFrom(rows, account, 2, 3) == 7;
    assert HighestFrom(rows, account, 1, 0) == 7;
  }

  /** An installment row as the schedule writes it, read back, counts with its loan number. */
  lemma InstallmentRowNumber(row: SheetRow, account: string, n: nat, rest: string)
    requires !Contains(account, LoanMarker)
    requires |rest| == 0 || !IsDigit(rest[0])
    requires |row| >= 6 && row[3] == account && row[5] == account + " " + LoanMarker + NatToString(n) + rest
    ensures RowLoanNumber(row, account) == Some(n)
  {
    var tail := NatToString(n) + rest;
    assert row[5] == account + " " + LoanMarker + tail;
    MarkedRowContains(account, row[5], tail);
    InstallmentDescriptionNumber(account, n, rest);
    assert LoanNumberIn(row[5]) == Some(n);
  }

  /** A description that starts with "<account> Loan #" names the account's loans. */
  lemma MarkedRowContains(account: string, description: string, tail: string)
    requires description == account + " " + LoanMarker + tail
    ensures Contains(description, account + " " + LoanMarker)
  {
    var p := account + " " + LoanMarker;
    assert description == p + tail;
    assert description[0..|p|] == p;
    assert OccursAt(description, p, 0);
    ContainsIffOccurs(description, p);
  }
}
