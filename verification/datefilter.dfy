/** The loop of `getTransactionsByDateRange` over a read of the sheet: which rows fall in a
    period and the transactions they become. The engine's own parse of a date string
    (`new Date(dateStr)`) is a parameter; the fallback parse of "M/D/Y ..." strings is
    modelled. */
module DateFilter {

  import opened Wrappers
  import opened Strings
  import opened Calendar
  import opened Parsing
  import opened Ledger

  /** What `new Date(s)` gives for a string: a local date and time, or `None` for an invalid
      date. How an engine reads free-form strings is not specified by the language, so it is a
      parameter. */
  type DateParser = string -> Option<DateTime>

  /** A character of the class `[,\s]`. */
  predicate IsTokenSeparator(c: char) {
    c == ',' || IsJsWhitespace(c)
  }

  /** `s.split(/[,\s]+/)[0]`: everything before the first comma or white space. */
  function FirstToken(s: string): (t: string)
    ensures |t| <= |s| && t == s[..|t|]
    ensures forall i :: 0 <= i < |t| ==> !IsTokenSeparator(t[i])
    ensures |t| < |s| ==> IsTokenSeparator(s[|t|])
  {
    if |s| == 0 || IsTokenSeparator(s[0]) then "" else [s[0]] + FirstToken(s[1..])
  }

  /** The fallback of the loop: the first token split on '/' must have exactly three parts,
      read as month/day/year with `parseInt` (no radix), and given to `new Date(y, m - 1, d)`.
      A part that is not a number makes the date invalid. */
  function FallbackDate(dateStr: string): Option<DateTime> {
    DateOfParts(Split(FirstToken(dateStr), '/'))
  }

  /** The parts `[month, day, year]`, each read with `parseInt`. */
  function DateOfParts(parts: seq<string>): Option<DateTime> {
    if |parts| != 3 then None
    else DateOfNumbers(ParseInt(parts[2], Unspecified), ParseInt(parts[0], Unspecified), ParseInt(parts[1], Unspecified))
  }

  /** `new Date(year, month - 1, day)`, invalid when a part is not a number. */
  function DateOfNumbers(year: Option<int>, month: Option<int>, day: Option<int>): Option<DateTime> {
    if year.Some? && month.Some? && day.Some? then Some(MakeDate(year.value, month.value - 1, day.value))
    else None
  }

  /** The date of a row: the engine's parse, and the fallback when that is invalid. */
  function RowDate(parse: DateParser, dateStr: string): Option<DateTime> {
    match parse(dateStr)
    case Some(t) => Some(t)
    case None => FallbackDate(dateStr)
  }

  /** A data row the loop keeps: seven cells or more, a date that parses, inside the period
      (both ends included). */
  predicate Kept(parse: DateParser, row: SheetRow, start: DateTime, end: DateTime) {
    |row| >= 7 && RowDate(parse, row[0]).Some? && InRange(RowDate(parse, row[0]).value, start, end)
  }

  /** The transaction a kept row becomes: its six text cells as read, and its amount parsed. */
  function RowTransaction(row: SheetRow): (t: Transaction)
    requires |row| >= 7
    ensures t.date == row[0] && t.description == row[5] && t.amount == ParseAmount(row[6])
  {
    Transaction(row[0], row[1], row[2], row[3], row[4], row[5], ParseAmount(row[6]))
  }

  /** The loop from row `i` on. */
  function FilterFrom(parse: DateParser, rows: seq<SheetRow>, start: DateTime, end: DateTime, i: nat): seq<Transaction>
    requires i <= |rows|
    decreases |rows| - i
  {
    if i == |rows| then []
    else if Kept(parse, rows[i], start, end) then [RowTransaction(rows[i])] + FilterFrom(parse, rows, start, end, i + 1)
    else FilterFrom(parse, rows, start, end, i + 1)
  }

  /** `getTransactionsByDateRange(start, end)` on a read of the sheet: the loop starts after
      the header row. */
  function TransactionsInRange(parse: DateParser, rows: seq<SheetRow>, start: DateTime, end: DateTime): seq<Transaction> {
    if |rows| == 0 then [] else FilterFrom(parse, rows, start, end, 1)
  }

  /** The positions, from `i` on, of the rows the loop keeps. */
  function KeptFrom(parse: DateParser, rows: seq<SheetRow>, start: DateTime, end: DateTime, i: nat): seq<nat>
    requires i <= |rows|
    decreases |rows| - i
  {
    if i == |rows| then []
    else if Kept(parse, rows[i], start, end) then [i] + KeptFrom(parse, rows, start, end, i + 1)
    else KeptFrom(parse, rows, start, end, i + 1)
  }

  /** The loop's result is, in sheet order, one transaction per kept row from `i` on and
      nothing else: the positions are strictly increasing, each is kept, and every kept row
      from `i` on is among them. */
  lemma FilterFromMeaning(parse: DateParser, rows: seq<SheetRow>, start: DateTime, end: DateTime, i: nat)
    requires i <= |rows|
    ensures var idx := KeptFrom(parse, rows, start, end, i);
            var ts := FilterFrom(parse, rows, start, end, i);
            && |ts| == |idx|
            && (forall k :: 0 <= k < |idx| ==>
                  i <= idx[k] < |rows| && Kept(parse, rows[idx[k]], start, end) && ts[k] == RowTransaction(rows[idx[k]]))
            && (forall k, l :: 0 <= k < l < |idx| ==> idx[k] < idx[l])
            && (forall j :: i <= j < |rows| && Kept(parse, rows[j], start, end) ==> j in idx)
  {
    FilterFromPositions(parse, rows, start, end, i);
    KeptFromOrdered(parse, rows, start, end, i);
    KeptFromComplete(parse, rows, start, end, i);
  }

  /** One transaction per kept position, each made from the row at that position. */
  lemma {:induction false} FilterFromPositions(parse: DateParser, rows: seq<SheetRow>, start: DateTime, end: DateTime, i: nat)
    requires i <= |rows|
    ensures var idx := KeptFrom(parse, rows, start, end, i);
            var ts := FilterFrom(parse, rows, start, end, i);
            && |ts| == |idx|
            && (forall k :: 0 <= k < |idx| ==>
                  i <= idx[k] < |rows| && Kept(parse, rows[idx[k]], start, end) && ts[k] == RowTransaction(rows[idx[k]]))
    decreases |rows| - i
  {
    if i < |rows| {
      FilterFromPositions(parse, rows, start, end, i + 1);
      var idx := KeptFrom(parse, rows, start, end, i + 1);
      var ts := FilterFrom(parse, rows, start, end, i + 1);
      if Kept(parse, rows[i], start, end) {
        assert KeptFrom(parse, rows, start, end, i) == [i] + idx;
        assert FilterFrom(parse, rows, start, end, i) == [RowTransaction(rows[i])] + ts;
      } else {
        assert KeptFrom(parse, rows, start, end, i) == idx;
        assert FilterFrom(parse, rows, start, end, i) == ts;
      }
    }
  }

  /** The kept positions are strictly increasing and lie from `i` on. */
  lemma {:induction false} KeptFromOrdered(parse: DateParser, rows: seq<SheetRow>, start: DateTime, end: DateTime, i: nat)
    requires i <= |rows|
    ensures forall k :: 0 <= k < |KeptFrom(parse, rows, start, end, i)| ==> i <= KeptFrom(parse, rows, start, end, i)[k]
    ensures forall k, l :: 0 <= k < l < |KeptFrom(parse, rows, start, end, i)|
                           ==> KeptFrom(parse, rows, start, end, i)[k] < KeptFrom(parse, rows, start, end, i)[l]
    decreases |rows| - i
  {
    if i < |rows| {
      KeptFromOrdered(parse, rows, start, end, i + 1);
      var idx := KeptFrom(parse, rows, start, end, i + 1);
      if Kept(parse, rows[i], start, end) {
        var all := [i] + idx;
        assert KeptFrom(parse, rows, start, end, i) == all;
        assert forall k :: 1 <= k < |all| ==> all[k] == idx[k - 1];
      } else {
        assert KeptFrom(parse, rows, start, end, i) == idx;
      }
    }
  }

  /** Every kept row from `i` on is among the positions. */
  lemma {:induction false} KeptFromComplete(parse: DateParser, rows: seq<SheetRow>, start: DateTime, end: DateTime, i: nat)
    requires i <= |rows|
    ensures forall j :: i <= j < |rows| && Kept(parse, rows[j], start, end) ==> j in KeptFrom(parse, rows, start, end, i)
    decreases |rows| - i
  {
    if i < |rows| {
      KeptFromComplete(parse, rows, start, end, i + 1);
      var idx := KeptFrom(parse, rows, start, end, i + 1);
      if Kept(parse, rows[i], start, end) {
        assert KeptFrom(parse, rows, start, end, i) == [i] + idx;
      } else {
        assert KeptFrom(parse, rows, start, end, i) == idx;
      }
    }
  }

  /** The transactions in a period are an order-preserving selection of the data rows: every
      one comes from a row after the header with at least seven cells and a date inside the
      period, and every such row contributes. */
  lemma TransactionsInRangeMeaning(parse: DateParser, rows: seq<SheetRow>, start: DateTime, end: DateTime)
    requires |rows| >= 1
    ensures var idx := KeptFrom(parse, rows, start, end, 1);
            var ts := TransactionsInRange(parse, rows, start, end);
            && |ts| == |idx|
            && (forall k :: 0 <= k < |idx| ==>
                  1 <= idx[k] < |rows| && Kept(parse, rows[idx[k]], start, end) && ts[k] == RowTransaction(rows[idx[k]]))
            && (forall k, l :: 0 <= k < l < |idx| ==> idx[k] < idx[l])
            && (forall j :: 1 <= j < |rows| && Kept(parse, rows[j], start, end) ==> j in idx)
  {
    FilterFromMeaning(parse, rows, start, end, 1);
  }

  /** The header row is never read as a transaction, and neither is a row whose date no parse
      accepts. */
  lemma UnreadableRowsDropped(parse: DateParser, header: SheetRow, rows: seq<SheetRow>, row: SheetRow,
                              start: DateTime, end: DateTime)
    requires |row| < 7 || RowDate(parse, row[0]).None?
    ensures TransactionsInRange(parse, [header] + rows + [row], start, end)
         == TransactionsInRange(parse, [header] + rows, start, end)
  {
    FilterFromSnoc(parse, [header] + rows, row, start, end, 1);
    assert [header] + rows + [row] == ([header] + rows) + [row];
  }

  /** Filtering a sheet with one more row at the bottom appends that row's transaction, if it
      is kept. */
  lemma {:induction false} FilterFromSnoc(parse: DateParser, rows: seq<SheetRow>, row: SheetRow,
                                          start: DateTime, end: DateTime, i: nat)
    requires i <= |rows|
    ensures FilterFrom(parse, rows + [row], start, end, i)
         == FilterFrom(parse, rows, start, end, i)
            + (if Kept(parse, row, start, end) then [RowTransaction(row)] else [])
    decreases |rows| - i
  {
    var extended := rows + [row];
    if i == |rows| {
      assert extended[i] == row;
      assert FilterFrom(parse, extended, start, end, i + 1) == [];
    } else {
      assert extended[i] == rows[i];
      FilterFromSnoc(parse, rows, row, start, end, i + 1);
    }
  }

  /** The fallback reads "M/D/YYYY, time" as that calendar day, whatever follows the first
      comma or space. */
  lemma FallbackReadsMonthDayYear(m: nat, d: nat, y: nat, rest: string)
    requires 1 <= m <= 12 && 1 <= d <= DaysInMonth(y, m - 1) && y >= 100
    requires |rest| == 0 || IsTokenSeparator(rest[0])
    ensures FallbackDate(NatToString(m) + "/" + NatToString(d) + "/" + NatToString(y) + rest)
         == Some(DateTime(y, m - 1, d, 0))
  {
    var ms, ds, ys := NatToString(m), NatToString(d), NatToString(y);
    var dateStr := ms + "/" + ds + "/" + ys + rest;
    TokenOfDate(ms, ds, ys, rest);
    NatRoundTrip(m);
    NatRoundTrip(d);
    NatRoundTrip(y);
    FallbackOfParts(ms, ds, ys, m, d, y);
    MakeDateInRange(y, m - 1, d);
  }

  /** The first token of "M/D/Y" followed by a separator splits into the three numbers. */
  lemma TokenOfDate(ms: string, ds: string, ys: string, rest: string)
    requires AllDigits(ms) && AllDigits(ds) && AllDigits(ys)
    requires |rest| == 0 || IsTokenSeparator(rest[0])
    ensures Split(FirstToken(ms + "/" + ds + "/" + ys + rest), '/') == [ms, ds, ys]
  {
    var token := ms + "/" + ds + "/" + ys;
    NoSeparatorInDigits(ms);
    NoSeparatorInDigits(ds);
    NoSeparatorInDigits(ys);
    assert forall i :: 0 <= i < |token| ==> !IsTokenSeparator(token[i]);
    FirstTokenStops(token, rest);
    assert ms + "/" + ds + "/" + ys + rest == token + rest;
    SplitThree(ms, ds, ys);
  }

  lemma FallbackOfParts(a: string, b: string, c: string, m: int, d: int, y: int)
    requires ParseInt(a, Unspecified) == Some(m) && ParseInt(b, Unspecified) == Some(d)
    requires ParseInt(c, Unspecified) == Some(y)
    ensures DateOfParts([a, b, c]) == Some(MakeDate(y, m - 1, d))
  {
    var parts := [a, b, c];
    assert parts[0] == a && parts[1] == b && parts[2] == c;
    DateOfThreeParts(parts);
    DateOfThreeNumbers(y, m, d);
  }

  lemma DateOfThreeParts(parts: seq<string>)
    requires |parts| == 3
    ensures DateOfParts(parts)
         == DateOfNumbers(ParseInt(parts[2], Unspecified), ParseInt(parts[0], Unspecified), ParseInt(parts[1], Unspecified))
  {
  }

  lemma DateOfThreeNumbers(y: int, m: int, d: int)
    ensures DateOfNumbers(Some(y), Some(m), Some(d)) == Some(MakeDate(y, m - 1, d))
  {
  }

  lemma NatRoundTrip(n: nat)
    ensures ParseInt(NatToString(n), Unspecified) == Some(n)
  {
    IntRoundTrip(n, Unspecified);
  }

  lemma NoSeparatorInDigits(s: string)
    requires AllDigits(s)
    ensures forall i :: 0 <= i < |s| ==> !IsTokenSeparator(s[i]) && s[i] != '/'
  {
  }

  lemma {:induction false} FirstTokenStops(token: string, rest: string)
    requires forall i :: 0 <= i < |token| ==> !IsTokenSeparator(token[i])
    requires |rest| == 0 || IsTokenSeparator(rest[0])
    ensures FirstToken(token + rest) == token
  {
    if |token| == 0 {
      assert token + rest == rest;
    } else {
      assert (token + rest)[0] == token[0];
      assert (token + rest)[1..] == token[1..] + rest;
      FirstTokenStops(token[1..], rest);
      assert [token[0]] + token[1..] == token;
    }
  }

  lemma SplitThree(a: string, b: string, c: string)
    requires forall i :: 0 <= i < |a| ==> a[i] != '/'
    requires forall i :: 0 <= i < |b| ==> b[i] != '/'
    requires forall i :: 0 <= i < |c| ==> c[i] != '/'
    ensures Split(a + "/" + b + "/" + c, '/') == [a, b, c]
  {
    SplitWithoutSeparator(a, '/');
    SplitWithoutSeparator(b, '/');
    SplitWithoutSeparator(c, '/');
    assert a + "/" + b + "/" + c == a + ['/'] + (b + ['/'] + c);
    SplitAppend(a, '/', b + ['/'] + c);
    SplitAppend(b, '/', c);
  }
}
