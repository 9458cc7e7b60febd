/** The ledger as the bot sees it: a sheet of rows whose first row is the header. Rows are
    written as seven cells (date, type, category, first account, second account, description,
    amount) and read back as the strings the sheet displays. This module holds the arithmetic on
    that sheet: serialising a transaction, the field-to-column map of a cell update, the row
    range of a delete, and the window of most recent rows. */
module Ledger {

  import opened Wrappers

  /** One entry of the ledger, as the bot builds it before writing. */
  datatype Transaction = Transaction(
    date: string,
    txType: string,
    category: string,
    account1: string,
    account2: string,
    description: string,
    amount: real)

  /** A written cell: the six text fields are strings, the amount is a number. */
  datatype Cell = Text(text: string) | Number(number: real)

  /** A row as the sheet displays it when read back. */
  type SheetRow = seq<string>

  /** The seven cells of `addTransactionToSheet` and of each row of `addMultipleTransactions`. */
  function ToRow(t: Transaction): (row: seq<Cell>)
    ensures |row| == 7
  {
    [Text(t.date), Text(t.txType), Text(t.category), Text(t.account1), Text(t.account2),
     Text(t.description), Number(t.amount)]
  }

  /** Reads a written row back into a transaction; anything but six text cells followed by a
      number is not a row the bot writes. */
  function FromRow(row: seq<Cell>): Option<Transaction> {
    if |row| == 7 && row[0].Text? && row[1].Text? && row[2].Text? && row[3].Text?
       && row[4].Text? && row[5].Text? && row[6].Number?
    then Some(Transaction(row[0].text, row[1].text, row[2].text, row[3].text, row[4].text,
                          row[5].text, row[6].number))
    else None
  }

  /** Serialising loses nothing, and every row that reads back was produced by serialising. */
  lemma RowRoundTrip(t: Transaction, row: seq<Cell>)
    ensures FromRow(ToRow(t)) == Some(t)
    ensures FromRow(row) == Some(t) ==> ToRow(t) == row
  {
    if FromRow(row) == Some(t) {
      assert row == [row[0], row[1], row[2], row[3], row[4], row[5], row[6]];
    }
  }

  /** The rows of one batch append, one per transaction and in the same order. */
  function ToRows(ts: seq<Transaction>): (rows: seq<seq<Cell>>)
    ensures |rows| == |ts|
    ensures forall k :: 0 <= k < |ts| ==> FromRow(rows[k]) == Some(ts[k])
  {
    if |ts| == 0 then []
    else
      RowRoundTrip(ts[0], ToRow(ts[0]));
      [ToRow(ts[0])] + ToRows(ts[1..])
  }

  /** A batch of several transactions writes the same rows as writing them one at a time. */
  lemma {:induction false} ToRowsAppend(a: seq<Transaction>, b: seq<Transaction>)
    ensures ToRows(a + b) == ToRows(a) + ToRows(b)
  {
    if |a| > 0 {
      assert (a + b)[1..] == a[1..] + b;
      ToRowsAppend(a[1..], b);
    } else {
      assert a + b == b;
    }
  }

  /** The field names `updateTransaction` accepts, in row order. */
  const FieldNames: seq<string> :=
    ["date", "type", "category", "account1", "account2", "description", "amount"]

  /** `columnMap[field]`: the sheet column of a field, or `None` for a field the update refuses. */
  function ColumnFor(field: string): Option<char> {
    if field == "date" then Some('A')
    else if field == "type" then Some('B')
    else if field == "category" then Some('C')
    else if field == "account1" then Some('D')
    else if field == "account2" then Some('E')
    else if field == "description" then Some('F')
    else if field == "amount" then Some('G')
    else None
  }

  /** The 0-based position of a column letter within a row. */
  function ColumnIndex(column: char): int {
    column as int - 'A' as int
  }

  /** The value a transaction holds in the named field, as the cell it is written to. */
  function FieldCell(t: Transaction, field: string): Option<Cell> {
    match field
    case "date" => Some(Text(t.date))
    case "type" => Some(Text(t.txType))
    case "category" => Some(Text(t.category))
    case "account1" => Some(Text(t.account1))
    case "account2" => Some(Text(t.account2))
    case "description" => Some(Text(t.description))
    case "amount" => Some(Number(t.amount))
    case _ => None
  }

  /** Every field the update accepts maps to the column where the serialised row stores that
      field, and an unknown field is refused. */
  lemma ColumnMatchesRow(t: Transaction, field: string)
    ensures ColumnFor(field).Some? <==> field in FieldNames
    ensures ColumnFor(field).Some? ==>
              var c := ColumnIndex(ColumnFor(field).value);
              0 <= c < 7 && FieldNames[c] == field && FieldCell(t, field) == Some(ToRow(t)[c])
  {
  }

  /** A cell update on a read-back sheet: row `rowIndex` (1-based, as in `A5`) gets `value` in
      the column's position, padded with empty cells if the row was shorter. A row past the end
      is left out: the bot only updates rows it listed. */
  function UpdateCell(rows: seq<SheetRow>, rowIndex: int, column: char, value: string): (r: seq<SheetRow>)
    requires 'A' <= column <= 'G'
    ensures |r| == |rows|
    ensures forall i :: 0 <= i < |rows| && i != rowIndex - 1 ==> r[i] == rows[i]
    ensures 1 <= rowIndex <= |rows| ==>
              var c := ColumnIndex(column);
              |r[rowIndex - 1]| == if |rows[rowIndex - 1]| > c then |rows[rowIndex - 1]| else c + 1
  {
    if 1 <= rowIndex <= |rows| then
      var row := rows[rowIndex - 1];
      var c := ColumnIndex(column);
      var padded := if |row| > c then row else row + seq(c + 1 - |row|, _ => "");
      rows[rowIndex - 1 := padded[c := value]]
    else rows
  }

  /** After an update the addressed cell holds the new value and every other cell keeps its
      old content (or is a padding blank). */
  lemma UpdateCellContents(rows: seq<SheetRow>, rowIndex: int, column: char, value: string, j: nat)
    requires 'A' <= column <= 'G' && 1 <= rowIndex <= |rows|
    requires j < |UpdateCell(rows, rowIndex, column, value)[rowIndex - 1]|
    ensures var cell := UpdateCell(rows, rowIndex, column, value)[rowIndex - 1][j];
            && (j == ColumnIndex(column) ==> cell == value)
            && (j != ColumnIndex(column) && j < |rows[rowIndex - 1]| ==> cell == rows[rowIndex - 1][j])
            && (j != ColumnIndex(column) && j >= |rows[rowIndex - 1]| ==> cell == "")
  {
  }

  /** `deleteDimension` over `[rowIndex - 1, rowIndex)`: the 0-based half-open range of the
      1-based row `rowIndex`. */
  function DeleteRange(rowIndex: int): (range: (int, int)) {
    (rowIndex - 1, rowIndex)
  }

  /** Removing the half-open 0-based range `[start, end)` of rows. */
  function RemoveRows<R>(rows: seq<R>, start: int, end: int): (r: seq<R>)
    requires 0 <= start <= end <= |rows|
    ensures |r| == |rows| - (end - start)
  {
    rows[..start] + rows[end..]
  }

  /** Deleting by 1-based row number removes exactly that row: the rows before it stay in
      place and the rows after it move up by one. */
  lemma DeleteRemovesOneRow<R>(rows: seq<R>, rowIndex: int)
    requires 1 <= rowIndex <= |rows|
    ensures var (start, end) := DeleteRange(rowIndex);
            && 0 <= start < end <= |rows| && end - start == 1
            && var r := RemoveRows(rows, start, end);
            && |r| == |rows| - 1
            && (forall i :: 0 <= i < rowIndex - 1 ==> r[i] == rows[i])
            && (forall i :: rowIndex - 1 <= i < |r| ==> r[i] == rows[i + 1])
  {
  }

  /** `rows.slice(-limit)`: the last `limit` rows, or all of them when there are fewer; a limit
      of 0 is `slice(-0)`, which is the whole sheet. */
  function RecentWindow<R>(rows: seq<R>, limit: nat): (w: seq<R>) {
    if limit == 0 || limit >= |rows| then rows else rows[|rows| - limit..]
  }

  /** The window is the suffix of `min(limit, n)` rows (all rows when the limit is 0). */
  lemma RecentWindowIsSuffix<R>(rows: seq<R>, limit: nat)
    ensures var w := RecentWindow(rows, limit);
            && |w| == (if limit == 0 || limit >= |rows| then |rows| else limit)
            && w == rows[|rows| - |w|..]
            && (forall k :: 0 <= k < |w| ==> w[k] == rows[|rows| - |w| + k])
  {
  }

  /** The 1-based sheet row behind the `selection`-th row (1-based) of a window of
      `windowLength` rows cut from a sheet of `allCount` rows. */
  function SelectionTarget(allCount: int, windowLength: int, selection: int): int {
    allCount - (windowLength - selection)
  }

  /** A selection among the ten most recent rows targets the very row it showed. */
  lemma SelectionTargetsShownRow<R>(all: seq<R>, selection: int)
    requires 1 <= selection <= |RecentWindow(all, 10)|
    ensures var w := RecentWindow(all, 10);
            var target := SelectionTarget(|all|, |w|, selection);
            1 <= target <= |all| && all[target - 1] == w[selection - 1]
  {
    RecentWindowIsSuffix(all, 10);
  }

  /** When the whole sheet fits in the window, selection 1 is the header row, although the
      listing does not show it. */
  lemma SmallSheetSelectionOneIsHeader<R>(all: seq<R>)
    requires 1 <= |all| <= 10
    ensures SelectionTarget(|all|, |RecentWindow(all, 10)|, 1) == 1
    ensures RecentWindow(all, 10)[0] == all[0]
  {
  }
}
