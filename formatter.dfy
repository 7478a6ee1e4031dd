/**
 * The three result renderers of pkg/utils/formatter.go.
 *
 * A query result is a `Cursor`: the column names (or the error `rows.Columns()` gives),
 * the rows the cursor delivers, and at most one fault: the scan of some row fails, or
 * `rows.Err()` reports an error once the rows are exhausted. Each renderer is a method
 * that walks the cursor the way the Go loop does, proved equal to a specification
 * function; the lemmas below say what the rendered text means.
 */
module Formatter {
  import opened Wrappers
  import opened Text
  import opened Driver

  /** One scanned value: SQL NULL, a `[]byte` (text to show as is), or any other scalar with its `%v` text. */
  datatype Cell = Null | Bytes(text: string) | Other(text: string)

  type Row = seq<Cell>

  datatype Fault =
    | NoFault
    | ScanFails(at: nat, cause: string)   // `rows.Scan` fails on row `at` (if the cursor gets that far)
    | IterationFails(cause: string)       // `rows.Err()` is non-nil after the last row

  datatype Cursor<T> = Cursor(columns: Result<seq<string>, string>, values: seq<T>, fault: Fault)

  /** The reply to a statement that yields no columns (written in two parts so proofs can read it). */
  const NoResultsMessage := "Query executed successfully" + " (no results to display)"
  const RowCountSuffix := " row(s) returned"
  const SimpleSeparator := "|----------|"

  // ---------------------------------------------------------------------------
  // Errors the renderers report

  function ColumnsError(cause: string): string
  {
    Wrap("failed to get column names", cause)
  }

  /** The error of the first failing scan, if the cursor reaches the failing row. */
  function ScanError<T>(c: Cursor<T>): Option<string>
  {
    match c.fault
    case ScanFails(k, cause) => if k < |c.values| then Some(Wrap("failed to scan row", cause)) else None
    case _ => None
  }

  /** What `rows.Err()` reports once the loop is over. */
  function IterationError<T>(c: Cursor<T>): Option<string>
  {
    match c.fault
    case IterationFails(cause) => Some(Wrap("error iterating over rows", cause))
    case _ => None
  }

  /** The error draining the cursor raises, if any. */
  function DrainError<T>(c: Cursor<T>): Option<string>
  {
    if ScanError(c).Some? then ScanError(c) else IterationError(c)
  }

  // ---------------------------------------------------------------------------
  // Markdown table: the lines of the text, each without its newline

  /** How a scanned value is shown: NULL as the literal `NULL`, bytes as their text. */
  function CellText(c: Cell): string
  {
    match c
    case Null => "NULL"
    case Bytes(b) => b
    case Other(s) => s
  }

  function CellTexts(row: Row): (texts: seq<string>)
    ensures |texts| == |row|
    ensures forall i :: 0 <= i < |row| ==> texts[i] == CellText(row[i])
  {
    seq(|row|, i requires 0 <= i < |row| => CellText(row[i]))
  }

  function HeaderText(columns: seq<string>): string
  {
    "| " + Join(columns, " | ") + " |"
  }

  function SeparatorText(n: nat): string
  {
    Repeat("|---", n) + "|"
  }

  function RowText(row: Row): string
  {
    "| " + Join(CellTexts(row), " | ") + " |"
  }

  function RowTexts(rows: seq<Row>): (lines: seq<string>)
    ensures |lines| == |rows|
    ensures forall k :: 0 <= k < |rows| ==> lines[k] == RowText(rows[k])
  {
    seq(|rows|, k requires 0 <= k < |rows| => RowText(rows[k]))
  }

  function TableLines(columns: seq<string>, rows: seq<Row>): seq<string>
  {
    [HeaderText(columns), SeparatorText(|columns|)] + RowTexts(rows)
  }

  function RowCountText(n: nat): string
  {
    NatToString(n) + RowCountSuffix
  }

  /** What `FormatQueryResult` returns for a cursor. */
  function MarkdownTable(c: Cursor<Row>): Result<string, string>
  {
    match c.columns
    case Failure(cause) => Failure(ColumnsError(cause))
    case Success(columns) =>
      if |columns| == 0 then Success(NoResultsMessage)
      else match DrainError(c)
        case Some(e) => Failure(e)
        case None => Success(Terminated(TableLines(columns, c.values)) + "\n" + RowCountText(|c.values|))
  }

  /** The header line: the column names in order, joined by ` | ` between `| ` and ` |`. */
  method WriteHeader(columns: seq<string>) returns (line: string)
    requires |columns| > 0
    ensures line == HeaderText(columns) + "\n"
  {
    line := "| " + columns[0];
    var i := 1;
    while i < |columns|
      invariant 1 <= i <= |columns|
      invariant line == "| " + Join(columns[..i], " | ")
    {
      JoinSnoc(columns[..i], " | ", columns[i]);
      assert columns[..i + 1] == columns[..i] + [columns[i]];
      line := line + " | " + columns[i];
      i := i + 1;
    }
    assert columns[..i] == columns;
    line := line + " |\n";
  }

  /** The separator line: one `|---` per column, then `|`. */
  method WriteSeparator(n: nat) returns (line: string)
    requires n > 0
    ensures line == SeparatorText(n) + "\n"
  {
    line := "|---";
    var j := 1;
    while j < n
      invariant 1 <= j <= n
      invariant line == Repeat("|---", j)
    {
      RepeatSnoc("|---", j);
      line := line + "|---";
      j := j + 1;
    }
    line := line + "|\n";
  }

  /** Header and separator, the head every markdown renderer starts with. */
  method WriteHead(columns: seq<string>) returns (text: string)
    requires |columns| > 0
    ensures text == Terminated([HeaderText(columns), SeparatorText(|columns|)])
  {
    var header := WriteHeader(columns);
    var separator := WriteSeparator(|columns|);
    text := header + separator;
    TerminatedSnoc([HeaderText(columns)], SeparatorText(|columns|));
  }

  /** One data line: the row's values joined by ` | ` between `| ` and ` |`. */
  method WriteRow(row: Row) returns (line: string)
    ensures line == RowText(row) + "\n"
  {
    ghost var texts := CellTexts(row);
    line := "| ";
    for i := 0 to |row|
      invariant line == "| " + Join(texts[..i], " | ")
    {
      assert texts[..i + 1] == texts[..i] + [texts[i]];
      if i > 0 {
        JoinSnoc(texts[..i], " | ", texts[i]);
        line := line + " | ";
      }
      if row[i] == Null {
        line := line + "NULL";
      } else {
        line := line + row[i].text;
      }
    }
    assert texts[..|row|] == texts;
    line := line + " |\n";
  }

  /**
   * The `for rows.Next()` loop of the markdown renderers: scans each row, appends its
   * line and counts it; a failing scan abandons the text.
   */
  method AppendRows(table: string, c: Cursor<Row>) returns (text: string, count: nat, err: Option<string>)
    ensures err == ScanError(c)
    ensures err.Some? ==> text == ""
    ensures err.None? ==> count == |c.values| && text == table + Terminated(RowTexts(c.values))
  {
    text, count := table, 0;
    ghost var lines := RowTexts(c.values);
    var k := 0;
    while k < |c.values|
      invariant 0 <= k <= |c.values| && count == k
      invariant c.fault.ScanFails? ==> c.fault.at >= k
      invariant text == table + Terminated(lines[..k])
    {
      if c.fault.ScanFails? && c.fault.at == k {
        return "", count, Some(Wrap("failed to scan row", c.fault.cause));
      }
      var line := WriteRow(c.values[k]);
      TerminatedStep(table, lines, k);
      text := text + line;
      count := count + 1;
      k := k + 1;
    }
    assert lines[..k] == lines;
    err := None;
  }

  /** `FormatQueryResult`: the markdown table, or an error and no text at all. */
  method FormatQueryResult(c: Cursor<Row>) returns (result: string, err: Option<string>)
    ensures err.Some? ==> result == ""
    ensures err.None? ==> MarkdownTable(c) == Success(result)
    ensures err.Some? ==> MarkdownTable(c) == Failure(err.value)
    ensures c.columns == Success([]) ==> err == None && result == NoResultsMessage
  {
    if c.columns.Failure? {
      return "", Some(ColumnsError(c.columns.error));
    }
    var columns := c.columns.value;
    if |columns| == 0 {
      return NoResultsMessage, None;
    }
    var head := WriteHead(columns);
    var rowCount;
    result, rowCount, err := AppendRows(head, c);
    if err.Some? {
      return "", err;
    }
    var iterationErr := IterationError(c);
    if iterationErr.Some? {
      return "", iterationErr;
    }
    TerminatedAppend([HeaderText(columns), SeparatorText(|columns|)], RowTexts(c.values));
    assert result == Terminated(TableLines(columns, c.values));
    assert DrainError(c) == None;
    result := result + "\n" + NatToString(rowCount) + RowCountSuffix;
    assert result == Terminated(TableLines(columns, c.values)) + "\n" + RowCountText(|c.values|);
  }

  // ---------------------------------------------------------------------------
  // Single-column list

  function NameText(name: string): string
  {
    "| " + name + " |"
  }

  function NameTexts(names: seq<string>): (lines: seq<string>)
    ensures |lines| == |names|
    ensures forall k :: 0 <= k < |names| ==> lines[k] == NameText(names[k])
  {
    seq(|names|, k requires 0 <= k < |names| => NameText(names[k]))
  }

  /** The summary line of a single-column list of `noun`s. */
  function FoundText(n: nat, noun: string): string
  {
    NatToString(n) + " " + noun + "(s) found"
  }

  /**
   * A single-column list: the `head` lines, one `| value |` line per scanned value, a
   * blank line and the count of `noun`s found; or the first error draining the cursor.
   */
  function Listing(c: Cursor<string>, head: seq<string>, noun: string): Result<string, string>
  {
    match DrainError(c)
    case Some(e) => Failure(e)
    case None => Success(Terminated(head + NameTexts(c.values)) + "\n" + FoundText(|c.values|, noun))
  }

  /**
   * What `FormatSimpleTable` returns: the list headed by the column name over a separator
   * of fixed width, whatever the name's length, and counted in the name itself.
   */
  function SimpleTable(c: Cursor<string>, columnName: string): Result<string, string>
  {
    Listing(c, [NameText(columnName), SimpleSeparator], columnName)
  }

  /** The `for rows.Next()` loop of the list renderers: one `| value |` line per scanned value. */
  method AppendNames(table: string, c: Cursor<string>) returns (text: string, count: nat, err: Option<string>)
    ensures err == ScanError(c)
    ensures err.Some? ==> text == ""
    ensures err.None? ==> count == |c.values| && text == table + Terminated(NameTexts(c.values))
  {
    text, count := table, 0;
    ghost var lines := NameTexts(c.values);
    var k := 0;
    while k < |c.values|
      invariant 0 <= k <= |c.values| && count == k
      invariant c.fault.ScanFails? ==> c.fault.at >= k
      invariant text == table + Terminated(lines[..k])
    {
      if c.fault.ScanFails? && c.fault.at == k {
        return "", count, Some(Wrap("failed to scan row", c.fault.cause));
      }
      var value := c.values[k];
      TerminatedStep(table, lines, k);
      text := text + ("| " + value + " |\n");
      count := count + 1;
      k := k + 1;
    }
    assert lines[..k] == lines;
    err := None;
  }

  /** `FormatSimpleTable`: the labelled list, or an error and no text at all. */
  method FormatSimpleTable(c: Cursor<string>, columnName: string) returns (result: string, err: Option<string>)
    ensures err.Some? ==> result == ""
    ensures err.None? ==> SimpleTable(c, columnName) == Success(result)
    ensures err.Some? ==> SimpleTable(c, columnName) == Failure(err.value)
  {
    result := "| " + columnName + " |\n";
    result := result + SimpleSeparator + "\n";
    TerminatedSnoc([NameText(columnName)], SimpleSeparator);
    var count;
    result, count, err := AppendNames(result, c);
    if err.Some? {
      return "", err;
    }
    var iterationErr := IterationError(c);
    if iterationErr.Some? {
      return "", iterationErr;
    }
    TerminatedAppend([NameText(columnName), SimpleSeparator], NameTexts(c.values));
    ghost var lines := [NameText(columnName), SimpleSeparator] + NameTexts(c.values);
    assert result == Terminated(lines);
    assert DrainError(c) == None;
    result := result + "\n" + NatToString(count) + " " + columnName + "(s) found";
    assert result == Terminated(lines) + "\n" + FoundText(|c.values|, columnName);
  }

  // ---------------------------------------------------------------------------
  // JSON rows: one column-to-text map per row, before `json.MarshalIndent`

  /** The driver delivers one value per reported column in every row. */
  predicate Aligned(c: Cursor<Row>)
  {
    c.columns.Success? ==> forall k :: 0 <= k < |c.values| ==> |c.values[k]| == |c.columns.value|
  }

  /** The map built for one row: each column in turn, so a repeated name keeps the later value. */
  function RowObject(columns: seq<string>, row: Row): map<string, string>
    requires |row| == |columns|
  {
    if |columns| == 0 then map[]
    else
      var n := |columns| - 1;
      RowObject(columns[..n], row[..n])[columns[n] := CellText(row[n])]
  }

  /** What `FormatQueryResultAsJson` hands to the JSON encoder. */
  function JsonRows(c: Cursor<Row>): Result<seq<map<string, string>>, string>
    requires Aligned(c)
  {
    match c.columns
    case Failure(cause) => Failure(ColumnsError(cause))
    case Success(columns) =>
      match DrainError(c)
      case Some(e) => Failure(e)
      case None => Success(seq(|c.values|, k requires 0 <= k < |c.values| => RowObject(columns, c.values[k])))
  }

  /** The per-row map, filled column by column from the scanned `sql.NullString`s. */
  method BuildObject(columns: seq<string>, row: Row) returns (obj: map<string, string>)
    requires |row| == |columns|
    ensures obj == RowObject(columns, row)
  {
    obj := map[];
    for i := 0 to |columns|
      invariant obj == RowObject(columns[..i], row[..i])
    {
      assert columns[..i + 1][..i] == columns[..i];
      assert row[..i + 1][..i] == row[..i];
      if row[i] == Null {
        obj := obj[columns[i] := "NULL"];
      } else {
        obj := obj[columns[i] := row[i].text];
      }
    }
    assert columns[..|columns|] == columns && row[..|row|] == row;
  }

  /** `FormatQueryResultAsJson` up to the encoder: the list of row maps, or an error. */
  method FormatQueryResultAsJson(c: Cursor<Row>) returns (r: Result<seq<map<string, string>>, string>)
    requires Aligned(c)
    ensures r == JsonRows(c)
  {
    if c.columns.Failure? {
      return Failure(ColumnsError(c.columns.error));
    }
    var columns := c.columns.value;
    var results: seq<map<string, string>> := [];
    var k := 0;
    while k < |c.values|
      invariant 0 <= k <= |c.values| && |results| == k
      invariant c.fault.ScanFails? ==> c.fault.at >= k
      invariant forall j :: 0 <= j < k ==> results[j] == RowObject(columns, c.values[j])
    {
      if c.fault.ScanFails? && c.fault.at == k {
        return Failure(Wrap("failed to scan row", c.fault.cause));
      }
      var obj := BuildObject(columns, c.values[k]);
      results := results + [obj];
      k := k + 1;
    }
    var iterationErr := IterationError(c);
    if iterationErr.Some? {
      return Failure(iterationErr.value);
    }
    assert results == seq(|c.values|, k requires 0 <= k < |c.values| => RowObject(columns, c.values[k]));
    return Success(results);
  }
}
