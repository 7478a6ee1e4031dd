/**
 * What the rendered texts of pkg/utils/formatter.go mean: the shape of the header and
 * the separator, where each value sits, how the text splits back into lines, and that
 * the summary line reports exactly the number of rows the cursor delivered.
 */
module FormatterProperties {
  import opened Wrappers
  import opened Text
  import opened Formatter

  /** Leading dashes start no `|---` segment. */
  lemma DashesStartNoSegment(rest: string)
    ensures Occurrences("---" + rest, "|---") == Occurrences(rest, "|---")
  {
    OccurrencesSkip("---" + rest, "|---");
    assert ("---" + rest)[1..] == "--" + rest;
    OccurrencesSkip("--" + rest, "|---");
    assert ("--" + rest)[1..] == "-" + rest;
    OccurrencesSkip("-" + rest, "|---");
    assert ("-" + rest)[1..] == rest;
  }

  /** `|---` starts one segment, and the text after its bar starts no other. */
  lemma SegmentThen(rest: string)
    ensures Occurrences("|---" + rest, "|---") == 1 + Occurrences(rest, "|---")
    ensures Count('|', "|---" + rest) == 1 + Count('|', rest)
  {
    var s := "|---" + rest;
    assert s[..4] == "|---";
    assert s[1..] == "---" + rest;
    DashesStartNoSegment(rest);
    CountAppend('|', "|---", rest);
    assert "|---" == "|" + "---";
    CountAppend('|', "|", "---");
    CountSingle('|', '|');
    CountAbsent('|', "---");
  }

  /** The separator holds one `|---` segment per column and one more `|` to close it. */
  lemma {:induction false} SeparatorSegments(n: nat)
    ensures Occurrences(SeparatorText(n), "|---") == n
    ensures Count('|', SeparatorText(n)) == n + 1
    ensures '\n' !in SeparatorText(n)
  {
    if n == 0 {
      assert SeparatorText(0) == "|";
      CountSingle('|', '|');
    } else {
      var rest := SeparatorText(n - 1);
      SeparatorSegments(n - 1);
      assert SeparatorText(n) == "|---" + rest;
      SegmentThen(rest);
    }
  }

  /** The bars of the three fixed pieces a framed line is made of. */
  lemma FrameBars()
    ensures Count('|', "| ") == 1 && Count('|', " |") == 1 && Count('|', " | ") == 1
  {
    assert "| "[..1] == "|" && " |"[..1] == " " && " | "[..2] == " |";
    CountSingle('|', '|');
    CountSingle('|', ' ');
  }

  /** Bars in `| ` + parts joined by ` | ` + ` |`: one per boundary when no part holds a bar. */
  lemma FramedBars(parts: seq<string>)
    requires |parts| > 0
    requires forall i :: 0 <= i < |parts| ==> '|' !in parts[i]
    ensures Count('|', "| " + Join(parts, " | ") + " |") == |parts| + 1
  {
    var j := Join(parts, " | ");
    FrameBars();
    CountJoin('|', parts, " | ");
    CountAppend('|', "| ", j);
    CountAppend('|', "| " + j, " |");
  }

  /** Part `i` stands in `| ` + parts joined by ` | ` + ` |` at two past its offset in the join. */
  lemma FramedPartAt(parts: seq<string>, i: nat)
    requires i < |parts|
    ensures var p := 2 + PartStart(parts, " | ", i);
      p + |parts[i]| <= |"| " + Join(parts, " | ") + " |"| && ("| " + Join(parts, " | ") + " |")[p..p + |parts[i]|] == parts[i]
  {
    JoinPart(parts, " | ", i);
    var p := PartStart(parts, " | ", i);
    var j := Join(parts, " | ");
    var framed := "| " + j + " |";
    assert framed[2..2 + |j|] == j;
    SliceOfSlice(framed, 2, 2 + |j|, p, p + |parts[i]|);
  }

  lemma SliceOfSlice(s: string, lo: nat, hi: nat, a: nat, b: nat)
    requires lo <= hi <= |s| && a <= b <= hi - lo
    ensures s[lo..hi][a..b] == s[lo + a..lo + b]
  {
    assert forall k :: 0 <= k < b - a ==> s[lo..hi][a..b][k] == s[lo + a + k];
  }

  /** The header line holds one `|` per column boundary when no name contains `|`. */
  lemma HeaderBars(columns: seq<string>)
    requires |columns| > 0
    requires forall i :: 0 <= i < |columns| ==> '|' !in columns[i]
    ensures Count('|', HeaderText(columns)) == |columns| + 1
  {
    FramedBars(columns);
  }

  /**
   * The header and the separator have the same number of `|`-delimited cells, one per
   * column, and the separator has exactly one `|---` per column.
   */
  lemma HeaderMatchesSeparator(columns: seq<string>)
    requires |columns| > 0
    requires forall i :: 0 <= i < |columns| ==> '|' !in columns[i]
    ensures Occurrences(SeparatorText(|columns|), "|---") == |columns|
    ensures Count('|', HeaderText(columns)) == Count('|', SeparatorText(|columns|)) == |columns| + 1
  {
    HeaderBars(columns);
    SeparatorSegments(|columns|);
  }

  /**
   * With one value per column, every data line has as many `|` as the header: one cell per
   * column, when neither names nor cell texts contain `|`.
   */
  lemma RowMatchesHeader(c: Cursor<Row>, k: nat)
    requires Aligned(c) && c.columns.Success? && |c.columns.value| > 0 && k < |c.values|
    requires forall i :: 0 <= i < |c.columns.value| ==> '|' !in c.columns.value[i]
    requires forall i :: 0 <= i < |c.values[k]| ==> '|' !in CellText(c.values[k][i])
    ensures Count('|', RowText(c.values[k])) == Count('|', HeaderText(c.columns.value)) == |c.columns.value| + 1
  {
    var texts := CellTexts(c.values[k]);
    assert forall i :: 0 <= i < |texts| ==> '|' !in texts[i];
    FramedBars(texts);
    HeaderBars(c.columns.value);
  }

  /** Column `i`'s name stands in the header at its offset, so names appear in the reported order. */
  lemma HeaderColumnAt(columns: seq<string>, i: nat)
    requires i < |columns|
    ensures var p := 2 + PartStart(columns, " | ", i);
      p + |columns[i]| <= |HeaderText(columns)| && HeaderText(columns)[p..p + |columns[i]|] == columns[i]
  {
    FramedPartAt(columns, i);
  }

  /** Value `i` of a row stands in the row's line at its offset, shown by `CellText`. */
  lemma RowCellAt(row: Row, i: nat)
    requires i < |row|
    ensures var p := 2 + PartStart(CellTexts(row), " | ", i);
      p + |CellText(row[i])| <= |RowText(row)| && RowText(row)[p..p + |CellText(row[i])|] == CellText(row[i])
  {
    FramedPartAt(CellTexts(row), i);
  }

  /** A NULL value is shown as the literal `NULL` at its position, never as an empty cell. */
  lemma NullShownAsLiteral(row: Row, i: nat)
    requires i < |row| && row[i] == Null
    ensures var p := 2 + PartStart(CellTexts(row), " | ", i);
      p + 4 <= |RowText(row)| && RowText(row)[p..p + 4] == "NULL"
  {
    RowCellAt(row, i);
  }

  /** No line of the table holds a newline when no name and no value does. */
  lemma TableLinesSingleLine(columns: seq<string>, rows: seq<Row>)
    requires forall i :: 0 <= i < |columns| ==> '\n' !in columns[i]
    requires forall k, i :: 0 <= k < |rows| && 0 <= i < |rows[k]| ==> '\n' !in CellText(rows[k][i])
    ensures forall i :: 0 <= i < |TableLines(columns, rows)| ==> '\n' !in TableLines(columns, rows)[i]
  {
    var lines := TableLines(columns, rows);
    NoNewlineFramed(columns);
    SeparatorSegments(|columns|);
    forall k | 0 <= k < |rows|
      ensures '\n' !in RowText(rows[k])
    {
      var texts := CellTexts(rows[k]);
      assert forall i :: 0 <= i < |texts| ==> '\n' !in texts[i];
      NoNewlineFramed(texts);
    }
  }

  /** `| ` + parts joined by ` | ` + ` |` holds no newline when no part does. */
  lemma NoNewlineFramed(parts: seq<string>)
    requires forall i :: 0 <= i < |parts| ==> '\n' !in parts[i]
    ensures '\n' !in "| " + Join(parts, " | ") + " |"
  {
    var j := Join(parts, " | ");
    if |parts| > 0 {
      CountJoin('\n', parts, " | ");
      CountZero('\n', " | ");
      CountZero('\n', j);
    }
    assert '\n' !in "| " && '\n' !in " |";
  }

  /** The text of a markdown table with at least one column, once the cursor drained cleanly. */
  lemma MarkdownShape(c: Cursor<Row>)
    requires c.columns.Success? && |c.columns.value| > 0 && MarkdownTable(c).Success?
    ensures MarkdownTable(c).value
         == Terminated(TableLines(c.columns.value, c.values)) + "\n" + RowCountText(|c.values|)
  {
  }

  /**
   * A markdown table splits back into exactly: the header, the separator, one line per
   * row in order, a blank line and the summary line.
   */
  lemma MarkdownLines(c: Cursor<Row>)
    requires c.columns.Success? && |c.columns.value| > 0 && MarkdownTable(c).Success?
    requires forall i :: 0 <= i < |c.columns.value| ==> '\n' !in c.columns.value[i]
    requires forall k, i :: 0 <= k < |c.values| && 0 <= i < |c.values[k]| ==> '\n' !in CellText(c.values[k][i])
    ensures SplitLines(MarkdownTable(c).value)
         == TableLines(c.columns.value, c.values) + ["", RowCountText(|c.values|)]
  {
    var lines := TableLines(c.columns.value, c.values);
    var summary := RowCountText(|c.values|);
    MarkdownShape(c);
    TerminatedThenSummary(lines, summary);
    TableLinesSingleLine(c.columns.value, c.values);
    CountLineSingleLine(|c.values|, RowCountSuffix);
    var all := lines + ["", summary];
    assert forall i :: 0 <= i < |all| ==> '\n' !in all[i];
    SplitJoin(all);
  }

  /**
   * Whatever the cells hold, the last line of a markdown table reports exactly the number
   * of rows the cursor delivered, zero included.
   */
  lemma MarkdownRowCount(c: Cursor<Row>)
    requires c.columns.Success? && |c.columns.value| > 0 && MarkdownTable(c).Success?
    ensures var lines := SplitLines(MarkdownTable(c).value);
      ReportedCount(lines[|lines| - 1]) == |c.values|
  {
    var body := Terminated(TableLines(c.columns.value, c.values));
    MarkdownShape(c);
    CountLine(|c.values|, RowCountSuffix);
    SplitThenLine(body, RowCountText(|c.values|));
  }

  /** Every successful markdown text is at least 20 characters long. */
  lemma MarkdownLength(c: Cursor<Row>)
    requires MarkdownTable(c).Success?
    ensures |MarkdownTable(c).value| >= 20
  {
    var columns := c.columns.value;
    if |columns| > 0 {
      var head := [HeaderText(columns), SeparatorText(|columns|)];
      TerminatedAppend(head, RowTexts(c.values));
      assert TableLines(columns, c.values) == head + RowTexts(c.values);
      assert |Terminated(head)| >= 2;
      assert |RowCountText(|c.values|)| >= |RowCountSuffix| == 16;
    }
  }

  // ---------------------------------------------------------------------------
  // JSON rows

  /** A row's map has exactly the column names as keys. */
  lemma {:induction false} RowObjectKeys(columns: seq<string>, row: Row, name: string)
    requires |row| == |columns|
    ensures name in RowObject(columns, row) <==> name in columns
  {
    if |columns| > 0 {
      var n := |columns| - 1;
      RowObjectKeys(columns[..n], row[..n], name);
      assert columns == columns[..n] + [columns[n]];
    }
  }

  /**
   * The map gives each name the text of its last column: a repeated name keeps the
   * later value, and a NULL is the text `NULL`.
   */
  lemma {:induction false} RowObjectLastWins(columns: seq<string>, row: Row, i: nat)
    requires |row| == |columns| && i < |columns|
    requires forall j :: i < j < |columns| ==> columns[j] != columns[i]
    ensures columns[i] in RowObject(columns, row)
    ensures RowObject(columns, row)[columns[i]] == CellText(row[i])
  {
    var n := |columns| - 1;
    if i < n {
      RowObjectLastWins(columns[..n], row[..n], i);
    }
  }

  /** One map per delivered row, in order; zero rows give the empty list. */
  lemma JsonOnePerRow(c: Cursor<Row>)
    requires Aligned(c) && JsonRows(c).Success?
    ensures |JsonRows(c).value| == |c.values|
    ensures forall k :: 0 <= k < |c.values| ==> JsonRows(c).value[k].Keys == set i | 0 <= i < |c.columns.value| :: c.columns.value[i]
  {
    var columns := c.columns.value;
    forall k | 0 <= k < |c.values|
      ensures JsonRows(c).value[k].Keys == set i | 0 <= i < |columns| :: columns[i]
    {
      forall name ensures name in RowObject(columns, c.values[k]) <==> name in columns {
        RowObjectKeys(columns, c.values[k], name);
      }
    }
  }

  // ---------------------------------------------------------------------------
  // Single-column list

  /**
   * A list splits back into its head lines, one `| value |` line per value, a blank line
   * and the summary line.
   */
  lemma ListingLines(c: Cursor<string>, head: seq<string>, noun: string)
    requires Listing(c, head, noun).Success?
    requires |head| > 0 && forall i :: 0 <= i < |head| ==> '\n' !in head[i]
    requires '\n' !in noun
    requires forall k :: 0 <= k < |c.values| ==> '\n' !in c.values[k]
    ensures SplitLines(Listing(c, head, noun).value)
         == head + NameTexts(c.values) + ["", FoundText(|c.values|, noun)]
  {
    var names := NameTexts(c.values);
    forall k | 0 <= k < |names|
      ensures '\n' !in names[k]
    {
      NoNewlineFramed([c.values[k]]);
      assert names[k] == "| " + Join([c.values[k]], " | ") + " |";
    }
    var lines := head + names;
    var summary := FoundText(|c.values|, noun);
    TerminatedThenSummary(lines, summary);
    CountLineSingleLine(|c.values|, " " + noun + "(s) found");
    assert summary == NatToString(|c.values|) + (" " + noun + "(s) found");
    var all := lines + ["", summary];
    assert forall i :: 0 <= i < |all| ==> '\n' !in all[i] by {
      assert forall i :: 0 <= i < |lines| ==> lines[i] == if i < |head| then head[i] else names[i - |head|];
    }
    SplitJoin(all);
  }

  /** The last line of a list reports exactly the number of values scanned. */
  lemma ListingCount(c: Cursor<string>, head: seq<string>, noun: string)
    requires Listing(c, head, noun).Success?
    requires '\n' !in noun
    ensures var lines := SplitLines(Listing(c, head, noun).value);
      ReportedCount(lines[|lines| - 1]) == |c.values|
  {
    var suffix := " " + noun + "(s) found";
    var summary := FoundText(|c.values|, noun);
    assert summary == NatToString(|c.values|) + suffix;
    CountLine(|c.values|, suffix);
    SplitThenLine(Terminated(head + NameTexts(c.values)), summary);
  }

  /**
   * `FormatSimpleTable` lists the header, the fixed separator (whatever the name's
   * length), the values and a last line counting them.
   */
  lemma SimpleLines(c: Cursor<string>, columnName: string)
    requires SimpleTable(c, columnName).Success?
    requires '\n' !in columnName
    requires forall k :: 0 <= k < |c.values| ==> '\n' !in c.values[k]
    ensures var lines := SplitLines(SimpleTable(c, columnName).value);
      lines == [NameText(columnName), SimpleSeparator] + NameTexts(c.values) + ["", FoundText(|c.values|, columnName)]
      && ReportedCount(lines[|lines| - 1]) == |c.values|
  {
    var head := [NameText(columnName), SimpleSeparator];
    NoNewlineFramed([columnName]);
    assert NameText(columnName) == "| " + Join([columnName], " | ") + " |";
    ListingLines(c, head, columnName);
    ListingCount(c, head, columnName);
  }
}
