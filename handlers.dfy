/**
 * The tool handlers of pkg/handlers/handlers.go, each over the shared datastore. A
 * handler checks the connection before anything else, sends its statements, and renders
 * the cursor with pkg/utils. The result the library returns for each statement is a
 * parameter; `issued` lists the statements the handler sent, in order.
 */
module Handlers {
  import opened Wrappers
  import opened Text
  import opened Driver
  import opened Formatter
  import opened FormatterProperties
  import opened Datastore

  // ---------------------------------------------------------------------------
  // The describe handler's summary cut

  /** How far from the end of the rendered table the describe handler looks for a newline. */
  const DescribeWindow: nat := 20

  const DescribedSuffix := " table structure described successfully"

  /** The position of the first newline at or after `i`, or `|s|` if there is none. */
  function FirstNewlineFrom(s: string, i: nat): (j: nat)
    requires i <= |s|
    ensures i <= j <= |s|
    ensures j < |s| ==> s[j] == '\n'
    ensures forall k :: i <= k < j ==> s[k] != '\n'
    decreases |s| - i
  {
    if i == |s| || s[i] == '\n' then i else FirstNewlineFrom(s, i + 1)
  }

  /** The text up to the first newline among its last 20 characters (all of it if none). */
  function CutSummary(s: string): string
    requires |s| >= DescribeWindow
  {
    s[..FirstNewlineFrom(s, |s| - DescribeWindow)]
  }

  /** The scan that drops the `row(s) returned` summary before the describe trailer is added. */
  method TrimSummary(result: string) returns (trimmed: string)
    requires |result| >= DescribeWindow
    ensures trimmed == CutSummary(result)
  {
    trimmed := result;
    var rowCountIndex := |result| - DescribeWindow;
    var i := rowCountIndex;
    while i < |result|
      invariant rowCountIndex <= i <= |result|
      invariant forall k :: rowCountIndex <= k < i ==> result[k] != '\n'
    {
      if result[i] == '\n' {
        trimmed := result[..i];
        return;
      }
      i := i + 1;
    }
  }

  /** Every line of a markdown table ends in `|`. */
  lemma LastLineEndsInBar(columns: seq<string>, rows: seq<Row>)
    requires |columns| > 0
    ensures var lines := TableLines(columns, rows);
      var last := lines[|lines| - 1];
      |last| > 0 && last[|last| - 1] == '|'
  {
    var lines := TableLines(columns, rows);
    if |rows| == 0 {
      assert lines[|lines| - 1] == SeparatorText(|columns|);
    } else {
      assert lines[|lines| - 1] == RowText(rows[|rows| - 1]);
    }
  }

  /** A table's text ends in `|` and a newline. */
  lemma BodyEnding(columns: seq<string>, rows: seq<Row>)
    requires |columns| > 0
    ensures var body := Terminated(TableLines(columns, rows));
      |body| >= 2 && body[|body| - 1] == '\n' && body[|body| - 2] == '|'
  {
    var lines := TableLines(columns, rows);
    var last := lines[|lines| - 1];
    LastLineEndsInBar(columns, rows);
    assert lines[..|lines| - 1] + [last] == lines;
    TerminatedSnoc(lines[..|lines| - 1], last);
  }

  /**
   * The cut of a text ending in a line `tail` of at least 17 characters, after a body
   * whose last line is non-empty: a tail of 17 or 18 characters puts the body's final
   * newline in the window, one of 19 puts the newline before the tail there, and a
   * longer tail fills the window alone.
   */
  lemma CutAt(body: string, tail: string)
    requires |body| >= 2 && body[|body| - 1] == '\n' && body[|body| - 2] != '\n'
    requires '\n' !in tail && |tail| >= 17
    ensures |body + "\n" + tail| >= DescribeWindow
    ensures |tail| <= 18 ==> body == CutSummary(body + "\n" + tail) + "\n"
    ensures |tail| == 19 ==> CutSummary(body + "\n" + tail) == body
    ensures |tail| >= 20 ==> CutSummary(body + "\n" + tail) == body + "\n" + tail
  {
    var out := body + "\n" + tail;
    var w := |out| - DescribeWindow;
    assert forall k :: |body| < k < |out| ==> out[k] == tail[k - |body| - 1];
    var j := FirstNewlineFrom(out, w);
    if |tail| <= 18 {
      assert out[|body| - 1] == '\n';
      assert j == |body| - 1;
      assert out[..j] == body[..|body| - 1];
      assert body == body[..|body| - 1] + "\n";
    } else if |tail| == 19 {
      assert out[|body|] == '\n';
      assert out[..j] == body;
    } else {
      assert j == |out|;
    }
  }

  /**
   * What the cut keeps of a markdown table of N rows: below 100 rows, the table without
   * its final newline; from 100 to 999 rows, the table with it; from 1000 rows on, the
   * window holds no newline and the `row(s) returned` line survives.
   */
  lemma DescribeCut(c: Cursor<Row>)
    requires c.columns.Success? && |c.columns.value| > 0 && MarkdownTable(c).Success?
    ensures var out := MarkdownTable(c).value;
      var body := Terminated(TableLines(c.columns.value, c.values));
      |out| >= DescribeWindow
      && (|c.values| < 100 ==> body == CutSummary(out) + "\n")
      && (100 <= |c.values| < 1000 ==> CutSummary(out) == body)
      && (|c.values| >= 1000 ==> CutSummary(out) == out)
  {
    var n := |c.values|;
    var body := Terminated(TableLines(c.columns.value, c.values));
    var tail := RowCountText(n);
    MarkdownShape(c);
    NatToStringLength(n);
    BodyEnding(c.columns.value, c.values);
    CountLineSingleLine(n, RowCountSuffix);
    assert |tail| == |NatToString(n)| + 16;
    CutAt(body, tail);
  }

  /** A text of one line is never cut. */
  lemma SingleLineUncut(s: string)
    requires |s| >= DescribeWindow && '\n' !in s
    ensures CutSummary(s) == s
  {
    var j := FirstNewlineFrom(s, |s| - DescribeWindow);
  }

  lemma SentinelSingleLine()
    ensures |NoResultsMessage| >= DescribeWindow && '\n' !in NoResultsMessage
  {
    assert '\n' !in "Query executed successfully";
    assert '\n' !in " (no results to display)";
  }

  /** The zero-column sentinel has no newline, so the cut leaves it whole. */
  lemma SentinelUncut()
    ensures |NoResultsMessage| >= DescribeWindow
    ensures CutSummary(NoResultsMessage) == NoResultsMessage
  {
    SentinelSingleLine();
    SingleLineUncut(NoResultsMessage);
  }

  // ---------------------------------------------------------------------------
  // Handlers

  /** `connectHandler`: forwards the arguments to the datastore and reports its error unchanged. */
  method ConnectHandler(ds: MySQLDatastore, host: string, port: string, username: string, password: string,
                        database: string, dial: DialOutcome) returns (r: Result<string, string>)
    modifies ds, ds.DB
    ensures old(ds.DB) != null ==> old(ds.DB).closed
    ensures ConnectError(dial).Some? ==> r == Failure(ConnectError(dial).value)
    ensures ConnectError(dial).None? ==> r == Success(ConnectedMessage(host, port))
    ensures ds.IsConnected() <==> dial.openError.None?
    ensures ds.DB != null ==> fresh(ds.DB) && ds.DB.source == ConfigFor(host, port, username, password, database)
  {
    var err := ds.Connect(host, port, username, password, database, dial);
    if err.Some? {
      return Failure(err.value);
    }
    return Success("Successfully connected to MySQL at " + host + ":" + port);
  }

  /** `queryHandler`: runs the statement and renders it as a markdown table. */
  method QueryHandler(ds: MySQLDatastore, sql: string, response: Result<Cursor<Row>, string>)
    returns (r: Result<string, string>, issued: seq<Statement>)
    ensures !ds.IsConnected() ==> r == Failure(NotConnectedMessage) && issued == []
    ensures ds.IsConnected() ==> issued == [Query(sql)]
    ensures ds.IsConnected() && response.Failure? ==> r == Failure(Wrap("query execution failed", response.error))
    ensures ds.IsConnected() && response.Success? ==> r == MarkdownTable(response.value)
  {
    var guard := ds.CheckConnection();
    if guard.Some? {
      return Failure(guard.value), [];
    }
    issued := [Query(sql)];
    if response.Failure? {
      return Failure(Wrap("query execution failed", response.error)), issued;
    }
    var result, err := FormatQueryResult(response.value);
    if err.Some? {
      return Failure(err.value), issued;
    }
    r := Success(result);
  }

  /** `listDatabasesHandler`: `SHOW DATABASES` rendered as a list labelled `Database`. */
  method ListDatabasesHandler(ds: MySQLDatastore, response: Result<Cursor<string>, string>)
    returns (r: Result<string, string>, issued: seq<Statement>)
    ensures !ds.IsConnected() ==> r == Failure(NotConnectedMessage) && issued == []
    ensures ds.IsConnected() ==> issued == [Query("SHOW DATABASES")]
    ensures ds.IsConnected() && response.Failure? ==> r == Failure(Wrap("failed to list databases", response.error))
    ensures ds.IsConnected() && response.Success? ==> r == SimpleTable(response.value, "Database")
  {
    var guard := ds.CheckConnection();
    if guard.Some? {
      return Failure(guard.value), [];
    }
    issued := [Query("SHOW DATABASES")];
    if response.Failure? {
      return Failure(Wrap("failed to list databases", response.error)), issued;
    }
    var result, err := FormatSimpleTable(response.value, "Database");
    if err.Some? {
      return Failure(err.value), issued;
    }
    r := Success(result);
  }

  /**
   * `listTablesHandler`: when a non-empty database name is given, first `USE` it (and stop
   * at its error), then `SHOW TABLES` rendered as a list labelled `Table`.
   */
  method ListTablesHandler(ds: MySQLDatastore, database: Option<string>, useError: Option<string>,
                           response: Result<Cursor<string>, string>)
    returns (r: Result<string, string>, issued: seq<Statement>)
    ensures !ds.IsConnected() ==> r == Failure(NotConnectedMessage) && issued == []
    ensures ds.IsConnected() && (database == None || database == Some("")) ==> issued == [Query("SHOW TABLES")]
    ensures ds.IsConnected() && database.Some? && database.value != "" ==>
      var use := Exec("USE " + database.value);
      if useError.Some? then
        issued == [use] && r == Failure(Wrap("failed to switch to database " + database.value, useError.value))
      else issued == [use, Query("SHOW TABLES")]
    ensures ds.IsConnected() && Query("SHOW TABLES") in issued && response.Failure? ==>
      r == Failure(Wrap("failed to list tables", response.error))
    ensures ds.IsConnected() && Query("SHOW TABLES") in issued && response.Success? ==>
      r == SimpleTable(response.value, "Table")
  {
    var guard := ds.CheckConnection();
    if guard.Some? {
      return Failure(guard.value), [];
    }
    issued := [];
    if database.Some? && database.value != "" {
      issued := [Exec("USE " + database.value)];
      if useError.Some? {
        return Failure(Wrap("failed to switch to database " + database.value, useError.value)), issued;
      }
    }
    issued := issued + [Query("SHOW TABLES")];
    if response.Failure? {
      return Failure(Wrap("failed to list tables", response.error)), issued;
    }
    var result, err := FormatSimpleTable(response.value, "Table");
    if err.Some? {
      return Failure(err.value), issued;
    }
    r := Success(result);
  }

  /**
   * `describeTableHandler`: `DESCRIBE <table>` rendered as a markdown table, cut at the
   * first newline of its last 20 characters, then the success line appended.
   */
  method DescribeTableHandler(ds: MySQLDatastore, table: string, response: Result<Cursor<Row>, string>)
    returns (r: Result<string, string>, issued: seq<Statement>)
    ensures !ds.IsConnected() ==> r == Failure(NotConnectedMessage) && issued == []
    ensures ds.IsConnected() ==> issued == [Query("DESCRIBE " + table)]
    ensures ds.IsConnected() && response.Failure? ==>
      r == Failure(Wrap("failed to describe table " + table, response.error))
    ensures ds.IsConnected() && response.Success? && MarkdownTable(response.value).Failure? ==>
      r == Failure(MarkdownTable(response.value).error)
    ensures ds.IsConnected() && response.Success? && MarkdownTable(response.value).Success? ==>
      |MarkdownTable(response.value).value| >= DescribeWindow
      && r == Success(CutSummary(MarkdownTable(response.value).value) + "\n" + table + DescribedSuffix)
  {
    var guard := ds.CheckConnection();
    if guard.Some? {
      return Failure(guard.value), [];
    }
    issued := [Query("DESCRIBE " + table)];
    if response.Failure? {
      return Failure(Wrap("failed to describe table " + table, response.error)), issued;
    }
    var result, err := FormatQueryResult(response.value);
    if err.Some? {
      return Failure(err.value), issued;
    }
    MarkdownLength(response.value);
    result := TrimSummary(result);
    r := Success(result + "\n" + table + " table structure described successfully");
  }

  /**
   * The describe reply for a table of fewer than 1000 columns: the whole markdown table
   * (its final newline dropped below 100 columns), then the success line, and no
   * `row(s) returned` summary.
   */
  lemma DescribeReply(c: Cursor<Row>, table: string)
    requires c.columns.Success? && |c.columns.value| > 0 && MarkdownTable(c).Success?
    requires |c.values| < 1000
    ensures var body := Terminated(TableLines(c.columns.value, c.values));
      var reply := CutSummary(MarkdownTable(c).value) + "\n" + table + DescribedSuffix;
      (|c.values| < 100 ==> reply == body + table + DescribedSuffix)
      && (|c.values| >= 100 ==> reply == body + "\n" + table + DescribedSuffix)
  {
    DescribeCut(c);
  }
}
