/**
 * The inline server of main.go: a package-level pool `db` and five tool handlers that
 * check it, send their statements and render the cursor with code of their own. The
 * query renderer is the same as pkg/utils' markdown table; the list renderers fix their
 * header lines and count in lower case; the describe renderer ends with a column count
 * and has no zero-column case.
 */
module Server {
  import opened Wrappers
  import opened Text
  import opened Driver
  import opened Formatter
  import opened FormatterProperties

  const DatabaseHead := ["| Database |", "|----------|"]
  const TableHead := ["| Table |", "|-------|"]

  /** The describe summary line. */
  function ColumnCountText(n: nat, table: string): string
  {
    NatToString(n) + " column(s) in table " + table
  }

  /** The describe text: the markdown table, then `<N> column(s) in table <table>`. */
  function ColumnsText(c: Cursor<Row>, table: string): Result<string, string>
    requires c.columns.Success? ==> |c.columns.value| > 0
  {
    match c.columns
    case Failure(cause) => Failure(ColumnsError(cause))
    case Success(columns) =>
      match DrainError(c)
      case Some(e) => Failure(e)
      case None =>
        Success(Terminated(TableLines(columns, c.values)) + "\n" + ColumnCountText(|c.values|, table))
  }

  /**
   * The describe text's last line counts the rows `DESCRIBE` returned, one per column of
   * the table, whatever the table is called.
   */
  lemma ColumnsCount(c: Cursor<Row>, table: string)
    requires c.columns.Success? ==> |c.columns.value| > 0
    requires ColumnsText(c, table).Success?
    requires '\n' !in table
    ensures var lines := SplitLines(ColumnsText(c, table).value);
      ReportedCount(lines[|lines| - 1]) == |c.values|
  {
    var suffix := " column(s) in table " + table;
    var summary := ColumnCountText(|c.values|, table);
    assert summary == NatToString(|c.values|) + suffix;
    CountLine(|c.values|, suffix);
    SplitThenLine(Terminated(TableLines(c.columns.value, c.values)), summary);
  }

  /**
   * The describe text and the query renderer's table split into the same lines (the
   * table's own and the blank line before the summary) and differ in the summary alone.
   */
  lemma ColumnsTextSharesTable(c: Cursor<Row>, table: string)
    requires c.columns.Success? && |c.columns.value| > 0
    requires MarkdownTable(c).Success?
    requires '\n' !in table
    ensures ColumnsText(c, table).Success?
    ensures var common := SplitLines(Terminated(TableLines(c.columns.value, c.values)));
      SplitLines(ColumnsText(c, table).value) == common + [ColumnCountText(|c.values|, table)]
      && SplitLines(MarkdownTable(c).value) == common + [RowCountText(|c.values|)]
  {
    var body := Terminated(TableLines(c.columns.value, c.values));
    var s1 := ColumnCountText(|c.values|, table);
    MarkdownShape(c);
    assert s1 == NatToString(|c.values|) + (" column(s) in table " + table);
    CountLineSingleLine(|c.values|, " column(s) in table " + table);
    CountLineSingleLine(|c.values|, RowCountSuffix);
    SplitThenLine(body, s1);
    SplitThenLine(body, RowCountText(|c.values|));
  }

  /**
   * `list_databases` in main.go and in pkg/handlers agree line by line except on the
   * summary, which main.go writes in lower case.
   */
  lemma DatabaseListsAgree(c: Cursor<string>)
    requires forall k :: 0 <= k < |c.values| ==> '\n' !in c.values[k]
    ensures Listing(c, DatabaseHead, "database").Success? <==> SimpleTable(c, "Database").Success?
    ensures Listing(c, DatabaseHead, "database").Success? ==>
      var common := DatabaseHead + NameTexts(c.values) + [""];
      SplitLines(Listing(c, DatabaseHead, "database").value) == common + [FoundText(|c.values|, "database")]
      && SplitLines(SimpleTable(c, "Database").value) == common + [FoundText(|c.values|, "Database")]
  {
    DatabaseHeadIsSimple();
    if Listing(c, DatabaseHead, "database").Success? {
      var names := NameTexts(c.values);
      ListingLines(c, DatabaseHead, "database");
      ListingLines(c, DatabaseHead, "Database");
      forall last: string
        ensures DatabaseHead + names + ["", last] == DatabaseHead + names + [""] + [last]
      {
      }
    }
  }

  /** main.go's fixed database header is the one `FormatSimpleTable` derives from `Database`. */
  lemma DatabaseHeadIsSimple()
    ensures DatabaseHead == [NameText("Database"), SimpleSeparator]
  {
    assert NameText("Database") == "| Database |";
  }

  class Server {
    var db: Pool?

    /** A Go package variable starts as nil. */
    constructor ()
      ensures db == null
    {
      db := null;
    }

    /**
     * `connectHandler`: closes the existing pool (ignoring its error), opens one from the
     * DSN and pings it; a failed open leaves no pool, a failed ping leaves the new one.
     */
    method ConnectHandler(host: string, port: string, username: string, password: string, database: string,
                          dial: DialOutcome) returns (r: Result<string, string>)
      modifies this, db
      ensures old(db) != null ==> old(db).closed
      ensures ConnectError(dial).Some? ==> r == Failure(ConnectError(dial).value)
      ensures ConnectError(dial).None? ==> r == Success(ConnectedMessage(host, port))
      ensures db != null <==> dial.openError.None?
      ensures db != null ==> fresh(db) && !db.closed && db.source == Dsn(FormatDsn(host, port, username, password, database))
    {
      if db != null {
        var _ := db.Close(dial.closeError);
      }
      var dsn := username + ":" + password + "@tcp(" + host + ":" + port + ")/" + database;
      if dial.openError.Some? {
        db := null;
        return Failure(Wrap("failed to open database connection", dial.openError.value));
      }
      db := new Pool(Dsn(dsn));
      if dial.pingError.Some? {
        return Failure(Wrap("failed to ping database", dial.pingError.value));
      }
      return Success("Successfully connected to MySQL at " + host + ":" + port);
    }

    /** `queryHandler`: the statement's rows as a markdown table, rendered inline. */
    method QueryHandler(sql: string, response: Result<Cursor<Row>, string>)
      returns (r: Result<string, string>, issued: seq<Statement>)
      ensures db == null ==> r == Failure(NotConnectedMessage) && issued == []
      ensures db != null ==> issued == [Query(sql)]
      ensures db != null && response.Failure? ==> r == Failure(Wrap("query execution failed", response.error))
      ensures db != null && response.Success? ==> r == MarkdownTable(response.value)
    {
      if db == null {
        return Failure(NotConnectedMessage), [];
      }
      issued := [Query(sql)];
      if response.Failure? {
        return Failure(Wrap("query execution failed", response.error)), issued;
      }
      var result, err := FormatQueryResult(response.value);
      if err.Some? {
        return Failure(err.value), issued;
      }
      r := Success(result);
    }

    /** The list loop shared by both list handlers, after their two header lines. */
    method RenderList(head: seq<string>, noun: string, c: Cursor<string>) returns (r: Result<string, string>)
      requires |head| == 2
      ensures r == Listing(c, head, noun)
    {
      var result := head[0] + "\n";
      result := result + head[1] + "\n";
      assert head == [head[0]] + [head[1]];
      TerminatedSnoc([head[0]], head[1]);
      var text, count, err := AppendNames(result, c);
      if err.Some? {
        return Failure(err.value);
      }
      var iterationErr := IterationError(c);
      if iterationErr.Some? {
        return Failure(iterationErr.value);
      }
      TerminatedAppend(head, NameTexts(c.values));
      assert text == Terminated(head + NameTexts(c.values));
      assert DrainError(c) == None;
      text := text + "\n" + NatToString(count) + " " + noun + "(s) found";
      assert text == Terminated(head + NameTexts(c.values)) + "\n" + FoundText(|c.values|, noun);
      r := Success(text);
    }

    /** `listDatabasesHandler`: `SHOW DATABASES` listed under a fixed header. */
    method ListDatabasesHandler(response: Result<Cursor<string>, string>)
      returns (r: Result<string, string>, issued: seq<Statement>)
      ensures db == null ==> r == Failure(NotConnectedMessage) && issued == []
      ensures db != null ==> issued == [Query("SHOW DATABASES")]
      ensures db != null && response.Failure? ==> r == Failure(Wrap("failed to list databases", response.error))
      ensures db != null && response.Success? ==> r == Listing(response.value, DatabaseHead, "database")
    {
      if db == null {
        return Failure(NotConnectedMessage), [];
      }
      issued := [Query("SHOW DATABASES")];
      if response.Failure? {
        return Failure(Wrap("failed to list databases", response.error)), issued;
      }
      r := RenderList(DatabaseHead, "database", response.value);
    }

    /** `listTablesHandler`: optionally `USE` the named database, then `SHOW TABLES` under a fixed header. */
    method ListTablesHandler(database: Option<string>, useError: Option<string>, response: Result<Cursor<string>, string>)
      returns (r: Result<string, string>, issued: seq<Statement>)
      ensures db == null ==> r == Failure(NotConnectedMessage) && issued == []
      ensures db != null && (database == None || database == Some("")) ==> issued == [Query("SHOW TABLES")]
      ensures db != null && database.Some? && database.value != "" ==>
        var use := Exec("USE " + database.value);
        if useError.Some? then
          issued == [use] && r == Failure(Wrap("failed to switch to database " + database.value, useError.value))
        else issued == [use, Query("SHOW TABLES")]
      ensures db != null && Query("SHOW TABLES") in issued && response.Failure? ==>
        r == Failure(Wrap("failed to list tables", response.error))
      ensures db != null && Query("SHOW TABLES") in issued && response.Success? ==>
        r == Listing(response.value, TableHead, "table")
    {
      if db == null {
        return Failure(NotConnectedMessage), [];
      }
      issued := [];
      if database.Some? && database.value != "" {
        issued := [Exec("USE " + database.value)];
        if useError.Some? {
          return Failure(Wrap("failed to switch to database " + database.value, useError.value)), issued;
        }
      }
      issued := issued + [Query("SHOW TABLES")];
      if response.Failure? {
        return Failure(Wrap("failed to list tables", response.error)), issued;
      }
      r := RenderList(TableHead, "table", response.value);
    }

    /**
     * `describeTableHandler`: `DESCRIBE <table>` as a markdown table whose summary counts
     * columns. The header is written from the first column name on, so the result must
     * report at least one column.
     */
    method DescribeTableHandler(table: string, response: Result<Cursor<Row>, string>)
      returns (r: Result<string, string>, issued: seq<Statement>)
      requires response.Success? && response.value.columns.Success? ==> |response.value.columns.value| > 0
      ensures db == null ==> r == Failure(NotConnectedMessage) && issued == []
      ensures db != null ==> issued == [Query("DESCRIBE " + table)]
      ensures db != null && response.Failure? ==> r == Failure(Wrap("failed to describe table " + table, response.error))
      ensures db != null && response.Success? ==> r == ColumnsText(response.value, table)
    {
      if db == null {
        return Failure(NotConnectedMessage), [];
      }
      issued := [Query("DESCRIBE " + table)];
      if response.Failure? {
        return Failure(Wrap("failed to describe table " + table, response.error)), issued;
      }
      var c := response.value;
      if c.columns.Failure? {
        return Failure(ColumnsError(c.columns.error)), issued;
      }
      var columns := c.columns.value;
      var result := WriteHead(columns);
      var text, count, err := AppendRows(result, c);
      if err.Some? {
        return Failure(err.value), issued;
      }
      var iterationErr := IterationError(c);
      if iterationErr.Some? {
        return Failure(iterationErr.value), issued;
      }
      TerminatedAppend([HeaderText(columns), SeparatorText(|columns|)], RowTexts(c.values));
      assert text == Terminated(TableLines(columns, c.values));
      assert DrainError(c) == None;
      text := text + "\n" + NatToString(count) + " column(s) in table " + table;
      assert text == Terminated(TableLines(columns, c.values)) + "\n" + ColumnCountText(|c.values|, table);
      r := Success(text);
    }
  }
}
