# mcp-mysql-client in Dafny

mcp-mysql-client is an MCP server that gives a client five tools over one MySQL
session:

- `connect`
- `query`
- `list_databases`
- `list_tables`
- `describe_table`

This project models three parts of it and proves what they promise:

- **Result renderers** of `pkg/utils/formatter.go`:
  - the markdown table;
  - the rows as column-to-text maps, before JSON encoding;
  - the single-column list with its count line.
- **Session state machines**. Each is one optional pool handle:
  - `MySQLDatastore` in `pkg/datastore/mysql.go`;
  - `MySQLDB` in `pkg/db/mysql.go`;
  - the package variable `DB` in `pkg/db/connection.go`;
  - the global `db` of `main.go`.
- **Tool handlers** of `pkg/handlers/handlers.go` and their inline copies in `main.go`:
  - the connection guard comes first;
  - then the statements in their fixed wording;
  - then rendering;
  - `describe_table` cuts the rendered text with a 20-character window.

## How the system is represented

- **Query results.** A query result is a `Cursor`:
  - the column names, or the error `rows.Columns()` reports;
  - the rows the cursor delivers;
  - at most one fault: the scan of row *k* fails, or `rows.Err()` reports an error after the last row.

  A scanned value is a `Cell`:
  - `Null`;
  - `Bytes(text)`, for a `[]byte`;
  - `Other(text)`, for any other scalar, carrying its `%v` text as given.

  The list renderers scan into a Go `string`, so their cursor holds strings (`Cursor<string>`). A value the library cannot convert is a scan failure.
- **Errors.** An error is its message. Go's `%w` and `%v` print a wrapped error the same way: context, `": "`, cause (`Driver.Wrap`).
- **Renderers.** Each renderer is a method with the loop of the Go code. It is proved equal to a specification function:
  - `MarkdownTable`;
  - `SimpleTable`, an instance of `Listing`;
  - `JsonRows`.

  Lemmas state what the rendered text means:
  - it splits back into exactly its lines;
  - the separator has one `|---` per column;
  - NULL is shown as `NULL`;
  - the last line reads back as the row count.
- **Sessions.** Each session is a class with a nullable `Driver.Pool` field.
  - Whatever the library does when it opens, pings or closes a pool is passed in as a `DialOutcome`.
  - The pool records what it was opened from: the DSN string, or the driver's structured configuration. It also records whether it was closed.
- **Handlers.** A handler takes the library's answer to each statement it may send as a parameter. It returns two things:
  - the tool reply, as `Result<string, string>`;
  - `issued`, the statements actually sent, in order.

  So "the guard runs first and sends nothing" and "no `SHOW TABLES` after a failed `USE`" are stated about the result.
- **`withDatastoreInstance`.** It passes the global datastore to a handler. In the model, each `Handlers` method takes that datastore as its `ds` parameter.

Two behaviours of the code that the model keeps as written:

- **A failed ping leaves the session connected.** After `sql.Open` succeeds, `Connect` returns `failed to ping database: …`, yet `IsConnected` is true afterwards: the new pool stays installed. This holds in all four session variants.
- **NULL in a single-column list is a scan failure.** The list renderers scan into a `string`, so a NULL ends in a scan error, while the markdown renderer shows `NULL`.

The describe cut is proved exactly:

| rows N | what is cut |
|---|---|
| N < 100 | the summary and the table's final newline |
| 100 ≤ N < 1000 | only the summary |
| N ≥ 1000 | nothing; the `row(s) returned` line stays |

The zero-column reply is never cut. The window is always inside the text, because every successful markdown text is at least 20 characters long.

Go's `len` and indexing count bytes, and the model counts characters. The two agree here: the last 20 characters of every markdown reply are ASCII, namely the table's last `|`, two newlines, the decimal count and ` row(s) returned`; the zero-column reply is ASCII throughout.

## Model

| member | source | states |
|---|---|---|
| Formatter.WriteHeader | pkg/utils/formatter.go:81-85 | the header line is `"\| "`, the column names in reported order joined by `" \| "`, then `" \|\n"` |
| Formatter.WriteSeparator | pkg/utils/formatter.go:88-92 | the separator line is `\|---` once per column, then `\|\n` |
| Formatter.WriteHead | pkg/utils/formatter.go:80-92 | header then separator, each ended by a newline |
| Formatter.WriteRow | pkg/utils/formatter.go:104-122 | a data line is `"\| "`, each cell's text joined by `" \| "`, then `" \|\n"`; NULL gives `NULL`, bytes their text |
| Formatter.AppendRows | pkg/utils/formatter.go:95-124 | the row loop either meets a failing scan (error `failed to scan row: …`, empty text) or appends exactly one line per delivered row, in order, and counts all of them |
| Formatter.FormatQueryResult | pkg/utils/formatter.go:57-135 | the reply is the markdown table; an error (column names, a scan, iteration) leaves no partial text; zero columns give the sentinel and no error, whatever the rows |
| Formatter.AppendNames | pkg/utils/formatter.go:144-153 | the list loop fails at a failing scan with no text, or appends one `\| value \|` line per value and counts them |
| Formatter.FormatSimpleTable | pkg/utils/formatter.go:138-164 | the reply is the labelled list, or an error with no text |
| Formatter.BuildObject | pkg/utils/formatter.go:31-39 | the per-row map is the left fold of column name to cell text, NULL as `"NULL"` |
| Formatter.FormatQueryResultAsJson | pkg/utils/formatter.go:9-47 | the maps handed to the JSON encoder: one per row in order, or the first error |
| FormatterProperties.SeparatorSegments | pkg/utils/formatter.go:88-92 | the separator holds exactly n occurrences of `\|---`, n+1 bars and no newline |
| FormatterProperties.HeaderMatchesSeparator | pkg/utils/formatter.go:81-92 | with bar-free names, header and separator have the same number of bars, one more than the columns |
| FormatterProperties.RowMatchesHeader | pkg/utils/formatter.go:81-122 | with one value per column and bar-free texts, every data line has as many bars as the header, one more than the columns |
| FormatterProperties.HeaderColumnAt | pkg/utils/formatter.go:81-85 | column i's name sits in the header right after the previous names and separators |
| FormatterProperties.RowCellAt | pkg/utils/formatter.go:104-122 | cell i's text sits in the data line right after the previous cells and separators |
| FormatterProperties.NullShownAsLiteral | pkg/utils/formatter.go:111-112 | a NULL cell shows the four characters `NULL` at its position |
| FormatterProperties.MarkdownLines | pkg/utils/formatter.go:81-132 | the table splits back into header, separator, one line per row, a blank line and `<N> row(s) returned` |
| FormatterProperties.MarkdownRowCount | pkg/utils/formatter.go:95-132 | the number read from the last line equals the number of rows delivered, zero included |
| FormatterProperties.MarkdownLength | pkg/utils/formatter.go:65-132 | every successful reply is at least 20 characters long |
| FormatterProperties.RowObjectKeys | pkg/utils/formatter.go:31-39 | a row's map has exactly the column names as keys |
| FormatterProperties.RowObjectLastWins | pkg/utils/formatter.go:32-39 | a repeated name keeps the text of its last column |
| FormatterProperties.JsonOnePerRow | pkg/utils/formatter.go:15-41 | one map per row (an empty list for no rows), each keyed by all column names |
| FormatterProperties.ListingLines | pkg/utils/formatter.go:141-161 | a list splits back into its head lines, one line per value, a blank line and the count line |
| FormatterProperties.ListingCount | pkg/utils/formatter.go:145-161 | the number read from the list's last line equals the number of values |
| FormatterProperties.SimpleLines | pkg/utils/formatter.go:138-164 | `FormatSimpleTable` gives `\| label \|`, the fixed `\|----------\|` whatever the label, the values, and a count line reading back the number of values |
| Text.NatToString | pkg/utils/formatter.go:132 | the `%d` text of a count is non-empty, all digits, no leading zero |
| Text.ParseNatToString | pkg/utils/formatter.go:132 | reading the `%d` text back gives the count |
| Datastore.MySQLDatastore.constructor | pkg/datastore/mysql.go:89-94 | the global datastore starts with no handle |
| Datastore.MySQLDatastore.CheckConnection | pkg/datastore/mysql.go:16-25 | no error exactly when a handle is present, else the fixed not-connected error |
| Datastore.MySQLDatastore.Close | pkg/datastore/mysql.go:27-32 | no handle: nil and nothing done; a handle: the pool is closed, its error returned, and the handle is kept |
| Datastore.MySQLDatastore.Connect | pkg/datastore/mysql.go:38-79 | the old pool is closed first; tcp address `host:port`, database as given; a failed open leaves no handle, a failed ping keeps the new one; errors are `failed to open database connection: …` / `failed to ping database: …` |
| Db.DsnFields | pkg/db/mysql.go:45 | from the DSN, the text before the first `:` is the user and the text after the last `/` is the database |
| Db.DsnWithoutDatabase | pkg/db/mysql.go:45 | an empty database leaves the DSN ending in `/` |
| Db.MySQLDB.constructor | pkg/db/mysql.go:12-14 | a zero `MySQLDB` has no handle |
| Db.MySQLDB.CheckConnection | pkg/db/mysql.go:16-25 | no error exactly when a handle is present, else the fixed not-connected error |
| Db.MySQLDB.Close | pkg/db/mysql.go:27-32 | nil without a handle; otherwise the pool is closed and the handle kept |
| Db.MySQLDB.Connect | pkg/db/mysql.go:38-69 | the old pool closed first; opened from `username:password@tcp(host:port)/database`; failed open clears, failed ping keeps the handle |
| Db.Connection.constructor | pkg/db/connection.go:12-13 | the package variable starts nil |
| Db.Connection.CheckConnection | pkg/db/connection.go:49-60 | no error exactly when the package variable is set |
| Db.Connection.Connect | pkg/db/connection.go:15-47 | the old pool closed first; opened from the DSN; failed open clears, failed ping keeps the handle |
| Handlers.FirstNewlineFrom | pkg/handlers/handlers.go:179-184 | the first newline at or after i, or the end when there is none |
| Handlers.TrimSummary | pkg/handlers/handlers.go:178-184 | the scan keeps the text up to the first newline among its last 20 characters |
| Handlers.CutAt | pkg/handlers/handlers.go:178-184 | where the window falls for a last line of 17, 18, 19 or more characters |
| Handlers.DescribeCut | pkg/handlers/handlers.go:178-184 | for a markdown table of N rows the cut is a prefix that drops the summary and final newline below 100, only the summary up to 999, nothing from 1000 |
| Handlers.SingleLineUncut | pkg/handlers/handlers.go:178-184 | a text without newline is never cut |
| Handlers.SentinelUncut | pkg/handlers/handlers.go:178-184 | the zero-column reply is long enough and never cut |
| Handlers.ConnectHandler | pkg/handlers/handlers.go:38-53 | all five arguments go to `Connect`; its error is returned unchanged, else `Successfully connected to MySQL at host:port` |
| Handlers.QueryHandler | pkg/handlers/handlers.go:56-83 | guard first and nothing sent when disconnected; else exactly the SQL as given, `query execution failed: …` on failure, the markdown table otherwise |
| Handlers.ListDatabasesHandler | pkg/handlers/handlers.go:86-110 | guard first; `SHOW DATABASES`; `failed to list databases: …`; the list labelled `Database` |
| Handlers.ListTablesHandler | pkg/handlers/handlers.go:113-147 | guard first; `USE <db>` only for a non-empty name, and on its failure `failed to switch to database <db>: …` with no `SHOW TABLES`; then the list labelled `Table` |
| Handlers.DescribeTableHandler | pkg/handlers/handlers.go:150-190 | guard first; `DESCRIBE <table>`; `failed to describe table <t>: …`; the window is in range and the reply is the cut table plus `<table> table structure described successfully` |
| Handlers.DescribeReply | pkg/handlers/handlers.go:171-187 | below 1000 rows the reply is the whole table then the success line, with no `row(s) returned` line |
| Server.Server.constructor | main.go:16 | the global `db` starts nil |
| Server.Server.ConnectHandler | main.go:96-134 | the old pool closed first; opened from the DSN; failed open clears, failed ping keeps `db`; success text as in the package handler |
| Server.Server.QueryHandler | main.go:137-233 | the nil guard first; the inline renderer gives exactly the markdown table of `pkg/utils` |
| Server.Server.RenderList | main.go:252-274 | the inline list loop: the two header lines, one `\| name \|` per value, the count line, or the first error |
| Server.Server.ListDatabasesHandler | main.go:236-277 | the nil guard; `SHOW DATABASES`; `\| Database \|`, `\|----------\|`, values, `<N> database(s) found` |
| Server.Server.ListTablesHandler | main.go:280-331 | the nil guard; optional `USE`; `\| Table \|`, `\|-------\|`, values, `<N> table(s) found` |
| Server.Server.DescribeTableHandler | main.go:334-424 | the nil guard; `DESCRIBE <table>`; the table then `<N> column(s) in table <table>` |
| Server.ColumnsCount | main.go:384-421 | the number read from the describe reply's last line equals the rows `DESCRIBE` returned |
| Server.ColumnsTextSharesTable | main.go:359-421 | the describe reply and the markdown table have the same lines except the summary |
| Server.DatabaseListsAgree | main.go:252-274 | main.go's database list and `FormatSimpleTable(rows, "Database")` have the same lines except the count line's noun |
| Server.DatabaseHeadIsSimple | main.go:254-255 | main.go's fixed header lines are the ones the package renderer derives from `Database` |

## Left out

- **MCP plumbing.** Tool registration, argument schemas and the stdio server (main.go:18-93) are not modelled. Handlers take their arguments as strings.
- **Required arguments.** The five connect arguments are required. `.(string)` on a missing argument panics, and no default is supplied.
- **Library calls.** `sql.Open`, `PingContext`, `QueryContext`, `ExecContext` and `(*sql.DB).Close` are library calls. Their outcomes are parameters (`DialOutcome`, the handlers' responses, `Driver.Pool.Close`'s outcome).
- **Deferred `rows.Close`.** The `defer rows.Close()` calls (pkg/handlers/handlers.go:74,101,138,168; main.go:154,250,304,351) are not modelled. Their error is discarded, and the release of the cursor is not represented.
- **Package `db`'s two `DB` variables.** pkg/db/mysql.go:71 and pkg/db/connection.go:13 both declare a package-level `DB`, so package `db` does not compile as written, and nothing imports it. `Db.MySQLDB` and `Db.Connection` model the two files as separate classes, so the clash does not appear in the model.
- **Pool settings.** The three setters are recorded only as the constants `MaxOpenConns`, `MaxIdleConns` and `ConnMaxLifetimeMinutes`.
- **`mysql.Config.FormatDSN`.** The datastore's pool records the structured configuration it was built from, not the string the driver makes from it.
- **Timeouts.** The 5 s, 10 s and 30 s deadlines are recorded as constants only. No timing is modelled.
- **JSON encoding.** `json.MarshalIndent` and its error are not part of this model. `FormatQueryResultAsJson` returns the list of maps the encoder receives. The encoder writes keys in sorted order, so no column-order property is claimed.
- **Value conversion.** How the driver turns a non-byte scalar into text is not modelled: `%v` for the markdown renderers, `sql.NullString` conversion for the JSON one. `Cell.Other` carries that text as given.
- **Concurrency.** The global singletons have no locking. Only sequential calls are modelled.
- **`Connection()` accessor and exported wrappers.** The `Connection()` accessor and the exported handler wrappers are plain pass-throughs with nothing to state.
- **Counters.** Row counts are unbounded naturals. Go's `int` would overflow only beyond any realistic result size.
- **Statement text.** `USE %s` and `DESCRIBE %s` are modelled as the command text only. Quoting and injection are not considered.
- Server.Server.DescribeTableHandler: requires at least one column, because main.go indexes `columns[0]` with no guard. An empty column list would panic there.
- Handlers.TrimSummary: requires a text of at least 20 characters. Go would index out of range on a shorter one. `Handlers.DescribeTableHandler` shows that every markdown reply meets this.
- Formatter.FormatQueryResultAsJson: requires each row to hold one value per column. The library guarantees this for a cursor, and the map-building loop depends on it.
