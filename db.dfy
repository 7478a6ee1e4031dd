/**
 * The two sessions of pkg/db: the `MySQLDB` object of pkg/db/mysql.go and the
 * package-level functions of pkg/db/connection.go over the package variable `DB`. Both
 * open the pool from the DSN string `username:password@tcp(host:port)/database`.
 */
module Db {
  import opened Wrappers
  import opened Text
  import opened Driver

  /** The DSN names the user before its first `:` and the database after its last `/`. */
  lemma DsnFields(host: string, port: string, username: string, password: string, database: string)
    requires ':' !in username && '/' !in database
    ensures UpTo(FormatDsn(host, port, username, password, database), ':') == username
    ensures AfterLast(FormatDsn(host, port, username, password, database), '/') == database
  {
    var rest := password + "@tcp(" + host + ":" + port + ")";
    assert FormatDsn(host, port, username, password, database) == username + [':'] + (rest + "/" + database);
    UpToFirst(username, ':', rest + "/" + database);
    assert FormatDsn(host, port, username, password, database) == (username + ":" + rest) + ['/'] + database;
    AfterLastOf(username + ":" + rest, '/', database);
  }

  /** An empty database name leaves the DSN ending in `/`. */
  lemma DsnWithoutDatabase(host: string, port: string, username: string, password: string)
    ensures var dsn := FormatDsn(host, port, username, password, "");
      |dsn| > 0 && dsn[|dsn| - 1] == '/' && AfterLast(dsn, '/') == ""
  {
  }

  /** `MySQLDB` of pkg/db/mysql.go. */
  class MySQLDB {
    var DB: Pool?

    constructor ()
      ensures DB == null
    {
      DB := null;
    }

    predicate IsConnected()
      reads this
    {
      DB != null
    }

    method CheckConnection() returns (err: Option<string>)
      ensures err.None? <==> IsConnected()
      ensures err.Some? ==> err.value == NotConnectedMessage
    {
      if !IsConnected() {
        return Some(NotConnectedMessage);
      }
      return None;
    }

    /** Closes the pool if there is one; the handle itself is never cleared. */
    method Close(outcome: Option<string>) returns (err: Option<string>)
      modifies DB
      ensures DB == old(DB) && IsConnected() == old(IsConnected())
      ensures DB == null ==> err == None
      ensures DB != null ==> DB.closed && err == outcome
    {
      if DB != null {
        err := DB.Close(outcome);
      } else {
        err := None;
      }
    }

    /** Closes any existing pool, opens one from the DSN and pings it; a failed ping keeps the handle. */
    method Connect(host: string, port: string, username: string, password: string, database: string,
                   dial: DialOutcome) returns (err: Option<string>)
      modifies this, DB
      ensures old(DB) != null ==> old(DB).closed
      ensures err == ConnectError(dial)
      ensures IsConnected() <==> dial.openError.None?
      ensures DB != null ==> fresh(DB) && !DB.closed && DB.source == Dsn(FormatDsn(host, port, username, password, database))
    {
      if IsConnected() {
        var _ := Close(dial.closeError);
      }
      var dsn := username + ":" + password + "@tcp(" + host + ":" + port + ")/" + database;
      if dial.openError.Some? {
        DB := null;
        return Some(Wrap("failed to open database connection", dial.openError.value));
      }
      DB := new Pool(Dsn(dsn));
      if dial.pingError.Some? {
        return Some(Wrap("failed to ping database", dial.pingError.value));
      }
      return None;
    }
  }

  /** The package variable `DB` of pkg/db/connection.go and the functions over it. */
  class Connection {
    var DB: Pool?

    /** A Go package variable starts as nil. */
    constructor ()
      ensures DB == null
    {
      DB := null;
    }

    predicate IsConnected()
      reads this
    {
      DB != null
    }

    method CheckConnection() returns (err: Option<string>)
      ensures err.None? <==> IsConnected()
      ensures err.Some? ==> err.value == NotConnectedMessage
    {
      if !IsConnected() {
        return Some(NotConnectedMessage);
      }
      return None;
    }

    /** Closes the existing pool (ignoring its error), opens one from the DSN and pings it. */
    method Connect(host: string, port: string, username: string, password: string, database: string,
                   dial: DialOutcome) returns (err: Option<string>)
      modifies this, DB
      ensures old(DB) != null ==> old(DB).closed
      ensures err == ConnectError(dial)
      ensures IsConnected() <==> dial.openError.None?
      ensures DB != null ==> fresh(DB) && !DB.closed && DB.source == Dsn(FormatDsn(host, port, username, password, database))
    {
      if DB != null {
        var _ := DB.Close(dial.closeError);
      }
      var dsn := username + ":" + password + "@tcp(" + host + ":" + port + ")/" + database;
      if dial.openError.Some? {
        DB := null;
        return Some(Wrap("failed to open database connection", dial.openError.value));
      }
      DB := new Pool(Dsn(dsn));
      if dial.pingError.Some? {
        return Some(Wrap("failed to ping database", dial.pingError.value));
      }
      return None;
    }
  }
}
