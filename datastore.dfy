/**
 * The session of pkg/datastore/mysql.go: one optional pool handle, the only state the
 * handlers of pkg/handlers share. The pool comes from the driver's structured
 * configuration; opening and pinging it are library calls whose outcomes are parameters.
 */
module Datastore {
  import opened Wrappers
  import opened Driver

  /** The configuration `Connect` builds: address `host:port` over tcp, native passwords allowed. */
  function ConfigFor(host: string, port: string, username: string, password: string, database: string): DataSource
  {
    Config(username, password, "tcp", host + ":" + port, database, true)
  }

  class MySQLDatastore {
    var DB: Pool?

    /** The global the package's `init` installs: an empty datastore, not connected. */
    constructor ()
      ensures DB == null
    {
      DB := null;
    }

    predicate IsConnected()
      reads this
    {
      DB != null
    }

    /** The guard every data operation calls first. */
    method CheckConnection() returns (err: Option<string>)
      ensures err.None? <==> IsConnected()
      ensures err.Some? ==> err.value == NotConnectedMessage
    {
      if !IsConnected() {
        return Some(NotConnectedMessage);
      }
      return None;
    }

    /** Closes the pool if there is one; the handle itself is never cleared. */
    method Close(outcome: Option<string>) returns (err: Option<string>)
      modifies DB
      ensures DB == old(DB) && IsConnected() == old(IsConnected())
      ensures DB == null ==> err == None
      ensures DB != null ==> DB.closed && err == outcome
    {
      if DB != null {
        err := DB.Close(outcome);
      } else {
        err := None;
      }
    }

    /**
     * Closes any existing pool (ignoring its error), opens a new one and pings it. A
     * failed open leaves no handle; a failed ping leaves the new, unverified handle in
     * place, so the datastore still reports itself connected.
     */
    method Connect(host: string, port: string, username: string, password: string, database: string,
                   dial: DialOutcome) returns (err: Option<string>)
      modifies this, DB
      ensures old(DB) != null ==> old(DB).closed
      ensures err == ConnectError(dial)
      ensures IsConnected() <==> dial.openError.None?
      ensures DB != null ==> fresh(DB) && !DB.closed && DB.source == ConfigFor(host, port, username, password, database)
    {
      if IsConnected() {
        var _ := Close(dial.closeError);
      }
      var dbName := "";
      if |database| > 0 {
        dbName := database;
      }
      var source := Config(username, password, "tcp", host + ":" + port, dbName, true);
      if dial.openError.Some? {
        DB := null;
        return Some(Wrap("failed to open database connection", dial.openError.value));
      }
      DB := new Pool(source);
      if dial.pingError.Some? {
        return Some(Wrap("failed to ping database", dial.pingError.value));
      }
      return None;
    }
  }
}
