/**
 * The database/sql and MySQL-driver surface the core calls, reduced to what the core
 * observes: a pool handle that can be closed, the statements sent to the server, and
 * the success or failure of each library call. Outcomes that depend on the network are
 * parameters supplied by the caller of the model.
 */
module Driver {
  import opened Wrappers

  /** Pool settings applied after every successful open. */
  const MaxOpenConns: nat := 10
  const MaxIdleConns: nat := 5
  const ConnMaxLifetimeMinutes: nat := 5

  /** Deadlines, in seconds, that the handlers and `Connect` hand to the library. */
  const PingTimeoutSeconds: nat := 5
  const MetadataTimeoutSeconds: nat := 10
  const QueryTimeoutSeconds: nat := 30

  /** The fixed error every data operation reports while no handle is installed. */
  const NotConnectedMessage := "not connected to a database, use connect tool first"

  /** What `sql.Open` was given: a DSN string, or the driver's structured configuration. */
  datatype DataSource =
    | Dsn(text: string)
    | Config(user: string, passwd: string, net: string, addr: string, dbName: string,
             allowNativePasswords: bool)

  /** A statement sent to the server: a row-producing query or an exec. */
  datatype Statement = Query(sql: string) | Exec(sql: string)

  /**
   * What the library answers during one connect attempt: the result of closing the old
   * pool, of opening the new one (an error from `sql.Open`) and of pinging it.
   */
  datatype DialOutcome = DialOutcome(closeError: Option<string>, openError: Option<string>,
                                     pingError: Option<string>)

  /** An open `*sql.DB` pool; its identity is the opaque connection token. */
  class Pool {
    const source: DataSource
    var closed: bool

    constructor (source: DataSource)
      ensures this.source == source && !closed
    {
      this.source := source;
      closed := false;
    }

    /** `(*sql.DB).Close`: releases the pool and reports the library's result. */
    method Close(outcome: Option<string>) returns (err: Option<string>)
      modifies this
      ensures closed && err == outcome
    {
      closed := true;
      err := outcome;
    }
  }

  /** The error a connect attempt reports: a failed open first, else a failed ping. */
  function ConnectError(dial: DialOutcome): Option<string>
  {
    if dial.openError.Some? then Some(Wrap("failed to open database connection", dial.openError.value))
    else if dial.pingError.Some? then Some(Wrap("failed to ping database", dial.pingError.value))
    else None
  }

  /** The DSN `username:password@tcp(host:port)/database` that pkg/db and main.go hand to `sql.Open`. */
  function FormatDsn(host: string, port: string, username: string, password: string, database: string): string
  {
    username + ":" + password + "@tcp(" + host + ":" + port + ")/" + database
  }

  /** The text every connect handler returns on success. */
  function ConnectedMessage(host: string, port: string): string
  {
    "Successfully connected to MySQL at " + host + ":" + port
  }

  /** The text Go's `%w` and `%v` verbs give a wrapped error: the context, a colon, the cause. */
  function Wrap(context: string, cause: string): string
  {
    context + ": " + cause
  }
}
