/**
 * `setupDatabase` of setup-db.js: open one connection, send the
 * bootstrap statements one at a time (the five tables in a loop), stop at
 * the first that throws and rethrow its error, and end the connection on
 * every path once it has been opened.
 */
module Bootstrap {
  import opened Wrappers
  import opened Driver
  import opened Environment
  import opened Config
  import opened Schema
  import opened SchemaProperties

  /** The MySQL server the bootstrap talks to; its catalog changes as statements run. */
  class MySqlServer {
    var catalog: Catalog

    constructor (catalog: Catalog)
      ensures this.catalog == catalog
    {
      this.catalog := catalog;
    }
  }

  /** One connection from `mysql.createConnection`: its options, selected database, and whether it has been ended. */
  class Connection {
    const server: MySqlServer
    const options: ConnectionOptions
    var current: Option<string>
    var ended: bool

    /** A new connection has no database selected. */
    constructor (server: MySqlServer, options: ConnectionOptions)
      ensures this.server == server && this.options == options
      ensures current == None && !ended
    {
      this.server := server;
      this.options := options;
      current := None;
      ended := false;
    }

    /**
     * `await connection.query(stmt)`: the server and this connection end
     * as `Step` says, and the call throws `Step`'s error if it throws.
     * `fault` is a failure the model does not derive from the statement.
     */
    method Query(stmt: Statement, fault: Option<Fault>) returns (err: Option<DriverError>)
      requires !ended
      modifies this, server
      ensures !ended
      ensures var r := Step(Session(old(server.catalog), old(current)), stmt, fault);
        && server.catalog == r.session.catalog && current == r.session.current
        && (r.Ran? ==> err == None)
        && (r.Threw? ==> err == Some(r.error))
    {
      var r := Step(Session(server.catalog, current), stmt, fault);
      server.catalog := r.session.catalog;
      current := r.session.current;
      err := if r.Ran? then None else Some(r.error);
    }

    /** `await connection.end()`. */
    method End()
      requires !ended
      modifies this
      ensures ended && current == old(current)
    {
      ended := true;
    }
  }

  /** How `setupDatabase()` settles: it resolves, or it rejects with the error that was thrown. */
  datatype SetupOutcome = Completed | Rejected(error: DriverError)

  /**
   * `setupDatabase()`. `connectFault` is the error `createConnection`
   * would throw, if any; `faults` gives, by step index, the error a
   * statement would throw for reasons outside the model.
   *
   * The server ends exactly as `Run` of the bootstrap script says: all of
   * it applied, or the steps before the failing one (and that one too if
   * its fault struck after the server carried it out). The outcome is the
   * thrown error, rethrown as is. A connection that was opened is ended on
   * every path; none is opened when `createConnection` throws.
   */
  method SetupDatabase(env: Env, server: MySqlServer, connectFault: Option<DriverError>, faults: Faults)
    returns (outcome: SetupOutcome, conn: Connection?)
    modifies server
    ensures conn == null <==> connectFault.Some?
    ensures conn != null ==> fresh(conn) && conn.server == server && conn.ended
    ensures conn != null ==> conn.options == BootstrapOptionsOf(env)
    ensures connectFault.Some? ==> outcome == Rejected(connectFault.value) && server.catalog == old(server.catalog)
    ensures connectFault.None? ==>
      match Run(Session(old(server.catalog), None), SetupScript(DbName(env)), faults, 0)
      case Done(s) => outcome == Completed && server.catalog == s.catalog
      case Aborted(s, _, e) => outcome == Rejected(e) && server.catalog == s.catalog
  {
    if connectFault.Some? {
      outcome := Rejected(connectFault.value);
      conn := null;
      return;
    }
    var c := new Connection(server, BootstrapOptionsOf(env));
    conn := c;
    var name := DbName(env);
    ghost var script := SetupScript(name);
    ghost var result := Run(Session(server.catalog, None), script, faults, 0);
    ghost var before := Session(server.catalog, c.current);

    // CREATE DATABASE IF NOT EXISTS
    RunUnfold(before, script, faults, 0);
    assert script[0..] == script;
    var err := c.Query(CreateDatabaseIfNotExists(name), FaultAt(faults, 0));

    // USE
    if err == None {
      before := Session(server.catalog, c.current);
      RunUnfold(before, script, faults, 1);
      err := c.Query(Use(name), FaultAt(faults, 1));
    }

    // the `tables` loop
    var tables := TableStatements;
    var i := 0;
    while i < |tables| && err == None
      invariant 0 <= i <= |tables|
      invariant c.server == server && !c.ended && fresh(c)
      invariant err == None ==> Run(Session(server.catalog, c.current), script[2 + i..], faults, 2 + i) == result
      invariant err.Some? ==> result.Aborted? && result.session.catalog == server.catalog && result.error == err.value
    {
      before := Session(server.catalog, c.current);
      assert script[2 + i] == tables[i];
      RunUnfold(before, script, faults, 2 + i);
      err := c.Query(tables[i], FaultAt(faults, 2 + i));
      i := i + 1;
    }

    // INSERT IGNORE the seed platform
    if err == None {
      assert i == 5;
      before := Session(server.catalog, c.current);
      RunUnfold(before, script, faults, 7);
      err := c.Query(InsertIgnorePlatform(SeedPlatform), FaultAt(faults, 7));
      assert script[8..] == [];
    }

    // finally: the connection is ended on success and on failure alike
    c.End();
    outcome := if err == None then Completed else Rejected(err.value);
  }

  /**
   * Two successful runs of `setupDatabase` against the same server leave
   * it as one run does, and the 'YouTube' row exists once. Only the target
   * database needs to be well formed beforehand.
   */
  method SetupTwice(env: Env, server: MySqlServer)
    returns (first: SetupOutcome, second: SetupOutcome)
    requires TargetWellFormed(server.catalog, DbName(env))
    modifies server
    ensures first == Completed && second == Completed
    ensures server.catalog == Bootstrapped(old(server.catalog), DbName(env))
    ensures multiset(server.catalog[DbName(env)].platformNames)[SeedPlatform] == 1
  {
    ghost var c0 := server.catalog;
    SetupComputesBootstrapped(c0, None, DbName(env));
    var conn1;
    first, conn1 := SetupDatabase(env, server, None, NoFaults);
    SetupComputesBootstrapped(server.catalog, None, DbName(env));
    var conn2;
    second, conn2 := SetupDatabase(env, server, None, NoFaults);
    assert PlatformNameUnique(c0, DbName(env));
    BootstrappedIdempotent(c0, DbName(env));
    SeedExactlyOnce(c0, DbName(env));
  }
}
