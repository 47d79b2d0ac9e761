/**
 * The process-wide connection pool of db.js, reduced to its lease
 * accounting: how many connections are leased out, how many callers wait
 * for one, the one-shot startup probe, and the standing error listener.
 */
module Pool {
  import opened Wrappers
  import opened Driver
  import opened Config

  /** Why `getConnection` hands back an error instead of a connection. */
  datatype PoolError =
    | Connect(cause: DriverError)   // opening a new connection failed
    | NoConnectionsAvailable        // at the limit and not allowed to wait
    | QueueLimitReached             // at the limit and the wait queue is full

  /** The outcome of one `getConnection` call. */
  datatype AcquireResult = Granted | Queued | Failed(error: PoolError)

  /**
   * The pool's decision for one `getConnection`: below the limit a new
   * connection is opened (which may fail with `fault`); at the limit the
   * caller waits when `waitForConnections` is set and the queue is not
   * capped or not full (`queueLimit` 0 means no cap), and is refused otherwise.
   */
  function AcquireDecision(config: PoolConfig, leased: nat, waiting: nat, fault: Option<DriverError>): (r: AcquireResult)
    ensures r.Granted? <==> leased < config.connectionLimit && fault.None?
    ensures r.Failed? && r.error.Connect? <==> leased < config.connectionLimit && fault.Some?
    ensures r.Failed? && r.error.Connect? ==> r.error.cause == fault.value
    ensures r.Queued? <==>
      leased >= config.connectionLimit && config.waitForConnections
      && (config.queueLimit == 0 || waiting < config.queueLimit)
  {
    if leased < config.connectionLimit then
      if fault.Some? then Failed(Connect(fault.value)) else Granted
    else if !config.waitForConnections then
      Failed(NoConnectionsAvailable)
    else if config.queueLimit != 0 && waiting >= config.queueLimit then
      Failed(QueueLimitReached)
    else
      Queued
  }

  /**
   * With the service's own settings (`waitForConnections: true`,
   * `queueLimit: 0`) an acquire is never refused for capacity: at the
   * limit of 10 it waits, however many callers already wait.
   */
  lemma ServicePoolWaitsAtLimit(env: Environment.Env, leased: nat, waiting: nat, fault: Option<DriverError>)
    ensures var r := AcquireDecision(PoolConfigOf(env), leased, waiting, fault);
      && !(r.Failed? && r.error.NoConnectionsAvailable?)
      && !(r.Failed? && r.error.QueueLimitReached?)
      && (leased >= 10 ==> r.Queued?)
      && (leased < 10 ==> !r.Queued?)
  {
  }

  /** The outcome of the startup connectivity probe. */
  datatype ProbeResult =
    | Connected                  // acquired and released one connection
    | Fatal(error: PoolError)    // the probe rethrows: startup aborts
    | Pending                    // the probe waits for a connection

  class ConnectionPool {
    const config: PoolConfig
    var leased: nat
    var waiting: nat

    /** Never more leases than the limit; nobody waits while a lease is free. */
    ghost predicate Valid()
      reads this
    {
      leased <= config.connectionLimit
      && (waiting > 0 ==> leased == config.connectionLimit)
    }

    /** `mysql.createPool(config)`: connections are opened lazily, so nothing is leased. */
    constructor (config: PoolConfig)
      ensures Valid()
      ensures this.config == config && leased == 0 && waiting == 0
    {
      this.config := config;
      leased := 0;
      waiting := 0;
    }

    /** `pool.getConnection`: `fault` is what opening a new connection would raise, if anything. */
    method GetConnection(fault: Option<DriverError>) returns (r: AcquireResult)
      requires Valid()
      modifies this
      ensures Valid()
      ensures r == AcquireDecision(config, old(leased), old(waiting), fault)
      ensures leased == old(leased) + (if r.Granted? then 1 else 0)
      ensures waiting == old(waiting) + (if r.Queued? then 1 else 0)
    {
      r := AcquireDecision(config, leased, waiting, fault);
      if r.Granted? {
        leased := leased + 1;
      } else if r.Queued? {
        waiting := waiting + 1;
      }
    }

    /** `connection.release()`: the connection goes to the first waiter if there is one, else back to the pool. */
    method Release()
      requires Valid() && leased > 0
      modifies this
      ensures Valid()
      ensures old(waiting) > 0 ==> leased == old(leased) && waiting == old(waiting) - 1
      ensures old(waiting) == 0 ==> leased == old(leased) - 1 && waiting == 0
    {
      if waiting > 0 {
        waiting := waiting - 1;
      } else {
        leased := leased - 1;
      }
    }

    /**
     * The startup probe: acquire one connection and release it at once.
     * An error is fatal (the callback rethrows it); the lease count ends
     * where it started.
     */
    method Probe(fault: Option<DriverError>) returns (r: ProbeResult)
      requires Valid()
      modifies this
      ensures Valid()
      ensures leased == old(leased)
      ensures waiting == old(waiting) + (if r.Pending? then 1 else 0)
      ensures r.Connected? <==> old(leased) < config.connectionLimit && fault.None?
      ensures r.Fatal? <==> AcquireDecision(config, old(leased), old(waiting), fault).Failed?
      ensures r.Fatal? ==> r.error == AcquireDecision(config, old(leased), old(waiting), fault).error
    {
      var a := GetConnection(fault);
      match a {
        case Granted =>
          Release();
          r := Connected;
        case Failed(e) =>
          r := Fatal(e);
        case Queued =>
          r := Pending;
      }
    }
  }

  /**
   * Loading db.js: the pool is created from the environment and probed
   * once. A driver error from the probe is fatal and carries the driver's
   * own code, errno, sqlState and message.
   */
  method OpenServicePool(env: Environment.Env, fault: Option<DriverError>) returns (pool: ConnectionPool, r: ProbeResult)
    ensures fresh(pool) && pool.Valid()
    ensures pool.config == PoolConfigOf(env) && pool.leased == 0 && pool.waiting == 0
    ensures r.Connected? <==> fault.None?
    ensures r.Fatal? <==> fault.Some?
    ensures r.Fatal? ==> r.error == Connect(fault.value)
  {
    pool := new ConnectionPool(PoolConfigOf(env));
    r := pool.Probe(fault);
  }

  /** The classes the pool's error listener singles out. */
  datatype FaultClass = ConnectionClosed | TooManyConnections | ConnectionRefused

  /** What the listener produces: the logged details and the specific notes. */
  datatype PoolErrorReport = PoolErrorReport(details: DriverError, notes: seq<FaultClass>)

  /**
   * `pool.on('error', …)`: log the error's details, then one independent
   * check per known code. The listener returns normally for every error:
   * an asynchronous pool fault never aborts the process.
   */
  function OnPoolError(e: DriverError): (r: PoolErrorReport)
    ensures r.details == e
    ensures |r.notes| <= 1
    ensures r.notes == [ConnectionClosed] <==> e.code == "PROTOCOL_CONNECTION_LOST"
    ensures r.notes == [TooManyConnections] <==> e.code == "ER_CON_COUNT_ERROR"
    ensures r.notes == [ConnectionRefused] <==> e.code == "ECONNREFUSED"
    ensures r.notes == [] <==> e.code !in {"PROTOCOL_CONNECTION_LOST", "ER_CON_COUNT_ERROR", "ECONNREFUSED"}
  {
    assert |ProtocolConnectionLost| == 24 && |ConCountError| == 18 && |ConnectionRefusedCode| == 12;
    var lost := if e.code == ProtocolConnectionLost then [ConnectionClosed] else [];
    var count := if e.code == ConCountError then [TooManyConnections] else [];
    var refused := if e.code == ConnectionRefusedCode then [ConnectionRefused] else [];
    var notes := lost + count + refused;
    assert e.code == ProtocolConnectionLost ==> notes == [ConnectionClosed];
    assert e.code == ConCountError ==> notes == [TooManyConnections];
    assert e.code == ConnectionRefusedCode ==> notes == [ConnectionRefused];
    PoolErrorReport(e, notes)
  }

  /**
   * The listener only reports: it reads and changes no pool state, so
   * after a reported fault the pool is as it was, and an acquire below the
   * limit that opens its connection is granted as before. The contract
   * holds because the listener has no effect, not because of any recovery
   * step (the source has none).
   */
  method AcquireAfterFault(pool: ConnectionPool, e: DriverError) returns (report: PoolErrorReport, r: AcquireResult)
    requires pool.Valid() && pool.leased < pool.config.connectionLimit
    modifies pool
    ensures report == OnPoolError(e)
    ensures r == Granted && pool.leased == old(pool.leased) + 1 && pool.Valid()
  {
    report := OnPoolError(e);
    r := pool.GetConnection(None);
  }
}
