/**
 * Connection settings resolved from the environment: the long-lived pool's
 * settings (db.js) and the bootstrap's short-lived connection settings
 * (setup-db.js). Each field falls back to its default when the variable
 * is unset or empty, and is otherwise taken verbatim.
 */
module Config {
  import opened Environment

  const DefaultHost := "localhost"
  const DefaultUser := "root"
  const DefaultPassword := "root"
  const DefaultDatabase := "SocialMediaAnalyticsPro"

  /** The fixed pool sizing written into db.js. */
  const PoolConnectionLimit: nat := 10
  const PoolQueueLimit: nat := 0

  /** The options object handed to `mysql.createPool`. */
  datatype PoolConfig = PoolConfig(
    host: string,
    user: string,
    password: string,
    database: string,
    waitForConnections: bool,
    connectionLimit: nat,
    queueLimit: nat   // 0 means "no cap on the wait queue"
  )

  /** The options object handed to `mysql.createConnection` by the bootstrap. */
  datatype ConnectionOptions = ConnectionOptions(
    host: string,
    user: string,
    password: string,
    multipleStatements: bool
  )

  /** The pool's configuration for a given environment. */
  function PoolConfigOf(env: Env): (c: PoolConfig)
    ensures c.waitForConnections && c.connectionLimit == 10 && c.queueLimit == 0
    ensures c.host != "" && c.user != "" && c.password != "" && c.database != ""
  {
    PoolConfig(
      OrDefault(env, "DB_HOST", DefaultHost),
      OrDefault(env, "DB_USER", DefaultUser),
      OrDefault(env, "DB_PASSWORD", DefaultPassword),
      OrDefault(env, "DB_NAME", DefaultDatabase),
      true,
      PoolConnectionLimit,
      PoolQueueLimit)
  }

  /** The bootstrap connection's options for a given environment. */
  function BootstrapOptionsOf(env: Env): (o: ConnectionOptions)
    ensures o.multipleStatements
    ensures o.host != "" && o.user != "" && o.password != ""
  {
    ConnectionOptions(
      OrDefault(env, "DB_HOST", DefaultHost),
      OrDefault(env, "DB_USER", DefaultUser),
      OrDefault(env, "DB_PASSWORD", DefaultPassword),
      true)
  }

  /** The database name the bootstrap creates and selects. */
  function DbName(env: Env): (n: string)
    ensures n != ""
    ensures n == DefaultDatabase || (Present(env, "DB_NAME") && n == env["DB_NAME"])
  {
    OrDefault(env, "DB_NAME", DefaultDatabase)
  }

  /**
   * Each pool field is its default exactly when the variable is unset or
   * empty, and otherwise the variable's value unchanged.
   */
  lemma PoolConfigFallback(env: Env)
    ensures var c := PoolConfigOf(env);
      && (c.host == (if Present(env, "DB_HOST") then env["DB_HOST"] else "localhost"))
      && (c.user == (if Present(env, "DB_USER") then env["DB_USER"] else "root"))
      && (c.password == (if Present(env, "DB_PASSWORD") then env["DB_PASSWORD"] else "root"))
      && (c.database == (if Present(env, "DB_NAME") then env["DB_NAME"] else "SocialMediaAnalyticsPro"))
  {
  }

  /** The bootstrap connection's fields fall back to the same defaults. */
  lemma BootstrapOptionsFallback(env: Env)
    ensures var o := BootstrapOptionsOf(env);
      && (o.host == (if Present(env, "DB_HOST") then env["DB_HOST"] else "localhost"))
      && (o.user == (if Present(env, "DB_USER") then env["DB_USER"] else "root"))
      && (o.password == (if Present(env, "DB_PASSWORD") then env["DB_PASSWORD"] else "root"))
      && (DbName(env) == (if Present(env, "DB_NAME") then env["DB_NAME"] else "SocialMediaAnalyticsPro"))
  {
  }

  /**
   * The bootstrap reaches the same server as the same user, and creates
   * the very database the pool later connects to.
   */
  lemma BootstrapTargetsPoolDatabase(env: Env)
    ensures BootstrapOptionsOf(env).host == PoolConfigOf(env).host
    ensures BootstrapOptionsOf(env).user == PoolConfigOf(env).user
    ensures BootstrapOptionsOf(env).password == PoolConfigOf(env).password
    ensures DbName(env) == PoolConfigOf(env).database
  {
  }

  /** Only the four DB_* variables matter, and only through `Present` and their values. */
  lemma PoolConfigDependsOnlyOnDbVariables(env1: Env, env2: Env)
    requires forall k :: k in ["DB_HOST", "DB_USER", "DB_PASSWORD", "DB_NAME"] ==>
      Present(env1, k) == Present(env2, k) && (Present(env1, k) ==> env1[k] == env2[k])
    ensures PoolConfigOf(env1) == PoolConfigOf(env2)
  {
    assert "DB_HOST" in ["DB_HOST", "DB_USER", "DB_PASSWORD", "DB_NAME"];
    assert "DB_USER" in ["DB_HOST", "DB_USER", "DB_PASSWORD", "DB_NAME"];
    assert "DB_PASSWORD" in ["DB_HOST", "DB_USER", "DB_PASSWORD", "DB_NAME"];
    assert "DB_NAME" in ["DB_HOST", "DB_USER", "DB_PASSWORD", "DB_NAME"];
  }

  /** An empty variable resolves exactly as an unset one. */
  lemma EmptyVariableActsAsUnset(env: Env, key: string)
    ensures PoolConfigOf(env[key := ""]) == PoolConfigOf(env - {key})
    ensures BootstrapOptionsOf(env[key := ""]) == BootstrapOptionsOf(env - {key})
    ensures DbName(env[key := ""]) == DbName(env - {key})
  {
  }
}
