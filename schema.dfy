/**
 * An abstract MySQL server as the schema bootstrap (setup-db.js) sees it,
 * and the meaning of the four kinds of statement the bootstrap sends:
 * `CREATE DATABASE IF NOT EXISTS`, `USE`, `CREATE TABLE IF NOT EXISTS`
 * (with InnoDB's foreign-key check) and `INSERT IGNORE` into `platforms`.
 *
 * Column types and defaults are not modelled: a table is known by the
 * tables its foreign keys reference and by its UNIQUE columns, and the
 * only rows modelled are the `name` values of `platforms`.
 */
module Schema {
  import opened Wrappers
  import opened Driver
  import opened Sequences

  /** A table definition: the tables its foreign keys reference, and its UNIQUE columns. */
  datatype TableDef = TableDef(references: seq<string>, unique: set<string>)

  /** One database: its tables, and the `name` of every row of `platforms` in insertion order. */
  datatype Database = Database(tables: map<string, TableDef>, platformNames: seq<string>)

  /** Every database on the server, by name. */
  type Catalog = map<string, Database>

  /** The server as one connection sees it: the catalog and the connection's selected database. */
  datatype Session = Session(catalog: Catalog, current: Option<string>)

  datatype Statement =
    | CreateDatabaseIfNotExists(name: string)
    | Use(name: string)
    | CreateTableIfNotExists(table: string, def: TableDef)
    | InsertIgnorePlatform(platform: string)

  const EmptyDatabase := Database(map[], [])

  /** `db2` keeps every table of `db1` with its definition, and every row of `db1` in place. */
  predicate DatabaseExtends(db1: Database, db2: Database)
  {
    && (forall t :: t in db1.tables ==> t in db2.tables && db2.tables[t] == db1.tables[t])
    && db1.platformNames <= db2.platformNames
  }

  /** Nothing of `c1` has been dropped, replaced or deleted in `c2`. */
  predicate Extends(c1: Catalog, c2: Catalog)
  {
    forall n :: n in c1 ==> n in c2 && DatabaseExtends(c1[n], c2[n])
  }

  /**
   * One statement against the server. Existing databases and tables are
   * left untouched (`IF NOT EXISTS`); a new table whose foreign key names
   * a table that does not exist yet is refused; a duplicate value for a
   * UNIQUE `platforms.name` makes the insert a no-op (`IGNORE`).
   */
  function Exec(s: Session, stmt: Statement): (r: Result<Session, DriverError>)
    ensures r.Ok? && stmt.CreateDatabaseIfNotExists? ==> stmt.name in r.value.catalog
    ensures r.Ok? && stmt.CreateTableIfNotExists? ==>
      && s.current.Some? && s.current.value in s.catalog && s.current.value in r.value.catalog
      && stmt.table in r.value.catalog[s.current.value].tables
    ensures r.Ok? && stmt.InsertIgnorePlatform? ==>
      && s.current.Some? && s.current.value in s.catalog && s.current.value in r.value.catalog
      && stmt.platform in r.value.catalog[s.current.value].platformNames
  {
    match stmt
    case CreateDatabaseIfNotExists(name) =>
      if name in s.catalog then Ok(s)
      else Ok(s.(catalog := s.catalog[name := EmptyDatabase]))
    case Use(name) =>
      if name in s.catalog then Ok(s.(current := Some(name)))
      else Err(NoSuchDatabase)
    case CreateTableIfNotExists(t, def) =>
      if s.current.None? || s.current.value !in s.catalog then Err(NoDatabaseSelected)
      else
        var db := s.catalog[s.current.value];
        if t in db.tables then Ok(s)
        else if exists p :: p in def.references && p != t && p !in db.tables then Err(MissingParentTable)
        else Ok(s.(catalog := s.catalog[s.current.value := db.(tables := db.tables[t := def])]))
    case InsertIgnorePlatform(name) =>
      if s.current.None? || s.current.value !in s.catalog then Err(NoDatabaseSelected)
      else
        var db := s.catalog[s.current.value];
        if "platforms" !in db.tables then Err(NoSuchTable)
        else if "name" in db.tables["platforms"].unique && name in db.platformNames then Ok(s)
        else Ok(s.(catalog := s.catalog[s.current.value := db.(platformNames := db.platformNames + [name])]))
  }

  /**
   * A failure the model does not derive from the statement (missing
   * privileges, a dropped link, …): the error the client sees, and whether
   * the server had already carried the statement out when it struck.
   */
  datatype Fault = Fault(error: DriverError, tookEffect: bool)

  /** The injected failures of a run, by step index. */
  type Faults = map<nat, Fault>

  function FaultAt(faults: Faults, k: nat): Option<Fault>
  {
    if k in faults then Some(faults[k]) else None
  }

  /** How one awaited statement ends for the client; either way the server is then in `session`. */
  datatype StepResult = Ran(session: Session) | Threw(session: Session, error: DriverError)

  /**
   * `await connection.query(stmt)`. Without a fault the statement resolves
   * exactly when the server accepts it, and a refused statement changes
   * nothing. An injected fault always makes the call throw its error; the
   * server is then either untouched or has carried the statement out in
   * full, as the fault says, never half of it.
   */
  function Step(s: Session, stmt: Statement, fault: Option<Fault>): (r: StepResult)
    ensures r.Ran? <==> fault.None? && Exec(s, stmt).Ok?
    ensures r.Ran? ==> r.session == Exec(s, stmt).value
    ensures r.Threw? && fault.None? ==> r.session == s && r.error == Exec(s, stmt).error
    ensures r.Threw? && fault.Some? ==> r.error == fault.value.error
    ensures fault.Some? && !fault.value.tookEffect ==> r.session == s
    ensures r.session == s || (Exec(s, stmt).Ok? && r.session == Exec(s, stmt).value)
  {
    match fault
    case None =>
      (match Exec(s, stmt)
       case Ok(s') => Ran(s')
       case Err(e) => Threw(s, e))
    case Some(f) =>
      if f.tookEffect && Exec(s, stmt).Ok? then Threw(Exec(s, stmt).value, f.error)
      else Threw(s, f.error)
  }

  /** How a sequence of awaited statements ends: all done, or thrown at step `step`. */
  datatype RunResult = Done(session: Session) | Aborted(session: Session, step: nat, error: DriverError)

  /**
   * Statements `stmts`, numbered from `k`, sent one after the other; the
   * first that throws stops the run and its error is the run's error.
   */
  function Run(s: Session, stmts: seq<Statement>, faults: Faults, k: nat): (r: RunResult)
    ensures r.Aborted? ==> k <= r.step < k + |stmts|
    decreases |stmts|
  {
    if stmts == [] then Done(s)
    else
      match Step(s, stmts[0], FaultAt(faults, k))
      case Threw(s', e) => Aborted(s', k, e)
      case Ran(s') => Run(s', stmts[1..], faults, k + 1)
  }

  // ----- The bootstrap script of setup-db.js -----

  const UsersTable := TableDef([], {"email", "google_id"})
  const PlatformsTable := TableDef([], {"name"})
  const PlatformAccountsTable := TableDef(["users", "platforms"], {})
  const PostsTable := TableDef(["platform_accounts"], {})
  const EngagementsTable := TableDef(["posts"], {})

  /** The `tables` array, in its listed order. */
  const TableStatements: seq<Statement> := [
    CreateTableIfNotExists("users", UsersTable),
    CreateTableIfNotExists("platforms", PlatformsTable),
    CreateTableIfNotExists("platform_accounts", PlatformAccountsTable),
    CreateTableIfNotExists("posts", PostsTable),
    CreateTableIfNotExists("engagements", EngagementsTable)
  ]

  /** The five tables of the schema, by name. */
  const SchemaTables: map<string, TableDef> := map[
    "users" := UsersTable,
    "platforms" := PlatformsTable,
    "platform_accounts" := PlatformAccountsTable,
    "posts" := PostsTable,
    "engagements" := EngagementsTable
  ]

  const SeedPlatform := "YouTube"

  /**
   * Every statement the bootstrap sends, in order, for database `db`: the
   * two database statements name `db` and come first, the five table
   * creates follow in their listed order, and the seed insert is last.
   */
  function SetupScript(db: string): (r: seq<Statement>)
    ensures |r| == 8
    ensures forall i :: 0 <= i < |r| && (r[i].CreateDatabaseIfNotExists? || r[i].Use?) ==> i < 2 && r[i].name == db
    ensures r[0].CreateDatabaseIfNotExists? && r[1].Use?
    ensures r[2..7] == TableStatements
    ensures r[7] == InsertIgnorePlatform(SeedPlatform)
  {
    [CreateDatabaseIfNotExists(db), Use(db)] + TableStatements + [InsertIgnorePlatform(SeedPlatform)]
  }

  /**
   * Each statement of `stmts` creates a table whose foreign keys name only
   * tables in `known`, the table itself, or tables created earlier in `stmts`.
   */
  predicate DependencyOrdered(known: set<string>, stmts: seq<Statement>)
    decreases |stmts|
  {
    stmts == [] ||
    (&& stmts[0].CreateTableIfNotExists?
     && (forall p :: p in stmts[0].def.references ==> p in known || p == stmts[0].table)
     && DependencyOrdered(known + {stmts[0].table}, stmts[1..]))
  }

  /**
   * The catalog after a successful bootstrap of `db`, stated directly:
   * the database exists; it has every schema table, pre-existing ones
   * keeping their own definition; 'YouTube' is appended to `platforms`
   * unless it is already there under a UNIQUE `name`; nothing else changes.
   */
  function Bootstrapped(c: Catalog, db: string): (c': Catalog)
    ensures c'.Keys == c.Keys + {db}
    ensures forall n :: n in c && n != db ==> c'[n] == c[n]
    ensures SchemaTables.Keys <= c'[db].tables.Keys
    ensures SeedPlatform in c'[db].platformNames
  {
    var old_ := if db in c then c[db] else EmptyDatabase;
    var tables := SchemaTables + old_.tables;
    var names :=
      if "name" in tables["platforms"].unique && SeedPlatform in old_.platformNames then old_.platformNames
      else old_.platformNames + [SeedPlatform];
    c[db := Database(tables, names)]
  }

  /** Any `platforms` table in `db` has a UNIQUE `name`. */
  predicate PlatformNameUnique(c: Catalog, db: string)
  {
    db in c && "platforms" in c[db].tables ==> "name" in c[db].tables["platforms"].unique
  }

  /**
   * The `platforms` rows of `d` respect the UNIQUE `name` the bootstrap
   * declares, and a database without `platforms` has no rows.
   */
  predicate DatabaseWellFormed(d: Database)
  {
    if "platforms" in d.tables then
      "name" in d.tables["platforms"].unique && NoDuplicates(d.platformNames)
    else
      d.platformNames == []
  }

  /** Every database on the server is well formed. */
  predicate WellFormed(c: Catalog)
  {
    forall n :: n in c ==> DatabaseWellFormed(c[n])
  }

  /** The database `db`, if it exists, is well formed; the others may hold anything. */
  predicate TargetWellFormed(c: Catalog, db: string)
  {
    db in c ==> DatabaseWellFormed(c[db])
  }
}
