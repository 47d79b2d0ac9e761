# Database lifecycle of the social-media-analytics backend, in Dafny

This project models the part of the backend that owns its MySQL database.
The model has four parts:

- **Configuration.** The `process.env.X || default` rule that gives the
  pool's settings and the bootstrap's connection settings.
- **Startup gate.** The HTTP service starts only when six required
  variables are set and non-empty. Otherwise it exits with status 1.
- **Connection pool.** A lease counter bounded by `connectionLimit` (10),
  with a wait queue. The startup probe acquires and releases one
  connection, and its failure is fatal. The error listener classifies
  three driver codes and never rethrows.
- **Schema bootstrap** (`setupDatabase`). Eight statements run on one
  connection: `CREATE DATABASE IF NOT EXISTS`, `USE`, five
  `CREATE TABLE IF NOT EXISTS` in a loop, and one `INSERT IGNORE` of the
  'YouTube' platform. The first failing statement stops the run and its
  error is rethrown. The connection is ended in `finally`.

The bootstrap runs against an abstract MySQL server (`Schema`). The server
is a catalog of databases. Each table is known by the tables its foreign
keys reference and by its UNIQUE columns. The only rows tracked are the
`name` values of `platforms`. The statements mean what they mean in MySQL:

- `IF NOT EXISTS` leaves an existing database or table untouched.
- InnoDB refuses a foreign key to a missing table.
- `INSERT IGNORE` is a no-op when the value already exists in a UNIQUE
  column.

The imperative `Bootstrap.SetupDatabase` is proved against the
specification function `Schema.Run`. The properties are lemmas about
`Run` and about the closed-form `Schema.Bootstrapped`:

- dependency order;
- idempotence;
- exactly one 'YouTube' row;
- abort on error;
- the fresh-server scenario.

Failures that the model cannot derive are parameters: a refused
connection, missing privileges, a dropped link. These are `connectFault`
and `faults` for the bootstrap, and `fault` for the pool. `faults` maps a
step index to a `Schema.Fault`: the error that step throws, and whether
the server had already carried the statement out when it struck (a link
dropped after the server ran the statement).

Files: `wrappers.dfy` (Option, Result), `sequences.dfy` (duplicate-free
sequences), `driver.dfy` (the driver's error record and codes),
`environment.dfy`, `config.dfy`, `startup.dfy`, `pool.dfy`, `schema.dfy`,
`schema_properties.dfy`, `bootstrap.dfy`.

Some behaviour of the code that the model keeps as written:

- The bootstrap rethrows the driver's error unchanged. It does not wrap
  it in an error naming the failing step (`Bootstrap.SetupOutcome.Rejected`
  carries the driver error). The failing step's index is still available
  in `Schema.Run`'s `Aborted` result.
- The connection limit is the constant 10 in db.js; no variable sets it.
- An error code outside the three known ones gets only the generic log.
  It is not put into any of the three classes.
- server.js requires its route modules (server.js:20-28) before it checks
  the environment. Those modules are not part of this model, so whether
  they load db.js, and so create and probe the pool before the check, is
  unknown. The model states no "exit before any database connection"
  property.

## Model

| member | source | states |
|---|---|---|
| `Environment.Present` | server.js:76 | the truthiness of `process.env[key]`: an unset variable and the empty string are falsy, every other value is truthy |
| `Environment.OrDefault` | db.js:22-25 | `process.env[key] \|\| fallback`: the variable's value when it is set and non-empty, the fallback otherwise |
| `Environment.EmptyIsUnset` | db.js:22-25 | a variable set to "" resolves exactly as one that is unset |
| `Config.PoolConfigOf` | db.js:21-29 | the pool waits for connections, has limit 10 and queue limit 0; every connection field is non-empty |
| `Config.PoolConfigFallback` | db.js:22-25 | each pool field is its default ('localhost', 'root', 'root', 'SocialMediaAnalyticsPro') exactly when its variable is unset or empty, else the variable's value unchanged |
| `Config.PoolConfigDependsOnlyOnDbVariables` | db.js:21-29 | two environments that agree on DB_HOST, DB_USER, DB_PASSWORD and DB_NAME give the same pool configuration |
| `Config.EmptyVariableActsAsUnset` | db.js:22-25 | pool settings, bootstrap settings and database name are the same whether a variable is empty or absent |
| `Config.BootstrapOptionsOf` | setup-db.js:8-13 | the bootstrap connection allows multiple statements and has non-empty host, user and password |
| `Config.BootstrapOptionsFallback` | setup-db.js:9-11 | bootstrap host, user, password and database name fall back to 'localhost', 'root', 'root', 'SocialMediaAnalyticsPro' exactly when unset or empty |
| `Config.DbName` | setup-db.js:18 | the database name is never empty: the default or the DB_NAME value |
| `Config.BootstrapTargetsPoolDatabase` | setup-db.js:8-22 | the bootstrap reaches the same host as the same user as the pool, and creates the database the pool connects to |
| `Startup.RequiredKeysDistinct` | server.js:68-75 | the required list has six distinct keys |
| `Startup.MissingFrom` | server.js:76 | the filter keeps exactly the keys whose variable is absent or empty, in their original order, without duplicates when the keys are distinct |
| `Startup.MissingEnv` | server.js:68-76 | `missingEnv` holds exactly the required keys that are absent or empty, is an ordered subsequence of the six, has no duplicates and at most six entries |
| `Startup.MissingFromUnique` | server.js:76 | over distinct keys, the filter's result is the only ordered selection that holds exactly the missing keys |
| `Startup.MissingEnvCharacterized` | server.js:68-76 | any ordered selection of the required keys holding exactly the missing ones equals `missingEnv` |
| `Startup.ListenPort` | server.js:82 | the listen port is PORT's text when set and non-empty, else 5000 |
| `Startup.StartupDecision` | server.js:77-85 | the process exits iff some required key is absent or empty; the exit status is 1 and the logged list is `missingEnv`; listening happens only when all six are present, on `ListenPort` |
| `Startup.AnyMissingKeyIsReported` | server.js:76-80 | one missing required key is enough to exit, and its name is in the reported list |
| `Pool.AcquireDecision` | db.js:26-28 | below the limit an acquire opens a connection or fails with the driver's error; at the limit it waits iff waiting is allowed and the queue is uncapped or not full |
| `Pool.ServicePoolWaitsAtLimit` | db.js:26-28 | with the service's settings an acquire is never refused for capacity; at 10 leases it waits, below 10 it does not |
| `Pool.ConnectionPool.constructor` | db.js:21-29 | a new pool holds the given configuration and has nothing leased or waiting |
| `Pool.ConnectionPool.GetConnection` | db.js:32 | the pool follows `AcquireDecision`; a grant adds one lease and a wait adds one waiter; leases never exceed the limit |
| `Pool.ConnectionPool.Release` | db.js:43 | a released connection goes to a waiter if there is one, else the lease count drops by one; the bound is kept |
| `Pool.ConnectionPool.Probe` | db.js:32-44 | the probe leaves the lease count unchanged; it connects iff a lease is free and the driver raises nothing; it is fatal exactly when the acquire fails, with that error |
| `Pool.OpenServicePool` | db.js:21-44 | loading the module creates the pool from the environment and probes it; the probe is fatal iff the driver raises an error, and carries that error's code, errno, sqlState and message |
| `Pool.OnPoolError` | db.js:47-63 | the listener logs the error's details, notes 'closed', 'too many connections' or 'refused' exactly for the three codes and nothing for any other, never more than one note, and returns normally |
| `Pool.AcquireAfterFault` | db.js:47-63 | the listener reads and changes no pool state, so after a reported fault an acquire below the limit is granted as before; no recovery step is involved |
| `Schema.Exec` | setup-db.js:18-75 | a successful CREATE DATABASE leaves the database present, a CREATE TABLE leaves the table in the selected database, and an INSERT leaves the name in `platforms` |
| `Schema.Step` | setup-db.js:70 | one awaited query: without a fault it resolves iff the server accepts the statement, and a refused statement changes nothing; a fault always throws its error, leaving the server untouched or with the statement fully applied, as the fault says |
| `Schema.Run` | setup-db.js:6-81 | an aborted run names a step within the statements sent |
| `Schema.SetupScript` | setup-db.js:18-75 | the script has eight statements: the database create and the USE come first and name the configured database, then the five table creates in their listed order, then the 'YouTube' insert |
| `Schema.Bootstrapped` | setup-db.js:17-76 | after a bootstrap only the target database is added or changed; it holds all five schema tables and a 'YouTube' row |
| `SchemaProperties.ExecKeepsExisting` | setup-db.js:18-75 | no statement drops a database or table, redefines an existing table, or removes a row |
| `SchemaProperties.RunKeepsExisting` | setup-db.js:79-81 | a run, completed or aborted, keeps everything that existed before it; steps already applied stay applied |
| `SchemaProperties.TableStatementsDependencyOrdered` | setup-db.js:25-67 | every foreign key in the table list names a table created earlier in the list; the list defines exactly the five schema tables |
| `SchemaProperties.OrderedCreatesSucceed` | setup-db.js:69-71 | a dependency-ordered list of creates, run on a selected database, never fails; existing tables keep their definition and the rest are added |
| `SchemaProperties.SetupSelectsDatabase` | setup-db.js:18-22 | the first two steps create the database if needed and select that same name |
| `SchemaProperties.TablesThenSeed` | setup-db.js:69-75 | the table loop and then the seed insert, on the selected database, complete with the `Bootstrapped` result |
| `SchemaProperties.SetupComputesBootstrapped` | setup-db.js:17-76 | a fault-free bootstrap never fails from any server state, an empty one included, and its effect is exactly `Bootstrapped`, with the database left selected |
| `SchemaProperties.DoneIgnoresFaults` | setup-db.js:79-81 | a run that completes met no failure, so it equals the fault-free run |
| `SchemaProperties.AbortKeepsPrefix` | setup-db.js:69-81 | when step j throws, the steps before j all ran to completion and stay applied, step j raised the run's error and produced the final state, and no later step runs |
| `SchemaProperties.AbortBeforeEffectKeepsPrefixOnly` | setup-db.js:69-81 | when the failing step's fault struck before the server carried it out, the server holds exactly the steps before it |
| `SchemaProperties.BootstrappedIdempotent` | setup-db.js:18-75 | bootstrapping twice equals bootstrapping once, given that any existing `platforms` table has a UNIQUE `name` |
| `SchemaProperties.SetupTwiceIsOnce` | setup-db.js:18-75 | two fault-free runs of the whole script, each on a new connection, leave the server as one run does |
| `SchemaProperties.SetupTimesIsOnce` | setup-db.js:18-75 | any positive number of successful runs has the effect of one |
| `SchemaProperties.SeedExactlyOnce` | setup-db.js:35-75 | when the target database is absent or well formed, whatever the other databases hold, a successful bootstrap leaves exactly one 'YouTube' row and the target stays well formed |
| `SchemaProperties.BootstrappedPreservesWellFormed` | setup-db.js:17-76 | a successful bootstrap keeps every database of a well-formed server well formed |
| `SchemaProperties.SeedExactlyOnceAfterRepeatedRuns` | setup-db.js:35-75 | after n >= 1 successful runs there is exactly one 'YouTube' row, given only that the target database is absent or well formed beforehand |
| `SchemaProperties.ExecPreservesWellFormed` | setup-db.js:35-75 | a statement that declares `platforms.name` UNIQUE keeps every database free of duplicate platform names |
| `SchemaProperties.RunPreservesWellFormed` | setup-db.js:35-81 | whichever step fails, a run leaves no database with two `platforms` rows of the same name |
| `SchemaProperties.SeedNeverDuplicated` | setup-db.js:35-81 | any bootstrap attempt, completed or aborted, leaves at most one 'YouTube' row in every database, and exactly one in the target when it completes |
| `SchemaProperties.FreshServer` | setup-db.js:17-76 | against an empty server the bootstrap creates exactly the one database, with exactly the five tables and exactly one row, 'YouTube' |
| `SchemaProperties.ScriptOrder` | setup-db.js:18-75 | the order is create database, USE of the same name, users, platforms, platform_accounts, posts, engagements, then the 'YouTube' insert |
| `Bootstrap.Connection.constructor` | setup-db.js:8-13 | a new connection has the given options, no database selected, and is not ended |
| `Bootstrap.Connection.Query` | setup-db.js:70 | the server and the connection end as `Step` says, and the call throws exactly `Step`'s error when `Step` throws |
| `Bootstrap.Connection.End` | setup-db.js:82-86 | ending marks the connection ended |
| `Bootstrap.SetupDatabase` | setup-db.js:4-87 | the server ends as `Run` of the script says (all applied, or the steps before the failing one, plus that one when its fault struck after the server ran it); the outcome is that error, rethrown unchanged; an opened connection is ended on every path; none is opened, and nothing runs, when connecting throws |
| `Bootstrap.SetupTwice` | setup-db.js:4-87 | two successful `setupDatabase` calls leave the server as `Bootstrapped` once, with exactly one 'YouTube' row, given only that the target database is absent or well formed |

## Left out

- Logging to the console, `dotenv` loading and the top-level `.catch(console.error)`. These are I/O. The probe's and the listener's logged fields are kept as the `DriverError` record they carry.
- Express routing, CORS, the 404 and 500 handlers, and the route modules. These are HTTP glue outside the database lifecycle.
- The mysql2 driver itself: SQL parsing, sockets and authentication. Statements are modelled by their effect. Failures the model cannot derive come in as parameters.
- Column types, defaults, `AUTO_INCREMENT`, and rows of tables other than `platforms`. Only table names, foreign-key targets and UNIQUE columns are modelled.
- `DB_NAME` is substituted into SQL text by the source. The model treats it as one identifier. Quoting, and injection through that value, are not modelled. No validation is added.
- A rejection from `connection.end()` inside `finally` is not modelled. It would replace the error being rethrown. `Bootstrap.Connection.End` always succeeds.
- Pool waiters are only counted. Queue order, fairness, timeouts and which waiter gets a released connection are not modelled.
- mysql2 counts idle connections against `connectionLimit` and reuses them. The model counts leases only, and opens a new connection for every grant.
- The pool's shutdown (`pool.end`) and `promise()` wrapper are not modelled. The source never calls `pool.end`, and `promise()` is an API adapter.
- The PORT value is passed to `app.listen` unchecked. Whether it is a valid port is not modelled.
- Retry or backoff after a pool fault is not modelled, because the source has none.
- `SchemaProperties.BootstrappedIdempotent`: assumes that a pre-existing `platforms` table in the target database declares `name` UNIQUE. Without that, the source's `INSERT IGNORE` adds a second 'YouTube' row on the next run.
- `SchemaProperties.SetupTwiceIsOnce`: the same assumption on the target database, for the same reason.
- `SchemaProperties.SetupTimesIsOnce`: the same assumption on the target database, for the same reason.
- `SchemaProperties.SeedExactlyOnce`: assumes the target database, if it exists, has a UNIQUE `name` in `platforms` and no duplicate names in it. Other databases are unconstrained.
- `SchemaProperties.SeedExactlyOnceAfterRepeatedRuns`: the same assumption as `SeedExactlyOnce`.
- `Bootstrap.SetupTwice`: the same assumption as `SeedExactlyOnce`.
- `Schema.Exec`, `Schema.Bootstrapped`: platform names are compared exactly. MySQL compares a UNIQUE VARCHAR under the column's collation, which is case-insensitive by default, so a pre-existing 'youtube' row makes the source's insert a no-op, while the model appends 'YouTube'. Collations are not modelled.
- `Pool.AcquireDecision`: treats `connectionLimit` as a hard bound even when it is 0, where mysql2 reads 0 as "no limit". The service always passes 10.
