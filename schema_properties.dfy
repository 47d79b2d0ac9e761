/**
 * What the bootstrap script of setup-db.js guarantees: its table order
 * respects every foreign key, a fault-free run computes `Bootstrapped`,
 * running it again changes nothing, the 'YouTube' row exists exactly
 * once, and a failing step stops the run with the steps before it applied.
 */
module SchemaProperties {
  import opened Wrappers
  import opened Driver
  import opened Schema
  import opened Sequences

  const NoFaults: Faults := map[]

  /** The tables a sequence of creates would add to an empty database (the first definition of a name wins). */
  function CreatedTables(stmts: seq<Statement>): map<string, TableDef>
    decreases |stmts|
  {
    if stmts == [] then map[]
    else if stmts[0].CreateTableIfNotExists? then CreatedTables(stmts[1..])[stmts[0].table := stmts[0].def]
    else CreatedTables(stmts[1..])
  }

  /** A run of `a + b` whose first part `a` completes continues with `b` from where `a` left off. */
  lemma {:induction false} RunAppend(s: Session, a: seq<Statement>, b: seq<Statement>, faults: Faults, k: nat)
    requires Run(s, a, faults, k).Done?
    ensures Run(s, a + b, faults, k) == Run(Run(s, a, faults, k).session, b, faults, k + |a|)
    decreases |a|
  {
    if a == [] {
      assert a + b == b;
    } else {
      assert (a + b)[0] == a[0];
      assert (a + b)[1..] == a[1..] + b;
      var s' := Step(s, a[0], FaultAt(faults, k)).session;
      RunAppend(s', a[1..], b, faults, k + 1);
    }
  }

  /** One more step of a run: statement `j` either throws, ending the run, or the run goes on from `j + 1`. */
  lemma RunUnfold(s: Session, stmts: seq<Statement>, faults: Faults, j: nat)
    requires j < |stmts|
    ensures Run(s, stmts[j..], faults, j) ==
      match Step(s, stmts[j], FaultAt(faults, j))
      case Threw(s', e) => Aborted(s', j, e)
      case Ran(s') => Run(s', stmts[j + 1..], faults, j + 1)
  {
    assert stmts[j..][0] == stmts[j];
    assert stmts[j..][1..] == stmts[j + 1..];
  }

  /** No statement drops a database or table, redefines a table, or deletes a row. */
  lemma ExecKeepsExisting(s: Session, stmt: Statement)
    requires Exec(s, stmt).Ok?
    ensures Extends(s.catalog, Exec(s, stmt).value.catalog)
  {
  }

  /**
   * Whatever happens in a run, completed or aborted, everything that was
   * on the server before it, and everything the applied steps created,
   * is still there afterwards.
   */
  lemma {:induction false} RunKeepsExisting(s: Session, stmts: seq<Statement>, faults: Faults, k: nat)
    ensures Extends(s.catalog, Run(s, stmts, faults, k).session.catalog)
    decreases |stmts|
  {
    if stmts != [] {
      match Step(s, stmts[0], FaultAt(faults, k))
      case Threw(s', e) =>
        if s' != s {
          ExecKeepsExisting(s, stmts[0]);
        }
      case Ran(s') =>
        ExecKeepsExisting(s, stmts[0]);
        RunKeepsExisting(s', stmts[1..], faults, k + 1);
    }
  }

  /** The five-table list is dependency ordered starting from an empty database. */
  lemma TableStatementsDependencyOrdered()
    ensures DependencyOrdered({}, TableStatements)
    ensures CreatedTables(TableStatements) == SchemaTables
  {
    var t := TableStatements;
    var t1, t2, t3, t4 := t[1..], t[2..], t[3..], t[4..];
    assert t1 == t[1..] && t1[1..] == t2 && t2[1..] == t3 && t3[1..] == t4 && t4[1..] == [];
    var k1: set<string> := {} + {"users"};
    var k2 := k1 + {"platforms"};
    var k3 := k2 + {"platform_accounts"};
    var k4 := k3 + {"posts"};
    assert "users" in k3 && "platforms" in k3 && "platform_accounts" in k3 && "posts" in k4;
    assert DependencyOrdered(k4 + {"engagements"}, t4[1..]);
    assert DependencyOrdered(k4, t4);
    assert DependencyOrdered(k3, t3);
    assert DependencyOrdered(k2, t2);
    assert DependencyOrdered(k1, t1);
    assert CreatedTables(t4) == map["engagements" := EngagementsTable];
    assert CreatedTables(t3) == map["engagements" := EngagementsTable, "posts" := PostsTable];
    assert CreatedTables(t2) == map["engagements" := EngagementsTable, "posts" := PostsTable,
                                    "platform_accounts" := PlatformAccountsTable];
    assert CreatedTables(t1) == map["engagements" := EngagementsTable, "posts" := PostsTable,
                                    "platform_accounts" := PlatformAccountsTable, "platforms" := PlatformsTable];
  }

  /**
   * Dependency ordering is what makes table creation safe: a dependency
   * ordered list of creates, run against any selected database that
   * already holds the `known` tables, never hits a missing parent table.
   * Tables that already exist keep their definition; the others are added.
   */
  lemma {:induction false} OrderedCreatesSucceed(s: Session, stmts: seq<Statement>, known: set<string>, k: nat)
    requires s.current.Some? && s.current.value in s.catalog
    requires known <= s.catalog[s.current.value].tables.Keys
    requires DependencyOrdered(known, stmts)
    ensures var db := s.catalog[s.current.value];
      Run(s, stmts, NoFaults, k) ==
        Done(Session(s.catalog[s.current.value := db.(tables := CreatedTables(stmts) + db.tables)], s.current))
    decreases |stmts|
  {
    var cur := s.current.value;
    var db := s.catalog[cur];
    if stmts == [] {
      assert CreatedTables(stmts) + db.tables == db.tables;
      assert db.(tables := db.tables) == db;
      assert s.catalog[cur := db] == s.catalog;
    } else {
      var t, def := stmts[0].table, stmts[0].def;
      assert FaultAt(NoFaults, k) == None;
      var s' := Exec(s, stmts[0]).value;
      if t in db.tables {
        assert s' == s;
        OrderedCreatesSucceed(s, stmts[1..], known + {t}, k + 1);
        assert CreatedTables(stmts[1..]) + db.tables == CreatedTables(stmts) + db.tables;
      } else {
        assert !exists p :: p in def.references && p != t && p !in db.tables;
        var db' := db.(tables := db.tables[t := def]);
        assert s' == Session(s.catalog[cur := db'], s.current);
        OrderedCreatesSucceed(s', stmts[1..], known + {t}, k + 1);
        assert CreatedTables(stmts[1..]) + db'.tables == CreatedTables(stmts) + db.tables;
        assert s.catalog[cur := db'][cur := db'.(tables := CreatedTables(stmts) + db.tables)]
            == s.catalog[cur := db.(tables := CreatedTables(stmts) + db.tables)];
      }
    }
  }

  /** The database after `CREATE DATABASE IF NOT EXISTS db`. */
  function CreatedDatabase(c: Catalog, db: string): Catalog
  {
    if db in c then c else c[db := EmptyDatabase]
  }

  /** The first two steps create `db` if needed and select it; nothing is skipped. */
  lemma SetupSelectsDatabase(c: Catalog, current: Option<string>, db: string, faults: Faults)
    requires 0 !in faults && 1 !in faults
    ensures Run(Session(c, current), SetupScript(db), faults, 0)
         == Run(Session(CreatedDatabase(c, db), Some(db)), TableStatements + [InsertIgnorePlatform(SeedPlatform)], faults, 2)
  {
    var script := SetupScript(db);
    var s1 := Session(CreatedDatabase(c, db), current);
    assert Step(Session(c, current), script[0], FaultAt(faults, 0)) == Ran(s1);
    assert script[1..][0] == Use(db);
    assert script[1..][1..] == TableStatements + [InsertIgnorePlatform(SeedPlatform)];
    assert Step(s1, Use(db), FaultAt(faults, 1)) == Ran(Session(CreatedDatabase(c, db), Some(db)));
  }

  /** The five creates, then the seed insert, against the selected database `db`. */
  lemma TablesThenSeed(c1: Catalog, db: string)
    requires db in c1
    ensures Run(Session(c1, Some(db)), TableStatements + [InsertIgnorePlatform(SeedPlatform)], NoFaults, 2)
         == Done(Session(Bootstrapped(c1, db), Some(db)))
  {
    var s2 := Session(c1, Some(db));
    TableStatementsDependencyOrdered();
    OrderedCreatesSucceed(s2, TableStatements, {}, 2);
    var d := c1[db];
    var tables := SchemaTables + d.tables;
    var s3 := Session(c1[db := d.(tables := tables)], Some(db));
    RunAppend(s2, TableStatements, [InsertIgnorePlatform(SeedPlatform)], NoFaults, 2);
    assert FaultAt(NoFaults, 7) == None;
    var names :=
      if "name" in tables["platforms"].unique && SeedPlatform in d.platformNames then d.platformNames
      else d.platformNames + [SeedPlatform];
    assert "platforms" in SchemaTables && "platforms" in tables;
    assert s3.catalog[db] == Database(tables, d.platformNames);
    assert s3.catalog[db := Database(tables, names)] == c1[db := Database(tables, names)];
    if names == d.platformNames {
      assert c1[db := Database(tables, names)] == s3.catalog;
    }
    assert Exec(s3, InsertIgnorePlatform(SeedPlatform)) == Ok(Session(c1[db := Database(tables, names)], Some(db)));
  }

  /**
   * A fault-free bootstrap of `db` never fails, whatever the server holds
   * beforehand (an empty server included), and its effect is exactly
   * `Bootstrapped`, with `db` left selected.
   */
  lemma SetupComputesBootstrapped(c: Catalog, current: Option<string>, db: string)
    ensures Run(Session(c, current), SetupScript(db), NoFaults, 0) == Done(Session(Bootstrapped(c, db), Some(db)))
  {
    SetupSelectsDatabase(c, current, db, NoFaults);
    TablesThenSeed(CreatedDatabase(c, db), db);
    assert Bootstrapped(CreatedDatabase(c, db), db) == Bootstrapped(c, db);
  }

  /** A run that completes hit no fault, so it is the fault-free run. */
  lemma {:induction false} DoneIgnoresFaults(s: Session, stmts: seq<Statement>, faults: Faults, k: nat)
    requires Run(s, stmts, faults, k).Done?
    ensures Run(s, stmts, faults, k) == Run(s, stmts, NoFaults, k)
    decreases |stmts|
  {
    if stmts != [] {
      assert FaultAt(NoFaults, k) == None;
      match Step(s, stmts[0], FaultAt(faults, k))
      case Threw(s', e) =>
      case Ran(s') =>
        DoneIgnoresFaults(s', stmts[1..], faults, k + 1);
    }
  }

  /**
   * Abort on error: when step `j` throws, the steps before it have run to
   * completion and stay applied, step `j` raised the run's error and left
   * the server as the run ends, and no later step is executed.
   */
  lemma {:induction false} AbortKeepsPrefix(s: Session, stmts: seq<Statement>, faults: Faults, k: nat)
    requires Run(s, stmts, faults, k).Aborted?
    ensures var r := Run(s, stmts, faults, k);
      var before := Run(s, stmts[..r.step - k], faults, k);
      && k <= r.step < k + |stmts|
      && before.Done?
      && Step(before.session, stmts[r.step - k], FaultAt(faults, r.step)) == Threw(r.session, r.error)
    decreases |stmts|
  {
    var r := Run(s, stmts, faults, k);
    match Step(s, stmts[0], FaultAt(faults, k))
    case Threw(s', e) =>
      assert stmts[..0] == [];
    case Ran(s') =>
      AbortKeepsPrefix(s', stmts[1..], faults, k + 1);
      var i := r.step - k;
      assert stmts[1..][..i - 1] == stmts[..i][1..];
      assert stmts[..i][0] == stmts[0];
      assert stmts[1..][i - 1] == stmts[i];
  }

  /**
   * A step whose fault struck before the server carried it out leaves the
   * run's final state exactly the state after the steps before it.
   */
  lemma AbortBeforeEffectKeepsPrefixOnly(s: Session, stmts: seq<Statement>, faults: Faults, k: nat)
    requires Run(s, stmts, faults, k).Aborted?
    requires var j := Run(s, stmts, faults, k).step; j in faults ==> !faults[j].tookEffect
    ensures var r := Run(s, stmts, faults, k);
      Run(s, stmts[..r.step - k], faults, k) == Done(r.session)
  {
    AbortKeepsPrefix(s, stmts, faults, k);
  }

  /**
   * Idempotence: bootstrapping an already bootstrapped database changes
   * nothing, provided any `platforms` table it had already carries the
   * UNIQUE `name` the script declares.
   */
  lemma BootstrappedIdempotent(c: Catalog, db: string)
    requires PlatformNameUnique(c, db)
    ensures Bootstrapped(Bootstrapped(c, db), db) == Bootstrapped(c, db)
  {
    var c1 := Bootstrapped(c, db);
    var d := if db in c then c[db] else EmptyDatabase;
    assert c1[db].tables == SchemaTables + d.tables;
    assert "name" in c1[db].tables["platforms"].unique;
    assert SchemaTables + c1[db].tables == c1[db].tables;
    assert c1[db := c1[db]] == c1;
  }

  /** Running the whole bootstrap twice, each time on a new connection, leaves the server as running it once. */
  lemma SetupTwiceIsOnce(c: Catalog, db: string)
    requires PlatformNameUnique(c, db)
    ensures var first := Run(Session(c, None), SetupScript(db), NoFaults, 0);
      && first.Done?
      && Run(Session(first.session.catalog, None), SetupScript(db), NoFaults, 0) == first
  {
    SetupComputesBootstrapped(c, None, db);
    SetupComputesBootstrapped(Bootstrapped(c, db), None, db);
    BootstrappedIdempotent(c, db);
  }

  /** The catalog after `n` successful bootstraps of `db`. */
  function SetupTimes(c: Catalog, db: string, n: nat): Catalog
  {
    if n == 0 then c else Bootstrapped(SetupTimes(c, db, n - 1), db)
  }

  /** Any positive number of successful runs has the effect of one. */
  lemma {:induction false} SetupTimesIsOnce(c: Catalog, db: string, n: nat)
    requires PlatformNameUnique(c, db) && n >= 1
    ensures SetupTimes(c, db, n) == Bootstrapped(c, db)
  {
    if n > 1 {
      SetupTimesIsOnce(c, db, n - 1);
      BootstrappedIdempotent(c, db);
    }
  }

  lemma {:induction false} NoDuplicatesCount(s: seq<string>, x: string)
    requires NoDuplicates(s)
    ensures multiset(s)[x] == if x in s then 1 else 0
  {
    if s != [] {
      assert s == [s[0]] + s[1..];
      assert NoDuplicates(s[1..]) by {
        forall i, j | 0 <= i < j < |s[1..]| ensures s[1..][i] != s[1..][j] {
          assert s[1..][i] == s[i + 1] && s[1..][j] == s[j + 1];
        }
      }
      assert s[0] !in s[1..] by {
        forall i | 0 <= i < |s[1..]| ensures s[1..][i] != s[0] {
          assert s[1..][i] == s[i + 1];
        }
      }
      NoDuplicatesCount(s[1..], x);
      assert multiset(s) == multiset([s[0]]) + multiset(s[1..]);
    }
  }

  /**
   * Seed uniqueness: when the target database is well formed (or absent),
   * a successful bootstrap leaves exactly one `platforms` row named
   * 'YouTube' and the target stays well formed; other databases on the
   * server play no part.
   */
  lemma SeedExactlyOnce(c: Catalog, db: string)
    requires TargetWellFormed(c, db)
    ensures DatabaseWellFormed(Bootstrapped(c, db)[db])
    ensures multiset(Bootstrapped(c, db)[db].platformNames)[SeedPlatform] == 1
  {
    var c1 := Bootstrapped(c, db);
    var d := if db in c then c[db] else EmptyDatabase;
    var names := c1[db].platformNames;
    assert "platforms" in c1[db].tables;
    assert "name" in c1[db].tables["platforms"].unique;
    if SeedPlatform !in d.platformNames {
      assert names == d.platformNames + [SeedPlatform];
      assert NoDuplicates(d.platformNames);
      assert NoDuplicates(names) by {
        forall i, j | 0 <= i < j < |names| ensures names[i] != names[j] {
          if j == |names| - 1 {
            assert names[i] == d.platformNames[i];
          } else {
            assert names[i] == d.platformNames[i] && names[j] == d.platformNames[j];
          }
        }
      }
    } else {
      assert "platforms" in d.tables;
      assert names == d.platformNames;
    }
    NoDuplicatesCount(names, SeedPlatform);
  }

  /** A successful bootstrap keeps a well-formed server well formed. */
  lemma BootstrappedPreservesWellFormed(c: Catalog, db: string)
    requires WellFormed(c)
    ensures WellFormed(Bootstrapped(c, db))
  {
    SeedExactlyOnce(c, db);
  }

  /** However many times the bootstrap succeeds (at least once), 'YouTube' is in `platforms` exactly once. */
  lemma SeedExactlyOnceAfterRepeatedRuns(c: Catalog, db: string, n: nat)
    requires TargetWellFormed(c, db) && n >= 1
    ensures multiset(SetupTimes(c, db, n)[db].platformNames)[SeedPlatform] == 1
  {
    assert PlatformNameUnique(c, db);
    SetupTimesIsOnce(c, db, n);
    SeedExactlyOnce(c, db);
  }

  /** Every create of `platforms` in `stmts` declares `name` UNIQUE. */
  predicate DeclaresUniquePlatformName(stmts: seq<Statement>)
  {
    forall i :: 0 <= i < |stmts| && stmts[i].CreateTableIfNotExists? && stmts[i].table == "platforms" ==>
      "name" in stmts[i].def.unique
  }

  lemma ExecPreservesWellFormed(s: Session, stmt: Statement)
    requires WellFormed(s.catalog)
    requires stmt.CreateTableIfNotExists? && stmt.table == "platforms" ==> "name" in stmt.def.unique
    ensures Exec(s, stmt).Ok? ==> WellFormed(Exec(s, stmt).value.catalog)
  {
  }

  /**
   * At no moment, whatever step fails, does a database hold two
   * `platforms` rows with the same name: every run of statements that
   * declare `platforms.name` UNIQUE keeps the server well-formed.
   */
  lemma {:induction false} RunPreservesWellFormed(s: Session, stmts: seq<Statement>, faults: Faults, k: nat)
    requires WellFormed(s.catalog) && DeclaresUniquePlatformName(stmts)
    ensures WellFormed(Run(s, stmts, faults, k).session.catalog)
    decreases |stmts|
  {
    if stmts != [] {
      match Step(s, stmts[0], FaultAt(faults, k))
      case Threw(s', e) =>
        ExecPreservesWellFormed(s, stmts[0]);
      case Ran(s') =>
        ExecPreservesWellFormed(s, stmts[0]);
        assert DeclaresUniquePlatformName(stmts[1..]) by {
          forall i | 0 <= i < |stmts[1..]| && stmts[1..][i].CreateTableIfNotExists? && stmts[1..][i].table == "platforms"
            ensures "name" in stmts[1..][i].def.unique
          {
            assert stmts[1..][i] == stmts[i + 1];
          }
        }
        RunPreservesWellFormed(s', stmts[1..], faults, k + 1);
    }
  }

  /**
   * Any bootstrap attempt, completed or aborted at any step, leaves at
   * most one 'YouTube' row in every database of a well-formed server, and
   * a completed one leaves exactly one in the target database.
   */
  lemma SeedNeverDuplicated(c: Catalog, current: Option<string>, db: string, faults: Faults)
    requires WellFormed(c)
    ensures var r := Run(Session(c, current), SetupScript(db), faults, 0);
      && WellFormed(r.session.catalog)
      && (forall n :: n in r.session.catalog ==> multiset(r.session.catalog[n].platformNames)[SeedPlatform] <= 1)
      && (r.Done? ==> db in r.session.catalog && multiset(r.session.catalog[db].platformNames)[SeedPlatform] == 1)
  {
    var script := SetupScript(db);
    assert DeclaresUniquePlatformName(script) by {
      forall i | 0 <= i < |script| && script[i].CreateTableIfNotExists? && script[i].table == "platforms"
        ensures "name" in script[i].def.unique
      {
        assert 2 <= i < 7;
        assert script[i] == TableStatements[i - 2];
      }
    }
    RunPreservesWellFormed(Session(c, current), script, faults, 0);
    var r := Run(Session(c, current), script, faults, 0);
    forall n | n in r.session.catalog ensures multiset(r.session.catalog[n].platformNames)[SeedPlatform] <= 1 {
      if "platforms" in r.session.catalog[n].tables {
        NoDuplicatesCount(r.session.catalog[n].platformNames, SeedPlatform);
      }
    }
    if r.Done? {
      DoneIgnoresFaults(Session(c, current), script, faults, 0);
      SetupComputesBootstrapped(c, current, db);
      SeedExactlyOnce(c, db);
    }
  }

  /**
   * Against an empty server the bootstrap creates the one database, with
   * exactly the five schema tables and exactly one `platforms` row, 'YouTube'.
   */
  lemma FreshServer(db: string)
    ensures Run(Session(map[], None), SetupScript(db), NoFaults, 0)
         == Done(Session(map[db := Database(SchemaTables, [SeedPlatform])], Some(db)))
    ensures SchemaTables.Keys == {"users", "platforms", "platform_accounts", "posts", "engagements"}
  {
    SetupComputesBootstrapped(map[], None, db);
    assert SchemaTables + map[] == SchemaTables;
    assert [] + [SeedPlatform] == [SeedPlatform];
  }

  /**
   * The script's shape: the database is created, then selected under the
   * same name, then the five tables are created in their listed order,
   * then the seed row is inserted.
   */
  lemma ScriptOrder(db: string)
    ensures var script := SetupScript(db);
      && |script| == 8
      && script[0] == CreateDatabaseIfNotExists(db)
      && script[1] == Use(db)
      && (forall i :: 2 <= i < 7 ==> script[i].CreateTableIfNotExists?)
      && [script[2].table, script[3].table, script[4].table, script[5].table, script[6].table]
         == ["users", "platforms", "platform_accounts", "posts", "engagements"]
      && script[7] == InsertIgnorePlatform("YouTube")
  {
  }
}
