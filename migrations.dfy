/** The migration runner (scripts/runMigrations.js): the `.sql` files of the
    migrations directory, in sorted order, are run one after the other,
    skipping those the `migration_history` table already names, and each is
    recorded there once its SQL has run.

    The file system is the runner's inputs: whether the directory exists
    and the names it lists. A migration whose SQL throws is one of `broken`.
    What the runner does to the database is a log of actions. */
module Migrations {
  import opened Js
  import Db

  // ---------------------------------------------------------------------
  // Selecting the files

  /** `.filter(f => f.endsWith('.sql'))`. */
  function SqlFiles(names: seq<string>): (r: seq<string>)
    ensures forall f :: f in r <==> f in names && EndsWith(f, ".sql")
    ensures |r| <= |names|
  {
    if names == [] then []
    else
      assert names == [names[0]] + names[1..];
      (if EndsWith(names[0], ".sql") then [names[0]] else []) + SqlFiles(names[1..])
  }

  /** The default order of `Array.prototype.sort` on strings: character by
      character, a prefix first. */
  predicate LexLe(a: string, b: string) {
    a == [] || (b != [] && (a[0] < b[0] || (a[0] == b[0] && LexLe(a[1..], b[1..]))))
  }

  lemma {:induction false} LexTotal(a: string, b: string)
    ensures LexLe(a, b) || LexLe(b, a)
  {
    if a != [] && b != [] && a[0] == b[0] {
      LexTotal(a[1..], b[1..]);
    }
  }

  lemma {:induction false} LexTrans(a: string, b: string, c: string)
    requires LexLe(a, b) && LexLe(b, c)
    ensures LexLe(a, c)
  {
    if a != [] && a[0] == b[0] && b[0] == c[0] {
      LexTrans(a[1..], b[1..], c[1..]);
    }
  }

  predicate Sorted(s: seq<string>) {
    forall i, j :: 0 <= i < j < |s| ==> LexLe(s[i], s[j])
  }

  function Insert(x: string, s: seq<string>): (r: seq<string>)
    ensures multiset(r) == multiset(s) + multiset{x}
  {
    if s == [] then [x]
    else if LexLe(x, s[0]) then [x] + s
    else
      assert s == [s[0]] + s[1..];
      [s[0]] + Insert(x, s[1..])
  }

  lemma {:induction false} InsertSorted(x: string, s: seq<string>)
    requires Sorted(s)
    ensures Sorted(Insert(x, s))
  {
    if s == [] {
    } else if LexLe(x, s[0]) {
      forall j | 0 < j < |s|
        ensures LexLe(x, s[j])
      {
        LexTrans(x, s[0], s[j]);
      }
    } else {
      LexTotal(x, s[0]);
      InsertSorted(x, s[1..]);
      var rest := Insert(x, s[1..]);
      assert s == [s[0]] + s[1..];
      forall y | y in rest
        ensures LexLe(s[0], y)
      {
        assert y in multiset(rest);
      }
    }
  }

  /** `.sort()`: an insertion sort stands for the engine's algorithm. */
  function Sort(s: seq<string>): (r: seq<string>)
    ensures Sorted(r) && multiset(r) == multiset(s)
  {
    if s == [] then []
    else
      assert s == [s[0]] + s[1..];
      InsertSorted(s[0], Sort(s[1..]));
      Insert(s[0], Sort(s[1..]))
  }

  /** The files the loop visits, in order. */
  function Pending(listing: seq<string>): (r: seq<string>)
    ensures Sorted(r)
    ensures forall f :: f in r <==> f in listing && EndsWith(f, ".sql")
  {
    var r := Sort(SqlFiles(listing));
    assert forall f :: f in r <==> f in multiset(r);
    r
  }

  // ---------------------------------------------------------------------
  // Running them

  /** What the runner does to the database: run a migration's SQL, or
      insert its name into `migration_history`. */
  datatype Action = Executed(file: string) | Recorded(file: string)

  datatype Outcome = Outcome(log: seq<Action>, history: seq<string>, failed: bool)

  /** The loop over `files` with the `applied` set read before it: skip an
      applied file; otherwise run its SQL and record its name. A failing SQL
      statement, or a name the history already holds (the `UNIQUE`
      constraint), stops the run. */
  function Migrate(files: seq<string>, applied: set<string>, broken: set<string>, history: seq<string>): Outcome {
    if files == [] then Outcome([], history, false)
    else
      var f := files[0];
      if f in applied then Migrate(files[1..], applied, broken, history)
      else if f in broken then Outcome([], history, true)
      else if f in history then Outcome([Executed(f)], history, true)
      else
        var rest := Migrate(files[1..], applied, broken, history + [f]);
        Outcome([Executed(f), Recorded(f)] + rest.log, rest.history, rest.failed)
  }

  /** The run touches only files it visits that were not applied before. */
  lemma {:induction false} MigrateTouches(files: seq<string>, applied: set<string>, broken: set<string>, history: seq<string>)
    ensures forall a :: a in Migrate(files, applied, broken, history).log ==> a.file in files && a.file !in applied
  {
    if files != [] {
      var f := files[0];
      assert files == [f] + files[1..];
      if f in applied {
        MigrateTouches(files[1..], applied, broken, history);
      } else if f !in broken && f !in history {
        MigrateTouches(files[1..], applied, broken, history + [f]);
      }
    }
  }

  /** A run that does not fail leaves every visited file applied before or
      recorded; the history only grows. */
  lemma {:induction false} MigrateCovers(files: seq<string>, applied: set<string>, broken: set<string>, history: seq<string>)
    ensures var o := Migrate(files, applied, broken, history);
      && (!o.failed ==> forall f :: f in files ==> f in applied || f in o.history)
      && (forall f :: f in history ==> f in o.history)
  {
    if files != [] {
      var f := files[0];
      assert files == [f] + files[1..];
      if f in applied {
        MigrateCovers(files[1..], applied, broken, history);
      } else if f !in broken && f !in history {
        MigrateCovers(files[1..], applied, broken, history + [f]);
      }
    }
  }

  /** Each `Recorded(f)` comes right after `Executed(f)`; `prev` is the
      action before `log`. */
  predicate RecordsFollowRuns(log: seq<Action>, prev: Option<Action>) {
    log == [] ||
    ((log[0].Recorded? ==> prev == Some(Executed(log[0].file))) && RecordsFollowRuns(log[1..], Some(log[0])))
  }

  /** The names the log inserts into the history, in order. */
  function RecordedFiles(log: seq<Action>): seq<string> {
    if log == [] then []
    else (if log[0].Recorded? then [log[0].file] else []) + RecordedFiles(log[1..])
  }

  /** The migrations whose SQL the log runs, in order. */
  function ExecutedFiles(log: seq<Action>): (r: seq<string>)
    ensures forall f :: f in r ==> exists a :: a in log && a.file == f
  {
    if log == [] then []
    else
      assert log[0] in log && forall a :: a in log[1..] ==> a in log;
      (if log[0].Executed? then [log[0].file] else []) + ExecutedFiles(log[1..])
  }

  /** A name is recorded only right after its SQL has run. */
  lemma {:induction false} RecordedAfterExecuted(files: seq<string>, applied: set<string>, broken: set<string>, history: seq<string>)
    ensures RecordsFollowRuns(Migrate(files, applied, broken, history).log, None)
  {
    if files != [] {
      var f := files[0];
      if f in applied {
        RecordedAfterExecuted(files[1..], applied, broken, history);
      } else if f in broken {
      } else if f in history {
        assert [Executed(f)][1..] == [];
      } else {
        RecordedAfterExecuted(files[1..], applied, broken, history + [f]);
        var rest := Migrate(files[1..], applied, broken, history + [f]);
        var log := [Executed(f), Recorded(f)] + rest.log;
        assert log[1..] == [Recorded(f)] + rest.log;
        assert log[1..][1..] == rest.log;
        RestartRecords(rest.log);
      }
    }
  }

  /** The history grows by exactly the names the log records. */
  lemma {:induction false} HistoryGrowth(files: seq<string>, applied: set<string>, broken: set<string>, history: seq<string>)
    ensures Migrate(files, applied, broken, history).history == history + RecordedFiles(Migrate(files, applied, broken, history).log)
  {
    if files != [] {
      var f := files[0];
      if f in applied {
        HistoryGrowth(files[1..], applied, broken, history);
      } else if f in broken {
        assert history + [] == history;
      } else if f in history {
        assert [Executed(f)][1..] == [];
        assert history + [] == history;
      } else {
        HistoryGrowth(files[1..], applied, broken, history + [f]);
        var rest := Migrate(files[1..], applied, broken, history + [f]);
        assert Migrate(files, applied, broken, history) == Outcome([Executed(f), Recorded(f)] + rest.log, rest.history, rest.failed);
        RecordedStep(f, rest.log);
        var recorded := RecordedFiles(rest.log);
        assert (history + [f]) + recorded == history + ([f] + recorded);
      }
    }
  }

  lemma RecordedStep(f: string, rest: seq<Action>)
    ensures RecordedFiles([Executed(f), Recorded(f)] + rest) == [f] + RecordedFiles(rest)
  {
    var log := [Executed(f), Recorded(f)] + rest;
    assert log[1..] == [Recorded(f)] + rest;
    assert log[1..][1..] == rest;
  }

  /** The log of a fresh loop iteration starts with `Executed`, so what
      came before it does not matter. */
  lemma RestartRecords(log: seq<Action>)
    requires RecordsFollowRuns(log, None)
    ensures forall prev :: RecordsFollowRuns(log, prev)
  {
  }

  /** On sorted input the migrations run in sorted order. */
  lemma {:induction false} MigrateInOrder(files: seq<string>, applied: set<string>, broken: set<string>, history: seq<string>)
    requires Sorted(files)
    ensures Sorted(ExecutedFiles(Migrate(files, applied, broken, history).log))
  {
    if files != [] {
      var f := files[0];
      assert files == [f] + files[1..];
      assert Sorted(files[1..]);
      if f in applied {
        MigrateInOrder(files[1..], applied, broken, history);
      } else if f !in broken && f !in history {
        MigrateInOrder(files[1..], applied, broken, history + [f]);
        MigrateTouches(files[1..], applied, broken, history + [f]);
        var rest := Migrate(files[1..], applied, broken, history + [f]);
        var log := [Executed(f), Recorded(f)] + rest.log;
        assert log[1..] == [Recorded(f)] + rest.log;
        assert log[1..][1..] == rest.log;
        var later := ExecutedFiles(rest.log);
        assert ExecutedFiles(log) == [f] + later;
        forall y | y in later
          ensures LexLe(f, y)
        {
          var k :| 0 <= k < |files[1..]| && files[1..][k] == y;
          assert files[k + 1] == y;
        }
        SortedCons(f, later);
      }
    }
  }

  lemma SortedCons(x: string, s: seq<string>)
    requires Sorted(s) && forall y :: y in s ==> LexLe(x, y)
    ensures Sorted([x] + s)
  {
    var t := [x] + s;
    forall i, j | 0 <= i < j < |t|
      ensures LexLe(t[i], t[j])
    {
      assert t[j] == s[j - 1];
      if i > 0 {
        assert t[i] == s[i - 1];
      }
    }
  }

  /** A failed run stops at its failing file: whatever follows is never
      touched. */
  lemma {:induction false} MigrateStops(files: seq<string>, more: seq<string>, applied: set<string>, broken: set<string>, history: seq<string>)
    requires Migrate(files, applied, broken, history).failed
    ensures Migrate(files + more, applied, broken, history) == Migrate(files, applied, broken, history)
  {
    var f := files[0];
    assert (files + more)[0] == f;
    assert (files + more)[1..] == files[1..] + more;
    if f in applied {
      MigrateStops(files[1..], more, applied, broken, history);
    } else if f !in broken && f !in history {
      MigrateStops(files[1..], more, applied, broken, history + [f]);
    }
  }

  /** With every file already applied, the run does nothing. */
  lemma {:induction false} NothingPending(files: seq<string>, applied: set<string>, broken: set<string>, history: seq<string>)
    requires forall f :: f in files ==> f in applied
    ensures Migrate(files, applied, broken, history) == Outcome([], history, false)
  {
    if files != [] {
      assert files[0] in files;
      assert forall f :: f in files[1..] ==> f in files;
      NothingPending(files[1..], applied, broken, history);
    }
  }

  /** `new Set(res.rows.map(r => r.filename))`. */
  function Applied(history: seq<string>): (s: set<string>)
    ensures forall f :: f in s <==> f in history
  {
    set f | f in history
  }

  /** No name occurs twice, as in a directory listing. */
  ghost predicate Distinct(s: seq<string>) {
    forall x :: multiset(s)[x] <= 1
  }

  lemma {:induction false} SqlFilesDistinct(names: seq<string>)
    requires Distinct(names)
    ensures Distinct(SqlFiles(names))
    ensures multiset(SqlFiles(names)) <= multiset(names)
  {
    if names != [] {
      assert names == [names[0]] + names[1..];
      assert multiset(names) == multiset{names[0]} + multiset(names[1..]);
      assert Distinct(names[1..]) by {
        assert forall x :: multiset(names[1..])[x] <= multiset(names)[x];
      }
      SqlFilesDistinct(names[1..]);
      var r := SqlFiles(names);
      assert r == (if EndsWith(names[0], ".sql") then [names[0]] else []) + SqlFiles(names[1..]);
      assert multiset(r) <= multiset(names);
      assert forall x :: multiset(r)[x] <= multiset(names)[x];
    }
  }

  /** Over distinct files, none of them broken or already in the history
      unless applied, the run does not fail. */
  lemma {:induction false} MigrateSucceeds(files: seq<string>, applied: set<string>, broken: set<string>, history: seq<string>)
    requires Distinct(files)
    requires forall f :: f in files && f !in applied ==> f !in broken && f !in history
    ensures !Migrate(files, applied, broken, history).failed
  {
    if files != [] {
      var f := files[0];
      assert files == [f] + files[1..];
      assert multiset(files) == multiset{f} + multiset(files[1..]);
      assert Distinct(files[1..]) by {
        assert forall x :: multiset(files[1..])[x] <= multiset(files)[x];
      }
      assert f !in files[1..] by {
        assert multiset(files)[f] <= 1;
        assert multiset(files[1..])[f] == 0;
      }
      assert forall g :: g in files[1..] ==> g in files;
      if f in applied {
        MigrateSucceeds(files[1..], applied, broken, history);
      } else {
        MigrateSucceeds(files[1..], applied, broken, history + [f]);
      }
    }
  }

  /** A directory whose pending `.sql` files are none of them broken runs to
      the end: nothing fails, and every `.sql` file is in the history
      afterwards. */
  lemma CleanRun(listing: seq<string>, broken: set<string>, history: seq<string>)
    requires Distinct(listing)
    requires forall f :: f in listing && EndsWith(f, ".sql") && f !in history ==> f !in broken
    ensures var o := Migrate(Pending(listing), Applied(history), broken, history);
      && !o.failed
      && forall f :: f in listing && EndsWith(f, ".sql") ==> f in o.history
  {
    var files := Pending(listing);
    SqlFilesDistinct(listing);
    assert multiset(files) == multiset(SqlFiles(listing));
    MigrateSucceeds(files, Applied(history), broken, history);
    MigrateCovers(files, Applied(history), broken, history);
  }

  /** A second run over the same directory after a successful one applies
      nothing. */
  lemma Idempotent(listing: seq<string>, broken: set<string>, history: seq<string>)
    requires !Migrate(Pending(listing), Applied(history), broken, history).failed
    ensures var h := Migrate(Pending(listing), Applied(history), broken, history).history;
      Migrate(Pending(listing), Applied(h), broken, h) == Outcome([], h, false)
  {
    var h := Migrate(Pending(listing), Applied(history), broken, history).history;
    MigrateCovers(Pending(listing), Applied(history), broken, history);
    NothingPending(Pending(listing), Applied(h), broken, h);
  }

  /** One iteration of the loop over `files`, at position `i`. */
  lemma MigrateStep(files: seq<string>, i: nat, applied: set<string>, broken: set<string>, history: seq<string>)
    requires i < |files|
    ensures var f := files[i];
      var here := Migrate(files[i..], applied, broken, history);
      && (f in applied ==> here == Migrate(files[i + 1..], applied, broken, history))
      && (f !in applied && f in broken ==> here == Outcome([], history, true))
      && (f !in applied && f !in broken && f in history ==> here == Outcome([Executed(f)], history, true))
      && (f !in applied && f !in broken && f !in history ==>
            var rest := Migrate(files[i + 1..], applied, broken, history + [f]);
            here == Outcome([Executed(f), Recorded(f)] + rest.log, rest.history, rest.failed))
  {
    assert files[i..][0] == files[i] && files[i..][1..] == files[i + 1..];
  }

  // ---------------------------------------------------------------------
  // The script

  /** One run of the script against the database module `db`. */
  class MigrationRunner {
    const dirExists: bool
    const listing: seq<string>
    const broken: set<string>
    /** The `migration_history` table, in insertion order. */
    var history: seq<string>
    var log: seq<Action>
    /** The code passed to `process.exit`. */
    var exitCode: Option<int>

    constructor (dirExists: bool, listing: seq<string>, broken: set<string>, history: seq<string>)
      ensures this.dirExists == dirExists && this.listing == listing && this.broken == broken
      ensures this.history == history && log == [] && exitCode == None
    {
      this.dirExists := dirExists;
      this.listing := listing;
      this.broken := broken;
      this.history := history;
      log := [];
      exitCode := None;
    }

    /** `applyMigration`: the SQL first, then the history row. */
    method ApplyMigration(file: string) returns (ok: bool)
      modifies this`history, this`log
      ensures ok <==> file !in broken && file !in old(history)
      ensures file in broken ==> log == old(log) && history == old(history)
      ensures file !in broken && file in old(history) ==> log == old(log) + [Executed(file)] && history == old(history)
      ensures ok ==> log == old(log) + [Executed(file), Recorded(file)] && history == old(history) + [file]
    {
      if file in broken {
        return false;
      }
      log := log + [Executed(file)];
      if file in history {
        return false;
      }
      log := log + [Recorded(file)];
      history := history + [file];
      ok := true;
    }

    /** The `for...of` loop over the selected files. */
    method ApplyAll(files: seq<string>, applied: set<string>) returns (failed: bool)
      modifies this`history, this`log
      ensures var o := Migrate(files, applied, broken, old(history));
        log == old(log) + o.log && history == o.history && failed == o.failed
    {
      ghost var log0 := log;
      ghost var target := Migrate(files, applied, broken, history);
      ghost var remaining := target;
      for i := 0 to |files|
        invariant remaining == Migrate(files[i..], applied, broken, history)
        invariant log + remaining.log == log0 + target.log
        invariant remaining.history == target.history && remaining.failed == target.failed
      {
        var file := files[i];
        MigrateStep(files, i, applied, broken, history);
        if file in applied {
          remaining := Migrate(files[i + 1..], applied, broken, history);
          continue;
        }
        ghost var before := log;
        ghost var rest := Migrate(files[i + 1..], applied, broken, history + [file]);
        var ok := ApplyMigration(file);
        if !ok {
          assert log + [] == log;
          return true;
        }
        assert before + ([Executed(file), Recorded(file)] + rest.log) == log + rest.log;
        remaining := rest;
      }
      assert files[|files|..] == [];
      assert log + [] == log;
      failed := false;
    }

    /** `run()`: a missing directory exits with 1 before the database is
        touched; a failure anywhere after that exits with 2. */
    method Run(db: Db.DbModule)
      modifies this`history, this`log, this`exitCode
      ensures !dirExists ==> exitCode == Some(1) && history == old(history) && log == old(log)
      ensures dirExists && db.activePool.None? ==> exitCode == Some(2) && history == old(history) && log == old(log)
      ensures dirExists && db.activePool.Some? ==>
        var o := Migrate(Pending(listing), Applied(old(history)), broken, old(history));
        && log == old(log) + o.log
        && history == o.history
        && exitCode == Some(if o.failed then 2 else 0)
    {
      if !dirExists {
        exitCode := Some(1);
        return;
      }
      var pool := db.Get("query");
      if pool.Failure? {
        exitCode := Some(2);
        return;
      }
      var applied := Applied(history);
      var files := Pending(listing);
      var failed := ApplyAll(files, applied);
      exitCode := Some(if failed then 2 else 0);
    }
  }

  /** The runner as written: `ensureMigrationsTable` reaches the proxy while
      the bootstrap is still waiting on its first probe, so with the
      directory present the run always exits with 2 and applies nothing. */
  method RunAtLoad(env: Db.Env, outcomes: seq<bool>, dirExists: bool, listing: seq<string>,
                   broken: set<string>, history: seq<string>)
    returns (exitCode: Option<int>, log: seq<Action>, after: seq<string>)
    ensures exitCode == Some(if dirExists then 2 else 1)
    ensures log == [] && after == history
  {
    var db := new Db.DbModule.Load(env, outcomes);
    var runner := new MigrationRunner(dirExists, listing, broken, history);
    runner.Run(db);
    exitCode, log, after := runner.exitCode, runner.log, runner.history;
  }

  /** The runner once the bootstrap has attached a pool: the pending files
      run as `Migrate` describes, and the exit code is 2 exactly when that
      run fails. By `CleanRun`, a listing without a broken pending file
      exits with 0 and records every `.sql` file. */
  method RunAfterSetup(env: Db.Env, outcomes: seq<bool>, dirExists: bool, listing: seq<string>,
                       broken: set<string>, history: seq<string>)
    returns (exitCode: Option<int>, log: seq<Action>, after: seq<string>)
    ensures !dirExists ==> exitCode == Some(1) && log == [] && after == history
    ensures dirExists ==>
      var o := Migrate(Pending(listing), Applied(history), broken, history);
      log == o.log && after == o.history && exitCode == Some(if o.failed then 2 else 0)
  {
    var db := new Db.DbModule.Load(env, outcomes);
    db.CreatePoolWithFallback();
    var runner := new MigrationRunner(dirExists, listing, broken, history);
    runner.Run(db);
    exitCode, log, after := runner.exitCode, runner.log, runner.history;
  }
}
