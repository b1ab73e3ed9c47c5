/** The connection check script (db/checkConnection.js): it reads a table
    name from the command line, refuses any name outside `[A-Za-z0-9_]+`,
    fetches five rows of that table and ends the pool.

    The database answers the one query with rows or with an error, given as
    `queryFails`; printing the rows is not modelled. */
module CheckConnection {
  import opened Js
  import Db

  const DefaultTable: string := "users"

  /** `process.argv[2] || 'users'`. */
  function TableOf(arg: Option<string>): (t: string)
    ensures Str(t) == Or(OfEnv(arg), Str(DefaultTable))
  {
    if arg.Some? && arg.value != "" then arg.value else DefaultTable
  }

  predicate IsWordChar(c: char) {
    ('A' <= c <= 'Z') || ('a' <= c <= 'z') || ('0' <= c <= '9') || c == '_'
  }

  /** `/^[A-Za-z0-9_]+$/.test(table)`. */
  predicate ValidTableName(t: string) {
    t != [] && forall i :: 0 <= i < |t| ==> IsWordChar(t[i])
  }

  const Prefix: string := "SELECT * FROM "
  const Suffix: string := " LIMIT 5"

  /** The query text, `SELECT * FROM ${table} LIMIT 5`. */
  function Query(table: string): (q: string)
    ensures |q| == |Prefix| + |table| + |Suffix|
    ensures q[..|Prefix|] == Prefix && q[|Prefix|..|Prefix| + |table|] == table && q[|Prefix| + |table|..] == Suffix
  {
    Prefix + table + Suffix
  }

  /** Different tables give different queries, and a valid name cannot
      smuggle a quote, a semicolon or a comment into the query. */
  lemma QueryInjective(a: string, b: string)
    requires Query(a) == Query(b)
    ensures a == b
  {
    assert |a| == |b|;
    assert a == Query(a)[|Prefix|..|Prefix| + |a|];
  }

  lemma QueryIsClean(table: string)
    requires ValidTableName(table)
    ensures forall i :: 0 <= i < |Query(table)| ==> Query(table)[i] !in {';', '\'', '"', '-'}
  {
    var q := Query(table);
    forall i | 0 <= i < |q|
      ensures q[i] !in {';', '\'', '"', '-'}
    {
      if i < |Prefix| {
        assert q[i] == Prefix[i];
      } else if i < |Prefix| + |table| {
        assert q[i] == table[i - |Prefix|];
      } else {
        assert q[i] == Suffix[i - |Prefix| - |table|];
      }
    }
  }

  /** With no argument the default table is checked, and it is a valid name. */
  lemma DefaultIsValid()
    ensures TableOf(None) == "users" && ValidTableName(TableOf(None))
  {
    assert IsWordChar(DefaultTable[0]) && IsWordChar(DefaultTable[1]) && IsWordChar(DefaultTable[2]);
    assert IsWordChar(DefaultTable[3]) && IsWordChar(DefaultTable[4]);
  }

  /** What one run of the script does: the code it exits with (none for a
      normal end), the queries it sends, whether it ends the pool, and the
      error it reports. */
  datatype ScriptRun = ScriptRun(exitCode: Option<int>, queries: seq<string>, poolEnded: bool, error: Option<string>)

  /** The script against the database module `db`: the name check first,
      then the query through the exported proxy, then `pool.end()` in the
      `finally` block, whose own failure is ignored. */
  method Run(db: Db.DbModule, arg: Option<string>, queryFails: bool, queryError: string) returns (r: ScriptRun)
    ensures !ValidTableName(TableOf(arg)) ==> r == ScriptRun(Some(1), [], false, None)
    ensures ValidTableName(TableOf(arg)) && db.activePool.None? ==>
      r == ScriptRun(None, [], false, Some(Db.NotInitialized("query")))
    ensures ValidTableName(TableOf(arg)) && db.activePool.Some? ==>
      && r.exitCode == None && r.queries == [Query(TableOf(arg))] && r.poolEnded
      && r.error == (if queryFails then Some(queryError) else None)
  {
    var table := TableOf(arg);
    if !ValidTableName(table) {
      return ScriptRun(Some(1), [], false, None);
    }
    var queries: seq<string> := [];
    var error: Option<string> := None;
    var query := db.Get("query");
    match query {
      case Failure(message) =>
        error := Some(message);
      case Success(_) =>
        queries := queries + [Query(table)];
        if queryFails {
          error := Some(queryError);
        }
    }
    var end := db.Get("end");
    r := ScriptRun(None, queries, end.Success?, error);
  }

  /** The script as written: its query reaches the proxy while the module's
      bootstrap is still waiting on its first probe, so no pool is attached;
      the query is never sent and the pool never ended. */
  method CheckAtLoad(env: Db.Env, outcomes: seq<bool>, arg: Option<string>, queryFails: bool, queryError: string)
    returns (r: ScriptRun)
    ensures ValidTableName(TableOf(arg)) ==>
      r.queries == [] && !r.poolEnded && r.error == Some(Db.NotInitialized("query"))
  {
    var db := new Db.DbModule.Load(env, outcomes);
    r := Run(db, arg, queryFails, queryError);
  }

  /** The script once the bootstrap has attached a pool: the query is sent
      and the pool ended, whatever the query's outcome. */
  method CheckAfterSetup(env: Db.Env, outcomes: seq<bool>, arg: Option<string>, queryFails: bool, queryError: string)
    returns (r: ScriptRun)
    ensures ValidTableName(TableOf(arg)) ==>
      r.queries == [Query(TableOf(arg))] && r.poolEnded && (r.error.Some? <==> queryFails)
    ensures !ValidTableName(TableOf(arg)) ==> r.exitCode == Some(1) && r.queries == []
  {
    var db := new Db.DbModule.Load(env, outcomes);
    db.CreatePoolWithFallback();
    r := Run(db, arg, queryFails, queryError);
  }
}
