/** The database module (models/db.js): the SSL default, the pool options,
    the bounded retry of one SSL mode, the single fallback to the other mode,
    the last-resort pool and the guard on the module-level `activePool`.

    The outside world is an oracle: the k-th pool the module creates (counting
    from 0) answers its `SELECT 1` probe with `outcomes[k]`, and a pool with no
    scripted outcome fails its probe. What the module does to the world is
    recorded, in order, as a trace of events. */
module Db {
  import opened Js

  /** The environment variables the module reads. */
  datatype Env = Env(
    dbSsl: Option<string>,
    nodeEnv: Option<string>,
    dbHost: Option<string>,
    databaseUrl: Option<string>,
    dbUser: Option<string>,
    dbDatabase: Option<string>,
    dbPassword: Option<string>,
    dbPort: Option<string>)

  /** The initial SSL mode, as the JavaScript expression computes it (its value
      may be the host string itself; only its truthiness is used). */
  function InitialUseSsl(env: Env): (v: JsValue)
    ensures Truthy(v) <==>
      || env.dbSsl == Some("true")
      || env.nodeEnv == Some("production")
      || (env.dbHost.Some? && env.dbHost.value != "" &&
          env.dbHost.value != "localhost" && env.dbHost.value != "127.0.0.1")
  {
    var host := OfEnv(env.dbHost);
    Or(Or(Bool(OfEnv(env.dbSsl) == Str("true")), Bool(OfEnv(env.nodeEnv) == Str("production"))),
       And(And(host, Bool(host != Str("localhost"))), Bool(host != Str("127.0.0.1"))))
  }

  /** The mode tried second: `!firstTrySsl`. */
  function Fallback(first: JsValue): (v: JsValue)
    ensures Truthy(v) == !Truthy(first)
  {
    Bool(!Truthy(first))
  }

  datatype Ssl = Ssl(rejectUnauthorized: bool)

  datatype PoolOptions =
    | ConnectionString(url: string, ssl: Option<Ssl>)
    | Fields(user: Option<string>, host: Option<string>, database: Option<string>,
             password: Option<string>, port: Option<string>, ssl: Option<Ssl>)

  function MakePoolOptions(env: Env, useSsl: JsValue): (o: PoolOptions)
    ensures o.ConnectionString? <==> env.databaseUrl.Some? && env.databaseUrl.value != ""
    ensures o.ConnectionString? ==> o.url == env.databaseUrl.value
    ensures o.Fields? ==>
      o == Fields(env.dbUser, env.dbHost, env.dbDatabase, env.dbPassword, env.dbPort, o.ssl)
    ensures o.ssl.Some? <==> Truthy(useSsl)
    ensures o.ssl.Some? ==> o.ssl.value == Ssl(false)
  {
    var ssl := if Truthy(useSsl) then Some(Ssl(false)) else None;
    if Truthy(OfEnv(env.databaseUrl)) then ConnectionString(env.databaseUrl.value, ssl)
    else Fields(env.dbUser, env.dbHost, env.dbDatabase, env.dbPassword, env.dbPort, ssl)
  }

  /** Two SSL values give the same options exactly when they agree in truthiness;
      in particular the fallback mode never repeats the initial options. */
  lemma OptionsByMode(env: Env, a: JsValue, b: JsValue)
    ensures MakePoolOptions(env, a) == MakePoolOptions(env, b) <==> Truthy(a) == Truthy(b)
    ensures MakePoolOptions(env, Fallback(a)) != MakePoolOptions(env, a)
  {
  }

  // ---------------------------------------------------------------------
  // Traces

  /** A trace of events, or a view of one, as a cons list. */
  datatype List<T> = Nil | Cons(head: T, tail: List<T>)

  function Cat<T>(a: List<T>, b: List<T>): List<T> {
    match a
    case Nil => b
    case Cons(x, r) => Cons(x, Cat(r, b))
  }

  predicate Contains<T(==)>(l: List<T>, x: T) {
    match l
    case Nil => false
    case Cons(y, r) => y == x || Contains(r, x)
  }

  lemma {:induction false} CatNil<T>(a: List<T>)
    ensures Cat(a, Nil) == a
  {
    match a
    case Nil =>
    case Cons(_, r) => CatNil(r);
  }

  lemma {:induction false} CatAssoc<T>(a: List<T>, b: List<T>, c: List<T>)
    ensures Cat(Cat(a, b), c) == Cat(a, Cat(b, c))
  {
    match a
    case Nil =>
    case Cons(_, r) => CatAssoc(r, b, c);
  }

  lemma {:induction false} ContainsCat<T>(a: List<T>, b: List<T>, x: T)
    ensures Contains(Cat(a, b), x) <==> Contains(a, x) || Contains(b, x)
  {
    match a
    case Nil =>
    case Cons(_, r) => ContainsCat(r, b, x);
  }

  // ---------------------------------------------------------------------
  // Pools, events and the schedule of one SSL mode

  /** A pool object; `id` counts the pools the module has constructed. */
  datatype Pool = Pool(id: nat, options: PoolOptions)

  datatype Event =
    | Created(pool: Pool)          // new Pool(opts)
    | Probed(id: nat, ok: bool)    // await p.query('SELECT 1')
    | Ended(id: nat)               // await p.end()
    | Waited(ms: nat)              // the setTimeout backoff
    | Attached(id: nat)            // activePool = pool, with its error listener

  const Attempts: nat := 3
  const BaseDelay: nat := 500

  /** The first attempt of a retry loop. */
  const First: nat := 1

  function Pow2(k: nat): (r: nat)
    ensures r >= 1
  {
    if k == 0 then 1 else 2 * Pow2(k - 1)
  }

  /** The wait after failed attempt number `attempt` (1-based): 500·2^(attempt-1) ms. */
  function Backoff(attempt: nat): nat
    requires attempt >= 1
  {
    BaseDelay * Pow2(attempt - 1)
  }

  predicate ProbeOk(outcomes: seq<bool>, id: nat) {
    id < |outcomes| && outcomes[id]
  }

  /** What `trySetup(opts)` does from attempt `attempt` on, when the next pool
      created gets number `id`: create a pool, probe it, and stop if the probe
      succeeded. */
  function SetupTrace(opts: PoolOptions, outcomes: seq<bool>, id: nat, attempt: nat): List<Event>
    requires attempt >= 1
    decreases Attempts + 1 - attempt, 1
  {
    if attempt > Attempts then Nil
    else Cons(Created(Pool(id, opts)), Cons(Probed(id, ProbeOk(outcomes, id)), AfterProbe(opts, outcomes, id, attempt)))
  }

  /** After a probe: nothing if it succeeded; otherwise end the pool, wait
      unless this was the last attempt, and go on with the next attempt. */
  function AfterProbe(opts: PoolOptions, outcomes: seq<bool>, id: nat, attempt: nat): List<Event>
    requires 1 <= attempt <= Attempts
    decreases Attempts + 1 - attempt, 0
  {
    if ProbeOk(outcomes, id) then Nil
    else Cons(Ended(id), BackoffWait(attempt, SetupTrace(opts, outcomes, id + 1, attempt + 1)))
  }

  function BackoffWait(attempt: nat, rest: List<Event>): List<Event>
    requires attempt >= 1
  {
    if attempt < Attempts then Cons(Waited(Backoff(attempt)), rest) else rest
  }

  /** How many pools `trySetup` creates (and probes) from attempt `attempt` on. */
  function SetupProbes(outcomes: seq<bool>, id: nat, attempt: nat): (n: nat)
    requires attempt >= 1
    ensures attempt <= Attempts ==> 1 <= n <= Attempts + 1 - attempt
    ensures attempt > Attempts ==> n == 0
    decreases Attempts + 1 - attempt
  {
    if attempt > Attempts then 0
    else if ProbeOk(outcomes, id) then 1
    else 1 + SetupProbes(outcomes, id + 1, attempt + 1)
  }

  /** Whether `trySetup` resolves with a pool (rather than rethrowing). */
  predicate SetupConnects(outcomes: seq<bool>, id: nat, attempt: nat)
    requires attempt >= 1
    decreases Attempts + 1 - attempt
  {
    attempt <= Attempts &&
    (ProbeOk(outcomes, id) || SetupConnects(outcomes, id + 1, attempt + 1))
  }

  /** A whole run of `trySetup`: it connects iff one of the (at most three)
      pools it creates answers its probe, and it stops at the first that does. */
  lemma SetupOutcome(outcomes: seq<bool>, id: nat)
    ensures SetupConnects(outcomes, id, First) <==>
      ProbeOk(outcomes, id) || ProbeOk(outcomes, id + 1) || ProbeOk(outcomes, id + 2)
    ensures SetupProbes(outcomes, id, First) ==
      if ProbeOk(outcomes, id) then 1 else if ProbeOk(outcomes, id + 1) then 2 else 3
  {
  }

  // ---------------------------------------------------------------------
  // Views of a trace

  /** The pools probed, in order. */
  function Probes(t: List<Event>): List<nat> {
    match t
    case Nil => Nil
    case Cons(e, r) => if e.Probed? then Cons(e.id, Probes(r)) else Probes(r)
  }

  /** The pools ended, in order. */
  function Ends(t: List<Event>): List<nat> {
    match t
    case Nil => Nil
    case Cons(e, r) => if e.Ended? then Cons(e.id, Ends(r)) else Ends(r)
  }

  /** The backoff waits, in order. */
  function Waits(t: List<Event>): List<nat> {
    match t
    case Nil => Nil
    case Cons(e, r) => if e.Waited? then Cons(e.ms, Waits(r)) else Waits(r)
  }

  /** The pools constructed, in order. */
  function Creations(t: List<Event>): List<Pool> {
    match t
    case Nil => Nil
    case Cons(e, r) => if e.Created? then Cons(e.pool, Creations(r)) else Creations(r)
  }

  /** The pools assigned to `activePool`, in order. */
  function Attachments(t: List<Event>): List<nat> {
    match t
    case Nil => Nil
    case Cons(e, r) => if e.Attached? then Cons(e.id, Attachments(r)) else Attachments(r)
  }

  lemma {:induction false} ViewsCat(a: List<Event>, b: List<Event>)
    ensures Probes(Cat(a, b)) == Cat(Probes(a), Probes(b))
    ensures Ends(Cat(a, b)) == Cat(Ends(a), Ends(b))
    ensures Waits(Cat(a, b)) == Cat(Waits(a), Waits(b))
    ensures Creations(Cat(a, b)) == Cat(Creations(a), Creations(b))
    ensures Attachments(Cat(a, b)) == Cat(Attachments(a), Attachments(b))
  {
    match a
    case Nil =>
    case Cons(_, r) => ViewsCat(r, b);
  }

  /** The numbers lo, lo+1, ..., lo+n-1. */
  function Range(lo: nat, n: nat): List<nat>
    decreases n
  {
    if n == 0 then Nil else Cons(lo, Range(lo + 1, n - 1))
  }

  /** n pools built from `opts`, numbered from lo. */
  function PoolsFrom(lo: nat, n: nat, opts: PoolOptions): List<Pool>
    decreases n
  {
    if n == 0 then Nil else Cons(Pool(lo, opts), PoolsFrom(lo + 1, n - 1, opts))
  }

  /** The waits after attempts attempt, attempt+1, ..., attempt+n-1. */
  function Schedule(attempt: nat, n: nat): List<nat>
    requires attempt >= 1
    decreases n
  {
    if n == 0 then Nil else Cons(Backoff(attempt), Schedule(attempt + 1, n - 1))
  }

  lemma {:induction false} RangeAppend(lo: nat, a: nat, b: nat)
    ensures Cat(Range(lo, a), Range(lo + a, b)) == Range(lo, a + b)
    decreases a
  {
    if a > 0 { RangeAppend(lo + 1, a - 1, b); }
  }

  lemma {:induction false} RangeContains(lo: nat, n: nat, k: nat)
    ensures Contains(Range(lo, n), k) <==> lo <= k < lo + n
    decreases n
  {
    if n > 0 { RangeContains(lo + 1, n - 1, k); }
  }

  /** Every failed probe is followed at once by ending that pool. */
  predicate EndsFailedPools(t: List<Event>) {
    match t
    case Nil => true
    case Cons(e, r) =>
      (e.Probed? && !e.ok ==> r.Cons? && r.head == Ended(e.id)) && EndsFailedPools(r)
  }

  lemma {:induction false} EndsFailedPoolsCat(a: List<Event>, b: List<Event>)
    requires EndsFailedPools(a) && EndsFailedPools(b)
    ensures EndsFailedPools(Cat(a, b))
  {
    match a
    case Nil =>
    case Cons(_, r) => EndsFailedPoolsCat(r, b);
  }

  // ---------------------------------------------------------------------
  // One SSL mode's retry loop, view by view

  /** What follows a failed probe, as far as the views can tell: the wait
      adds at most one `Waited` event. */
  lemma BackoffViews(attempt: nat, rest: List<Event>)
    requires attempt >= 1
    ensures Probes(BackoffWait(attempt, rest)) == Probes(rest)
    ensures Ends(BackoffWait(attempt, rest)) == Ends(rest)
    ensures Creations(BackoffWait(attempt, rest)) == Creations(rest)
    ensures Attachments(BackoffWait(attempt, rest)) == Attachments(rest)
    ensures EndsFailedPools(BackoffWait(attempt, rest)) == EndsFailedPools(rest)
    ensures attempt < Attempts ==> Waits(BackoffWait(attempt, rest)) == Cons(Backoff(attempt), Waits(rest))
    ensures attempt >= Attempts ==> Waits(BackoffWait(attempt, rest)) == Waits(rest)
  {
  }

  /** A failed attempt, view by view: its pool is constructed, probed and
      ended, and the loop goes on after the backoff. */
  lemma FailedStep(opts: PoolOptions, outcomes: seq<bool>, id: nat, attempt: nat)
    requires 1 <= attempt <= Attempts && !ProbeOk(outcomes, id)
    ensures var t := SetupTrace(opts, outcomes, id, attempt);
      var rest := BackoffWait(attempt, SetupTrace(opts, outcomes, id + 1, attempt + 1));
      && Probes(t) == Cons(id, Probes(rest))
      && Ends(t) == Cons(id, Ends(rest))
      && Creations(t) == Cons(Pool(id, opts), Creations(rest))
      && Waits(t) == Waits(rest)
      && Attachments(t) == Attachments(rest)
      && EndsFailedPools(t) == EndsFailedPools(rest)
  {
    var rest := BackoffWait(attempt, SetupTrace(opts, outcomes, id + 1, attempt + 1));
    var t3 := Cons(Ended(id), rest);
    var t2 := Cons(Probed(id, false), t3);
    assert SetupTrace(opts, outcomes, id, attempt) == Cons(Created(Pool(id, opts)), t2);
    assert Probes(t3) == Probes(rest) && Ends(t3) == Cons(id, Ends(rest)) && Creations(t3) == Creations(rest);
    assert Waits(t3) == Waits(rest) && Attachments(t3) == Attachments(rest);
    assert Probes(t2) == Cons(id, Probes(t3)) && Ends(t2) == Ends(t3) && Creations(t2) == Creations(t3);
    assert Waits(t2) == Waits(t3) && Attachments(t2) == Attachments(t3);
    assert EndsFailedPools(t2) == EndsFailedPools(rest);
  }

  /** A successful attempt, view by view: its pool is constructed and probed,
      and the loop stops. */
  lemma ConnectedStep(opts: PoolOptions, outcomes: seq<bool>, id: nat, attempt: nat)
    requires 1 <= attempt <= Attempts && ProbeOk(outcomes, id)
    ensures var t := SetupTrace(opts, outcomes, id, attempt);
      && Probes(t) == Cons(id, Nil)
      && Ends(t) == Nil
      && Creations(t) == Cons(Pool(id, opts), Nil)
      && Waits(t) == Nil
      && Attachments(t) == Nil
      && EndsFailedPools(t)
  {
    var t2 := Cons(Probed(id, true), Nil);
    assert SetupTrace(opts, outcomes, id, attempt) == Cons(Created(Pool(id, opts)), t2);
    assert Probes(t2) == Cons(id, Nil) && Ends(t2) == Nil && Creations(t2) == Nil;
    assert Waits(t2) == Nil && Attachments(t2) == Nil;
  }

  /** The loop probes consecutively numbered pools, one per attempt made. */
  lemma {:induction false} SetupProbed(opts: PoolOptions, outcomes: seq<bool>, id: nat, attempt: nat)
    requires attempt >= 1
    ensures Probes(SetupTrace(opts, outcomes, id, attempt)) == Range(id, SetupProbes(outcomes, id, attempt))
    decreases Attempts + 1 - attempt
  {
    if attempt <= Attempts && ProbeOk(outcomes, id) {
      ConnectedStep(opts, outcomes, id, attempt);
    } else if attempt <= Attempts {
      var rest := SetupTrace(opts, outcomes, id + 1, attempt + 1);
      SetupProbed(opts, outcomes, id + 1, attempt + 1);
      FailedStep(opts, outcomes, id, attempt);
      BackoffViews(attempt, rest);
    }
  }

  /** Each attempt constructs a fresh pool from the same options. */
  lemma {:induction false} SetupCreated(opts: PoolOptions, outcomes: seq<bool>, id: nat, attempt: nat)
    requires attempt >= 1
    ensures Creations(SetupTrace(opts, outcomes, id, attempt)) == PoolsFrom(id, SetupProbes(outcomes, id, attempt), opts)
    decreases Attempts + 1 - attempt
  {
    if attempt <= Attempts && ProbeOk(outcomes, id) {
      ConnectedStep(opts, outcomes, id, attempt);
    } else if attempt <= Attempts {
      var rest := SetupTrace(opts, outcomes, id + 1, attempt + 1);
      SetupCreated(opts, outcomes, id + 1, attempt + 1);
      FailedStep(opts, outcomes, id, attempt);
      BackoffViews(attempt, rest);
    }
  }

  /** Every pool but the one returned is ended: all of them when the loop fails. */
  lemma {:induction false} SetupEnded(opts: PoolOptions, outcomes: seq<bool>, id: nat, attempt: nat)
    requires attempt >= 1
    ensures SetupConnects(outcomes, id, attempt) ==>
      Ends(SetupTrace(opts, outcomes, id, attempt)) == Range(id, SetupProbes(outcomes, id, attempt) - 1)
    ensures !SetupConnects(outcomes, id, attempt) ==>
      Ends(SetupTrace(opts, outcomes, id, attempt)) == Range(id, SetupProbes(outcomes, id, attempt))
    decreases Attempts + 1 - attempt
  {
    if attempt <= Attempts && ProbeOk(outcomes, id) {
      ConnectedStep(opts, outcomes, id, attempt);
    } else if attempt <= Attempts {
      var rest := SetupTrace(opts, outcomes, id + 1, attempt + 1);
      SetupEnded(opts, outcomes, id + 1, attempt + 1);
      FailedStep(opts, outcomes, id, attempt);
      BackoffViews(attempt, rest);
    }
  }

  /** After failed attempt k the loop waits 500·2^(k-1) ms, except after the
      last attempt. */
  lemma {:induction false} SetupWaited(opts: PoolOptions, outcomes: seq<bool>, id: nat, attempt: nat)
    requires 1 <= attempt <= Attempts
    ensures Waits(SetupTrace(opts, outcomes, id, attempt)) == Schedule(attempt, SetupProbes(outcomes, id, attempt) - 1)
    decreases Attempts + 1 - attempt
  {
    if ProbeOk(outcomes, id) {
      ConnectedStep(opts, outcomes, id, attempt);
    } else {
      var rest := SetupTrace(opts, outcomes, id + 1, attempt + 1);
      FailedStep(opts, outcomes, id, attempt);
      BackoffViews(attempt, rest);
      if attempt < Attempts {
          SetupWaited(opts, outcomes, id + 1, attempt + 1);
      }
    }
  }

  /** The loop never assigns `activePool`. */
  lemma {:induction false} SetupAttachesNothing(opts: PoolOptions, outcomes: seq<bool>, id: nat, attempt: nat)
    requires attempt >= 1
    ensures Attachments(SetupTrace(opts, outcomes, id, attempt)) == Nil
    decreases Attempts + 1 - attempt
  {
    if attempt <= Attempts && ProbeOk(outcomes, id) {
      ConnectedStep(opts, outcomes, id, attempt);
    } else if attempt <= Attempts {
      var rest := SetupTrace(opts, outcomes, id + 1, attempt + 1);
      SetupAttachesNothing(opts, outcomes, id + 1, attempt + 1);
      FailedStep(opts, outcomes, id, attempt);
      BackoffViews(attempt, rest);
    }
  }

  /** The loop ends every pool whose probe failed before it goes on. */
  lemma {:induction false} SetupHygiene(opts: PoolOptions, outcomes: seq<bool>, id: nat, attempt: nat)
    requires attempt >= 1
    ensures EndsFailedPools(SetupTrace(opts, outcomes, id, attempt))
    decreases Attempts + 1 - attempt
  {
    if attempt <= Attempts && ProbeOk(outcomes, id) {
      ConnectedStep(opts, outcomes, id, attempt);
    } else if attempt <= Attempts {
      var rest := SetupTrace(opts, outcomes, id + 1, attempt + 1);
      SetupHygiene(opts, outcomes, id + 1, attempt + 1);
      FailedStep(opts, outcomes, id, attempt);
      BackoffViews(attempt, rest);
    }
  }

  /** The schedule of one mode: 500 ms, then 1000 ms. */
  lemma ScheduleValues()
    ensures Schedule(First, Attempts - 1) == Cons(500, Cons(1000, Nil))
  {
    assert Pow2(1) == 2;
  }

  // ---------------------------------------------------------------------
  // tryCreatePoolWithFallback

  /** The whole bootstrap, for initial options `o1` and opposite options `o2`,
      when the next pool created gets number `start`: the retry loop of `o1`,
      then what follows it. */
  function Bootstrap(o1: PoolOptions, o2: PoolOptions, outcomes: seq<bool>, start: nat): List<Event> {
    Cat(SetupTrace(o1, outcomes, start, First), AfterInitial(o1, o2, outcomes, start))
  }

  /** After the initial mode's loop: attach its pool if it connected, or else
      run the opposite mode's loop and what follows that. */
  function AfterInitial(o1: PoolOptions, o2: PoolOptions, outcomes: seq<bool>, start: nat): List<Event> {
    var mid := start + SetupProbes(outcomes, start, First);
    if SetupConnects(outcomes, start, First) then Cons(Attached(mid - 1), Nil)
    else Cat(SetupTrace(o2, outcomes, mid, First), AfterFallback(o1, outcomes, mid))
  }

  /** After the opposite mode's loop, run from pool number `mid`: attach its
      pool if it connected, or else construct and attach an unprobed pool with
      the initial options. */
  function AfterFallback(o1: PoolOptions, outcomes: seq<bool>, mid: nat): List<Event> {
    var last := mid + SetupProbes(outcomes, mid, First);
    if SetupConnects(outcomes, mid, First) then Cons(Attached(last - 1), Nil)
    else Cons(Created(Pool(last, o1)), Cons(Attached(last), Nil))
  }

  /** The pool `activePool` holds once `Bootstrap` has run. */
  function Chosen(o1: PoolOptions, o2: PoolOptions, outcomes: seq<bool>, start: nat): Pool {
    var mid := start + SetupProbes(outcomes, start, First);
    var last := mid + SetupProbes(outcomes, mid, First);
    if SetupConnects(outcomes, start, First) then Pool(mid - 1, o1)
    else if SetupConnects(outcomes, mid, First) then Pool(last - 1, o2)
    else Pool(last, o1)
  }

  function InitialOptions(env: Env): PoolOptions {
    MakePoolOptions(env, InitialUseSsl(env))
  }

  function FallbackOptions(env: Env): PoolOptions {
    MakePoolOptions(env, Fallback(InitialUseSsl(env)))
  }

  /** What `tryCreatePoolWithFallback` does, when the next pool created gets
      number `start`. */
  function BootstrapTrace(env: Env, outcomes: seq<bool>, start: nat): List<Event> {
    Bootstrap(InitialOptions(env), FallbackOptions(env), outcomes, start)
  }

  function ChosenPool(env: Env, outcomes: seq<bool>, start: nat): Pool {
    Chosen(InitialOptions(env), FallbackOptions(env), outcomes, start)
  }

  /** What follows the opposite mode's loop, view by view. */
  lemma FallbackViews(o1: PoolOptions, outcomes: seq<bool>, mid: nat)
    ensures var f := AfterFallback(o1, outcomes, mid);
      Probes(f) == Nil && Ends(f) == Nil && Waits(f) == Nil && EndsFailedPools(f)
    ensures var f := AfterFallback(o1, outcomes, mid);
      var last := mid + SetupProbes(outcomes, mid, First);
      SetupConnects(outcomes, mid, First) ==> Creations(f) == Nil && Attachments(f) == Cons(last - 1, Nil)
    ensures var f := AfterFallback(o1, outcomes, mid);
      var last := mid + SetupProbes(outcomes, mid, First);
      !SetupConnects(outcomes, mid, First) ==> Creations(f) == Cons(Pool(last, o1), Nil) && Attachments(f) == Cons(last, Nil)
  {
    var last := mid + SetupProbes(outcomes, mid, First);
    var a := Cons(Attached(last), Nil);
    assert Probes(a) == Nil && Ends(a) == Nil && Waits(a) == Nil && Creations(a) == Nil;
    assert Attachments(a) == Cons(last, Nil);
  }

  /** What follows the initial mode's loop, view by view when it connected. */
  lemma InitialViews(o1: PoolOptions, o2: PoolOptions, outcomes: seq<bool>, start: nat)
    ensures var i := AfterInitial(o1, o2, outcomes, start);
      var mid := start + SetupProbes(outcomes, start, First);
      SetupConnects(outcomes, start, First) ==>
        && Probes(i) == Nil && Ends(i) == Nil && Waits(i) == Nil && Creations(i) == Nil
        && Attachments(i) == Cons(mid - 1, Nil) && EndsFailedPools(i)
    ensures var mid := start + SetupProbes(outcomes, start, First);
      !SetupConnects(outcomes, start, First) ==>
        AfterInitial(o1, o2, outcomes, start) == Cat(SetupTrace(o2, outcomes, mid, First), AfterFallback(o1, outcomes, mid))
  {
  }

  /** The bootstrap probes consecutively numbered pools: those of the initial
      mode's loop and then, only if that loop failed, those of the opposite
      mode's loop. */
  lemma BootstrapProbes(o1: PoolOptions, o2: PoolOptions, outcomes: seq<bool>, start: nat)
    ensures SetupConnects(outcomes, start, First) ==>
      Probes(Bootstrap(o1, o2, outcomes, start)) == Range(start, SetupProbes(outcomes, start, First))
    ensures var n1 := SetupProbes(outcomes, start, First);
      !SetupConnects(outcomes, start, First) ==>
        Probes(Bootstrap(o1, o2, outcomes, start)) == Range(start, n1 + SetupProbes(outcomes, start + n1, First))
  {
    var n1 := SetupProbes(outcomes, start, First);
    var mid := start + n1;
    ViewsCat(SetupTrace(o1, outcomes, start, First), AfterInitial(o1, o2, outcomes, start));
    SetupProbed(o1, outcomes, start, First);
    InitialViews(o1, o2, outcomes, start);
    if SetupConnects(outcomes, start, First) {
      CatNil(Range(start, n1));
    } else {
      ViewsCat(SetupTrace(o2, outcomes, mid, First), AfterFallback(o1, outcomes, mid));
      SetupProbed(o2, outcomes, mid, First);
      FallbackViews(o1, outcomes, mid);
      CatNil(Range(mid, SetupProbes(outcomes, mid, First)));
      RangeAppend(start, n1, SetupProbes(outcomes, mid, First));
    }
  }

  /** At most three probes per mode, and the opposite mode only after three
      failures of the initial one: at most six in all. */
  lemma ProbeBudget(outcomes: seq<bool>, start: nat)
    ensures var n1 := SetupProbes(outcomes, start, First);
      1 <= n1 <= Attempts &&
      (!SetupConnects(outcomes, start, First) ==>
        n1 == Attempts && n1 + SetupProbes(outcomes, start + n1, First) <= 2 * Attempts)
  {
    SetupOutcome(outcomes, start);
  }

  /** Modes are tried in order: pools with the initial options until one
      connects; if none did, pools with the opposite options until one
      connects; if none did, one more pool with the initial options. */
  lemma BootstrapModes(o1: PoolOptions, o2: PoolOptions, outcomes: seq<bool>, start: nat)
    ensures var n1 := SetupProbes(outcomes, start, First);
      SetupConnects(outcomes, start, First) ==>
        Creations(Bootstrap(o1, o2, outcomes, start)) == PoolsFrom(start, n1, o1)
    ensures var mid := start + SetupProbes(outcomes, start, First);
      var n2 := SetupProbes(outcomes, mid, First);
      !SetupConnects(outcomes, start, First) && SetupConnects(outcomes, mid, First) ==>
        Creations(Bootstrap(o1, o2, outcomes, start)) ==
          Cat(PoolsFrom(start, SetupProbes(outcomes, start, First), o1), PoolsFrom(mid, n2, o2))
    ensures var mid := start + SetupProbes(outcomes, start, First);
      var n2 := SetupProbes(outcomes, mid, First);
      !SetupConnects(outcomes, start, First) && !SetupConnects(outcomes, mid, First) ==>
        Creations(Bootstrap(o1, o2, outcomes, start)) ==
          Cat(PoolsFrom(start, SetupProbes(outcomes, start, First), o1),
              Cat(PoolsFrom(mid, n2, o2), Cons(Pool(mid + n2, o1), Nil)))
  {
    var n1 := SetupProbes(outcomes, start, First);
    var mid := start + n1;
    ViewsCat(SetupTrace(o1, outcomes, start, First), AfterInitial(o1, o2, outcomes, start));
    SetupCreated(o1, outcomes, start, First);
    InitialViews(o1, o2, outcomes, start);
    if SetupConnects(outcomes, start, First) {
      CatNil(PoolsFrom(start, n1, o1));
    } else {
      ViewsCat(SetupTrace(o2, outcomes, mid, First), AfterFallback(o1, outcomes, mid));
      SetupCreated(o2, outcomes, mid, First);
      FallbackViews(o1, outcomes, mid);
      CatNil(PoolsFrom(mid, SetupProbes(outcomes, mid, First), o2));
    }
  }

  /** Every pool the bootstrap constructs is ended, except the one it keeps. */
  lemma BootstrapEnds(o1: PoolOptions, o2: PoolOptions, outcomes: seq<bool>, start: nat)
    ensures Chosen(o1, o2, outcomes, start).id >= start
    ensures Ends(Bootstrap(o1, o2, outcomes, start)) == Range(start, Chosen(o1, o2, outcomes, start).id - start)
  {
    var n1 := SetupProbes(outcomes, start, First);
    var mid := start + n1;
    ViewsCat(SetupTrace(o1, outcomes, start, First), AfterInitial(o1, o2, outcomes, start));
    SetupEnded(o1, outcomes, start, First);
    InitialViews(o1, o2, outcomes, start);
    if SetupConnects(outcomes, start, First) {
      CatNil(Range(start, n1 - 1));
    } else {
      var n2 := SetupProbes(outcomes, mid, First);
      ViewsCat(SetupTrace(o2, outcomes, mid, First), AfterFallback(o1, outcomes, mid));
      SetupEnded(o2, outcomes, mid, First);
      FallbackViews(o1, outcomes, mid);
      if SetupConnects(outcomes, mid, First) {
        CatNil(Range(mid, n2 - 1));
        RangeAppend(start, n1, n2 - 1);
      } else {
        CatNil(Range(mid, n2));
        RangeAppend(start, n1, n2);
      }
    }
  }

  /** The waits: one mode's schedule if the initial mode connected; the full
      schedule of the initial mode and then the opposite mode's otherwise. */
  lemma BootstrapWaits(o1: PoolOptions, o2: PoolOptions, outcomes: seq<bool>, start: nat)
    ensures SetupConnects(outcomes, start, First) ==>
      Waits(Bootstrap(o1, o2, outcomes, start)) == Schedule(First, SetupProbes(outcomes, start, First) - 1)
    ensures var mid := start + SetupProbes(outcomes, start, First);
      !SetupConnects(outcomes, start, First) ==>
        Waits(Bootstrap(o1, o2, outcomes, start)) ==
          Cat(Schedule(First, Attempts - 1), Schedule(First, SetupProbes(outcomes, mid, First) - 1))
  {
    var n1 := SetupProbes(outcomes, start, First);
    var mid := start + n1;
    ViewsCat(SetupTrace(o1, outcomes, start, First), AfterInitial(o1, o2, outcomes, start));
    SetupWaited(o1, outcomes, start, First);
    InitialViews(o1, o2, outcomes, start);
    if SetupConnects(outcomes, start, First) {
      CatNil(Schedule(First, n1 - 1));
    } else {
      SetupOutcome(outcomes, start);
      ViewsCat(SetupTrace(o2, outcomes, mid, First), AfterFallback(o1, outcomes, mid));
      SetupWaited(o2, outcomes, mid, First);
      FallbackViews(o1, outcomes, mid);
      CatNil(Schedule(First, SetupProbes(outcomes, mid, First) - 1));
    }
  }

  /** `activePool` is assigned exactly once, to the chosen pool. */
  lemma BootstrapAttaches(o1: PoolOptions, o2: PoolOptions, outcomes: seq<bool>, start: nat)
    ensures Attachments(Bootstrap(o1, o2, outcomes, start)) == Cons(Chosen(o1, o2, outcomes, start).id, Nil)
  {
    var mid := start + SetupProbes(outcomes, start, First);
    ViewsCat(SetupTrace(o1, outcomes, start, First), AfterInitial(o1, o2, outcomes, start));
    SetupAttachesNothing(o1, outcomes, start, First);
    InitialViews(o1, o2, outcomes, start);
    if !SetupConnects(outcomes, start, First) {
      ViewsCat(SetupTrace(o2, outcomes, mid, First), AfterFallback(o1, outcomes, mid));
      SetupAttachesNothing(o2, outcomes, mid, First);
      FallbackViews(o1, outcomes, mid);
    }
  }

  /** A connecting retry loop stops at its first successful probe; a failing
      one has used all three attempts. */
  lemma SetupLength(outcomes: seq<bool>, id: nat)
    ensures SetupConnects(outcomes, id, First) ==>
      var n := SetupProbes(outcomes, id, First);
      ProbeOk(outcomes, id + n - 1) && forall k :: id <= k < id + n - 1 ==> !ProbeOk(outcomes, k)
    ensures !SetupConnects(outcomes, id, First) ==>
      SetupProbes(outcomes, id, First) == Attempts && forall k :: id <= k < id + Attempts ==> !ProbeOk(outcomes, k)
  {
    SetupOutcome(outcomes, id);
  }

  /** The pool kept: the first one whose probe succeeded, with the options of
      the mode that produced it; failing that, an unprobed pool with the
      initial options. Every pool before it failed its probe. */
  lemma ChosenFacts(o1: PoolOptions, o2: PoolOptions, outcomes: seq<bool>, start: nat)
    ensures var c := Chosen(o1, o2, outcomes, start);
      SetupConnects(outcomes, start, First) ==> c.options == o1 && ProbeOk(outcomes, c.id)
    ensures var c := Chosen(o1, o2, outcomes, start);
      !SetupConnects(outcomes, start, First) && SetupConnects(outcomes, start + SetupProbes(outcomes, start, First), First) ==>
        c.options == o2 && ProbeOk(outcomes, c.id)
    ensures var c := Chosen(o1, o2, outcomes, start);
      !SetupConnects(outcomes, start, First) && !SetupConnects(outcomes, start + SetupProbes(outcomes, start, First), First) ==>
        c.options == o1 && c.id == start + 2 * Attempts
    ensures var c := Chosen(o1, o2, outcomes, start);
      forall k :: start <= k < c.id ==> !ProbeOk(outcomes, k)
  {
    SetupLength(outcomes, start);
    SetupLength(outcomes, start + SetupProbes(outcomes, start, First));
  }

  /** The last-resort pool is never probed, and every kept pool was constructed. */
  lemma ChosenUnprobed(o1: PoolOptions, o2: PoolOptions, outcomes: seq<bool>, start: nat)
    ensures var c := Chosen(o1, o2, outcomes, start);
      !SetupConnects(outcomes, start, First) && !SetupConnects(outcomes, start + SetupProbes(outcomes, start, First), First) ==>
        !Contains(Probes(Bootstrap(o1, o2, outcomes, start)), c.id)
  {
    var n1 := SetupProbes(outcomes, start, First);
    BootstrapProbes(o1, o2, outcomes, start);
    RangeContains(start, n1 + SetupProbes(outcomes, start + n1, First), Chosen(o1, o2, outcomes, start).id);
  }

  /** The bootstrap ends every pool whose probe failed before it goes on. */
  lemma BootstrapHygiene(o1: PoolOptions, o2: PoolOptions, outcomes: seq<bool>, start: nat)
    ensures EndsFailedPools(Bootstrap(o1, o2, outcomes, start))
  {
    var mid := start + SetupProbes(outcomes, start, First);
    SetupHygiene(o1, outcomes, start, First);
    InitialViews(o1, o2, outcomes, start);
    if !SetupConnects(outcomes, start, First) {
      SetupHygiene(o2, outcomes, mid, First);
      FallbackViews(o1, outcomes, mid);
      EndsFailedPoolsCat(SetupTrace(o2, outcomes, mid, First), AfterFallback(o1, outcomes, mid));
    }
    EndsFailedPoolsCat(SetupTrace(o1, outcomes, start, First), AfterInitial(o1, o2, outcomes, start));
  }

  // The three ways the bootstrap can end, as a trace appended to `t0`.

  lemma ConnectedTrace(t0: List<Event>, o1: PoolOptions, o2: PoolOptions, outcomes: seq<bool>, start: nat)
    requires SetupConnects(outcomes, start, First)
    ensures var s1 := SetupTrace(o1, outcomes, start, First);
      Cat(Cat(t0, s1), Cons(Attached(start + SetupProbes(outcomes, start, First) - 1), Nil)) ==
        Cat(t0, Bootstrap(o1, o2, outcomes, start))
    ensures Chosen(o1, o2, outcomes, start) == Pool(start + SetupProbes(outcomes, start, First) - 1, o1)
  {
    CatAssoc(t0, SetupTrace(o1, outcomes, start, First), AfterInitial(o1, o2, outcomes, start));
  }

  lemma FallbackTrace(t0: List<Event>, o1: PoolOptions, o2: PoolOptions, outcomes: seq<bool>, start: nat)
    requires var mid := start + SetupProbes(outcomes, start, First);
      !SetupConnects(outcomes, start, First) && SetupConnects(outcomes, mid, First)
    ensures var mid := start + SetupProbes(outcomes, start, First);
      var s1 := SetupTrace(o1, outcomes, start, First);
      var s2 := SetupTrace(o2, outcomes, mid, First);
      Cat(Cat(Cat(t0, s1), s2), Cons(Attached(mid + SetupProbes(outcomes, mid, First) - 1), Nil)) ==
        Cat(t0, Bootstrap(o1, o2, outcomes, start))
    ensures var mid := start + SetupProbes(outcomes, start, First);
      Chosen(o1, o2, outcomes, start) == Pool(mid + SetupProbes(outcomes, mid, First) - 1, o2)
  {
    var mid := start + SetupProbes(outcomes, start, First);
    var s1 := SetupTrace(o1, outcomes, start, First);
    var s2 := SetupTrace(o2, outcomes, mid, First);
    var f := AfterFallback(o1, outcomes, mid);
    CatAssoc(Cat(t0, s1), s2, f);
    CatAssoc(t0, s1, Cat(s2, f));
  }

  lemma LastResortTrace(t0: List<Event>, o1: PoolOptions, o2: PoolOptions, outcomes: seq<bool>, start: nat)
    requires var mid := start + SetupProbes(outcomes, start, First);
      !SetupConnects(outcomes, start, First) && !SetupConnects(outcomes, mid, First)
    ensures var mid := start + SetupProbes(outcomes, start, First);
      var last := mid + SetupProbes(outcomes, mid, First);
      var s1 := SetupTrace(o1, outcomes, start, First);
      var s2 := SetupTrace(o2, outcomes, mid, First);
      Cat(Cat(Cat(Cat(t0, s1), s2), Cons(Created(Pool(last, o1)), Nil)), Cons(Attached(last), Nil)) ==
        Cat(t0, Bootstrap(o1, o2, outcomes, start))
    ensures var mid := start + SetupProbes(outcomes, start, First);
      Chosen(o1, o2, outcomes, start) == Pool(mid + SetupProbes(outcomes, mid, First), o1)
  {
    var mid := start + SetupProbes(outcomes, start, First);
    var last := mid + SetupProbes(outcomes, mid, First);
    var s1 := SetupTrace(o1, outcomes, start, First);
    var s2 := SetupTrace(o2, outcomes, mid, First);
    var f := AfterFallback(o1, outcomes, mid);
    Snoc(Cat(Cat(t0, s1), s2), Created(Pool(last, o1)), Cons(Attached(last), Nil));
    CatAssoc(Cat(t0, s1), s2, f);
    CatAssoc(t0, s1, Cat(s2, f));
  }

  // ---------------------------------------------------------------------
  // The module's state

  /** The message the exported proxy throws before a pool is attached. */
  function NotInitialized(prop: string): string {
    "Postgres pool not initialized yet; attempted to access '" + prop + "'"
  }

  /** Appending one event to a trace that is then followed by `rest`. */
  lemma Snoc(t: List<Event>, e: Event, rest: List<Event>)
    ensures Cat(Cat(t, Cons(e, Nil)), rest) == Cat(t, Cons(e, rest))
  {
    CatAssoc(t, Cons(e, Nil), rest);
  }

  /** The loaded module: the environment it read, the answers the database
      will give to probes, the module-level `activePool`, the number of pools
      constructed so far and the trace of what it has done. */
  class DbModule {
    const env: Env
    const outcomes: seq<bool>
    /** The module-level constant computed once at load. */
    const initialUseSsl: JsValue
    var activePool: Option<Pool>
    var poolCount: nat
    var trace: List<Event>

    /** Loading the module: nothing is attached yet. */
    constructor Load(env: Env, outcomes: seq<bool>)
      ensures this.env == env && this.outcomes == outcomes && initialUseSsl == InitialUseSsl(env)
      ensures activePool == None && poolCount == 0 && trace == Nil
    {
      this.env := env;
      this.outcomes := outcomes;
      initialUseSsl := InitialUseSsl(env);
      activePool := None;
      poolCount := 0;
      trace := Nil;
    }

    method Record(e: Event)
      modifies this`trace
      ensures trace == Cat(old(trace), Cons(e, Nil))
    {
      trace := Cat(trace, Cons(e, Nil));
    }

    /** `new Pool(opts)`: pools are numbered in the order they are constructed. */
    method NewPool(opts: PoolOptions) returns (p: Pool)
      modifies this`poolCount, this`trace
      ensures p == Pool(old(poolCount), opts) && poolCount == old(poolCount) + 1
      ensures trace == Cat(old(trace), Cons(Created(p), Nil))
    {
      p := Pool(poolCount, opts);
      poolCount := poolCount + 1;
      Record(Created(p));
    }

    /** `await p.query('SELECT 1')`: resolves iff the database accepts this pool. */
    method Probe(p: Pool) returns (ok: bool)
      modifies this`trace
      ensures ok == ProbeOk(outcomes, p.id)
      ensures trace == Cat(old(trace), Cons(Probed(p.id, ok), Nil))
    {
      ok := ProbeOk(outcomes, p.id);
      Record(Probed(p.id, ok));
    }

    /** `await p.end()`, whose failure is ignored. */
    method End(p: Pool)
      modifies this`trace
      ensures trace == Cat(old(trace), Cons(Ended(p.id), Nil))
    {
      Record(Ended(p.id));
    }

    /** The `setTimeout` backoff. */
    method Sleep(ms: nat)
      modifies this`trace
      ensures trace == Cat(old(trace), Cons(Waited(ms), Nil))
    {
      Record(Waited(ms));
    }

    /** `attachPool(pool)`: a missing pool leaves everything as it was. */
    method AttachPool(pool: Option<Pool>)
      modifies this`activePool, this`trace
      ensures pool.None? ==> activePool == old(activePool) && trace == old(trace)
      ensures pool.Some? ==> activePool == pool && trace == Cat(old(trace), Cons(Attached(pool.value.id), Nil))
    {
      if pool.None? {
        return;
      }
      activePool := pool;
      Record(Attached(pool.value.id));
    }

    /** `trySetup(useSsl)`: up to three fresh pools, each probed, ended when
        its probe fails and followed by the backoff unless it was the last;
        the result is the first pool that answers, or none (the rethrown
        error). */
    method TrySetup(useSsl: JsValue) returns (r: Option<Pool>)
      modifies this`poolCount, this`trace
      ensures trace == Cat(old(trace), SetupTrace(MakePoolOptions(env, useSsl), outcomes, old(poolCount), First))
      ensures poolCount == old(poolCount) + SetupProbes(outcomes, old(poolCount), First)
      ensures r.Some? <==> SetupConnects(outcomes, old(poolCount), First)
      ensures r.Some? ==> r.value == Pool(poolCount - 1, MakePoolOptions(env, useSsl))
    {
      var opts := MakePoolOptions(env, useSsl);
      ghost var target := Cat(trace, SetupTrace(opts, outcomes, poolCount, First));
      ghost var id0 := poolCount;
      for attempt := 1 to Attempts + 1
        invariant Cat(trace, SetupTrace(opts, outcomes, poolCount, attempt)) == target
        invariant poolCount + SetupProbes(outcomes, poolCount, attempt) == id0 + SetupProbes(outcomes, id0, First)
        invariant SetupConnects(outcomes, poolCount, attempt) == SetupConnects(outcomes, id0, First)
      {
        ghost var rest := AfterProbe(opts, outcomes, poolCount, attempt);
        ghost var t0 := trace;
        var p := NewPool(opts);
        Snoc(t0, Created(p), Cons(Probed(p.id, ProbeOk(outcomes, p.id)), rest));
        ghost var t1 := trace;
        var ok := Probe(p);
        Snoc(t1, Probed(p.id, ok), rest);
        if ok {
          CatNil(trace);
          return Some(p);
        }
        ghost var next := SetupTrace(opts, outcomes, poolCount, attempt + 1);
        ghost var t2 := trace;
        End(p);
        Snoc(t2, Ended(p.id), BackoffWait(attempt, next));
        if attempt < Attempts {
          ghost var t3 := trace;
          Sleep(Backoff(attempt));
          Snoc(t3, Waited(Backoff(attempt)), next);
        }
      }
      CatNil(trace);
      r := None;
    }

    /** `tryCreatePoolWithFallback()`, run to completion: the initial mode,
        then once the opposite mode, then the last-resort pool; `activePool`
        is set in every case. */
    method CreatePoolWithFallback()
      modifies this`activePool, this`poolCount, this`trace
      ensures var o1 := MakePoolOptions(env, initialUseSsl);
        var o2 := MakePoolOptions(env, Fallback(initialUseSsl));
        && trace == Cat(old(trace), Bootstrap(o1, o2, outcomes, old(poolCount)))
        && activePool == Some(Chosen(o1, o2, outcomes, old(poolCount)))
        && poolCount == Chosen(o1, o2, outcomes, old(poolCount)).id + 1
    {
      ghost var t0 := trace;
      ghost var start := poolCount;
      var firstTrySsl := initialUseSsl;
      ghost var o1 := MakePoolOptions(env, firstTrySsl);
      ghost var o2 := MakePoolOptions(env, Fallback(firstTrySsl));
      var p := TrySetup(firstTrySsl);
      if p.Some? {
        AttachPool(p);
        ConnectedTrace(t0, o1, o2, outcomes, start);
        return;
      }
      var fallbackSsl := Fallback(firstTrySsl);
      var p2 := TrySetup(fallbackSsl);
      if p2.Some? {
        AttachPool(p2);
        FallbackTrace(t0, o1, o2, outcomes, start);
        return;
      }
      var finalPool := NewPool(MakePoolOptions(env, firstTrySsl));
      AttachPool(Some(finalPool));
      LastResortTrace(t0, o1, o2, outcomes, start);
    }

    /** The exported proxy's `get` trap: delegate to the attached pool, or
        throw while there is none. */
    function Get(prop: string): (r: Result<Pool, string>)
      reads this
      ensures r.Failure? <==> activePool.None?
      ensures r.Failure? ==> r.error == NotInitialized(prop)
      ensures r.Success? ==> Some(r.value) == activePool
    {
      match activePool
      case None => Failure(NotInitialized(prop))
      case Some(p) => Success(p)
    }
  }
}
