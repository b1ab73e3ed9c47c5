/** The admin seeding script (db/seed_admin.js): insert an admin user with
    the given email and hashed password unless a user with that email is
    already there.

    `bcrypt.hash(password, 10)` is the oracle `hash`; its random salt is not
    modelled. */
module SeedAdmin {
  import opened Js
  import Db

  const DefaultEmail: string := "admin@example.com"
  const DefaultPassword: string := "admin"

  /** `process.argv[2] || 'admin@example.com'`. */
  function EmailOf(arg: Option<string>): (e: string)
    ensures Str(e) == Or(OfEnv(arg), Str(DefaultEmail))
  {
    if arg.Some? && arg.value != "" then arg.value else DefaultEmail
  }

  /** `process.argv[3] || 'admin'`. */
  function PasswordOf(arg: Option<string>): (p: string)
    ensures Str(p) == Or(OfEnv(arg), Str(DefaultPassword))
  {
    if arg.Some? && arg.value != "" then arg.value else DefaultPassword
  }

  datatype User = User(id: nat, email: string, password: string, isAdmin: bool)

  /** The number of users with `email`. */
  function CountEmail(users: seq<User>, email: string): (n: nat)
    ensures n == 0 <==> forall i :: 0 <= i < |users| ==> users[i].email != email
    ensures n <= |users|
  {
    if users == [] then 0
    else (if users[0].email == email then 1 else 0) + CountEmail(users[1..], email)
  }

  /** `SELECT ... FROM users WHERE email=$1` finds a row. */
  predicate HasEmail(users: seq<User>, email: string) {
    exists i :: 0 <= i < |users| && users[i].email == email
  }

  lemma {:induction false} CountAppend(users: seq<User>, u: User, email: string)
    ensures CountEmail(users + [u], email) == CountEmail(users, email) + (if u.email == email then 1 else 0)
  {
    if users == [] {
      assert [u][1..] == [];
    } else {
      assert (users + [u])[1..] == users[1..] + [u];
      CountAppend(users[1..], u, email);
    }
  }

  /** The `users` table and the serial behind its ids. */
  class UsersTable {
    var users: seq<User>
    var nextId: nat

    constructor (users: seq<User>, nextId: nat)
      ensures this.users == users && this.nextId == nextId
    {
      this.users := users;
      this.nextId := nextId;
    }

    /** The script against the database module `db`: the lookup, then the
        insert with `is_admin` true; a failure exits with 1, an existing user
        with 0, and a new user ends the run normally. `dbFails` makes the
        queries on an attached pool throw. */
    method Seed(db: Db.DbModule, emailArg: Option<string>, passwordArg: Option<string>, hash: string -> string,
                dbFails: bool)
      returns (exitCode: Option<int>)
      modifies this
      ensures var email := EmailOf(emailArg);
        && (db.activePool.None? || dbFails ==> exitCode == Some(1) && users == old(users) && nextId == old(nextId))
        && (db.activePool.Some? && !dbFails && HasEmail(old(users), email) ==>
              exitCode == Some(0) && users == old(users) && nextId == old(nextId))
        && (db.activePool.Some? && !dbFails && !HasEmail(old(users), email) ==>
              && exitCode == None
              && users == old(users) + [User(old(nextId), email, hash(PasswordOf(passwordArg)), true)]
              && nextId == old(nextId) + 1)
    {
      var email := EmailOf(emailArg);
      var password := PasswordOf(passwordArg);
      var query := db.Get("query");
      if query.Failure? || dbFails {
        return Some(1);
      }
      if HasEmail(users, email) {
        return Some(0);
      }
      var hashed := hash(password);
      users := users + [User(nextId, email, hashed, true)];
      nextId := nextId + 1;
      exitCode := None;
    }
  }

  /** The table a successful seed leaves: one more user, an admin with the
      hashed password, unless the email was taken. */
  function Seeded(users: seq<User>, nextId: nat, email: string, hashed: string): seq<User> {
    if HasEmail(users, email) then users else users + [User(nextId, email, hashed, true)]
  }

  /** After a seed, exactly one user has the email when none had it before,
      and seeding again changes nothing. */
  lemma SeedOnce(users: seq<User>, nextId: nat, email: string, hashed: string)
    ensures CountEmail(Seeded(users, nextId, email, hashed), email) ==
      (if HasEmail(users, email) then CountEmail(users, email) else 1)
    ensures HasEmail(Seeded(users, nextId, email, hashed), email)
    ensures Seeded(Seeded(users, nextId, email, hashed), nextId + 1, email, hashed) == Seeded(users, nextId, email, hashed)
  {
    var s := Seeded(users, nextId, email, hashed);
    if !HasEmail(users, email) {
      CountAppend(users, User(nextId, email, hashed, true), email);
      assert s[|users|].email == email;
    }
  }

  /** The script as written: its lookup reaches the proxy before the
      bootstrap has attached a pool, so it always exits with 1 and inserts
      nothing. */
  method SeedAtLoad(env: Db.Env, outcomes: seq<bool>, users: seq<User>, nextId: nat,
                    emailArg: Option<string>, passwordArg: Option<string>, hash: string -> string,
                    dbFails: bool)
    returns (exitCode: Option<int>, after: seq<User>)
    ensures exitCode == Some(1) && after == users
  {
    var db := new Db.DbModule.Load(env, outcomes);
    var table := new UsersTable(users, nextId);
    exitCode := table.Seed(db, emailArg, passwordArg, hash, dbFails);
    after := table.users;
  }

  /** The script once the bootstrap has attached a pool, with a database
      that answers: the admin exists afterwards, exactly once when it was
      new. */
  method SeedAfterSetup(env: Db.Env, outcomes: seq<bool>, users: seq<User>, nextId: nat,
                        emailArg: Option<string>, passwordArg: Option<string>, hash: string -> string)
    returns (exitCode: Option<int>, after: seq<User>)
    ensures after == Seeded(users, nextId, EmailOf(emailArg), hash(PasswordOf(passwordArg)))
    ensures exitCode == (if HasEmail(users, EmailOf(emailArg)) then Some(0) else None)
  {
    var db := new Db.DbModule.Load(env, outcomes);
    db.CreatePoolWithFallback();
    var table := new UsersTable(users, nextId);
    exitCode := table.Seed(db, emailArg, passwordArg, hash, false);
    after := table.users;
  }
}
