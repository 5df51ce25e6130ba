/**
 The two SQLite tables of `logs.db`, as values.

 `users` has a UNIQUE `username` column, so it is a map from user name to stored hash;
 `logs` only ever receives INSERTs, so it is a sequence of records in insertion order.
 The AUTOINCREMENT ids and the server-assigned timestamp are not modelled.
 */
module Tables {
  import opened Wrappers
  import opened Hashing

  type Users = map<string, Digest>

  /** One row of the `logs` table: who did what on which platform. */
  datatype LogRecord = LogRecord(username: string, action: string, platform: string)

  /** `sqlite3.IntegrityError` raised by the UNIQUE constraint on `users.username`. */
  datatype IntegrityError = UniqueViolation

  /** `INSERT INTO users (username, password) VALUES (?, ?)` under the UNIQUE constraint. */
  function InsertUser(users: Users, name: string, hash: Digest): (r: Result<Users, IntegrityError>)
    ensures r.Err? <==> name in users
    ensures r.Ok? ==> r.value.Keys == users.Keys + {name} && r.value[name] == hash
    ensures r.Ok? ==> forall n :: n in users ==> r.value[n] == users[n]
  {
    if name in users then Err(UniqueViolation) else Ok(users[name := hash])
  }

  /** `SELECT * FROM users WHERE username = ?` followed by `fetchone()`. */
  function Lookup(users: Users, name: string): (r: Option<Digest>)
    ensures r.Some? <==> name in users
    ensures r.Some? ==> r.value == users[name]
  {
    if name in users then Some(users[name]) else None
  }

  /**
   `validate_user`: false when no row has this name, otherwise whether the password checks
   against the stored hash. Both failure causes give the same answer.
   */
  function Validate(users: Users, name: string, password: string): (ok: bool)
    ensures name !in users ==> !ok
    ensures name in users ==> (ok <==> CheckPw(password, users[name]))
  {
    match Lookup(users, name)
    case None => false
    case Some(stored) => CheckPw(password, stored)
  }

  /** After a successful insert of `(n, hash(s))`, `n` logs in with `s` and with nothing else. */
  lemma ValidateAfterInsert(users: Users, n: string, s: string, salt: Salt, other: string)
    requires InsertUser(users, n, HashPw(s, salt)).Ok?
    ensures Validate(InsertUser(users, n, HashPw(s, salt)).value, n, s)
    ensures other != s ==> !Validate(InsertUser(users, n, HashPw(s, salt)).value, n, other)
  {
  }

  /** An insert does not change whether any other name logs in. */
  lemma InsertKeepsOtherLogins(users: Users, n: string, hash: Digest, m: string, password: string)
    requires InsertUser(users, n, hash).Ok? && m != n
    ensures Validate(InsertUser(users, n, hash).value, m, password) == Validate(users, m, password)
  {
  }

  /** Registering the same name twice: the first insert succeeds and the second is refused. */
  lemma SecondInsertFails(users: Users, n: string, h1: Digest, h2: Digest)
    requires n !in users
    ensures InsertUser(users, n, h1).Ok?
    ensures InsertUser(InsertUser(users, n, h1).value, n, h2) == Err(UniqueViolation)
  {
  }
}
