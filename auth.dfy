/**
 * The authentication service over the `users` table: registration (a uniqueness check, then an
 * insert), login (a lookup, then a password check) and session-token verification (a decode, then a lookup).
 */
module Auth {
  import opened Wrappers
  import opened Seqs
  import opened Text
  import opened Crypto

  /** bcrypt cost factor used for every new password hash. */
  const SaltRounds: nat := 10
  /** Lifetime of every issued session token. */
  const TokenLifetime := "24h"
  /** Signing key used when `JWT_SECRET` is unset or empty. */
  const DefaultJwtSecret := "your-secret-key"

  const UserExists := Error("Username or email already exists")
  const UserNotFound := Error("User not found")
  const InvalidPassword := Error("Invalid password")
  const InvalidToken := Error("Invalid token")

  /** A row of `users`. */
  datatype UserRow = UserRow(id: nat, username: string, passwordHash: PasswordHash, email: string)
  /** The columns `id, username, email`: a user without the password hash. */
  datatype UserSummary = UserSummary(id: nat, username: string, email: string)
  datatype RegisterData = RegisterData(username: string, password: string, email: string)
  datatype LoginData = LoginData(username: string, password: string)
  /** `{ user, token }`, what registration and login return. */
  datatype Session = Session(user: UserSummary, token: string)
  /**
   * What token verification depends on besides the table: the `JWT_SECRET` environment variable
   * the key is taken from, whether the presented token's lifetime has passed, and whether the
   * storage round trip fails.
   */
  datatype AuthContext = AuthContext(jwtEnv: Option<string>, tokenExpired: bool, lookupFails: bool)

  /** `process.env.JWT_SECRET || 'your-secret-key'`: never the empty key, and the variable's value whenever that is usable. */
  function JwtSecret(env: Option<string>): (key: string)
    ensures key != ""
    ensures Truthy(env) ==> key == env.value
  {
    if Truthy(env) then env.value else DefaultJwtSecret
  }

  function Summary(u: UserRow): UserSummary {
    UserSummary(u.id, u.username, u.email)
  }

  /** The session token for a user id: signed with the key, valid for 24 hours. */
  function IssueToken(id: nat, key: string): string {
    Sign(Claims(id, TokenLifetime), key)
  }

  /** The row a successful registration inserts. */
  function NewUser(id: nat, data: RegisterData, salt: string): UserRow {
    UserRow(id, data.username, Hash(data.password, SaltRounds, salt), data.email)
  }

  predicate Clashes(u: UserRow, username: string, email: string) {
    u.username == username || u.email == email
  }

  /** `SELECT * FROM users WHERE username = $1 OR email = $2`. */
  function Existing(rows: seq<UserRow>, username: string, email: string): (r: seq<UserRow>)
    ensures |r| == 0 <==> forall u | u in rows :: u.username != username && u.email != email
  {
    var r := Select(rows, (u: UserRow) => Clashes(u, username, email));
    assert |r| > 0 ==> r[0] in r;
    r
  }

  /** No two users share a username, and no two share an email. */
  ghost predicate UniqueLogins(rows: seq<UserRow>) {
    forall i, j | 0 <= i < j < |rows| :: rows[i].username != rows[j].username && rows[i].email != rows[j].email
  }

  ghost predicate DistinctIds(rows: seq<UserRow>) {
    forall i, j | 0 <= i < j < |rows| :: rows[i].id != rows[j].id
  }

  /** An insert that passed the uniqueness check keeps usernames and emails unique. */
  lemma InsertKeepsUnique(rows: seq<UserRow>, u: UserRow)
    requires UniqueLogins(rows)
    requires |Existing(rows, u.username, u.email)| == 0
    ensures UniqueLogins(rows + [u])
  {
    forall i | 0 <= i < |rows| ensures rows[i].username != u.username && rows[i].email != u.email {
      assert rows[i] in rows;
    }
  }

  /** `SELECT * FROM users WHERE username = $1`, first row. */
  function FindByUsername(rows: seq<UserRow>, username: string): (r: Option<UserRow>)
    ensures r.Some? ==> r.value in rows && r.value.username == username
    ensures r.None? <==> forall u | u in rows :: u.username != username
  {
    AnyMatch(rows, (u: UserRow) => u.username == username)
  }

  /** `authService.login`: the username is looked up first, the password checked second. */
  function Login(rows: seq<UserRow>, data: LoginData, key: string): (r: Result<Session>)
    ensures r == Err(UserNotFound) <==> forall u | u in rows :: u.username != data.username
    ensures r == Err(InvalidPassword) ==>
              exists u | u in rows :: u.username == data.username && !Compare(data.password, u.passwordHash)
    ensures r.Ok? ==>
              exists u | u in rows :: u.username == data.username && Compare(data.password, u.passwordHash) &&
                                      r.value == Session(Summary(u), IssueToken(u.id, key))
    ensures r.Err? ==> r.error in {UserNotFound, InvalidPassword}
    ensures UniqueLogins(rows) ==>
              (r.Ok? <==> exists u | u in rows :: u.username == data.username && Compare(data.password, u.passwordHash))
  {
    match FindByUsername(rows, data.username)
    case None => Err(UserNotFound)
    case Some(u) =>
      if !Compare(data.password, u.passwordHash) then Err(InvalidPassword)
      else Ok(Session(Summary(u), IssueToken(u.id, key)))
  }

  /** `SELECT id, username, email FROM users WHERE id = $1`, first row. */
  function FindById(rows: seq<UserRow>, id: nat): (r: Option<UserSummary>)
    ensures r.Some? ==> exists u | u in rows :: u.id == id && r.value == Summary(u)
    ensures r.None? <==> forall u | u in rows :: u.id != id
  {
    match AnyMatch(rows, (u: UserRow) => u.id == id)
    case None => None
    case Some(u) => Some(Summary(u))
  }

  /**
   * `authService.verifyToken`: every decode or lookup failure (including a missing token) becomes
   * `Invalid token`; a valid token whose user has no row yields `undefined` (here `Ok(None)`), not an error.
   */
  function VerifyToken(rows: seq<UserRow>, token: Option<string>, ctx: AuthContext): (r: Result<Option<UserSummary>>)
    ensures r.Err? ==> r.error == InvalidToken
    ensures r.Err? <==> token.None? || Verify(token.value, JwtSecret(ctx.jwtEnv), ctx.tokenExpired).None? || ctx.lookupFails
    ensures r.Ok? ==> var id := Verify(token.value, JwtSecret(ctx.jwtEnv), ctx.tokenExpired).value.userId;
                      r.value == FindById(rows, id)
  {
    if token.None? then Err(InvalidToken)
    else match Verify(token.value, JwtSecret(ctx.jwtEnv), ctx.tokenExpired)
      case None => Err(InvalidToken)
      case Some(claims) => if ctx.lookupFails then Err(InvalidToken) else Ok(FindById(rows, claims.userId))
  }

  /** With distinct ids, looking up the id of a row finds that row. */
  lemma FindOwnId(rows: seq<UserRow>, u: UserRow)
    requires DistinctIds(rows) && u in rows
    ensures FindById(rows, u.id) == Some(Summary(u))
  {
    var r := FindById(rows, u.id);
    var w :| w in rows && w.id == u.id && r.value == Summary(w);
    var i, j :| 0 <= i < |rows| && 0 <= j < |rows| && rows[i] == w && rows[j] == u;
    assert i == j;
  }

  /** A token issued for a user in the table verifies, while unexpired, to that user's row. */
  lemma IssuedTokenVerifies(rows: seq<UserRow>, u: UserRow, env: Option<string>)
    requires DistinctIds(rows) && u in rows
    ensures VerifyToken(rows, Some(IssueToken(u.id, JwtSecret(env))), AuthContext(env, false, false)) == Ok(Some(Summary(u)))
  {
    VerifySign(Claims(u.id, TokenLifetime), JwtSecret(env));
    FindOwnId(rows, u);
  }

  /** The token a successful login returns verifies, while unexpired, to the same user. */
  lemma LoginThenVerify(rows: seq<UserRow>, data: LoginData, env: Option<string>)
    requires DistinctIds(rows)
    requires Login(rows, data, JwtSecret(env)).Ok?
    ensures var s := Login(rows, data, JwtSecret(env)).value;
            VerifyToken(rows, Some(s.token), AuthContext(env, false, false)) == Ok(Some(s.user))
  {
    var s := Login(rows, data, JwtSecret(env)).value;
    var u :| u in rows && u.username == data.username && Compare(data.password, u.passwordHash) &&
             s == Session(Summary(u), IssueToken(u.id, JwtSecret(env)));
    IssuedTokenVerifies(rows, u, env);
  }

  /** A token past its lifetime never verifies, and the failure is always `Invalid token`. */
  lemma ExpiredTokenRejected(rows: seq<UserRow>, id: nat, env: Option<string>, lookupFails: bool)
    ensures VerifyToken(rows, Some(IssueToken(id, JwtSecret(env))), AuthContext(env, true, lookupFails)) == Err(InvalidToken)
  {
    VerifySign(Claims(id, TokenLifetime), JwtSecret(env));
  }

  /** A freshly registered user can log in with the password they registered with, and with no other. */
  lemma RegisterThenLogin(rows: seq<UserRow>, id: nat, data: RegisterData, salt: string, key: string, password: string)
    requires |Existing(rows, data.username, data.email)| == 0
    ensures var after := rows + [NewUser(id, data, salt)];
            Login(after, LoginData(data.username, password), key) ==
              if password == data.password then Ok(Session(UserSummary(id, data.username, data.email), IssueToken(id, key)))
              else Err(InvalidPassword)
  {
    var u := NewUser(id, data, salt);
    var after := rows + [u];
    var found := FindByUsername(after, data.username);
    assert u in after;
    assert found.Some? && found.value in after;
    if found.value in rows {
      assert false;
    }
    assert found.value == u;
    CompareHash(password, data.password, SaltRounds, salt);
  }

  /** The `users` table, with the id sequence the database would draw new ids from. */
  class UserTable {
    var rows: seq<UserRow>
    var nextId: nat

    ghost predicate Valid()
      reads this
    {
      DistinctIds(rows) && forall i | 0 <= i < |rows| :: rows[i].id < nextId
    }

    /** An empty table; ids start at 1. */
    constructor ()
      ensures Valid() && UniqueLogins(rows)
      ensures rows == [] && nextId == 1
    {
      rows, nextId := [], 1;
    }

    /**
     * `authService.register`: refuses, inserting nothing, when any user has the same username or
     * the same email; otherwise inserts one row with the hashed password and returns it with a token.
     */
    method Register(data: RegisterData, salt: string, key: string) returns (r: Result<Session>)
      requires Valid()
      modifies this
      ensures Valid()
      ensures old(UniqueLogins(rows)) ==> UniqueLogins(rows)
      ensures |Existing(old(rows), data.username, data.email)| > 0 ==>
                r == Err(UserExists) && rows == old(rows) && nextId == old(nextId)
      ensures |Existing(old(rows), data.username, data.email)| == 0 ==>
                rows == old(rows) + [NewUser(old(nextId), data, salt)] && nextId == old(nextId) + 1 &&
                r == Ok(Session(UserSummary(old(nextId), data.username, data.email), IssueToken(old(nextId), key)))
    {
      var existing := Existing(rows, data.username, data.email);
      if |existing| > 0 {
        return Err(UserExists);
      }
      var hashed := Hash(data.password, SaltRounds, salt);
      var user := UserRow(nextId, data.username, hashed, data.email);
      if UniqueLogins(rows) {
        InsertKeepsUnique(rows, user);
      }
      rows, nextId := rows + [user], nextId + 1;
      r := Ok(Session(Summary(user), IssueToken(user.id, key)));
    }
  }
}
