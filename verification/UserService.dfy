/** Register, login, exchange and sign-out: each one transaction of ordered statements, any of which may fail and
    roll the transaction back. */
module UserServices {
  import opened Wrappers
  import opened IdentityStores

  // The points at which an operation may fail for reasons outside the tables.
  datatype Point = Hashing | Begin | UserInsert | KeyGeneration | KeyInsert | KeyAttach | RefreshSigning | TokenInsert
                 | TokenAttach | AccessSigning | TokenDelete | KeyDelete | Commit

  // What the surroundings supply to one operation: generated ids and key material, the clock in seconds, the same
  // moment one calendar year later, and the failures.
  datatype Env = Env(userId: Uuid, keyId: Uuid, tokenId: Uuid, secret: Secret, now: int, yearLater: int,
                     fails: Point -> bool)

  datatype Tokens = Tokens(access: RawToken, refresh: RawToken)

  datatype ServiceError =
    | Failed(point: Point)
    | Sql(cause: SqlError)
    | Token(reason: TokenError)
    | UserNotFound
    | DifferentPassword
    | KeyNotFound

  const DEFAULT_CLAIMS := ["user", "broadcaster"]

  function AccessPayload(userId: Uuid, username: string, now: int): Payload {
    Payload(username, userId, DEFAULT_CLAIMS, now + 60, AccessToken)
  }

  function RefreshPayload(userId: Uuid, username: string, yearLater: int): Payload {
    Payload(username, userId, DEFAULT_CLAIMS, yearLater, RefreshToken)
  }

  // ---------- The operations as functions of the committed database ----------

  function Try(env: Env, point: Point, r: Result<Database, SqlError>): Result<Database, ServiceError> {
    if env.fails(point) then Err(Failed(point))
    else if r.Err? then Err(Sql(r.error))
    else Ok(r.value)
  }

  function Check(env: Env, point: Point): Result<(), ServiceError> {
    if env.fails(point) then Err(Failed(point)) else Ok(())
  }

  function GenerateRefreshToken(db: Database, env: Env, secret: Secret, kid: Uuid, userId: Uuid, username: string)
    : Result<(Database, RawToken), ServiceError>
  {
    var _ :- Check(env, RefreshSigning);
    var refresh := Sign(secret, kid, RefreshPayload(userId, username, env.yearLater));
    var db1 :- Try(env, TokenInsert, InsertRefreshToken(db, env.tokenId, kid, refresh, env.yearLater));
    var db2 :- Try(env, TokenAttach, AttachRefreshToken(db1, userId, env.tokenId));
    Ok((db2, refresh))
  }

  function GenerateTokens(db: Database, env: Env, userId: Uuid, username: string)
    : Result<(Database, Tokens), ServiceError>
  {
    var _ :- Check(env, KeyGeneration);
    var db1 :- Try(env, KeyInsert, InsertPrivateKey(db, env.keyId, env.secret));
    var db2 :- Try(env, KeyAttach, AttachPrivateKey(db1, userId, env.keyId));
    var (db3, refresh) :- GenerateRefreshToken(db2, env, env.secret, env.keyId, userId, username);
    var _ :- Check(env, AccessSigning);
    Ok((db3, Tokens(Sign(env.secret, env.keyId, AccessPayload(userId, username, env.now)), refresh)))
  }

  function RegisterTx(db: Database, env: Env, username: string, password: string)
    : Result<(Database, Tokens), ServiceError>
  {
    var _ :- Check(env, Hashing);
    var _ :- Check(env, Begin);
    var db1 :- Try(env, UserInsert, InsertUser(db, env.userId, username, Bcrypt(password)));
    var result :- GenerateTokens(db1, env, env.userId, username);
    var _ :- Check(env, Commit);
    Ok(result)
  }

  function FindUserByUsername(db: Database, username: string): (r: Option<Uuid>)
    requires UniqueUsernames(db)
    ensures r.Some? ==> r.value in db.users && db.users[r.value].username == username
    ensures r.None? ==> forall u :: u in db.users ==> db.users[u].username != username
  {
    if exists u :: u in db.users && db.users[u].username == username then
      var u :| u in db.users && db.users[u].username == username; Some(u)
    else None
  }

  // `read` is the database that the user row is read from, outside the transaction.
  function LoginTx(read: Database, db: Database, env: Env, username: string, password: string)
    : Result<(Database, Tokens), ServiceError>
    requires UniqueUsernames(read)
  {
    var user := FindUserByUsername(read, username);
    if user.None? then Err(UserNotFound)
    else if read.users[user.value].password != Bcrypt(password) then Err(DifferentPassword)
    else
      var _ :- Check(env, Begin);
      var result :- GenerateTokens(db, env, user.value, username);
      var _ :- Check(env, Commit);
      Ok(result)
  }

  function TokenStep<T>(r: Result<T, TokenError>): Result<T, ServiceError> {
    if r.Err? then Err(Token(r.error)) else Ok(r.value)
  }

  // What exchange reads outside its transaction, each read from a committed database of its own.
  datatype Reads = Reads(validated: Database, keyOwner: Database, user: Database, key: Database)

  function ExchangeTx(seen: Reads, db: Database, env: Env, raw: RawToken, visible: set<Uuid>)
    : Result<(Database, Tokens), ServiceError>
  {
    var _ :- TokenStep(ValidateToken(seen.validated, raw, env.now));
    var kid :- TokenStep(GetUserKID(raw));
    var _ :- Check(env, Begin);
    if kid !in seen.keyOwner.userPrivateKeys then Err(UserNotFound)
    else
      var userId := seen.keyOwner.userPrivateKeys[kid];
      if userId !in seen.user.users then Err(UserNotFound)
      else
        var username := seen.user.users[userId].username;
        if kid !in seen.key.privateKeys then Err(KeyNotFound)
        else
          var secret := seen.key.privateKeys[kid];
          var _ :- Check(env, AccessSigning);
          var access := Sign(secret, kid, AccessPayload(userId, username, env.now));
          var db1 :- Try(env, TokenDelete, Ok(DeleteRefreshTokenByPrivateKey(db, kid, visible)));
          var (db2, refresh) :- GenerateRefreshToken(db1, env, secret, kid, userId, username);
          var _ :- Check(env, Commit);
          Ok((db2, Tokens(access, refresh)))
  }

  // Sign-out reads the kid of the token it is given without verifying the token.
  function SignOutTx(db: Database, env: Env, raw: RawToken, visible: set<Uuid>): Result<Database, ServiceError> {
    var kid :- TokenStep(GetUserKID(raw));
    var _ :- Check(env, Begin);
    var db1 :- Try(env, TokenDelete, Ok(DeleteRefreshTokenByPrivateKey(db, kid, visible)));
    var db2 :- Try(env, KeyDelete, DeletePrivateKey(db1, kid));
    var _ :- Check(env, Commit);
    Ok(db2)
  }

  function AfterTx<T>(db: Database, r: Result<(Database, T), ServiceError>): Database {
    if r.Ok? then r.value.0 else db
  }

  function TokensOrError<T>(r: Result<(Database, T), ServiceError>): Result<T, ServiceError> {
    if r.Ok? then Ok(r.value.1) else Err(r.error)
  }

  // ---------- The service object ----------

  // An open transaction: its own copy of the tables until it commits.
  class Tx {
    var work: Database
    const env: Env

    constructor (db: Database, env: Env)
      ensures work == db && this.env == env
    {
      work := db;
      this.env := env;
    }

    // Runs one statement whose outcome on the working copy is given.
    method Exec(point: Point, outcome: Result<Database, SqlError>) returns (error: Option<ServiceError>)
      modifies this
      ensures var r := Try(env, point, outcome);
              if r.Ok? then error == None && work == r.value else error == Some(r.error) && work == old(work)
    {
      if env.fails(point) {
        return Some(Failed(point));
      }
      if outcome.Err? {
        return Some(Sql(outcome.error));
      }
      work := outcome.value;
      return None;
    }
  }

  class UserService {
    var db: Database

    constructor (db: Database)
      ensures this.db == db
    {
      this.db := db;
    }

    method UserGenerateRefreshToken(tx: Tx, secret: Secret, kid: Uuid, userId: Uuid, username: string)
      returns (r: Result<RawToken, ServiceError>)
      modifies tx
      ensures var spec := GenerateRefreshToken(old(tx.work), tx.env, secret, kid, userId, username);
              r == TokensOrError(spec) && (spec.Ok? ==> tx.work == spec.value.0)
    {
      if tx.env.fails(RefreshSigning) {
        return Err(Failed(RefreshSigning));
      }
      var refresh := Sign(secret, kid, RefreshPayload(userId, username, tx.env.yearLater));
      var error := tx.Exec(TokenInsert, InsertRefreshToken(tx.work, tx.env.tokenId, kid, refresh, tx.env.yearLater));
      if error.Some? {
        return Err(error.value);
      }
      error := tx.Exec(TokenAttach, AttachRefreshToken(tx.work, userId, tx.env.tokenId));
      if error.Some? {
        return Err(error.value);
      }
      return Ok(refresh);
    }

    method UserGenerateTokens(tx: Tx, userId: Uuid, username: string) returns (r: Result<Tokens, ServiceError>)
      modifies tx
      ensures var spec := GenerateTokens(old(tx.work), tx.env, userId, username);
              r == TokensOrError(spec) && (spec.Ok? ==> tx.work == spec.value.0)
    {
      var env := tx.env;
      if env.fails(KeyGeneration) {
        return Err(Failed(KeyGeneration));
      }
      var error := tx.Exec(KeyInsert, InsertPrivateKey(tx.work, env.keyId, env.secret));
      if error.Some? {
        return Err(error.value);
      }
      error := tx.Exec(KeyAttach, AttachPrivateKey(tx.work, userId, env.keyId));
      if error.Some? {
        return Err(error.value);
      }
      var refresh := UserGenerateRefreshToken(tx, env.secret, env.keyId, userId, username);
      if refresh.Err? {
        return Err(refresh.error);
      }
      if env.fails(AccessSigning) {
        return Err(Failed(AccessSigning));
      }
      return Ok(Tokens(Sign(env.secret, env.keyId, AccessPayload(userId, username, env.now)), refresh.value));
    }

    method RegisterUser(env: Env, username: string, password: string) returns (r: Result<Tokens, ServiceError>)
      modifies this
      ensures var spec := RegisterTx(old(db), env, username, password);
              r == TokensOrError(spec) && db == AfterTx(old(db), spec)
    {
      if env.fails(Hashing) {
        return Err(Failed(Hashing));
      }
      if env.fails(Begin) {
        return Err(Failed(Begin));
      }
      var tx := new Tx(db, env);
      var error := tx.Exec(UserInsert, InsertUser(tx.work, env.userId, username, Bcrypt(password)));
      if error.Some? {
        return Err(error.value);
      }
      r := UserGenerateTokens(tx, env.userId, username);
      if r.Err? {
        return r;
      }
      if env.fails(Commit) {
        return Err(Failed(Commit));
      }
      db := tx.work;
    }

    method UserLogin(read: Database, env: Env, username: string, password: string)
      returns (r: Result<Tokens, ServiceError>)
      requires UniqueUsernames(read)
      modifies this
      ensures var spec := LoginTx(read, old(db), env, username, password);
              r == TokensOrError(spec) && db == AfterTx(old(db), spec)
    {
      var user := FindUserByUsername(read, username);
      if user.None? {
        return Err(UserNotFound);
      }
      if read.users[user.value].password != Bcrypt(password) {
        return Err(DifferentPassword);
      }
      if env.fails(Begin) {
        return Err(Failed(Begin));
      }
      var tx := new Tx(db, env);
      r := UserGenerateTokens(tx, user.value, username);
      if r.Err? {
        return r;
      }
      if env.fails(Commit) {
        return Err(Failed(Commit));
      }
      db := tx.work;
    }

    method UserExchangeAccessToken(seen: Reads, env: Env, raw: RawToken, visible: set<Uuid>)
      returns (r: Result<Tokens, ServiceError>)
      modifies this
      ensures var spec := ExchangeTx(seen, old(db), env, raw, visible);
              r == TokensOrError(spec) && db == AfterTx(old(db), spec)
    {
      var valid := ValidateToken(seen.validated, raw, env.now);
      if valid.Err? {
        return Err(Token(valid.error));
      }
      var kid := GetUserKID(raw).value;
      if env.fails(Begin) {
        return Err(Failed(Begin));
      }
      var tx := new Tx(db, env);
      if kid !in seen.keyOwner.userPrivateKeys || seen.keyOwner.userPrivateKeys[kid] !in seen.user.users {
        return Err(UserNotFound);
      }
      var userId := seen.keyOwner.userPrivateKeys[kid];
      var username := seen.user.users[userId].username;
      if kid !in seen.key.privateKeys {
        return Err(KeyNotFound);
      }
      var secret := seen.key.privateKeys[kid];
      if env.fails(AccessSigning) {
        return Err(Failed(AccessSigning));
      }
      var access := Sign(secret, kid, AccessPayload(userId, username, env.now));
      var error := tx.Exec(TokenDelete, Ok(DeleteRefreshTokenByPrivateKey(tx.work, kid, visible)));
      if error.Some? {
        return Err(error.value);
      }
      var refresh := UserGenerateRefreshToken(tx, secret, kid, userId, username);
      if refresh.Err? {
        return Err(refresh.error);
      }
      if env.fails(Commit) {
        return Err(Failed(Commit));
      }
      db := tx.work;
      return Ok(Tokens(access, refresh.value));
    }

    method UserDeleteRefreshToken(env: Env, raw: RawToken, visible: set<Uuid>) returns (error: Option<ServiceError>)
      modifies this
      ensures var spec := SignOutTx(old(db), env, raw, visible);
              if spec.Ok? then error == None && db == spec.value else error == Some(spec.error) && db == old(db)
    {
      var kid := GetUserKID(raw);
      if kid.Err? {
        return Some(Token(kid.error));
      }
      if env.fails(Begin) {
        return Some(Failed(Begin));
      }
      var tx := new Tx(db, env);
      error := tx.Exec(TokenDelete, Ok(DeleteRefreshTokenByPrivateKey(tx.work, kid.value, visible)));
      if error.Some? {
        return error;
      }
      error := tx.Exec(KeyDelete, DeletePrivateKey(tx.work, kid.value));
      if error.Some? {
        return error;
      }
      if env.fails(Commit) {
        return Some(Failed(Commit));
      }
      db := tx.work;
    }
  }
}
