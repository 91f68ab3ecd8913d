/** The tables of the identity service, their constraints, and the SQL statements that change them. */
module IdentityStores {
  import opened Wrappers

  type Uuid = nat

  // The material of an RSA private key; signing and verifying agree exactly on equal material.
  type Secret = nat

  datatype TokenUse = AccessToken | RefreshToken

  datatype Payload = Payload(subject: string, userId: Uuid, audience: seq<string>, expiresAt: int, tokenUse: TokenUse)

  // A raw token is not a JWS at all, or a JWS whose kid header may not be a UUID.
  datatype RawToken = NotJws | Jws(kid: Option<Uuid>, signedWith: Secret, payload: Payload)

  // A stored password: bcrypt compares a hash equal to the password it was made from and to no other.
  datatype Hash = Bcrypt(password: string)

  datatype User = User(username: string, password: Hash)

  datatype TokenRow = TokenRow(privateKeyId: Uuid, plaintext: RawToken, expiresAt: int)

  // user_private_keys and user_refresh_tokens are kept under their UNIQUE columns private_key_id and
  // refresh_token_id, with the user id as the value.
  datatype Database = Database(
    users: map<Uuid, User>,
    privateKeys: map<Uuid, Secret>,
    userPrivateKeys: map<Uuid, Uuid>,
    refreshTokens: map<Uuid, TokenRow>,
    userRefreshTokens: map<Uuid, Uuid>)

  datatype SqlError = DuplicateKey | ForeignKeyViolation | ValueTooLong | StatementFailed

  // ---------- Constraints ----------

  ghost predicate UniqueUsernames(db: Database) {
    forall u, v :: u in db.users && v in db.users && db.users[u].username == db.users[v].username ==> u == v
  }

  ghost predicate OneTokenAKey(db: Database) {
    forall t, r | t in db.refreshTokens && r in db.refreshTokens ::
      db.refreshTokens[t].privateKeyId == db.refreshTokens[r].privateKeyId ==> t == r
  }

  // The declared constraints of the five tables.
  ghost predicate Constraints(db: Database) {
    && UniqueUsernames(db)
    && OneTokenAKey(db)
    && (forall k :: k in db.userPrivateKeys ==> k in db.privateKeys && db.userPrivateKeys[k] in db.users)
    && (forall t :: t in db.refreshTokens ==> db.refreshTokens[t].privateKeyId in db.privateKeys)
    && (forall t :: t in db.userRefreshTokens ==> t in db.refreshTokens && db.userRefreshTokens[t] in db.users)
  }

  // ---------- Statements ----------

  function InsertUser(db: Database, id: Uuid, username: string, password: Hash): Result<Database, SqlError> {
    if |username| > 30 then Err(ValueTooLong)
    else if id in db.users then Err(DuplicateKey)
    else if exists u :: u in db.users && db.users[u].username == username then Err(DuplicateKey)
    else Ok(db.(users := db.users[id := User(username, password)]))
  }

  function InsertPrivateKey(db: Database, id: Uuid, secret: Secret): Result<Database, SqlError> {
    if id in db.privateKeys then Err(DuplicateKey)
    else Ok(db.(privateKeys := db.privateKeys[id := secret]))
  }

  function AttachPrivateKey(db: Database, userId: Uuid, keyId: Uuid): Result<Database, SqlError> {
    if keyId in db.userPrivateKeys then Err(DuplicateKey)
    else if userId !in db.users || keyId !in db.privateKeys then Err(ForeignKeyViolation)
    else Ok(db.(userPrivateKeys := db.userPrivateKeys[keyId := userId]))
  }

  function InsertRefreshToken(db: Database, id: Uuid, keyId: Uuid, plaintext: RawToken,
                              expiresAt: int)
    : Result<Database, SqlError>
  {
    if id in db.refreshTokens then Err(DuplicateKey)
    else if exists t :: t in db.refreshTokens && db.refreshTokens[t].privateKeyId == keyId then Err(DuplicateKey)
    else if keyId !in db.privateKeys then Err(ForeignKeyViolation)
    else Ok(db.(refreshTokens := db.refreshTokens[id := TokenRow(keyId, plaintext, expiresAt)]))
  }

  function AttachRefreshToken(db: Database, userId: Uuid, tokenId: Uuid): Result<Database, SqlError> {
    if tokenId in db.userRefreshTokens then Err(DuplicateKey)
    else if userId !in db.users || tokenId !in db.refreshTokens then Err(ForeignKeyViolation)
    else Ok(db.(userRefreshTokens := db.userRefreshTokens[tokenId := userId]))
  }

  // The rows of a key's refresh tokens that a DELETE can see: a row that another transaction committed after the
  // statement took its snapshot is not among the visible ones, and stays.
  function TokensOf(db: Database, keyId: Uuid, visible: set<Uuid>): set<Uuid> {
    set t | t in db.refreshTokens && db.refreshTokens[t].privateKeyId == keyId && t in visible
  }

  // Deleting a refresh token cascades to user_refresh_tokens.
  function DeleteRefreshTokenByPrivateKey(db: Database, keyId: Uuid, visible: set<Uuid>): Database {
    var gone := TokensOf(db, keyId, visible);
    db.(refreshTokens := db.refreshTokens - gone, userRefreshTokens := db.userRefreshTokens - gone)
  }

  // Deleting a private key cascades to user_private_keys, but not to refresh_tokens, which forbids it.
  function DeletePrivateKey(db: Database, keyId: Uuid): Result<Database, SqlError> {
    if keyId in db.privateKeys && exists t :: t in db.refreshTokens && db.refreshTokens[t].privateKeyId == keyId then
      Err(ForeignKeyViolation)
    else
      Ok(db.(privateKeys := db.privateKeys - {keyId}, userPrivateKeys := db.userPrivateKeys - {keyId}))
  }

  // ---------- Token validation ----------

  datatype TokenError = EmptyToken | BadKid | NoPrivateKey | NotVerified | Expired

  function GetUserKID(raw: RawToken): Result<Uuid, TokenError> {
    if raw.NotJws? then Err(EmptyToken)
    else if raw.kid.None? then Err(BadKid)
    else Ok(raw.kid.value)
  }

  function Sign(secret: Secret, kid: Uuid, payload: Payload): RawToken {
    Jws(Some(kid), secret, payload)
  }

  // The signature is checked against the stored key of the token's own kid, and then the expiry.
  function ValidateToken(db: Database, raw: RawToken, now: int): Result<Payload, TokenError> {
    var kid :- GetUserKID(raw);
    if kid !in db.privateKeys then Err(NoPrivateKey)
    else if raw.signedWith != db.privateKeys[kid] then Err(NotVerified)
    else if now >= raw.payload.expiresAt then Err(Expired)
    else Ok(raw.payload)
  }

  // A token validates exactly when it bears the id of a stored key, that key's signature, and an expiry to come; each
  // error names the first of these that is missing.
  lemma ValidationDecides(db: Database, raw: RawToken, now: int)
    ensures var r := ValidateToken(db, raw, now);
            var known := raw.Jws? && raw.kid.Some? && raw.kid.value in db.privateKeys;
            && (r == Err(EmptyToken) <==> raw.NotJws?)
            && (r == Err(BadKid) <==> raw.Jws? && raw.kid.None?)
            && (r == Err(NoPrivateKey) <==> raw.Jws? && raw.kid.Some? && raw.kid.value !in db.privateKeys)
            && (r == Err(NotVerified) <==> known && raw.signedWith != db.privateKeys[raw.kid.value])
            && (r == Err(Expired) <==>
                  known && raw.signedWith == db.privateKeys[raw.kid.value] && raw.payload.expiresAt <= now)
            && (r.Ok? <==> known && raw.signedWith == db.privateKeys[raw.kid.value] && now < raw.payload.expiresAt)
            && (r.Ok? ==> r.value == raw.payload)
  {
  }

  // Each refused statement names the constraint it would break.
  lemma StatementErrors(db: Database, user: Uuid, key: Uuid, token: Uuid, name: string, password: Hash, raw: RawToken,
                        expiresAt: int)
    ensures InsertUser(db, user, name, password) == Err(ValueTooLong) <==> |name| > 30
    ensures InsertUser(db, user, name, password) == Err(DuplicateKey)
            <==> |name| <= 30 && (user in db.users || exists u :: u in db.users && db.users[u].username == name)
    ensures AttachPrivateKey(db, user, key) == Err(ForeignKeyViolation)
            <==> key !in db.userPrivateKeys && (user !in db.users || key !in db.privateKeys)
    ensures InsertRefreshToken(db, token, key, raw, expiresAt) == Err(ForeignKeyViolation) ==> key !in db.privateKeys
    ensures InsertRefreshToken(db, token, key, raw, expiresAt) == Err(DuplicateKey)
            <==> token in db.refreshTokens
                 || exists t :: t in db.refreshTokens && db.refreshTokens[t].privateKeyId == key
    ensures AttachRefreshToken(db, user, token) == Err(ForeignKeyViolation)
            <==> token !in db.userRefreshTokens && (user !in db.users || token !in db.refreshTokens)
  {
  }

  // ---------- The four-way correspondence ----------

  ghost predicate EveryKeyHasToken(db: Database) {
    forall k :: k in db.privateKeys ==> exists t :: t in db.refreshTokens && db.refreshTokens[t].privateKeyId == k
  }

  ghost predicate TokenUserIsKeyUser(db: Database)
    requires db.userRefreshTokens.Keys == db.refreshTokens.Keys
    requires forall t :: t in db.refreshTokens ==> db.refreshTokens[t].privateKeyId in db.userPrivateKeys
  {
    forall t :: t in db.refreshTokens
        ==> db.userRefreshTokens[t] == db.userPrivateKeys[db.refreshTokens[t].privateKeyId]
  }

  // Each private key has one owner row, one refresh token and one user_refresh_tokens row, no other such row exists,
  // and the user of the token is the user of the key.
  ghost predicate FourWay(db: Database) {
    && Constraints(db)
    && db.userPrivateKeys.Keys == db.privateKeys.Keys
    && db.userRefreshTokens.Keys == db.refreshTokens.Keys
    && EveryKeyHasToken(db)
    && TokenUserIsKeyUser(db)
  }

  ghost function TokenOf(db: Database, keyId: Uuid): (t: Uuid)
    requires FourWay(db) && keyId in db.privateKeys
    ensures t in db.refreshTokens && db.refreshTokens[t].privateKeyId == keyId
  {
    var t :| t in db.refreshTokens && db.refreshTokens[t].privateKeyId == keyId; t
  }

  // The keys that rows refer to.
  ghost function Referred(rows: map<Uuid, TokenRow>): set<Uuid> {
    set t | t in rows :: rows[t].privateKeyId
  }

  lemma ReferredOneLess(rows: map<Uuid, TokenRow>, t: Uuid)
    requires forall a, b | a in rows && b in rows :: rows[a].privateKeyId == rows[b].privateKeyId ==> a == b
    requires t in rows
    ensures Referred(rows) == Referred(rows - {t}) + {rows[t].privateKeyId}
    ensures rows[t].privateKeyId !in Referred(rows - {t})
  {
    forall k | k in Referred(rows) && k != rows[t].privateKeyId
      ensures k in Referred(rows - {t})
    {
      var a :| a in rows && rows[a].privateKeyId == k;
      assert a in rows - {t};
    }
  }

  lemma {:induction false} InjectiveCount(rows: map<Uuid, TokenRow>)
    requires forall a, b | a in rows && b in rows :: rows[a].privateKeyId == rows[b].privateKeyId ==> a == b
    ensures |Referred(rows)| == |rows|
    decreases |rows|
  {
    if rows == map[] {
      assert Referred(rows) == {};
    } else {
      var t :| t in rows;
      ReferredOneLess(rows, t);
      assert (rows - {t}).Keys == rows.Keys - {t};
      assert |rows - {t}| == |(rows - {t}).Keys| && |rows| == |rows.Keys|;
      hide Referred;
      InjectiveCount(rows - {t});
    }
  }

  // The four tables have equally many rows.
  lemma FourWayCounts(db: Database)
    requires FourWay(db)
    ensures |db.privateKeys| == |db.userPrivateKeys| == |db.refreshTokens| == |db.userRefreshTokens|
  {
    InjectiveCount(db.refreshTokens);
    assert Referred(db.refreshTokens) == db.privateKeys.Keys;
    assert |db.privateKeys| == |db.privateKeys.Keys| && |db.userPrivateKeys| == |db.userPrivateKeys.Keys|;
    assert |db.refreshTokens| == |db.refreshTokens.Keys| && |db.userRefreshTokens| == |db.userRefreshTokens.Keys|;
  }

  // Every statement that succeeds keeps the declared constraints.
  lemma InsertsKeepConstraints(db: Database, user: Uuid, key: Uuid, token: Uuid, name: string, password: Hash,
                               secret: Secret, raw: RawToken, expiresAt: int)
    requires Constraints(db)
    ensures var r := InsertUser(db, user, name, password); r.Ok? ==> Constraints(r.value)
    ensures var r := InsertPrivateKey(db, key, secret); r.Ok? ==> Constraints(r.value)
    ensures var r := InsertRefreshToken(db, token, key, raw, expiresAt); r.Ok? ==> Constraints(r.value)
  {
  }

  lemma AttachesKeepConstraints(db: Database, user: Uuid, key: Uuid, token: Uuid)
    requires Constraints(db)
    ensures var r := AttachPrivateKey(db, user, key); r.Ok? ==> Constraints(r.value)
    ensures var r := AttachRefreshToken(db, user, token); r.Ok? ==> Constraints(r.value)
  {
  }

  lemma DeletesKeepConstraints(db: Database, key: Uuid, visible: set<Uuid>)
    requires Constraints(db)
    ensures Constraints(DeleteRefreshTokenByPrivateKey(db, key, visible))
    ensures var r := DeletePrivateKey(db, key); r.Ok? ==> Constraints(r.value)
  {
  }
}
