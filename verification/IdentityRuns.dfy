/** Every run of the identity service: operations on the committed database, reading outside their transactions from
    any earlier committed database, each transaction committing or rolling back as a whole. */
module IdentityRuns {
  import opened Wrappers
  import opened IdentityStores
  import opened UserServices

  // ---------- What one operation does to the four tables ----------

  // A new session: one key with its owner row, its token and its user_refresh_tokens row.
  ghost function AddSession(db: Database, keyId: Uuid, secret: Secret, userId: Uuid, tokenId: Uuid,
                            row: TokenRow)
    : Database
  {
    db.(privateKeys := db.privateKeys[keyId := secret], userPrivateKeys := db.userPrivateKeys[keyId := userId],
        refreshTokens := db.refreshTokens[tokenId := row], userRefreshTokens := db.userRefreshTokens[tokenId := userId])
  }

  ghost function WithSession(db: Database, env: Env, userId: Uuid, username: string): Database {
    var row := TokenRow(env.keyId, Sign(env.secret, env.keyId, RefreshPayload(userId, username, env.yearLater)),
                        env.yearLater);
    AddSession(db, env.keyId, env.secret, userId, env.tokenId, row)
  }

  lemma GenerateTokensAdds(db: Database, env: Env, userId: Uuid, username: string)
    ensures var r := GenerateTokens(db, env, userId, username);
            r.Ok? ==>
              && env.keyId !in db.privateKeys && env.tokenId !in db.refreshTokens && userId in db.users
              && r.value.0 == WithSession(db, env, userId, username)
              && r.value.1 == Tokens(Sign(env.secret, env.keyId, AccessPayload(userId, username, env.now)),
                                     Sign(env.secret, env.keyId, RefreshPayload(userId, username, env.yearLater)))
  {
  }

  lemma AddSessionConstraints(db: Database, keyId: Uuid, secret: Secret, userId: Uuid, tokenId: Uuid, row: TokenRow)
    requires Constraints(db) && userId in db.users
    requires keyId !in db.privateKeys && row.privateKeyId == keyId
    ensures Constraints(AddSession(db, keyId, secret, userId, tokenId, row))
  {
    var after := AddSession(db, keyId, secret, userId, tokenId, row);
    assert UniqueUsernames(after);
    forall t, r | t in after.refreshTokens && r in after.refreshTokens
      ensures after.refreshTokens[t].privateKeyId == after.refreshTokens[r].privateKeyId ==> t == r
    {
      assert t != tokenId ==> t in db.refreshTokens && db.refreshTokens[t].privateKeyId in db.privateKeys;
    }
  }

  lemma AddSessionUsers(db: Database, keyId: Uuid, secret: Secret, userId: Uuid, tokenId: Uuid, row: TokenRow)
    requires FourWay(db) && row.privateKeyId == keyId && keyId !in db.privateKeys
    ensures var after := AddSession(db, keyId, secret, userId, tokenId, row);
            && after.userPrivateKeys.Keys == after.privateKeys.Keys
            && after.userRefreshTokens.Keys == after.refreshTokens.Keys
            && TokenUserIsKeyUser(after)
  {
    hide UniqueUsernames, OneTokenAKey, EveryKeyHasToken;
  }

  lemma AddSessionKeeps(db: Database, keyId: Uuid, secret: Secret, userId: Uuid, tokenId: Uuid, row: TokenRow)
    requires FourWay(db) && userId in db.users
    requires keyId !in db.privateKeys && row.privateKeyId == keyId && tokenId !in db.refreshTokens
    ensures FourWay(AddSession(db, keyId, secret, userId, tokenId, row))
  {
    hide Constraints, TokenUserIsKeyUser;
    var after := AddSession(db, keyId, secret, userId, tokenId, row);
    AddSessionConstraints(db, keyId, secret, userId, tokenId, row);
    AddSessionUsers(db, keyId, secret, userId, tokenId, row);
    forall k | k in after.privateKeys
      ensures exists t :: t in after.refreshTokens && after.refreshTokens[t].privateKeyId == k
    {
      var t := if k == keyId then tokenId else TokenOf(db, k);
      assert t in after.refreshTokens && after.refreshTokens[t].privateKeyId == k;
    }
  }

  lemma WithSessionKeeps(db: Database, env: Env, userId: Uuid, username: string)
    requires FourWay(db) && env.keyId !in db.privateKeys && env.tokenId !in db.refreshTokens && userId in db.users
    ensures FourWay(WithSession(db, env, userId, username))
  {
    hide FourWay, AddSession;
    var row := TokenRow(env.keyId, Sign(env.secret, env.keyId, RefreshPayload(userId, username, env.yearLater)),
                        env.yearLater);
    AddSessionKeeps(db, env.keyId, env.secret, userId, env.tokenId, row);
  }

  lemma InsertUserKeeps(db: Database, id: Uuid, username: string, password: Hash)
    requires FourWay(db)
    ensures var r := InsertUser(db, id, username, password);
            r.Ok? ==>
              && FourWay(r.value) && id !in db.users
              && r.value == db.(users := db.users[id := User(username, password)])
  {
  }

  ghost predicate GenerationRuns(env: Env) {
    !(env.fails(KeyGeneration) || env.fails(KeyInsert) || env.fails(KeyAttach) || env.fails(RefreshSigning)
      || env.fails(TokenInsert) || env.fails(TokenAttach) || env.fails(AccessSigning))
  }

  // Tokens are generated exactly when nothing fails, the two new ids are free and the user exists.
  lemma GenerateTokensDecides(db: Database, env: Env, userId: Uuid, username: string)
    requires FourWay(db)
    ensures GenerateTokens(db, env, userId, username).Ok?
            <==> && GenerationRuns(env) && env.keyId !in db.privateKeys && env.tokenId !in db.refreshTokens
                 && userId in db.users
  {
    hide UniqueUsernames, OneTokenAKey, EveryKeyHasToken, TokenUserIsKeyUser, AccessPayload, RefreshPayload;
    assert env.keyId !in db.privateKeys ==>
             forall t :: t in db.refreshTokens ==> db.refreshTokens[t].privateKeyId != env.keyId;
  }

  // Register commits exactly when nothing fails, the name fits and is not taken, and the three new ids are free; it has
  // then added the user with one session.
  lemma RegisterDecides(db: Database, env: Env, username: string, password: string)
    requires FourWay(db)
    ensures var r := RegisterTx(db, env, username, password);
            && (r.Ok? <==> && GenerationRuns(env)
                           && !env.fails(Hashing) && !env.fails(Begin) && !env.fails(UserInsert) && !env.fails(Commit)
                           && |username| <= 30 && (forall u :: u in db.users ==> db.users[u].username != username)
                           && env.userId !in db.users && env.keyId !in db.privateKeys
                           && env.tokenId !in db.refreshTokens)
            && (r.Ok? ==>
                  r.value.0 == WithSession(db.(users := db.users[env.userId := User(username, Bcrypt(password))]),
                                           env, env.userId, username))
  {
    hide FourWay, GenerateTokens, WithSession, GenerationRuns;
    var inserted := InsertUser(db, env.userId, username, Bcrypt(password));
    InsertUserKeeps(db, env.userId, username, Bcrypt(password));
    if inserted.Ok? {
      GenerateTokensDecides(inserted.value, env, env.userId, username);
      GenerateTokensAdds(inserted.value, env, env.userId, username);
    }
  }

  // Login commits exactly when the row it reads has this name and password, its user still exists, nothing fails and
  // the two new ids are free; it has then added one session of that user.
  lemma LoginDecides(read: Database, db: Database, env: Env, username: string, password: string)
    requires UniqueUsernames(read) && FourWay(db)
    ensures var r := LoginTx(read, db, env, username, password);
            && (r.Ok? <==> && GenerationRuns(env) && !env.fails(Begin) && !env.fails(Commit)
                           && (exists u ::
                                 && u in read.users && read.users[u] == User(username, Bcrypt(password))
                                 && u in db.users)
                           && env.keyId !in db.privateKeys && env.tokenId !in db.refreshTokens)
            && (r.Ok? ==> exists u :: && u in read.users && read.users[u] == User(username, Bcrypt(password))
                                      && r.value.0 == WithSession(db, env, u, username))
  {
    hide FourWay, GenerateTokens, WithSession, GenerationRuns;
    var user := FindUserByUsername(read, username);
    if user.Some? {
      GenerateTokensDecides(db, env, user.value, username);
      GenerateTokensAdds(db, env, user.value, username);
      assert forall u :: u in read.users && read.users[u].username == username ==> u == user.value;
    }
  }

  // The token of a key replaced by a new one.
  ghost function WithNewToken(db: Database, kid: Uuid, id: Uuid, row: TokenRow, userId: Uuid): Database
    requires FourWay(db) && kid in db.privateKeys
  {
    var t := TokenOf(db, kid);
    db.(refreshTokens := (db.refreshTokens - {t})[id := row],
        userRefreshTokens := (db.userRefreshTokens - {t})[id := userId])
  }

  lemma SameUsers(db: Database, after: Database)
    requires UniqueUsernames(db) && after.users == db.users
    ensures UniqueUsernames(after)
  {
  }

  lemma NewTokenIsOnly(db: Database, kid: Uuid, id: Uuid, row: TokenRow)
    requires FourWay(db) && kid in db.privateKeys && row.privateKeyId == kid
    ensures OneTokenAKey(WithNewToken(db, kid, id, row, db.userPrivateKeys[kid]))
  {
    hide EveryKeyHasToken, TokenUserIsKeyUser, UniqueUsernames;
  }

  lemma WithNewTokenConstraints(db: Database, kid: Uuid, id: Uuid, row: TokenRow)
    requires FourWay(db) && kid in db.privateKeys && row.privateKeyId == kid
    requires id !in db.refreshTokens || id == TokenOf(db, kid)
    ensures Constraints(WithNewToken(db, kid, id, row, db.userPrivateKeys[kid]))
  {
    hide EveryKeyHasToken, TokenUserIsKeyUser, UniqueUsernames, OneTokenAKey;
    var after := WithNewToken(db, kid, id, row, db.userPrivateKeys[kid]);
    SameUsers(db, after);
    NewTokenIsOnly(db, kid, id, row);
  }

  lemma WithNewTokenKeeps(db: Database, kid: Uuid, id: Uuid, row: TokenRow)
    requires FourWay(db) && kid in db.privateKeys && row.privateKeyId == kid
    requires id !in db.refreshTokens || id == TokenOf(db, kid)
    ensures FourWay(WithNewToken(db, kid, id, row, db.userPrivateKeys[kid]))
  {
    hide UniqueUsernames;
    var after := WithNewToken(db, kid, id, row, db.userPrivateKeys[kid]);
    WithNewTokenConstraints(db, kid, id, row);
    assert TokenUserIsKeyUser(after);
    forall k | k in after.privateKeys
      ensures exists t :: t in after.refreshTokens && after.refreshTokens[t].privateKeyId == k
    {
      var t := if k == kid then id else TokenOf(db, k);
      assert t in after.refreshTokens && after.refreshTokens[t].privateKeyId == k;
    }
  }

  // The four rows of a key removed.
  ghost function WithoutSession(db: Database, kid: Uuid): Database
    requires FourWay(db) && kid in db.privateKeys
  {
    var t := TokenOf(db, kid);
    db.(privateKeys := db.privateKeys - {kid}, userPrivateKeys := db.userPrivateKeys - {kid},
        refreshTokens := db.refreshTokens - {t}, userRefreshTokens := db.userRefreshTokens - {t})
  }

  lemma WithoutSessionKeeps(db: Database, kid: Uuid)
    requires FourWay(db) && kid in db.privateKeys
    ensures FourWay(WithoutSession(db, kid))
  {
    var after := WithoutSession(db, kid);
    assert Constraints(after);
    assert TokenUserIsKeyUser(after);
    forall k | k in after.privateKeys
      ensures exists t :: t in after.refreshTokens && after.refreshTokens[t].privateKeyId == k
    {
      var t := TokenOf(db, k);
      assert t in after.refreshTokens && after.refreshTokens[t].privateKeyId == k;
    }
  }

  // What the delete by private key finds.
  lemma TokensOfKey(db: Database, kid: Uuid, visible: set<Uuid>)
    requires FourWay(db)
    ensures TokensOf(db, kid, visible)
            == if kid in db.privateKeys && TokenOf(db, kid) in visible then {TokenOf(db, kid)} else {}
  {
  }

  // Sign-out commits exactly when nothing fails and, for an existing key, its token row is seen by the delete: if it is
  // not, the non-cascading foreign key forbids deleting the key. Committed, it has removed exactly the key's four rows.
  lemma SignOutDecides(db: Database, env: Env, raw: RawToken, visible: set<Uuid>)
    requires FourWay(db)
    ensures var r := SignOutTx(db, env, raw, visible);
            var kid := GetUserKID(raw);
            && (r.Ok? <==> && kid.Ok? && !env.fails(Begin) && !env.fails(TokenDelete)
                           && !env.fails(KeyDelete) && !env.fails(Commit)
                           && (kid.value in db.privateKeys ==> TokenOf(db, kid.value) in visible))
            && (r.Ok? ==> r.value == if kid.value in db.privateKeys then WithoutSession(db, kid.value) else db)
  {
    hide FourWay, DeleteRefreshTokenByPrivateKey, DeletePrivateKey, WithoutSession;
    if GetUserKID(raw).Ok? {
      DeletesOfSignOut(db, GetUserKID(raw).value, visible);
    }
  }

  // The two deletes of a sign-out, in their order.
  lemma DeletesOfSignOut(db: Database, kid: Uuid, visible: set<Uuid>)
    requires FourWay(db)
    ensures DeletePrivateKey(DeleteRefreshTokenByPrivateKey(db, kid, visible), kid)
            == if kid !in db.privateKeys then Ok(db)
               else if TokenOf(db, kid) in visible then Ok(WithoutSession(db, kid))
               else Err(ForeignKeyViolation)
  {
    hide UniqueUsernames, TokenUserIsKeyUser;
    TokensOfKey(db, kid, visible);
    if kid !in db.privateKeys {
      assert db.refreshTokens - {} == db.refreshTokens && db.userRefreshTokens - {} == db.userRefreshTokens;
      assert db.privateKeys - {kid} == db.privateKeys && db.userPrivateKeys - {kid} == db.userPrivateKeys;
    } else if TokenOf(db, kid) !in visible {
      assert TokenOf(db, kid) in DeleteRefreshTokenByPrivateKey(db, kid, visible).refreshTokens;
    }
  }

  // The statements in the other order never commit for an existing key.
  lemma KeyCannotGoFirst(db: Database, kid: Uuid)
    requires FourWay(db) && kid in db.privateKeys
    ensures DeletePrivateKey(db, kid) == Err(ForeignKeyViolation)
  {
    assert TokenOf(db, kid) in db.refreshTokens;
  }

  // Exchange commits exactly when its reads find the session, the token validates, nothing fails, and the database at
  // commit still holds the key (foreign key), the delete saw its token row (UNIQUE private_key_id), the owner exists
  // and the new token id is free. Committed, it has replaced the key's token row and nothing else.
  ghost predicate ExchangeReads(seen: Reads, env: Env, raw: RawToken) {
    && ValidateToken(seen.validated, raw, env.now).Ok?
    && raw.kid.value in seen.keyOwner.userPrivateKeys
    && seen.keyOwner.userPrivateKeys[raw.kid.value] in seen.user.users
    && raw.kid.value in seen.key.privateKeys
  }

  ghost predicate ExchangeRuns(env: Env) {
    !(env.fails(Begin) || env.fails(AccessSigning) || env.fails(TokenDelete) || env.fails(RefreshSigning)
      || env.fails(TokenInsert) || env.fails(TokenAttach) || env.fails(Commit))
  }

  ghost function ExchangedRow(seen: Reads, env: Env, raw: RawToken): TokenRow
    requires ExchangeReads(seen, env, raw)
  {
    var kid := raw.kid.value;
    var userId := seen.keyOwner.userPrivateKeys[kid];
    TokenRow(kid, Sign(seen.key.privateKeys[kid], kid,
                       RefreshPayload(userId, seen.user.users[userId].username, env.yearLater)),
             env.yearLater)
  }

  lemma ExchangeDecides(seen: Reads, db: Database, env: Env, raw: RawToken, visible: set<Uuid>)
    requires FourWay(db)
    ensures var r := ExchangeTx(seen, db, env, raw, visible);
            && (r.Ok? <==> && ExchangeReads(seen, env, raw) && ExchangeRuns(env)
                           && raw.kid.value in db.privateKeys
                           && TokenOf(db, raw.kid.value) in visible
                           && seen.keyOwner.userPrivateKeys[raw.kid.value] in db.users
                           && (env.tokenId in db.refreshTokens ==> env.tokenId == TokenOf(db, raw.kid.value)))
            && (r.Ok? ==> r.value.0 == WithNewToken(db, raw.kid.value, env.tokenId, ExchangedRow(seen, env, raw),
                                                    seen.keyOwner.userPrivateKeys[raw.kid.value]))
  {
    hide FourWay, DeleteRefreshTokenByPrivateKey, InsertRefreshToken, AttachRefreshToken, WithNewToken, RefreshPayload,
         AccessPayload;
    if ExchangeReads(seen, env, raw) {
      var kid := raw.kid.value;
      var userId := seen.keyOwner.userPrivateKeys[kid];
      ExchangeTail(db, env, ExchangedRow(seen, env, raw), userId, visible);
    }
  }

  // The statements of exchange: delete, insert, attach.
  lemma ExchangeTail(db: Database, env: Env, row: TokenRow, userId: Uuid, visible: set<Uuid>)
    requires FourWay(db)
    ensures var kid := row.privateKeyId;
            var db1 := DeleteRefreshTokenByPrivateKey(db, kid, visible);
            var inserted := InsertRefreshToken(db1, env.tokenId, kid, row.plaintext, row.expiresAt);
            && (inserted.Ok? && AttachRefreshToken(inserted.value, userId, env.tokenId).Ok?
                <==> && kid in db.privateKeys && TokenOf(db, kid) in visible && userId in db.users
                     && (env.tokenId in db.refreshTokens ==> env.tokenId == TokenOf(db, kid)))
            && (inserted.Ok? && AttachRefreshToken(inserted.value, userId, env.tokenId).Ok? ==>
                  AttachRefreshToken(inserted.value, userId, env.tokenId).value
                      == WithNewToken(db, kid, env.tokenId, row, userId))
  {
    var kid := row.privateKeyId;
    TokensOfKey(db, kid, visible);
    if kid in db.privateKeys {
      var t := TokenOf(db, kid);
      var db1 := DeleteRefreshTokenByPrivateKey(db, kid, visible);
      if t !in visible {
        assert t in db1.refreshTokens && db1.refreshTokens[t].privateKeyId == kid;
      }
    }
  }

  // ---------- Runs ----------

  // All committed databases, oldest first; every key id the generator has produced; every token handed to a client.
  datatype World = World(history: seq<Database>, usedKeys: set<Uuid>, issued: set<RawToken>)

  // An operation names by index the committed databases that its reads outside the transaction see.
  datatype Operation =
    | Register(env: Env, username: string, password: string)
    | Login(env: Env, read: nat, username: string, password: string)
    | Exchange(env: Env, validated: nat, keyOwner: nat, user: nat, key: nat, raw: RawToken, visible: set<Uuid>)
    | SignOut(env: Env, raw: RawToken, visible: set<Uuid>)

  predicate Started(w: World) {
    w.history != []
  }

  function Current(w: World): Database
    requires Started(w)
  {
    w.history[|w.history| - 1]
  }

  // The committed database of an index; indices past the end mean the current one.
  function ReadAt(w: World, i: nat): Database
    requires Started(w)
  {
    if i < |w.history| then w.history[i] else Current(w)
  }

  function SeenBy(w: World, op: Operation): Reads
    requires Started(w) && op.Exchange?
  {
    Reads(ReadAt(w, op.validated), ReadAt(w, op.keyOwner), ReadAt(w, op.user), ReadAt(w, op.key))
  }

  function CommitTokens(w: World, newKeys: set<Uuid>, r: Result<(Database, Tokens), ServiceError>): World {
    if r.Err? then w.(usedKeys := w.usedKeys + newKeys)
    else World(w.history + [r.value.0], w.usedKeys + newKeys, w.issued + {r.value.1.access, r.value.1.refresh})
  }

  function CommitSignOut(w: World, r: Result<Database, ServiceError>): World {
    if r.Err? then w else w.(history := w.history + [r.value])
  }

  function Perform(w: World, op: Operation): (next: World)
    requires Started(w)
    requires op.Login? ==> UniqueUsernames(ReadAt(w, op.read))
    ensures Started(next)
  {
    match op
    case Register(env, username, password) =>
      CommitTokens(w, {env.keyId}, RegisterTx(Current(w), env, username, password))
    case Login(env, read, username, password) =>
      CommitTokens(w, {env.keyId}, LoginTx(ReadAt(w, read), Current(w), env, username, password))
    case Exchange(env, _, _, _, _, raw, visible) =>
      CommitTokens(w, {}, ExchangeTx(SeenBy(w, op), Current(w), env, raw, visible))
    case SignOut(env, raw, visible) => CommitSignOut(w, SignOutTx(Current(w), env, raw, visible))
  }

  // The generator never produces a key id twice.
  ghost predicate FreshKey(w: World, op: Operation) {
    op.Register? || op.Login? ==> op.env.keyId !in w.usedKeys
  }

  // Users stay, and what is still there of a key has not changed since.
  ghost predicate Older(d: Database, e: Database) {
    && (forall u :: u in d.users ==> u in e.users && e.users[u] == d.users[u])
    && (forall k :: k in d.privateKeys && k in e.privateKeys ==> d.privateKeys[k] == e.privateKeys[k])
    && (forall k :: k in d.userPrivateKeys && k in e.userPrivateKeys ==> d.userPrivateKeys[k] == e.userPrivateKeys[k])
  }

  // A token bears its key's signature, its key's user by id and name, and the two standing claims, as long as the key
  // is there.
  ghost predicate Genuine(db: Database, token: RawToken)
    requires db.userPrivateKeys.Keys == db.privateKeys.Keys
  {
    && token.Jws? && token.kid.Some?
    && (token.kid.value in db.privateKeys ==>
          && token.signedWith == db.privateKeys[token.kid.value]
          && token.payload.userId == db.userPrivateKeys[token.kid.value]
          && token.payload.userId in db.users
          && token.payload.subject == db.users[token.payload.userId].username
          && token.payload.audience == ["user", "broadcaster"])
  }

  ghost predicate IssuedInv(w: World)
    requires Started(w) && FourWay(Current(w))
  {
    forall token :: token in w.issued ==> Genuine(Current(w), token) && token.kid.value in w.usedKeys
  }

  ghost predicate HistoryInv(w: World)
    requires Started(w)
  {
    forall d :: d in w.history ==> FourWay(d) && d.privateKeys.Keys <= w.usedKeys && Older(d, Current(w))
  }

  ghost predicate Inv(w: World) {
    Started(w) && HistoryInv(w) && FourWay(Current(w)) && IssuedInv(w)
  }

  lemma ReadIsInHistory(w: World, i: nat)
    requires Started(w)
    ensures ReadAt(w, i) in w.history && Current(w) in w.history
  {
  }

  // A commit that keeps users, adds at most fresh keys and changes nothing of the others keeps the run's invariant.
  ghost predicate Extends(w: World, next: Database, newKeys: set<Uuid>)
    requires Started(w)
  {
    && FourWay(next) && Older(Current(w), next) && newKeys !! w.usedKeys
    && next.privateKeys.Keys <= Current(w).privateKeys.Keys + newKeys
  }

  lemma CommitKeepsHistory(w: World, next: Database, newKeys: set<Uuid>, issued: set<RawToken>)
    requires Inv(w) && Extends(w, next, newKeys)
    ensures HistoryInv(World(w.history + [next], w.usedKeys + newKeys, issued))
  {
    hide TokenUserIsKeyUser, EveryKeyHasToken, Constraints, IssuedInv;
    var v := World(w.history + [next], w.usedKeys + newKeys, issued);
    ReadIsInHistory(w, 0);
    forall d | d in v.history
      ensures FourWay(d) && d.privateKeys.Keys <= v.usedKeys && Older(d, next)
    {
      if d in w.history {
        OlderThrough(d, Current(w), next, w.usedKeys, newKeys);
      } else {
        assert d == next;
      }
    }
  }

  lemma OlderThrough(d: Database, e: Database, f: Database, used: set<Uuid>, newKeys: set<Uuid>)
    requires FourWay(d) && FourWay(e) && FourWay(f) && Older(d, e) && Older(e, f)
    requires d.privateKeys.Keys <= used && newKeys !! used && f.privateKeys.Keys <= e.privateKeys.Keys + newKeys
    ensures Older(d, f)
  {
    hide TokenUserIsKeyUser, EveryKeyHasToken, Constraints;
    assert forall k :: k in d.privateKeys && k in f.privateKeys ==> k in e.privateKeys;
  }

  lemma CommitKeepsIssued(w: World, next: Database, newKeys: set<Uuid>, fresh_: set<RawToken>)
    requires Inv(w) && Extends(w, next, newKeys)
    requires forall token :: token in fresh_ ==> Genuine(next, token) && token.kid.value in w.usedKeys + newKeys
    ensures var v := World(w.history + [next], w.usedKeys + newKeys, w.issued + fresh_);
            Inv(v) && Current(v) == next
  {
    hide TokenUserIsKeyUser, EveryKeyHasToken, Constraints, HistoryInv;
    CommitKeepsHistory(w, next, newKeys, w.issued + fresh_);
    forall token | token in w.issued
      ensures Genuine(next, token)
    {
      assert Genuine(Current(w), token);
    }
  }

  // ---------- Each operation keeps the invariant ----------

  lemma SessionTokensGenuine(db: Database, env: Env, userId: Uuid, username: string)
    requires FourWay(db) && FourWay(WithSession(db, env, userId, username))
    requires userId in db.users && db.users[userId].username == username
    ensures Genuine(WithSession(db, env, userId, username),
                    Sign(env.secret, env.keyId, AccessPayload(userId, username, env.now)))
    ensures Genuine(WithSession(db, env, userId, username),
                    Sign(env.secret, env.keyId, RefreshPayload(userId, username, env.yearLater)))
  {
  }

  lemma SessionKeeps(w: World, db: Database, env: Env, userId: Uuid, username: string)
    requires Inv(w) && FourWay(db) && Older(Current(w), db) && db.privateKeys == Current(w).privateKeys
    requires GenerateTokens(db, env, userId, username).Ok? && env.keyId !in w.usedKeys
    requires userId in db.users ==> db.users[userId].username == username
    ensures Inv(CommitTokens(w, {env.keyId}, GenerateTokens(db, env, userId, username)))
    ensures CommitTokens(w, {env.keyId}, GenerateTokens(db, env, userId, username)).history
            == w.history + [WithSession(db, env, userId, username)]
  {
    hide Inv, FourWay, GenerateTokens, AccessPayload, RefreshPayload;
    var next := WithSession(db, env, userId, username);
    var access := Sign(env.secret, env.keyId, AccessPayload(userId, username, env.now));
    var refresh := Sign(env.secret, env.keyId, RefreshPayload(userId, username, env.yearLater));
    GenerateTokensAdds(db, env, userId, username);
    WithSessionKeeps(db, env, userId, username);
    SessionTokensGenuine(db, env, userId, username);
    SessionExtends(w, db, env, userId, username);
    CommitKeepsIssued(w, next, {env.keyId}, {access, refresh});
  }

  lemma SessionExtends(w: World, db: Database, env: Env, userId: Uuid, username: string)
    requires Inv(w) && Older(Current(w), db) && db.privateKeys == Current(w).privateKeys && FourWay(db)
    requires env.keyId !in w.usedKeys && env.keyId !in db.privateKeys && FourWay(WithSession(db, env, userId, username))
    ensures Extends(w, WithSession(db, env, userId, username), {env.keyId})
  {
    hide TokenUserIsKeyUser, EveryKeyHasToken, Constraints, HistoryInv, IssuedInv;
  }

  lemma FailureKeeps(w: World, newKeys: set<Uuid>)
    requires Inv(w)
    ensures Inv(w.(usedKeys := w.usedKeys + newKeys))
  {
    hide FourWay, Older;
    var v := w.(usedKeys := w.usedKeys + newKeys);
    assert Current(v) == Current(w);
  }

  lemma RegisterKeeps(w: World, env: Env, username: string, password: string)
    requires Inv(w) && env.keyId !in w.usedKeys
    ensures Inv(CommitTokens(w, {env.keyId}, RegisterTx(Current(w), env, username, password)))
  {
    hide Inv, FourWay, GenerateTokens;
    CurrentIsFourWay(w);
    var db := Current(w);
    var r := RegisterTx(db, env, username, password);
    InsertUserKeeps(db, env.userId, username, Bcrypt(password));
    if r.Ok? {
      var db1 := InsertUser(db, env.userId, username, Bcrypt(password)).value;
      SessionKeeps(w, db1, env, env.userId, username);
    } else {
      FailureKeeps(w, {env.keyId});
    }
  }

  lemma CurrentIsFourWay(w: World)
    requires Inv(w)
    ensures Started(w) && FourWay(Current(w)) && Older(Current(w), Current(w))
  {
  }

  lemma LoginKeeps(w: World, read: Database, env: Env, username: string, password: string)
    requires Inv(w) && env.keyId !in w.usedKeys && UniqueUsernames(read) && Older(read, Current(w))
    ensures Inv(CommitTokens(w, {env.keyId}, LoginTx(read, Current(w), env, username, password)))
  {
    hide Inv, FourWay, GenerateTokens;
    CurrentIsFourWay(w);
    assert Started(w);
    var r := LoginTx(read, Current(w), env, username, password);
    if r.Ok? {
      SessionKeeps(w, Current(w), env, FindUserByUsername(read, username).value, username);
    } else {
      FailureKeeps(w, {env.keyId});
    }
  }

  // What earlier databases say of a key that is still there is still so.
  lemma ReadsAreCurrent(w: World, op: Operation)
    requires Inv(w) && op.Exchange? && ExchangeReads(SeenBy(w, op), op.env, op.raw)
    requires op.raw.kid.value in Current(w).privateKeys
    ensures var seen, db, kid := SeenBy(w, op), Current(w), op.raw.kid.value;
            && kid in db.userPrivateKeys
            && seen.keyOwner.userPrivateKeys[kid] == db.userPrivateKeys[kid]
            && seen.key.privateKeys[kid] == db.privateKeys[kid]
            && db.userPrivateKeys[kid] in db.users
               && db.users[db.userPrivateKeys[kid]] == seen.user.users[db.userPrivateKeys[kid]]
  {
    hide TokenUserIsKeyUser, EveryKeyHasToken, IssuedInv, UniqueUsernames, OneTokenAKey, ValidateToken;
    ReadIsInHistory(w, op.keyOwner);
    ReadIsInHistory(w, op.user);
    ReadIsInHistory(w, op.key);
    assert Older(ReadAt(w, op.keyOwner), Current(w)) && Older(ReadAt(w, op.user), Current(w))
           && Older(ReadAt(w, op.key), Current(w));
  }

  // Stale reads are harmless. Whatever committed databases the reads of an exchange see, either the operation fails and
  // the database is as it was, or the key is still there and exactly its token row has been replaced, by the current
  // owner's token, signed with the key's current material.
  lemma StaleReadsAreHarmless(w: World, op: Operation)
    requires Inv(w) && op.Exchange?
    ensures var r := ExchangeTx(SeenBy(w, op), Current(w), op.env, op.raw, op.visible);
            if r.Err? then Perform(w, op).history == w.history && Perform(w, op).issued == w.issued
            else
              && op.raw.Jws? && op.raw.kid.Some?
              && var db, kid := Current(w), op.raw.kid.value;
              && kid in db.privateKeys && kid in db.userPrivateKeys && db.userPrivateKeys[kid] in db.users
              && (var owner := db.userPrivateKeys[kid];
                  var row := TokenRow(kid, Sign(db.privateKeys[kid], kid,
                                                RefreshPayload(owner, db.users[owner].username, op.env.yearLater)),
                                                    op.env.yearLater);
                  && r.value.0 == WithNewToken(db, kid, op.env.tokenId, row, owner)
                  && FourWay(r.value.0)
                  && r.value.1 == Tokens(Sign(db.privateKeys[kid], kid,
                                              AccessPayload(owner, db.users[owner].username, op.env.now)),
                                         row.plaintext))
  {
    hide FourWay, HistoryInv, IssuedInv, ExchangeReads, WithNewToken, RefreshPayload, AccessPayload, ValidateToken,
         DeleteRefreshTokenByPrivateKey, InsertRefreshToken, AttachRefreshToken;
    var seen, db := SeenBy(w, op), Current(w);
    var r := ExchangeTx(seen, db, op.env, op.raw, op.visible);
    ExchangeDecides(seen, db, op.env, op.raw, op.visible);
    if r.Ok? {
      ReadsAreCurrent(w, op);
      ExchangeIssues(seen, db, op.env, op.raw, op.visible);
      WithNewTokenKeeps(db, op.raw.kid.value, op.env.tokenId, ExchangedRow(seen, op.env, op.raw));
    }
  }

  lemma ExchangeIssues(seen: Reads, db: Database, env: Env, raw: RawToken, visible: set<Uuid>)
    requires ExchangeTx(seen, db, env, raw, visible).Ok?
    ensures ExchangeReads(seen, env, raw)
    ensures var kid := raw.kid.value;
            var userId := seen.keyOwner.userPrivateKeys[kid];
            ExchangeTx(seen, db, env, raw, visible).value.1
            == Tokens(Sign(seen.key.privateKeys[kid], kid,
                           AccessPayload(userId, seen.user.users[userId].username, env.now)),
                      ExchangedRow(seen, env, raw).plaintext)
  {
    hide DeleteRefreshTokenByPrivateKey, InsertRefreshToken, AttachRefreshToken, RefreshPayload, AccessPayload;
  }

  lemma ExchangeKeeps(w: World, op: Operation)
    requires Inv(w) && op.Exchange?
    ensures Inv(Perform(w, op))
  {
    hide FourWay, HistoryInv, ExchangeTx, RefreshPayload, AccessPayload;
    var r := ExchangeTx(SeenBy(w, op), Current(w), op.env, op.raw, op.visible);
    StaleReadsAreHarmless(w, op);
    if r.Ok? {
      var db, kid := Current(w), op.raw.kid.value;
      var owner := db.userPrivateKeys[kid];
      ReplacedTokenGenuine(w, r.value.0, kid, owner, db.users[owner].username, op.env, r.value.1);
      CommitKeepsIssued(w, r.value.0, {}, {r.value.1.access, r.value.1.refresh});
      assert w.usedKeys + {} == w.usedKeys;
    } else {
      assert Perform(w, op) == w;
    }
  }

  lemma ReplacedTokenGenuine(w: World, next: Database, kid: Uuid, owner: Uuid, username: string, env: Env,
                             tokens: Tokens)
    requires Inv(w) && kid in Current(w).privateKeys && owner == Current(w).userPrivateKeys[kid]
    requires FourWay(next) && owner in Current(w).users && username == Current(w).users[owner].username
    requires exists row :: next == WithNewToken(Current(w), kid, env.tokenId, row, owner)
    requires tokens == Tokens(Sign(Current(w).privateKeys[kid], kid, AccessPayload(owner, username, env.now)),
                              Sign(Current(w).privateKeys[kid], kid, RefreshPayload(owner, username, env.yearLater)))
    ensures Extends(w, next, {}) && kid in w.usedKeys
    ensures Genuine(next, tokens.access) && Genuine(next, tokens.refresh)
  {
    hide EveryKeyHasToken, TokenUserIsKeyUser, Constraints, IssuedInv;
    ReadIsInHistory(w, 0);
  }

  lemma SignOutKeeps(w: World, op: Operation)
    requires Inv(w) && op.SignOut?
    ensures Inv(Perform(w, op))
  {
    hide FourWay, HistoryInv, SignOutTx;
    var r := SignOutTx(Current(w), op.env, op.raw, op.visible);
    SignOutDecides(Current(w), op.env, op.raw, op.visible);
    if r.Ok? {
      var kid := GetUserKID(op.raw).value;
      if kid in Current(w).privateKeys {
        WithoutSessionKeeps(Current(w), kid);
      }
      RemovalExtends(w, r.value, kid);
      CommitKeepsIssued(w, r.value, {}, {});
      assert w.usedKeys + {} == w.usedKeys && w.issued + {} == w.issued;
    }
  }

  lemma RemovalExtends(w: World, next: Database, kid: Uuid)
    requires Inv(w) && FourWay(next)
    requires next == if kid in Current(w).privateKeys then WithoutSession(Current(w), kid) else Current(w)
    ensures Extends(w, next, {})
  {
    hide EveryKeyHasToken, TokenUserIsKeyUser, Constraints, IssuedInv, HistoryInv;
  }

  // A step the run may take: the generated key id is new, and the user row that a login reads is determined (which the
  // invariant gives for every reachable database).
  ghost predicate Allowed(w: World, op: Operation)
    requires Started(w)
  {
    FreshKey(w, op) && (op.Login? ==> UniqueUsernames(ReadAt(w, op.read)))
  }

  lemma ReachableLoginsAreAllowed(w: World, op: Operation)
    requires Inv(w) && FreshKey(w, op)
    ensures Allowed(w, op)
  {
    if op.Login? {
      ReadIsInHistory(w, op.read);
      assert FourWay(ReadAt(w, op.read));
    }
  }

  lemma ReadsAreOlder(w: World, read: nat)
    requires Inv(w)
    ensures Older(ReadAt(w, read), Current(w))
  {
    hide FourWay, IssuedInv;
    ReadIsInHistory(w, read);
  }

  lemma PerformKeeps(w: World, op: Operation)
    requires Inv(w) && Allowed(w, op)
    ensures Inv(Perform(w, op))
  {
    hide FourWay, HistoryInv, IssuedInv, RegisterTx, LoginTx;
    match op
    case Register(env, username, password) => RegisterKeeps(w, env, username, password);
    case Login(env, read, username, password) =>
      ReadsAreOlder(w, read);
      LoginKeeps(w, ReadAt(w, read), env, username, password);
    case Exchange(_, _, _, _, _, _, _) => ExchangeKeeps(w, op);
    case SignOut(_, _, _) => SignOutKeeps(w, op);
  }

  ghost predicate Runs(w: World, ops: seq<Operation>, last: World)
    requires Started(w)
    decreases |ops|
  {
    if ops == [] then w == last
    else Allowed(w, ops[0]) && Runs(Perform(w, ops[0]), ops[1..], last)
  }

  lemma {:induction false} RunsKeep(w: World, ops: seq<Operation>, last: World)
    requires Inv(w) && Runs(w, ops, last)
    ensures Inv(last)
    decreases |ops|
  {
    assert Started(w);
    hide Inv, Perform, Allowed;
    if ops != [] {
      PerformKeeps(w, ops[0]);
      RunsKeep(Perform(w, ops[0]), ops[1..], last);
    }
  }

  // A run in which only the key ids are asked to be new.
  ghost predicate FreshRuns(w: World, ops: seq<Operation>, last: World)
    requires Inv(w)
    decreases |ops|
  {
    if ops == [] then w == last
    else
      && FreshKey(w, ops[0])
      && (ReachableLoginsAreAllowed(w, ops[0]);
          PerformKeeps(w, ops[0]);
          FreshRuns(Perform(w, ops[0]), ops[1..], last))
  }

  // It is enough to ask that: every such run is one.
  lemma {:induction false} FreshRunsAreRuns(w: World, ops: seq<Operation>, last: World)
    requires Inv(w) && FreshRuns(w, ops, last)
    ensures Runs(w, ops, last) && Inv(last)
    decreases |ops|
  {
    assert Started(w);
    hide Inv, Perform, Allowed, FreshKey;
    if ops != [] {
      ReachableLoginsAreAllowed(w, ops[0]);
      PerformKeeps(w, ops[0]);
      FreshRunsAreRuns(Perform(w, ops[0]), ops[1..], last);
    }
  }

  // ---------- Every run ----------

  // The database as the migrations leave it: users with unique names, and no session.
  ghost function Initial(users: map<Uuid, User>): World {
    World([Database(users, map[], map[], map[], map[])], {}, {})
  }

  // Every reachable database keeps the four-way correspondence, and its four tables have equally many rows.
  lemma EveryDatabaseIsFourWay(users: map<Uuid, User>, ops: seq<Operation>, last: World)
    requires UniqueUsernames(Database(users, map[], map[], map[], map[]))
    requires Runs(Initial(users), ops, last)
    ensures Inv(last)
    ensures forall d :: d in last.history ==>
              FourWay(d) && |d.privateKeys| == |d.userPrivateKeys| == |d.refreshTokens| == |d.userRefreshTokens|
  {
    InitialInv(users);
    RunsKeep(Initial(users), ops, last);
    forall d | d in last.history
      ensures FourWay(d) && |d.privateKeys| == |d.userPrivateKeys| == |d.refreshTokens| == |d.userRefreshTokens|
    {
      FourWayCounts(d);
    }
  }

  lemma InitialInv(users: map<Uuid, User>)
    requires UniqueUsernames(Database(users, map[], map[], map[], map[]))
    ensures Inv(Initial(users))
  {
    var w := Initial(users);
    assert w.history[0] == Current(w);
  }

  // ---------- Sign-out ----------

  // A committed sign-out of an existing key removes exactly one row of each of the four tables: the key, its owner row,
  // its token and that token's user row. Every other row stays.
  lemma SignOutRemovesOneSession(db: Database, env: Env, raw: RawToken, visible: set<Uuid>)
    requires FourWay(db) && SignOutTx(db, env, raw, visible).Ok?
    requires GetUserKID(raw).value in db.privateKeys
    ensures var after, kid := SignOutTx(db, env, raw, visible).value, GetUserKID(raw).value;
            var t := TokenOf(db, kid);
            && after.users == db.users
            && after.privateKeys == db.privateKeys - {kid} && |after.privateKeys| == |db.privateKeys| - 1
            && after.userPrivateKeys == db.userPrivateKeys - {kid}
               && |after.userPrivateKeys| == |db.userPrivateKeys| - 1
            && after.refreshTokens == db.refreshTokens - {t} && |after.refreshTokens| == |db.refreshTokens| - 1
            && after.userRefreshTokens == db.userRefreshTokens - {t}
               && |after.userRefreshTokens| == |db.userRefreshTokens| - 1
  {
    hide SignOutTx;
    SignOutDecides(db, env, raw, visible);
    OneLess(db.privateKeys, GetUserKID(raw).value);
    OneLess(db.userPrivateKeys, GetUserKID(raw).value);
    OneLess(db.refreshTokens, TokenOf(db, GetUserKID(raw).value));
    OneLess(db.userRefreshTokens, TokenOf(db, GetUserKID(raw).value));
  }

  lemma OneLess<V>(m: map<Uuid, V>, k: Uuid)
    requires k in m
    ensures |m - {k}| == |m| - 1
  {
    assert (m - {k}).Keys == m.Keys - {k};
    assert |m - {k}| == |(m - {k}).Keys| && |m| == |m.Keys|;
  }

  // A step changes the keys only by adding its own fresh one or by removing the one it signs out.
  lemma KeysAfterStep(w: World, op: Operation)
    requires Inv(w) && Allowed(w, op)
    ensures var before, after := Current(w).privateKeys.Keys, Current(Perform(w, op)).privateKeys.Keys;
            match op
            case Register(env, _, _) => before <= after <= before + {env.keyId}
            case Login(env, _, _, _) => before <= after <= before + {env.keyId}
            case Exchange(_, _, _, _, _, _, _) => after == before
            case SignOut(_, raw, _) =>
              && after <= before
              && (forall k :: k in before && k !in after ==> GetUserKID(raw) == Ok(k))
  {
    hide FourWay, HistoryInv, IssuedInv, RegisterTx, LoginTx, ExchangeTx, SignOutTx;
    match op
    case Register(env, username, password) => RegisterAddsKey(Current(w), env, username, password);
    case Login(env, read, username, password) => LoginAddsKey(ReadAt(w, read), Current(w), env, username, password);
    case Exchange(_, _, _, _, _, _, _) => StaleReadsAreHarmless(w, op);
    case SignOut(env, raw, visible) => SignOutDecides(Current(w), env, raw, visible);
  }

  lemma RegisterAddsKey(db: Database, env: Env, username: string, password: string)
    ensures var r := RegisterTx(db, env, username, password);
            r.Ok? ==> r.value.0.privateKeys == db.privateKeys[env.keyId := env.secret]
  {
    hide GenerateTokens;
    var r := InsertUser(db, env.userId, username, Bcrypt(password));
    if r.Ok? {
      GenerateTokensAdds(r.value, env, env.userId, username);
    }
  }

  lemma LoginAddsKey(read: Database, db: Database, env: Env, username: string, password: string)
    requires UniqueUsernames(read)
    ensures var r := LoginTx(read, db, env, username, password);
            r.Ok? ==> r.value.0.privateKeys == db.privateKeys[env.keyId := env.secret]
  {
    hide GenerateTokens;
    var user := FindUserByUsername(read, username);
    if user.Some? {
      GenerateTokensAdds(db, env, user.value, username);
    }
  }

  lemma {:induction false} GoneStaysGone(w: World, ops: seq<Operation>, last: World, kid: Uuid)
    requires Inv(w) && Runs(w, ops, last)
    requires kid in w.usedKeys && kid !in Current(w).privateKeys
    ensures Started(last) && kid !in Current(last).privateKeys
    decreases |ops|
  {
    if ops != [] {
      PerformKeeps(w, ops[0]);
      KeysAfterStep(w, ops[0]);
      StepStays(w, ops[0], kid);
      GoneStaysGone(Perform(w, ops[0]), ops[1..], last, kid);
    }
  }

  lemma StepStays(w: World, op: Operation, kid: Uuid)
    requires Inv(w) && Allowed(w, op) && kid in w.usedKeys
    ensures kid in Perform(w, op).usedKeys
  {
  }

  // Sign-out is permanent: once it has committed for an existing key, no token with that kid validates in any later
  // reachable state, whoever signed it and at whatever time.
  lemma SignOutIsPermanent(w: World, op: Operation, ops: seq<Operation>, last: World, token: RawToken, now: int)
    requires Inv(w) && op.SignOut? && SignOutTx(Current(w), op.env, op.raw, op.visible).Ok?
    requires GetUserKID(op.raw).Ok? && GetUserKID(op.raw).value in Current(w).privateKeys
    requires Runs(Perform(w, op), ops, last)
    requires GetUserKID(token) == GetUserKID(op.raw)
    ensures Started(last) && ValidateToken(Current(last), token, now) == Err(NoPrivateKey)
  {
    hide FourWay, HistoryInv, IssuedInv, SignOutTx;
    var kid := GetUserKID(op.raw).value;
    SignOutKeeps(w, op);
    SignOutDecides(Current(w), op.env, op.raw, op.visible);
    KeysAreUsed(w, kid);
    GoneStaysGone(Perform(w, op), ops, last, kid);
  }

  lemma KeysAreUsed(w: World, kid: Uuid)
    requires Inv(w) && kid in Current(w).privateKeys
    ensures kid in w.usedKeys
  {
    ReadIsInHistory(w, 0);
  }

  // ---------- Issued tokens ----------

  ghost predicate SignsOut(op: Operation, kid: Uuid) {
    op.SignOut? && GetUserKID(op.raw) == Ok(kid)
  }

  lemma KeyStaysOneStep(w: World, op: Operation, kid: Uuid)
    requires Inv(w) && Allowed(w, op) && kid in Current(w).privateKeys && !SignsOut(op, kid)
    ensures Inv(Perform(w, op)) && kid in Current(Perform(w, op)).privateKeys && w.issued <= Perform(w, op).issued
  {
    hide FourWay, HistoryInv, IssuedInv, Perform;
    PerformKeeps(w, op);
    KeysAfterStep(w, op);
    IssuedStays(w, op);
  }

  // A key leaves only by a sign-out that names it, and no issued token is forgotten.
  lemma {:induction false} KeyStays(w: World, ops: seq<Operation>, last: World, kid: Uuid)
    requires Inv(w) && Runs(w, ops, last) && kid in Current(w).privateKeys
    requires forall i :: 0 <= i < |ops| ==> !SignsOut(ops[i], kid)
    ensures Inv(last) && kid in Current(last).privateKeys && w.issued <= last.issued
    decreases |ops|
  {
    hide FourWay, HistoryInv, IssuedInv, Perform, SignsOut;
    if ops != [] {
      KeyStaysOneStep(w, ops[0], kid);
      KeyStays(Perform(w, ops[0]), ops[1..], last, kid);
    }
  }

  lemma IssuedStays(w: World, op: Operation)
    requires Inv(w) && Allowed(w, op)
    ensures w.issued <= Perform(w, op).issued
  {
  }

  // Any token issued by register, login or exchange validates in every later state, any number of exchanges of the same
  // kid included, exactly until it expires, as long as no sign-out names its kid; and its payload names the user that
  // owns its kid, by id and name, and the two standing claims.
  lemma IssuedTokensValidate(w: World, token: RawToken, ops: seq<Operation>, last: World, now: int)
    requires Inv(w) && token in w.issued && Runs(w, ops, last)
    requires token.Jws? && token.kid.Some? && token.kid.value in Current(w).privateKeys
    requires forall i :: 0 <= i < |ops| ==> !SignsOut(ops[i], token.kid.value)
    ensures Inv(last) && token.kid.value in Current(last).userPrivateKeys
    ensures ValidateToken(Current(last), token, now)
            == if now < token.payload.expiresAt then Ok(token.payload) else Err(Expired)
    ensures token.payload.userId == Current(last).userPrivateKeys[token.kid.value]
    ensures token.payload.userId in Current(last).users
            && token.payload.subject == Current(last).users[token.payload.userId].username
    ensures token.payload.audience == ["user", "broadcaster"]
  {
    hide HistoryInv, Runs;
    KeyStays(w, ops, last, token.kid.value);
    assert Genuine(Current(last), token);
  }

  // The transaction of an operation that hands out tokens.
  function TokensTx(w: World, op: Operation): Result<(Database, Tokens), ServiceError>
    requires Started(w) && !op.SignOut? && (op.Login? ==> UniqueUsernames(ReadAt(w, op.read)))
  {
    match op
    case Register(env, username, password) => RegisterTx(Current(w), env, username, password)
    case Login(env, read, username, password) => LoginTx(ReadAt(w, read), Current(w), env, username, password)
    case Exchange(env, _, _, _, _, raw, visible) => ExchangeTx(SeenBy(w, op), Current(w), env, raw, visible)
  }

  // The two tokens of an operation that commits validate in the new database: the access token for sixty seconds, the
  // refresh token for a year.
  lemma FreshTokensValidate(w: World, op: Operation, now: int)
    requires Inv(w) && Allowed(w, op) && !op.SignOut? && TokensTx(w, op).Ok?
    ensures var next, tokens := Perform(w, op), TokensTx(w, op).value.1;
            && {tokens.access, tokens.refresh} <= next.issued
            && tokens.access.Jws? && tokens.refresh.Jws? && tokens.access.kid == tokens.refresh.kid
            && tokens.access.payload.tokenUse == AccessToken && tokens.refresh.payload.tokenUse == RefreshToken
            && ValidateToken(Current(next), tokens.access, now)
               == (if now < op.env.now + 60 then Ok(tokens.access.payload) else Err(Expired))
            && ValidateToken(Current(next), tokens.refresh, now)
               == if now < op.env.yearLater then Ok(tokens.refresh.payload) else Err(Expired)
  {
    hide FourWay, HistoryInv, RegisterTx, LoginTx, ExchangeTx, GenerateTokens;
    PerformKeeps(w, op);
    var next, tokens := Perform(w, op), TokensTx(w, op).value.1;
    KeysOfTokens(w, op);
    assert Runs(next, [], next);
    IssuedTokensValidate(next, tokens.access, [], next, now);
    IssuedTokensValidate(next, tokens.refresh, [], next, now);
  }

  lemma KeysOfTokens(w: World, op: Operation)
    requires Inv(w) && Allowed(w, op) && !op.SignOut? && TokensTx(w, op).Ok?
    ensures var db, tokens := TokensTx(w, op).value.0, TokensTx(w, op).value.1;
            && tokens.access.Jws? && tokens.refresh.Jws? && tokens.access.kid == tokens.refresh.kid
            && tokens.access.kid.Some? && tokens.access.kid.value in db.privateKeys
            && tokens.access.payload.expiresAt == op.env.now + 60
            && tokens.refresh.payload.expiresAt == op.env.yearLater
            && tokens.access.payload.tokenUse == AccessToken && tokens.refresh.payload.tokenUse == RefreshToken
  {
    hide FourWay, HistoryInv, IssuedInv, GenerateTokens, ExchangeTx;
    match op
    case Register(env, username, password) =>
      var inserted := InsertUser(Current(w), env.userId, username, Bcrypt(password));
      GenerateTokensAdds(inserted.value, env, env.userId, username);
    case Login(env, read, username, password) =>
      GenerateTokensAdds(Current(w), env, FindUserByUsername(ReadAt(w, read), username).value, username);
    case Exchange(_, _, _, _, _, _, _) => StaleReadsAreHarmless(w, op);
  }

  // An exchange commits only for a token with the signature of the kid's key: one that is signed with anything else
  // than that key's material in every database so far is refused, whatever the reads see.
  lemma ForgedTokenIsRefused(w: World, op: Operation)
    requires Inv(w) && op.Exchange? && op.raw.Jws? && op.raw.kid.Some?
    requires forall d :: d in w.history && op.raw.kid.value in d.privateKeys ==>
               d.privateKeys[op.raw.kid.value] != op.raw.signedWith
    ensures var r := ExchangeTx(SeenBy(w, op), Current(w), op.env, op.raw, op.visible);
            && (r == Err(Token(NotVerified)) || r == Err(Token(NoPrivateKey)))
            && Perform(w, op) == w
  {
    hide FourWay, HistoryInv, IssuedInv;
    ReadIsInHistory(w, op.validated);
    ValidationDecides(ReadAt(w, op.validated), op.raw, op.env.now);
    assert w.usedKeys + {} == w.usedKeys;
  }

  // A login answers that there is no such user exactly when no row has the name, and that the password differs exactly
  // when the row's is another; anything else that fails is an internal error.
  lemma LoginErrors(read: Database, db: Database, env: Env, username: string, password: string)
    requires UniqueUsernames(read)
    ensures var r := LoginTx(read, db, env, username, password);
            && (r == Err(UserNotFound) <==> forall u :: u in read.users ==> read.users[u].username != username)
            && (r == Err(DifferentPassword) <==>
                  exists u :: u in read.users && read.users[u].username == username
                              && read.users[u].password != Bcrypt(password))
  {
    hide GenerateTokens;
    var user := FindUserByUsername(read, username);
    if user.Some? {
      assert forall u :: u in read.users && read.users[u].username == username ==> u == user.value;
      GenerateErrors(db, env, user.value, username);
    }
  }

  // An exchange answers with the error of the validation exactly when that fails; otherwise that there is no user
  // exactly when the owner row or its user is not found, and that there is no key exactly when only the key is not.
  lemma ExchangeErrors(seen: Reads, db: Database, env: Env, raw: RawToken, visible: set<Uuid>)
    ensures var r, valid := ExchangeTx(seen, db, env, raw, visible), ValidateToken(seen.validated, raw, env.now);
            var begun := valid.Ok? && !env.fails(Begin);
            var found := && begun && raw.kid.value in seen.keyOwner.userPrivateKeys
                         && seen.keyOwner.userPrivateKeys[raw.kid.value] in seen.user.users;
            && (valid.Err? ==> r == Err(Token(valid.error)))
            && (r.Err? && r.error.Token? ==> valid.Err?)
            && (r == Err(UserNotFound) <==> begun && !found)
            && (r == Err(KeyNotFound) <==> found && raw.kid.value !in seen.key.privateKeys)
  {
    hide DeleteRefreshTokenByPrivateKey, InsertRefreshToken, AttachRefreshToken, RefreshPayload, AccessPayload, Sign;
  }

  lemma GenerateErrors(db: Database, env: Env, userId: Uuid, username: string)
    ensures var r := GenerateTokens(db, env, userId, username);
            r.Err? ==> r.error.Failed? || r.error.Sql?
  {
  }

  // ---------- Replaced tokens ----------

  // An exchange invalidates nothing: after it has committed, every token validates as before, at any time, the token it
  // was given included.
  lemma ExchangeInvalidatesNothing(w: World, op: Operation, token: RawToken, now: int)
    requires Inv(w) && op.Exchange?
    requires ExchangeTx(SeenBy(w, op), Current(w), op.env, op.raw, op.visible).Ok?
    ensures ValidateToken(Current(Perform(w, op)), token, now) == ValidateToken(Current(w), token, now)
    ensures ValidateToken(Current(Perform(w, op)), op.raw, op.env.now).Ok?
  {
    hide FourWay, HistoryInv, IssuedInv, ExchangeTx, RefreshPayload, AccessPayload, ValidateToken;
    StaleReadsAreHarmless(w, op);
    SameKeysSameTokens(Current(w), Current(Perform(w, op)), token, now);
    SameKeysSameTokens(Current(w), Current(Perform(w, op)), op.raw, op.env.now);
    ExchangedValidatesNow(w, op);
  }

  lemma SameKeysSameTokens(db: Database, after: Database, token: RawToken, now: int)
    requires after.privateKeys == db.privateKeys
    ensures ValidateToken(after, token, now) == ValidateToken(db, token, now)
  {
  }

  // The token of an exchange that commits validates against the current database, and not only against the one read.
  lemma ExchangedValidatesNow(w: World, op: Operation)
    requires Inv(w) && op.Exchange?
    requires ExchangeTx(SeenBy(w, op), Current(w), op.env, op.raw, op.visible).Ok?
    ensures ValidateToken(Current(w), op.raw, op.env.now).Ok?
  {
    hide FourWay, IssuedInv, DeleteRefreshTokenByPrivateKey, InsertRefreshToken, AttachRefreshToken, RefreshPayload,
         AccessPayload, WithNewToken, Perform;
    StaleReadsAreHarmless(w, op);
    ExchangeIssues(SeenBy(w, op), Current(w), op.env, op.raw, op.visible);
    ReadIsInHistory(w, op.validated);
    assert Older(ReadAt(w, op.validated), Current(w));
  }

  const REGISTERED := Env(1, 2, 3, 4, 0, 31_536_000, _ => false)
  const EXCHANGED := Env(1, 2, 5, 4, 10, 31_536_010, _ => false)
  const ALICE_FIRST := Sign(4, 2, RefreshPayload(1, "alice", 31_536_000))
  const ALICE_NEXT := Sign(4, 2, RefreshPayload(1, "alice", 31_536_010))

  // Alice's one session, with the given refresh token.
  function AliceAlone(tokenId: Uuid, token: RawToken, expiresAt: int): Database {
    Database(map[1 := User("alice", Bcrypt("secret"))], map[2 := 4], map[2 := 1],
             map[tokenId := TokenRow(2, token, expiresAt)], map[tokenId := 1])
  }

  lemma AliceRegisters()
    ensures var r := RegisterTx(Database(map[], map[], map[], map[], map[]), REGISTERED, "alice", "secret");
            r.Ok? && r.value.0 == AliceAlone(3, ALICE_FIRST, 31_536_000) && r.value.1.refresh == ALICE_FIRST
  {
    hide RefreshPayload, AccessPayload;
    var db := Database(map[], map[], map[], map[], map[]);
    var db1 := db.(users := map[1 := User("alice", Bcrypt("secret"))]);
    assert InsertUser(db, 1, "alice", Bcrypt("secret")) == Ok(db1);
    var db2 := db1.(privateKeys := map[2 := 4]);
    assert InsertPrivateKey(db1, 2, 4) == Ok(db2);
    var db3 := db2.(userPrivateKeys := map[2 := 1]);
    assert AttachPrivateKey(db2, 1, 2) == Ok(db3);
  }

  lemma AliceExchanges(seen: Database)
    requires seen == AliceAlone(3, ALICE_FIRST, 31_536_000)
    ensures var r := ExchangeTx(Reads(seen, seen, seen, seen), seen, EXCHANGED, ALICE_FIRST, {3});
            r.Ok? && r.value.0 == AliceAlone(5, ALICE_NEXT, 31_536_010)
  {
    hide AccessPayload;
    var gone := DeleteRefreshTokenByPrivateKey(seen, 2, {3});
    assert TokensOf(seen, 2, {3}) == {3};
    assert gone == seen.(refreshTokens := map[], userRefreshTokens := map[]);
  }

  // Alice registers and exchanges her refresh token: no row has it any longer, and it validates, so that she may
  // exchange it again.
  lemma ReplacedTokenValidates()
    ensures exists ops, last ::
              && Started(last) && Runs(Initial(map[]), ops, last) && ALICE_FIRST in last.issued
              && (forall t ::
                    t in Current(last).refreshTokens
                    ==> Current(last).refreshTokens[t].plaintext != ALICE_FIRST)
              && ValidateToken(Current(last), ALICE_FIRST, 10).Ok?
  {
    hide RegisterTx, ExchangeTx, Inv;
    var w := Initial(map[]);
    var register := Register(REGISTERED, "alice", "secret");
    var exchange := Exchange(EXCHANGED, 1, 1, 1, 1, ALICE_FIRST, {3});
    AliceRegisters();
    var w1 := Perform(w, register);
    AliceExchanges(Current(w1));
    var w2 := Perform(w1, exchange);
    assert [register, exchange][1..] == [exchange] && [exchange][1..] == [];
    assert Runs(w2, [], w2);
    assert Runs(w1, [exchange], w2);
    assert Runs(w, [register, exchange], w2);
  }
}
