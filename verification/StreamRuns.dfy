/** When a deployed message takes effect, and when a row is safe from the destroyed messages of older streams. */
module StreamRuns {
  import opened Wrappers
  import opened StreamStores
  import opened StreamServices
  import opened StreamLifecycles

  // ---------- Deployed messages ----------

  ghost predicate HasRow(db: StreamDb, broadcasterId: Uuid) {
    exists i :: i in db.streams && db.streams[i].broadcasterId == broadcasterId
  }

  // A deployed message takes effect exactly when no statement fails, its broadcaster has a row, and the two generated
  // egress ids are free and distinct. Then the row is marked and has one more egress of each type; otherwise the
  // message is gone and the tables are as they were.
  lemma DeployedDecides(p: Platform, msg: IngestDeployed, ids: nat -> Uuid, fails: TxPoint -> bool)
    requires Inv(p) && msg in p.deployed && msg.broadcasterId.Some?
    ensures UniqueColumns(p.db)
    ensures DeployedTx(p.db, msg, ids, fails).Some?
            <==> && !fails(BeginTx) && !fails(UpdateStream) && !fails(InsertEgresses) && !fails(CommitTx)
                 && HasRow(p.db, msg.broadcasterId.value)
                 && ids(0) !in p.db.egresses && ids(1) !in p.db.egresses && ids(0) != ids(1)
    ensures var q := Step(p, HandleDeployed(msg, ids, fails));
            && q.deployed == p.deployed - multiset{msg}
            && if DeployedTx(p.db, msg, ids, fails).None? then q.db == p.db
               else exists i ::
                      && i in p.db.streams && p.db.streams[i].broadcasterId == msg.broadcasterId.value
                      && q.db == StreamDb(p.db.streams[i := p.db.streams[i].(deployed := true)],
                                          p.db.egresses[ids(0) := Egress(i, WEBRTC)][ids(1) := Egress(i, HLS)])
  {
    hide RowInv, MessagesInv, EgressesRefer;
    InvGivesUnique(p);
    var b := msg.broadcasterId.value;
    var row := StreamOf(p.db, b);
    if row.Some? {
      var updated := UpdateDeployedStatusByBroadcasterId(p.db, b, true).value.0;
      TwoEgresses(updated, row.value, ids);
    }
  }

  lemma TwoEgresses(db: StreamDb, row: Uuid, ids: nat -> Uuid)
    requires row in db.streams
    ensures InsertManyActiveStreamEgresses(db, EgressRows(STANDALONE_EGRESSES, row), ids)
            == if ids(0) !in db.egresses && ids(1) !in db.egresses && ids(0) != ids(1) then
                 Ok(db.(egresses := db.egresses[ids(0) := Egress(row, WEBRTC)][ids(1) := Egress(row, HLS)]))
               else Err(UniqueViolation)
  {
    var rows := [Egress(row, WEBRTC), Egress(row, HLS)];
    assert EgressRows(STANDALONE_EGRESSES, row) == rows;
    assert rows[..1] == [Egress(row, WEBRTC)] && rows[..1][..0] == [];
    assert InsertAll(db, rows[..1], ids) == InsertEgress(db, ids(0), rows[0]);
  }

  lemma {:induction false} RowsOfType(types: seq<IngestEgressType>, row: Uuid, other: Uuid)
    ensures multiset(EgressRows(types, row))[Egress(row, WEBRTC)] == multiset(types)[STREAM_TYPE_WEBRTC]
    ensures multiset(EgressRows(types, row))[Egress(row, HLS)] == multiset(types)[STREAM_TYPE_HLS]
    ensures other != row ==> forall t :: multiset(EgressRows(types, row))[Egress(other, t)] == 0
  {
    if types != [] {
      var n := |types| - 1;
      RowsOfType(types[..n], row, other);
      assert types == types[..n] + [types[n]];
      assert EgressRows(types, row) == EgressRows(types[..n], row) + [Egress(row, EgressTypeOf(types[n]))];
    }
  }

  // Any message takes effect exactly when it names a broadcaster that has a row, lists at least one egress, no
  // statement fails, and the generated egress ids are free and distinct.
  lemma DeployedTxDecides(db: StreamDb, msg: IngestDeployed, ids: nat -> Uuid, fails: TxPoint -> bool)
    requires UniqueColumns(db)
    ensures DeployedTx(db, msg, ids, fails).Some?
            <==> && !fails(BeginTx) && !fails(UpdateStream) && !fails(InsertEgresses) && !fails(CommitTx)
                 && msg.broadcasterId.Some? && HasRow(db, msg.broadcasterId.value) && msg.egresses != []
                 && forall i :: 0 <= i < |msg.egresses| ==>
                      ids(i) !in db.egresses && forall j :: 0 <= j < i ==> ids(j) != ids(i)
  {
    hide InsertAll;
    if msg.broadcasterId.Some? && HasRow(db, msg.broadcasterId.value) {
      var row := StreamOf(db, msg.broadcasterId.value).value;
      var updated := UpdateDeployedStatusByBroadcasterId(db, msg.broadcasterId.value, msg.deployed).value.0;
      var rows := EgressRows(msg.egresses, row);
      InsertAllDecides(updated, rows, ids);
      forall i | 0 <= i < |rows|
        ensures Insertable(updated, rows, ids, i)
                <==> ids(i) !in db.egresses && forall j :: 0 <= j < i ==> ids(j) != ids(i)
      {
      }
      hide Insertable;
    }
  }

  // Any message that takes effect, whatever it lists and says: its broadcaster's row is marked as it says, that row has
  // as many more egresses of each type as are listed, and no other row changes or has another egress.
  lemma DeployedInserts(db: StreamDb, msg: IngestDeployed, ids: nat -> Uuid, fails: TxPoint -> bool, row: Uuid)
    requires UniqueColumns(db) && DeployedTx(db, msg, ids, fails).Some?
    requires row in db.streams && msg.broadcasterId == Some(db.streams[row].broadcasterId)
    ensures var after := DeployedTx(db, msg, ids, fails).value;
            && after.streams == db.streams[row := db.streams[row].(deployed := msg.deployed)]
            && |OfType(after, Egress(row, WEBRTC))|
               == |OfType(db, Egress(row, WEBRTC))| + multiset(msg.egresses)[STREAM_TYPE_WEBRTC]
            && |OfType(after, Egress(row, HLS))|
               == |OfType(db, Egress(row, HLS))| + multiset(msg.egresses)[STREAM_TYPE_HLS]
            && (forall other, t :: other != row ==>
                  |OfType(after, Egress(other, t))| == |OfType(db, Egress(other, t))|)
  {
    hide InsertAll, EgressRows, EgressTypeOf;
    var b := msg.broadcasterId.value;
    assert StreamOf(db, b) == Some(row);
    var updated := UpdateDeployedStatusByBroadcasterId(db, b, msg.deployed).value.0;
    forall e
      ensures OfType(updated, e) == OfType(db, e)
    {
    }
    forall e
      ensures |OfType(DeployedTx(db, msg, ids, fails).value, e)|
              == |OfType(db, e)| + multiset(EgressRows(msg.egresses, row))[e]
      ensures DeployedTx(db, msg, ids, fails).value.streams == updated.streams
    {
      InsertAllCounts(updated, EgressRows(msg.egresses, row), ids, e);
    }
    hide DeployedTx, OfType;
    RowsOfType(msg.egresses, row, row);
    forall other, t | other != row
      ensures multiset(EgressRows(msg.egresses, row))[Egress(other, t)] == 0
    {
      RowsOfType(msg.egresses, row, other);
    }
  }

  // ---------- Destroyed messages ----------

  // A message that may still delete the rows of the broadcaster.
  predicate Threat(d: Delivery, broadcasterId: Uuid) {
    && !d.settled && d.count < 3
    && d.msg.hasMetadata && d.msg.decodes && d.msg.broadcasterId == Some(broadcasterId)
  }

  ghost predicate NoThreat(p: Platform, broadcasterId: Uuid) {
    forall m :: 0 <= m < |p.destroyed| ==> !Threat(p.destroyed[m], broadcasterId)
  }

  ghost predicate NoRequest(p: Platform, broadcasterId: Uuid) {
    forall id :: id in p.requests ==> p.requests[id].token.userId != broadcasterId
  }

  // The broadcaster neither starts nor stops, and no destroyed message of theirs arrives from elsewhere.
  predicate Quiet(e: Event, broadcasterId: Uuid) {
    match e
    case BeginStart(_, token) => token.userId != broadcasterId
    case BeginStop(_, token) => token.userId != broadcasterId
    case Arrive(msg) => msg.broadcasterId != Some(broadcasterId)
    case _ => true
  }

  ghost predicate AllQuiet(events: seq<Event>, broadcasterId: Uuid) {
    forall k :: 0 <= k < |events| ==> Quiet(events[k], broadcasterId)
  }

  ghost predicate SafeRow(p: Platform, i: Uuid, broadcasterId: Uuid) {
    && i in p.db.streams && p.db.streams[i].broadcasterId == broadcasterId
    && NoRequest(p, broadcasterId) && NoThreat(p, broadcasterId)
  }

  // A row that stays keeps its broadcaster.
  lemma BroadcasterStays(p: Platform, e: Event, i: Uuid)
    requires Inv(p) && i in p.db.streams
    ensures UniqueColumns(p.db)
    ensures i in Step(p, e).db.streams ==> Step(p, e).db.streams[i].broadcasterId == p.db.streams[i].broadcasterId
  {
    hide Inv, DeployedTx, HandleDestroyed;
    InvGivesUnique(p);
    match e
    case HandleDeployed(msg, ids, fails) =>
      if msg in p.deployed {
        if msg.broadcasterId.Some? {
          DeployedDecides(p, msg, ids, fails);
        } else {
          NoBroadcasterNoEffect(p, msg, ids, fails);
        }
      }
    case Deliver(m, deleteWorks, publishWorks) => DeliveryLeaves(p, m, deleteWorks, publishWorks);
    case _ =>
  }

  lemma NoBroadcasterNoEffect(p: Platform, msg: IngestDeployed, ids: nat -> Uuid, fails: TxPoint -> bool)
    requires UniqueColumns(p.db) && msg.broadcasterId.None?
    ensures DeployedTx(p.db, msg, ids, fails).None?
  {
  }

  lemma DeliveryLeaves(p: Platform, m: nat, deleteWorks: bool, publishWorks: bool)
    requires UniqueColumns(p.db)
    ensures var q := Step(p, Deliver(m, deleteWorks, publishWorks));
            forall i :: i in q.db.streams ==> i in p.db.streams && q.db.streams[i] == p.db.streams[i]
  {
  }

  lemma NoRequestStays(p: Platform, e: Event, broadcasterId: Uuid)
    requires UniqueColumns(p.db) && NoRequest(p, broadcasterId) && Quiet(e, broadcasterId)
    ensures NoRequest(Step(p, e), broadcasterId)
  {
    hide DeployedTx, DeleteActiveStreamByBroadcasterId, Insert, HandleDestroyed;
  }

  // A step publishes at most one destroyed message, of its own request's broadcaster or from elsewhere.
  lemma NewDeliveries(p: Platform, e: Event, broadcasterId: Uuid, m: nat)
    requires UniqueColumns(p.db) && NoRequest(p, broadcasterId) && Quiet(e, broadcasterId)
    requires |p.destroyed| <= m < |Step(p, e).destroyed|
    ensures Step(p, e).destroyed[m].msg.broadcasterId != Some(broadcasterId)
  {
    hide DeployedTx, DeleteActiveStreamByBroadcasterId, Insert, HandleDestroyed;
  }

  lemma NoThreatStays(p: Platform, e: Event, broadcasterId: Uuid)
    requires Inv(p) && NoRequest(p, broadcasterId) && NoThreat(p, broadcasterId) && Quiet(e, broadcasterId)
    ensures UniqueColumns(p.db) && NoThreat(Step(p, e), broadcasterId)
  {
    hide Inv, Step, NoRequest, Quiet;
    InvGivesUnique(p);
    var q := Step(p, e);
    forall m | 0 <= m < |q.destroyed|
      ensures !Threat(q.destroyed[m], broadcasterId)
    {
      if m < |p.destroyed| {
        DeliveriesRunOut(p, e, m);
      } else {
        NewDeliveries(p, e, broadcasterId, m);
      }
    }
  }

  // Without a threat, a quiet step takes the row away from no one.
  lemma QuietStepKeeps(p: Platform, e: Event, i: Uuid, broadcasterId: Uuid)
    requires Inv(p) && SafeRow(p, i, broadcasterId) && Quiet(e, broadcasterId)
    ensures UniqueColumns(p.db) && SafeRow(Step(p, e), i, broadcasterId)
  {
    hide Inv, Step, Quiet, Run;
    InvGivesUnique(p);
    if i !in Step(p, e).db.streams {
      RowsLeaveByTheirBroadcaster(p, e, i);
      assert e.Deliver?;
      DeliveryIsThreat(p, e, broadcasterId);
    }
    BroadcasterStays(p, e, i);
    NoRequestStays(p, e, broadcasterId);
    NoThreatStays(p, e, broadcasterId);
  }

  lemma DeliveryIsThreat(p: Platform, e: Event, broadcasterId: Uuid)
    requires Inv(p) && e.Deliver? && e.index < |p.destroyed|
             && p.destroyed[e.index].msg.broadcasterId == Some(broadcasterId)
    ensures UniqueColumns(p.db)
    ensures Step(p, e).db != p.db ==> Threat(p.destroyed[e.index], broadcasterId)
  {
    hide Inv;
    InvGivesUnique(p);
    if !p.destroyed[e.index].settled {
      DeliveryDecides(p, e.index, e.deleteWorks, e.publishWorks);
    }
  }

  lemma {:induction false} QuietRunKeeps(p: Platform, events: seq<Event>, i: Uuid, broadcasterId: Uuid)
    requires Inv(p) && SafeRow(p, i, broadcasterId) && AllQuiet(events, broadcasterId)
    ensures i in Run(p, events).db.streams
    decreases |events|
  {
    hide Inv, Step, Quiet;
    if events != [] {
      QuietStepKeeps(p, events[0], i, broadcasterId);
      StepKeeps(p, events[0]);
      QuietRunKeeps(Step(p, events[0]), events[1..], i, broadcasterId);
    }
  }

  // One working delivery of a threat deletes the row.
  lemma ThreatDeletes(p: Platform, m: nat, i: Uuid, broadcasterId: Uuid)
    requires Inv(p) && i in p.db.streams && p.db.streams[i].broadcasterId == broadcasterId
    requires m < |p.destroyed| && Threat(p.destroyed[m], broadcasterId)
    ensures exists events :: AllQuiet(events, broadcasterId) && i !in Run(p, events).db.streams
  {
    hide Inv, Step;
    InvGivesUnique(p);
    var e := Deliver(m, true, true);
    StepKeeps(p, e);
    DeliveryDecides(p, m, true, true);
    assert AllQuiet([e], broadcasterId) && Run(p, [e]) == Run(Step(p, e), [e][1..]) == Step(p, e);
  }

  // When a row is safe: with no request of its broadcaster in flight, it stays through every run in which they neither
  // start nor stop, exactly when no destroyed message of theirs is unsettled, usable and below its last retry.
  lemma RowIsSafeExactly(p: Platform, i: Uuid)
    requires Inv(p) && i in p.db.streams && NoRequest(p, p.db.streams[i].broadcasterId)
    ensures (forall events :: AllQuiet(events, p.db.streams[i].broadcasterId) ==> i in Run(p, events).db.streams)
            <==> NoThreat(p, p.db.streams[i].broadcasterId)
  {
    hide Inv, Run, AllQuiet, Threat;
    var b := p.db.streams[i].broadcasterId;
    if NoThreat(p, b) {
      forall events | AllQuiet(events, b)
        ensures i in Run(p, events).db.streams
      {
        QuietRunKeeps(p, events, i, b);
      }
    } else {
      var m :| 0 <= m < |p.destroyed| && Threat(p.destroyed[m], b);
      ThreatDeletes(p, m, i, b);
    }
  }

  // ---------- Starts and stops ----------

  // The read of a stop finds a row, and its delete works: the row goes.
  ghost predicate Deletes(db: StreamDb, token: UserToken, env: CallEnv) {
    HasRow(db, token.userId) && !env.getFails && !env.deleteFails
  }

  // No row has the id, or any of the three values that must be unique.
  ghost predicate IsFree(db: StreamDb, token: UserToken, env: CallEnv) {
    && env.rowId !in db.streams
    && forall i :: i in db.streams ==>
         && db.streams[i].broadcasterId != token.userId
         && db.streams[i].username != token.sub
         && db.streams[i].deployment != token.sub
  }

  // A stop succeeds exactly when its broadcaster has a row and none of its three calls fails. The row goes, and the
  // message is sent, exactly when the first two work; a stop that fails before that leaves everything as it was. The
  // error says which call failed.
  lemma StopDecides(s: Streaming, token: UserToken, env: CallEnv)
    requires UniqueColumns(s.db)
    ensures var (after, err) := StopSpec(s, token, env);
            && (err.None? <==> Deletes(s.db, token, env) && !env.stopFails)
            && (if Deletes(s.db, token, env) then
                  && (forall i :: i in after.db.streams <==>
                        i in s.db.streams && s.db.streams[i].broadcasterId != token.userId)
                  && (forall i :: i in after.db.streams ==> after.db.streams[i] == s.db.streams[i])
                  && after.deployed == s.deployed
                  && after.destroyed == s.destroyed + [IngestDestroyed(true, true, Some(token.userId))]
                else after == s)
            && (err == Some(NotFoundActiveStream) <==> env.getFails || !HasRow(s.db, token.userId))
            && (err == Some(UnableDeleteStream) <==> !env.getFails && HasRow(s.db, token.userId) && env.deleteFails)
            && (err == Some(UnableStopStream) <==> Deletes(s.db, token, env) && env.stopFails)
  {
  }

  // A start succeeds exactly when its two calls work, the name and the namespace fit, and the id and the three unique
  // values are free; it has then added the row. One that fails leaves the tables as they were, unless it was the start
  // call that failed: then the row that the broadcaster already had goes, exactly when it can be read and deleted.
  // A duplicate is answered as such and stops nothing; any other failing insert stops the ingest, with one message.
  lemma StartDecides(s: Streaming, token: UserToken, env: CallEnv)
    requires UniqueColumns(s.db)
    ensures var (after, r) := StartSpec(s, token, env);
            && after.deployed == s.deployed + [IngestDeployed(Some(token.userId), true,
                                                              [STREAM_TYPE_WEBRTC, STREAM_TYPE_HLS])]
            && (r.Ok? <==> && !env.startFails && !env.insertFails && |token.sub| <= 30 && |env.namespace| <= 50
                           && IsFree(s.db, token, env))
            && (r.Ok? ==>
                  && after.destroyed == s.destroyed
                  && after.db == s.db.(streams :=
                                       s.db.streams[env.rowId := Stream(false, false, token.userId, token.sub,
                                                                                   env.namespace, token.sub)]))
            && (r.Err? ==> (after.db != s.db <==> env.startFails && Deletes(s.db, token, env)))
            && (r == Err(Some(StreamAlreadyExists)) <==>
                  !env.startFails && !env.insertFails && |token.sub| <= 30 && |env.namespace| <= 50
                  && !IsFree(s.db, token, env))
            && (r == Err(Some(UnableInsertStream)) <==>
                  !env.startFails && (env.insertFails || |token.sub| > 30 || |env.namespace| > 50))
            && (r == Err(None) <==> env.startFails)
            && (r.Err? ==>
                  var stops := r == Err(Some(UnableInsertStream)) || (env.startFails && Deletes(s.db, token, env));
                  after.destroyed
                      == s.destroyed + if stops then [IngestDestroyed(true, true, Some(token.userId))] else [])
            && (r.Err? && after.db != s.db ==>
                  && !HasRow(after.db, token.userId)
                  && forall i :: i in s.db.streams && s.db.streams[i].broadcasterId != token.userId ==>
                       i in after.db.streams && after.db.streams[i] == s.db.streams[i])
  {
    hide DeleteActiveStreamByBroadcasterId;
    if env.startFails {
      if Deletes(s.db, token, env) {
        var i := StreamOf(s.db, token.userId).value;
        DeleteOf(s.db, token.userId, i);
      }
    }
  }

  lemma DeleteOf(db: StreamDb, broadcasterId: Uuid, i: Uuid)
    requires i in db.streams && db.streams[i].broadcasterId == broadcasterId
    ensures var after := DeleteActiveStreamByBroadcasterId(db, broadcasterId);
            && i !in after.streams && after != db && !HasRow(after, broadcasterId)
            && forall j :: j in db.streams && db.streams[j].broadcasterId != broadcasterId ==>
                 j in after.streams && after.streams[j] == db.streams[j]
  {
  }

  const START_FAILS := CallEnv(2, "default", true, false, false, false, false)

  // A start that fails can end the stream that runs: Alice's stands at rest, her second start call fails, and the
  // compensation deletes the row of the first.
  lemma FailedStartCanDeleteRow()
    ensures exists q :: && Reachable(q) && q.requests == map[] && q.db.streams.Keys == {1} && UniqueColumns(q.db)
                        && var (after, r) := StartSpec(Streaming(q.db, [], []), ALICE, START_FAILS);
                           r.Err? && after.db.streams == map[]
  {
    hide Reachable;
    ReachEmpty();
    AliceStarts(EMPTY, 1);
    var p := Move(EMPTY.(deployed := multiset{} + multiset{DeployedMessage(7)}), 0, Inserting(ALICE));
    AliceInserts(p, 1);
    var row := Stream(false, false, 7, "alice", "default", "alice");
    var q := Leave(p.(db := p.db.(streams := map[1 := row]), commits := p.commits[1 := 0]), 0);
    assert q.requests == map[];
    assert UniqueColumns(q.db);
    StartDecides(Streaming(q.db, [], []), ALICE, START_FAILS);
    assert q.db.streams[1].broadcasterId == 7 && HasRow(q.db, 7);
    var (after, r) := StartSpec(Streaming(q.db, [], []), ALICE, START_FAILS);
    assert after.db.streams == map[];
  }
}
