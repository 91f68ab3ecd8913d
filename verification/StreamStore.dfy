/** The tables of the stream service and the statements on them. */
module StreamStores {
  import opened Wrappers

  type Uuid = nat

  datatype EgressType = WEBRTC | HLS

  datatype Stream = Stream(running: bool, deployed: bool, broadcasterId: Uuid, username: string, namespace: string,
                           deployment: string)

  datatype Egress = Egress(activeStreamId: Uuid, egressType: EgressType)

  datatype StreamDb = StreamDb(streams: map<Uuid, Stream>, egresses: map<Uuid, Egress>)

  datatype DbError = UniqueViolation | ForeignKeyViolation | ValueTooLong | NoRows | EmptyInsert | Unavailable

  // The three UNIQUE columns of active_streams, and the foreign key of active_stream_egresses.
  ghost predicate UniqueColumns(db: StreamDb) {
    forall i, j | i in db.streams && j in db.streams ::
      || db.streams[i].broadcasterId == db.streams[j].broadcasterId
      || db.streams[i].username == db.streams[j].username
      || db.streams[i].deployment == db.streams[j].deployment
      ==> i == j
  }

  ghost predicate EgressesRefer(db: StreamDb) {
    forall e :: e in db.egresses ==> db.egresses[e].activeStreamId in db.streams
  }

  function InsertActiveStream(db: StreamDb, id: Uuid, broadcasterId: Uuid, username: string, namespace: string,
                              deployment: string)
    : Result<StreamDb, DbError>
  {
    if |username| > 30 || |namespace| > 50 || |deployment| > 50 then Err(ValueTooLong)
    else if id in db.streams
            || exists i ::
                 i in db.streams
                 && (db.streams[i].broadcasterId == broadcasterId || db.streams[i].username == username
                     || db.streams[i].deployment == deployment)
    then Err(UniqueViolation)
    else Ok(db.(streams := db.streams[id := Stream(false, false, broadcasterId, username, namespace, deployment)]))
  }

  // Deleting a stream cascades to its egresses; deleting none is no error.
  function DeleteActiveStreamByBroadcasterId(db: StreamDb, broadcasterId: Uuid): StreamDb {
    StreamDb(map i | i in db.streams && db.streams[i].broadcasterId != broadcasterId :: db.streams[i],
             map e | e in db.egresses && (db.egresses[e].activeStreamId in db.streams ==>
                                            db.streams[db.egresses[e].activeStreamId].broadcasterId != broadcasterId)
               :: db.egresses[e])
  }

  function StreamOf(db: StreamDb, broadcasterId: Uuid): (r: Option<Uuid>)
    requires UniqueColumns(db)
    ensures r.Some? ==> r.value in db.streams && db.streams[r.value].broadcasterId == broadcasterId
    ensures r.None? ==> forall i :: i in db.streams ==> db.streams[i].broadcasterId != broadcasterId
  {
    if exists i :: i in db.streams && db.streams[i].broadcasterId == broadcasterId then
      var i :| i in db.streams && db.streams[i].broadcasterId == broadcasterId; Some(i)
    else None
  }

  // Returns the row's id; updating no row is an error, because the query scans into a single result.
  function UpdateDeployedStatusByBroadcasterId(db: StreamDb, broadcasterId: Uuid, deployed: bool)
    : Result<(StreamDb, Uuid), DbError>
    requires UniqueColumns(db)
  {
    match StreamOf(db, broadcasterId)
    case None => Err(NoRows)
    case Some(i) => Ok((db.(streams := db.streams[i := db.streams[i].(deployed := deployed)]), i))
  }

  function InsertEgress(db: StreamDb, id: Uuid, egress: Egress): Result<StreamDb, DbError> {
    if id in db.egresses then Err(UniqueViolation)
    else if egress.activeStreamId !in db.streams then Err(ForeignKeyViolation)
    else Ok(db.(egresses := db.egresses[id := egress]))
  }

  function InsertAll(db: StreamDb, egresses: seq<Egress>, ids: nat -> Uuid): Result<StreamDb, DbError> {
    if egresses == [] then Ok(db)
    else
      var n := |egresses| - 1;
      var before :- InsertAll(db, egresses[..n], ids);
      InsertEgress(before, ids(n), egresses[n])
  }

  // One INSERT of many rows; an empty list of rows is not valid SQL.
  function InsertManyActiveStreamEgresses(db: StreamDb, egresses: seq<Egress>, ids: nat -> Uuid)
    : Result<StreamDb, DbError>
  {
    if egresses == [] then Err(EmptyInsert) else InsertAll(db, egresses, ids)
  }

  ghost function EgressesOf(db: StreamDb, stream: Uuid): set<Uuid> {
    set e | e in db.egresses && db.egresses[e].activeStreamId == stream
  }

  ghost function OfType(db: StreamDb, egress: Egress): set<Uuid> {
    set e | e in db.egresses && db.egresses[e] == egress
  }

  // A stream's egresses are those of its two types.
  lemma TypesMakeAll(db: StreamDb, stream: Uuid)
    ensures |EgressesOf(db, stream)| == |OfType(db, Egress(stream, WEBRTC))| + |OfType(db, Egress(stream, HLS))|
  {
    forall e | e in EgressesOf(db, stream)
      ensures e in OfType(db, Egress(stream, WEBRTC)) + OfType(db, Egress(stream, HLS))
    {
      match db.egresses[e].egressType case WEBRTC => case HLS =>
    }
    assert EgressesOf(db, stream) == OfType(db, Egress(stream, WEBRTC)) + OfType(db, Egress(stream, HLS));
    assert OfType(db, Egress(stream, WEBRTC)) !! OfType(db, Egress(stream, HLS));
  }

  lemma OneMoreOfType(db: StreamDb, after: StreamDb, id: Uuid, inserted: Egress, egress: Egress)
    requires id !in db.egresses && after.egresses == db.egresses[id := inserted]
    ensures |OfType(after, egress)| == |OfType(db, egress)| + if inserted == egress then 1 else 0
  {
    var more := if inserted == egress then {id} else {};
    forall e
      ensures e in OfType(after, egress) <==> e in OfType(db, egress) || e in more
    {
    }
    assert OfType(after, egress) == OfType(db, egress) + more;
  }

  lemma InsertEgressCounts(db: StreamDb, id: Uuid, inserted: Egress, egress: Egress)
    requires InsertEgress(db, id, inserted).Ok?
    ensures var after := InsertEgress(db, id, inserted).value;
            && after.streams == db.streams
            && (EgressesRefer(db) ==> EgressesRefer(after))
            && |OfType(after, egress)| == |OfType(db, egress)| + if inserted == egress then 1 else 0
  {
    hide OfType;
    OneMoreOfType(db, InsertEgress(db, id, inserted).value, id, inserted, egress);
  }

  // Inserting egresses adds each as often as it is listed, and nothing else.
  lemma {:induction false} InsertAllCounts(db: StreamDb, egresses: seq<Egress>, ids: nat -> Uuid, egress: Egress)
    requires InsertAll(db, egresses, ids).Ok?
    ensures var after := InsertAll(db, egresses, ids).value;
            && after.streams == db.streams
            && (EgressesRefer(db) ==> EgressesRefer(after))
            && |OfType(after, egress)| == |OfType(db, egress)| + multiset(egresses)[egress]
  {
    hide InsertEgress, OfType, EgressesRefer;
    if egresses != [] {
      var n := |egresses| - 1;
      InsertAllCounts(db, egresses[..n], ids, egress);
      InsertEgressCounts(InsertAll(db, egresses[..n], ids).value, ids(n), egresses[n], egress);
      assert egresses == egresses[..n] + [egresses[n]];
    }
  }

  // The row at an index can be inserted after those before it.
  ghost predicate Insertable(db: StreamDb, egresses: seq<Egress>, ids: nat -> Uuid, i: nat)
    requires i < |egresses|
  {
    && egresses[i].activeStreamId in db.streams && ids(i) !in db.egresses
    && forall j :: 0 <= j < i ==> ids(j) != ids(i)
  }

  lemma {:induction false} InsertAllIds(db: StreamDb, egresses: seq<Egress>, ids: nat -> Uuid)
    requires InsertAll(db, egresses, ids).Ok?
    ensures var after := InsertAll(db, egresses, ids).value;
            && after.streams == db.streams
            && forall e :: e in after.egresses <==> e in db.egresses || exists i :: 0 <= i < |egresses| && ids(i) == e
  {
    if egresses != [] {
      var n := |egresses| - 1;
      InsertAllIds(db, egresses[..n], ids);
      var before, after := InsertAll(db, egresses[..n], ids).value, InsertAll(db, egresses, ids).value;
      assert after.egresses == before.egresses[ids(n) := egresses[n]];
    }
  }

  // All egresses can be inserted exactly when each refers to a stream and the generated ids are free and distinct.
  lemma {:induction false} InsertAllDecides(db: StreamDb, egresses: seq<Egress>, ids: nat -> Uuid)
    ensures InsertAll(db, egresses, ids).Ok? <==> forall i :: 0 <= i < |egresses| ==> Insertable(db, egresses, ids, i)
  {
    if egresses != [] {
      var n := |egresses| - 1;
      InsertAllDecides(db, egresses[..n], ids);
      forall i | 0 <= i < n
        ensures Insertable(db, egresses[..n], ids, i) <==> Insertable(db, egresses, ids, i)
      {
      }
      if InsertAll(db, egresses[..n], ids).Ok? {
        InsertAllIds(db, egresses[..n], ids);
        LastInserts(db, InsertAll(db, egresses[..n], ids).value, egresses, ids, n);
      }
      hide Insertable;
    }
  }

  lemma LastInserts(db: StreamDb, before: StreamDb, egresses: seq<Egress>, ids: nat -> Uuid, n: nat)
    requires n < |egresses| && before.streams == db.streams
    requires forall e :: e in before.egresses <==> e in db.egresses || exists i :: 0 <= i < n && ids(i) == e
    ensures InsertEgress(before, ids(n), egresses[n]).Ok? <==> Insertable(db, egresses, ids, n)
  {
  }

  // Deleting by broadcaster takes its stream with all its egresses, and leaves every other stream and egress.
  lemma DeleteCounts(db: StreamDb, broadcasterId: Uuid)
    requires EgressesRefer(db)
    ensures var after := DeleteActiveStreamByBroadcasterId(db, broadcasterId);
            && EgressesRefer(after) && (UniqueColumns(db) ==> UniqueColumns(after))
            && (forall s :: s in after.streams <==> s in db.streams && db.streams[s].broadcasterId != broadcasterId)
            && (forall s :: s in after.streams ==> after.streams[s] == db.streams[s])
            && forall e :: OfType(after, e) == if e.activeStreamId in after.streams then OfType(db, e) else {}
  {
  }
}
