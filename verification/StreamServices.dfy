/** Starting and stopping a stream, and the two workers that handle the messages this causes, in standalone mode. */
module StreamServices {
  import opened Wrappers
  import opened StreamStores

  datatype IngestEgressType = STREAM_TYPE_WEBRTC | STREAM_TYPE_HLS

  datatype IngestDeployed = IngestDeployed(broadcasterId: Option<Uuid>, deployed: bool, egresses: seq<IngestEgressType>)

  // A message on the "destroyed" subject as the worker meets it: it may lack JetStream metadata, fail to decode, or
  // bear a broadcaster id that is no UUID.
  datatype IngestDestroyed = IngestDestroyed(hasMetadata: bool, decodes: bool, broadcasterId: Option<Uuid>)

  datatype UserToken = UserToken(userId: Uuid, sub: string)

  datatype StreamError =
    | NotFoundActiveStream
    | UnableInsertStream
    | UnableStopStream
    | UnableDeleteStream
    | StreamAlreadyExists

  const STANDALONE_EGRESSES := [STREAM_TYPE_WEBRTC, STREAM_TYPE_HLS]

  function DeployedMessage(broadcasterId: Uuid): IngestDeployed {
    IngestDeployed(Some(broadcasterId), true, STANDALONE_EGRESSES)
  }

  function DestroyedMessage(broadcasterId: Uuid): IngestDestroyed {
    IngestDestroyed(true, true, Some(broadcasterId))
  }

  // ---------- The status worker ----------

  datatype TxPoint = BeginTx | UpdateStream | InsertEgresses | CommitTx

  function EgressTypeOf(t: IngestEgressType): EgressType {
    match t case STREAM_TYPE_WEBRTC => WEBRTC case STREAM_TYPE_HLS => HLS
  }

  function EgressRows(types: seq<IngestEgressType>, stream: Uuid): seq<Egress> {
    seq(|types|, i requires 0 <= i < |types| => Egress(stream, EgressTypeOf(types[i])))
  }

  // The transaction of a deployed message: mark the row, insert its egresses, commit; anything failing rolls back.
  function DeployedTx(db: StreamDb, msg: IngestDeployed, ids: nat -> Uuid, fails: TxPoint -> bool): Option<StreamDb>
    requires UniqueColumns(db)
  {
    if msg.broadcasterId.None? then None
    else if fails(BeginTx) || fails(UpdateStream) || fails(InsertEgresses) || fails(CommitTx) then None
    else
      match UpdateDeployedStatusByBroadcasterId(db, msg.broadcasterId.value, msg.deployed)
      case Err(_) => None
      case Ok((updated, stream)) =>
        var inserted := InsertManyActiveStreamEgresses(updated, EgressRows(msg.egresses, stream), ids);
        if inserted.Ok? then Some(inserted.value) else None
  }

  class IngestStatusWorker {
    var db: StreamDb

    constructor (db: StreamDb)
      ensures this.db == db
    {
      this.db := db;
    }

    method Handler(msg: IngestDeployed, ids: nat -> Uuid, fails: TxPoint -> bool)
      requires UniqueColumns(db)
      modifies this
      ensures var tx := DeployedTx(old(db), msg, ids, fails);
              db == if tx.Some? then tx.value else old(db)
    {
      if msg.broadcasterId.None? || fails(BeginTx) {
        return;
      }
      var work := db;
      var updated := UpdateDeployedStatusByBroadcasterId(work, msg.broadcasterId.value, msg.deployed);
      if fails(UpdateStream) || updated.Err? {
        return;
      }
      var stream := updated.value.1;
      work := updated.value.0;
      var egressesDTO: seq<Egress> := [];
      for i := 0 to |msg.egresses|
        invariant egressesDTO == EgressRows(msg.egresses, stream)[..i]
      {
        egressesDTO := egressesDTO + [Egress(stream, EgressTypeOf(msg.egresses[i]))];
      }
      assert egressesDTO == EgressRows(msg.egresses, stream);
      var inserted := InsertManyActiveStreamEgresses(work, egressesDTO, ids);
      if fails(InsertEgresses) || inserted.Err? {
        return;
      }
      work := inserted.value;
      if fails(CommitTx) {
        return;
      }
      db := work;
    }
  }

  // ---------- The destroyed worker ----------

  const RETRY: nat := 3

  datatype Verdict = Acked | Nacked | Unanswered

  // What one delivery does: its answer to the server, the outcome of its delete if it made one, and whether it
  // notified.
  datatype Handling = Handling(db: StreamDb, verdict: Verdict, deleted: Option<bool>, notified: bool)

  function HandleDestroyed(db: StreamDb, msg: IngestDestroyed, numDelivered: nat, deleteWorks: bool,
                           publishWorks: bool)
    : Handling
  {
    if !msg.hasMetadata || numDelivered > RETRY || !msg.decodes || msg.broadcasterId.None? then
      Handling(db, Acked, None, false)
    else if !deleteWorks then Handling(db, Nacked, Some(false), false)
    else
      var after := DeleteActiveStreamByBroadcasterId(db, msg.broadcasterId.value);
      if !publishWorks then Handling(after, Unanswered, Some(true), false) else Handling(after, Acked, Some(true), true)
  }

  // A message that lacks metadata, does not decode, names no broadcaster, or comes for the fourth time is dropped; a
  // failing delete asks for a redelivery; a failing notification leaves the message unanswered.
  lemma AnswersDecide(db: StreamDb, msg: IngestDestroyed, numDelivered: nat, deleteWorks: bool, publishWorks: bool)
    ensures var h := HandleDestroyed(db, msg, numDelivered, deleteWorks, publishWorks);
            var tries := msg.hasMetadata && msg.decodes && msg.broadcasterId.Some? && numDelivered <= 3;
            && (h.verdict == Acked <==> !tries || (deleteWorks && publishWorks))
            && (h.verdict == Nacked <==> tries && !deleteWorks)
            && (h.verdict == Unanswered <==> tries && deleteWorks && !publishWorks)
            && h.deleted == (if tries then Some(deleteWorks) else None)
            && (h.notified <==> tries && deleteWorks && publishWorks)
            && (!tries || !deleteWorks ==> h.db == db)
  {
  }

  class IngestDestroyedWorker {
    var db: StreamDb
    var notifications: seq<Uuid>

    constructor (db: StreamDb)
      ensures this.db == db && notifications == []
    {
      this.db, notifications := db, [];
    }

    method Handler(msg: IngestDestroyed, numDelivered: nat, deleteWorks: bool, publishWorks: bool)
      returns (verdict: Verdict, deleted: Option<bool>)
      modifies this
      ensures var h := HandleDestroyed(old(db), msg, numDelivered, deleteWorks, publishWorks);
              && db == h.db && verdict == h.verdict && deleted == h.deleted
              && notifications == old(notifications) + if h.notified then [msg.broadcasterId.value] else []
    {
      deleted := None;
      if !msg.hasMetadata {
        return Acked, deleted;
      }
      if numDelivered > RETRY {
        return Acked, deleted;
      }
      if !msg.decodes {
        return Acked, deleted;
      }
      if msg.broadcasterId.None? {
        return Acked, deleted;
      }
      deleted := Some(deleteWorks);
      if !deleteWorks {
        return Nacked, deleted;
      }
      db := DeleteActiveStreamByBroadcasterId(db, msg.broadcasterId.value);
      if !publishWorks {
        return Unanswered, deleted;
      }
      notifications := notifications + [msg.broadcasterId.value];
      return Acked, deleted;
    }
  }

  // ---------- The stream service ----------

  // What the surroundings supply: the id of the new row, and which calls fail.
  datatype CallEnv = CallEnv(rowId: Uuid, namespace: string, startFails: bool, insertFails: bool, getFails: bool,
                             deleteFails: bool, stopFails: bool)

  // The rows, and everything published so far on each subject.
  datatype Streaming = Streaming(db: StreamDb, deployed: seq<IngestDeployed>, destroyed: seq<IngestDestroyed>)

  // One call of the controller stub: the message is published whatever becomes of the reply.
  function StartServer(s: Streaming, token: UserToken): Streaming {
    s.(deployed := s.deployed + [DeployedMessage(token.userId)])
  }

  function StopServer(s: Streaming, token: UserToken): Streaming {
    s.(destroyed := s.destroyed + [DestroyedMessage(token.userId)])
  }

  function Insert(db: StreamDb, token: UserToken, env: CallEnv): Result<StreamDb, DbError> {
    if env.insertFails then Err(Unavailable)
    else InsertActiveStream(db, env.rowId, token.userId, token.sub, env.namespace, token.sub)
  }

  function StopSpec(s: Streaming, token: UserToken, env: CallEnv): (Streaming, Option<StreamError>)
    requires UniqueColumns(s.db)
  {
    if env.getFails || StreamOf(s.db, token.userId).None? then (s, Some(NotFoundActiveStream))
    else if env.deleteFails then (s, Some(UnableDeleteStream))
    else
      var stopped := StopServer(s.(db := DeleteActiveStreamByBroadcasterId(s.db, token.userId)), token);
      (stopped, if env.stopFails then Some(UnableStopStream) else None)
  }

  function StartSpec(s: Streaming, token: UserToken, env: CallEnv): (Streaming, Result<(), Option<StreamError>>)
    requires UniqueColumns(s.db)
  {
    var started := StartServer(s, token);
    if env.startFails then (StopSpec(started, token, env).0, Err(None))
    else
      match Insert(started.db, token, env)
      case Ok(db) => (started.(db := db), Ok(()))
      case Err(UniqueViolation) => (started, Err(Some(StreamAlreadyExists)))
      case Err(_) => (StopServer(started, token), Err(Some(UnableInsertStream)))
  }

  class StreamService {
    var state: Streaming

    constructor (state: Streaming)
      ensures this.state == state
    {
      this.state := state;
    }

    method StopIngestServer(token: UserToken, env: CallEnv) returns (err: Option<StreamError>)
      requires UniqueColumns(state.db)
      modifies this
      ensures (state, err) == StopSpec(old(state), token, env)
    {
      var stream := StreamOf(state.db, token.userId);
      if env.getFails || stream.None? {
        return Some(NotFoundActiveStream);
      }
      if env.deleteFails {
        return Some(UnableDeleteStream);
      }
      state := state.(db := DeleteActiveStreamByBroadcasterId(state.db, state.db.streams[stream.value].broadcasterId));
      state := StopServer(state, token);
      if env.stopFails {
        return Some(UnableStopStream);
      }
      return None;
    }

    method StartIngestServer(token: UserToken, env: CallEnv) returns (r: Result<(), Option<StreamError>>)
      requires UniqueColumns(state.db)
      modifies this
      ensures (state, r) == StartSpec(old(state), token, env)
    {
      state := StartServer(state, token);
      if env.startFails {
        var _ := StopIngestServer(token, env);
        return Err(None);
      }
      var inserted := Insert(state.db, token, env);
      if inserted.Err? {
        if inserted.error == UniqueViolation {
          return Err(Some(StreamAlreadyExists));
        }
        state := StopServer(state, token);
        return Err(Some(UnableInsertStream));
      }
      state := state.(db := inserted.value);
      return Ok(());
    }
  }
}
