/** All interleavings of start and stop requests, deployed messages and destroyed messages over the stream tables. */
module StreamLifecycles {
  import opened Wrappers
  import opened StreamStores
  import opened StreamServices

  // Where a request is: the next call it will make.
  datatype Request =
    | CallingStart(token: UserToken)
    | Inserting(token: UserToken)
    | Compensating(token: UserToken)
    | Getting(token: UserToken)
    | Deleting(token: UserToken)
    | CallingStop(token: UserToken)

  // A destroyed message, how often it has been delivered, and whether it was acknowledged.
  datatype Delivery = Delivery(msg: IngestDestroyed, count: nat, settled: bool)

  datatype Entry = Tried(message: nat, delivery: nat, ok: bool) | Notified(message: nat, delivery: nat)

  // `log` and `commits` are history: what deliveries did, and how many deployed transactions have committed for each
  // row since it was inserted.
  datatype Platform = Platform(db: StreamDb, deployed: multiset<IngestDeployed>, destroyed: seq<Delivery>,
                               requests: map<nat, Request>, log: seq<Entry>, commits: map<Uuid, nat>)

  datatype Event =
    | BeginStart(id: nat, token: UserToken)
    | BeginStop(id: nat, token: UserToken)
    | Proceed(id: nat, env: CallEnv)
    | HandleDeployed(msg: IngestDeployed, ids: nat -> Uuid, fails: TxPoint -> bool)
    | LoseDeployed(msg: IngestDeployed)
    | Arrive(message: IngestDestroyed)
    | Deliver(index: nat, deleteWorks: bool, publishWorks: bool)

  const EMPTY := Platform(StreamDb(map[], map[]), multiset{}, [], map[], [], map[])

  function Live(commits: map<Uuid, nat>, db: StreamDb): map<Uuid, nat> {
    map i | i in commits && i in db.streams :: commits[i]
  }

  function DeleteStreams(p: Platform, broadcasterId: Uuid): Platform {
    var db := DeleteActiveStreamByBroadcasterId(p.db, broadcasterId);
    p.(db := db, commits := Live(p.commits, db))
  }

  function PublishDestroyed(p: Platform, msg: IngestDestroyed): Platform {
    p.(destroyed := p.destroyed + [Delivery(msg, 0, false)])
  }

  function Move(p: Platform, id: nat, r: Request): Platform {
    p.(requests := p.requests[id := r])
  }

  function Leave(p: Platform, id: nat): Platform {
    p.(requests := p.requests - {id})
  }

  // The next call of a request.
  function Call(p: Platform, id: nat, r: Request, env: CallEnv): Platform
    requires UniqueColumns(p.db)
  {
    match r
    case CallingStart(token) =>
      var published := p.(deployed := p.deployed + multiset{DeployedMessage(token.userId)});
      Move(published, id, if env.startFails then Getting(token) else Inserting(token))
    case Inserting(token) =>
      (match Insert(p.db, token, env)
       case Ok(db) => Leave(p.(db := db, commits := p.commits[env.rowId := 0]), id)
       case Err(UniqueViolation) => Leave(p, id)
       case Err(_) => Move(p, id, Compensating(token)))
    case Compensating(token) => Leave(PublishDestroyed(p, DestroyedMessage(token.userId)), id)
    case Getting(token) =>
      if env.getFails || StreamOf(p.db, token.userId).None? then Leave(p, id) else Move(p, id, Deleting(token))
    case Deleting(token) =>
      if env.deleteFails then Leave(p, id) else Move(DeleteStreams(p, token.userId), id, CallingStop(token))
    case CallingStop(token) => Leave(PublishDestroyed(p, DestroyedMessage(token.userId)), id)
  }

  // The status worker takes one message off the bus; a message it cannot use is gone.
  function TakeDeployed(p: Platform, msg: IngestDeployed, ids: nat -> Uuid, fails: TxPoint -> bool): Platform
    requires UniqueColumns(p.db)
  {
    var rest := p.(deployed := p.deployed - multiset{msg});
    var tx := DeployedTx(p.db, msg, ids, fails);
    if tx.None? then rest
    else
      var row := StreamOf(p.db, msg.broadcasterId.value).value;
      rest.(db := tx.value,
            commits := if row in p.commits then p.commits[row := p.commits[row] + 1] else p.commits)
  }

  // One delivery of a destroyed message that is not settled: acknowledged, or due again.
  function DeliverOnce(p: Platform, m: nat, deleteWorks: bool, publishWorks: bool): Platform
    requires m < |p.destroyed|
  {
    var d := p.destroyed[m];
    var n := d.count + 1;
    var h := HandleDestroyed(p.db, d.msg, n, deleteWorks, publishWorks);
    p.(db := h.db, commits := Live(p.commits, h.db),
       destroyed := p.destroyed[m := Delivery(d.msg, n, h.verdict == Acked)],
       log := p.log + (if h.deleted.Some? then [Tried(m, n, h.deleted.value)] else [])
              + (if h.notified then [Notified(m, n)] else []))
  }

  // One step; an event that is not enabled changes nothing.
  function Step(p: Platform, e: Event): Platform
    requires UniqueColumns(p.db)
  {
    match e
    case BeginStart(id, token) => if id in p.requests then p else Move(p, id, CallingStart(token))
    case BeginStop(id, token) => if id in p.requests then p else Move(p, id, Getting(token))
    case Proceed(id, env) => if id in p.requests then Call(p, id, p.requests[id], env) else p
    case HandleDeployed(msg, ids, fails) => if msg in p.deployed then TakeDeployed(p, msg, ids, fails) else p
    case LoseDeployed(msg) => p.(deployed := p.deployed - multiset{msg})
    case Arrive(msg) => PublishDestroyed(p, msg)
    case Deliver(m, deleteWorks, publishWorks) =>
      if m < |p.destroyed| && !p.destroyed[m].settled then DeliverOnce(p, m, deleteWorks, publishWorks) else p
  }

  // ---------- The invariant ----------

  ghost predicate RowInv(p: Platform, i: Uuid)
    requires i in p.db.streams && i in p.commits
  {
    && (forall t :: |OfType(p.db, Egress(i, t))| == p.commits[i])
    && (p.db.streams[i].deployed <==> p.commits[i] > 0)
  }

  ghost predicate TablesInv(p: Platform) {
    && UniqueColumns(p.db) && EgressesRefer(p.db)
    && p.commits.Keys == p.db.streams.Keys
    && (forall i :: i in p.db.streams ==> RowInv(p, i))
  }

  // The only deployed messages are the stub's.
  ghost predicate BusInv(p: Platform) {
    forall msg :: msg in p.deployed ==> msg.deployed && msg.egresses == STANDALONE_EGRESSES
  }

  function Attempts(log: seq<Entry>, m: nat): nat {
    if log == [] then 0
    else Attempts(log[..|log| - 1], m) + if log[|log| - 1].Tried? && log[|log| - 1].message == m then 1 else 0
  }

  ghost predicate MessageInv(p: Platform, m: nat)
    requires m < |p.destroyed|
  {
    var d := p.destroyed[m];
    && d.count <= RETRY + 1 && (d.count == RETRY + 1 ==> d.settled)
    && Attempts(p.log, m) <= d.count && Attempts(p.log, m) <= RETRY
  }

  // A notification directly follows the successful delete of the same delivery of the same message.
  ghost predicate LogInv(log: seq<Entry>) {
    forall i :: 0 <= i < |log| && log[i].Notified?
        ==> i > 0 && log[i - 1] == Tried(log[i].message, log[i].delivery, true)
  }

  ghost predicate MessagesInv(p: Platform) {
    && (forall m :: 0 <= m < |p.destroyed| ==> MessageInv(p, m))
    && (forall i :: 0 <= i < |p.log| ==> p.log[i].message < |p.destroyed|)
    && LogInv(p.log)
  }

  ghost predicate Inv(p: Platform) {
    TablesInv(p) && BusInv(p) && MessagesInv(p)
  }

  // ---------- Each step keeps it ----------

  lemma InsertKeepsTables(p: Platform, token: UserToken, env: CallEnv)
    requires TablesInv(p) && Insert(p.db, token, env).Ok?
    ensures TablesInv(p.(db := Insert(p.db, token, env).value, commits := p.commits[env.rowId := 0]))
  {
    var q := p.(db := Insert(p.db, token, env).value, commits := p.commits[env.rowId := 0]);
    assert forall t :: OfType(q.db, Egress(env.rowId, t)) == {};
    assert forall e :: OfType(q.db, e) == OfType(p.db, e);
    forall i | i in q.db.streams
      ensures RowInv(q, i)
    {
      assert i != env.rowId ==> RowInv(p, i);
    }
  }

  lemma DeleteKeepsTables(p: Platform, broadcasterId: Uuid)
    requires TablesInv(p)
    ensures TablesInv(DeleteStreams(p, broadcasterId))
  {
    var q := DeleteStreams(p, broadcasterId);
    DeleteCounts(p.db, broadcasterId);
    forall i | i in q.db.streams
      ensures RowInv(q, i)
    {
      assert RowInv(p, i) && forall t :: OfType(q.db, Egress(i, t)) == OfType(p.db, Egress(i, t));
    }
  }

  lemma UpdateKeepsUnique(db: StreamDb, broadcasterId: Uuid, deployed: bool)
    requires UniqueColumns(db) && UpdateDeployedStatusByBroadcasterId(db, broadcasterId, deployed).Ok?
    ensures UniqueColumns(UpdateDeployedStatusByBroadcasterId(db, broadcasterId, deployed).value.0)
  {
  }

  lemma DeployKeepsTables(p: Platform, msg: IngestDeployed, ids: nat -> Uuid, fails: TxPoint -> bool)
    requires TablesInv(p) && BusInv(p) && msg in p.deployed
    ensures TablesInv(TakeDeployed(p, msg, ids, fails))
  {
    hide InsertAll, UniqueColumns;
    var q := TakeDeployed(p, msg, ids, fails);
    if DeployedTx(p.db, msg, ids, fails).Some? {
      var b := msg.broadcasterId.value;
      var row := StreamOf(p.db, b).value;
      var updated := UpdateDeployedStatusByBroadcasterId(p.db, b, true).value.0;
      UpdateKeepsUnique(p.db, b, true);
      forall e
        ensures |OfType(q.db, e)| == |OfType(p.db, e)| + if e.activeStreamId == row then 1 else 0
        ensures q.db.streams == updated.streams && EgressesRefer(q.db)
      {
        InsertAllCounts(updated, EgressRows(msg.egresses, row), ids, e);
        assert OfType(updated, e) == OfType(p.db, e);
        StandaloneRows(row, e);
      }
      UniqueByStreams(updated, q.db);
      forall i | i in q.db.streams
        ensures RowInv(q, i)
      {
        assert RowInv(p, i);
      }
    } else {
      forall i | i in q.db.streams
        ensures RowInv(q, i)
      {
        assert RowInv(p, i);
      }
    }
  }

  // A deployed message of the stub has one egress of each type.
  lemma StandaloneRows(row: Uuid, egress: Egress)
    ensures multiset(EgressRows(STANDALONE_EGRESSES, row))[egress] == if egress.activeStreamId == row then 1 else 0
  {
    assert EgressRows(STANDALONE_EGRESSES, row) == [Egress(row, WEBRTC), Egress(row, HLS)];
    match egress.egressType case WEBRTC => case HLS =>
  }

  lemma UniqueByStreams(d: StreamDb, e: StreamDb)
    requires UniqueColumns(d) && e.streams == d.streams
    ensures UniqueColumns(e)
  {
  }

  lemma SameTables(p: Platform, q: Platform)
    requires TablesInv(p) && q.db == p.db && q.commits == p.commits
    ensures TablesInv(q)
  {
    forall i | i in q.db.streams
      ensures RowInv(q, i)
    {
      assert RowInv(p, i);
    }
  }

  lemma AttemptsAppend(log: seq<Entry>, e: Entry, m: nat)
    ensures Attempts(log + [e], m) == Attempts(log, m) + if e.Tried? && e.message == m then 1 else 0
  {
    assert (log + [e])[..|log|] == log;
  }

  // The log has no attempt of a message not yet published.
  lemma {:induction false} NoAttemptsYet(log: seq<Entry>, m: nat)
    requires forall i :: 0 <= i < |log| ==> log[i].message < m
    ensures Attempts(log, m) == 0
  {
    if log != [] {
      NoAttemptsYet(log[..|log| - 1], m);
    }
  }

  lemma PublishKeeps(p: Platform, msg: IngestDestroyed)
    requires Inv(p)
    ensures Inv(PublishDestroyed(p, msg))
  {
    hide TablesInv, RowInv, Attempts;
    var q := PublishDestroyed(p, msg);
    SameTables(p, q);
    forall m | 0 <= m < |q.destroyed|
      ensures MessageInv(q, m)
    {
      if m < |p.destroyed| {
        assert MessageInv(p, m);
      } else {
        NoAttemptsYet(p.log, m);
      }
    }
  }

  lemma DeliverKeepsMessages(p: Platform, m: nat, deleteWorks: bool, publishWorks: bool)
    requires MessagesInv(p) && m < |p.destroyed| && !p.destroyed[m].settled
    ensures MessagesInv(DeliverOnce(p, m, deleteWorks, publishWorks))
  {
    hide Attempts, DeleteActiveStreamByBroadcasterId;
    var q := DeliverOnce(p, m, deleteWorks, publishWorks);
    var n := p.destroyed[m].count + 1;
    var h := HandleDestroyed(p.db, p.destroyed[m].msg, n, deleteWorks, publishWorks);
    assert MessageInv(p, m);
    forall k | 0 <= k < |q.destroyed|
      ensures MessageInv(q, k)
    {
      assert MessageInv(p, k);
      if h.deleted.Some? {
        AttemptsAppend(p.log, Tried(m, n, h.deleted.value), k);
        AttemptsAppend(p.log + [Tried(m, n, h.deleted.value)], Notified(m, n), k);
        assert p.log + [Tried(m, n, h.deleted.value)] + [] == p.log + [Tried(m, n, h.deleted.value)];
      } else {
        assert p.log + [] + [] == p.log;
      }
    }
  }

  lemma DeliverKeeps(p: Platform, m: nat, deleteWorks: bool, publishWorks: bool)
    requires Inv(p) && m < |p.destroyed| && !p.destroyed[m].settled
    ensures Inv(DeliverOnce(p, m, deleteWorks, publishWorks))
  {
    hide TablesInv, MessagesInv;
    var q := DeliverOnce(p, m, deleteWorks, publishWorks);
    var d := p.destroyed[m];
    var h := HandleDestroyed(p.db, d.msg, d.count + 1, deleteWorks, publishWorks);
    DeliverKeepsMessages(p, m, deleteWorks, publishWorks);
    if h.deleted == Some(true) {
      DeleteKeepsTables(p, d.msg.broadcasterId.value);
      SameTables(DeleteStreams(p, d.msg.broadcasterId.value), q);
    } else {
      LiveIsSame(p);
      SameTables(p, q);
    }
  }

  lemma LiveIsSame(p: Platform)
    requires TablesInv(p)
    ensures Live(p.commits, p.db) == p.commits
  {
  }

  lemma SameMessages(p: Platform, q: Platform)
    requires MessagesInv(p) && q.destroyed == p.destroyed && q.log == p.log
    ensures MessagesInv(q)
  {
    forall m | 0 <= m < |q.destroyed|
      ensures MessageInv(q, m)
    {
      assert MessageInv(p, m);
    }
  }

  lemma CallKeeps(p: Platform, id: nat, env: CallEnv)
    requires Inv(p) && id in p.requests
    ensures Inv(Call(p, id, p.requests[id], env))
  {
    hide TablesInv, MessagesInv, DeleteStreams, PublishDestroyed;
    UniqueOfTables(p);
    var r := p.requests[id];
    var q := Call(p, id, r, env);
    match r {
      case CallingStart(_) => SameTables(p, q); SameMessages(p, q);
      case Inserting(token) =>
        SameMessages(p, q);
        if Insert(p.db, token, env).Ok? {
          InsertKeepsTables(p, token, env);
          SameTables(p.(db := Insert(p.db, token, env).value, commits := p.commits[env.rowId := 0]), q);
        } else {
          SameTables(p, q);
        }
      case Compensating(token) =>
        PublishKeeps(p, DestroyedMessage(token.userId));
        SameAll(PublishDestroyed(p, DestroyedMessage(token.userId)), q);
      case Getting(_) => SameTables(p, q); SameMessages(p, q);
      case Deleting(token) =>
        DeleteKeepsTables(p, token.userId);
        DeleteFrame(p, token.userId);
        if env.deleteFails {
          SameAll(p, q);
        } else {
          SameMessages(p, q);
          SameTables(DeleteStreams(p, token.userId), q);
        }
      case CallingStop(token) =>
        PublishKeeps(p, DestroyedMessage(token.userId));
        SameAll(PublishDestroyed(p, DestroyedMessage(token.userId)), q);
    }
  }

  lemma UniqueOfTables(p: Platform)
    requires TablesInv(p)
    ensures UniqueColumns(p.db)
  {
  }

  lemma DeleteFrame(p: Platform, broadcasterId: Uuid)
    ensures var q := DeleteStreams(p, broadcasterId);
            q.destroyed == p.destroyed && q.log == p.log && q.deployed == p.deployed && q.requests == p.requests
  {
  }

  lemma SameAll(p: Platform, q: Platform)
    requires Inv(p) && q == p.(requests := q.requests)
    ensures Inv(q)
  {
    hide TablesInv, MessagesInv;
    SameTables(p, q);
    SameMessages(p, q);
  }

  lemma StepKeeps(p: Platform, e: Event)
    requires Inv(p)
    ensures Inv(Step(p, e))
  {
    hide TablesInv, MessagesInv, Call, DeliverOnce, PublishDestroyed;
    UniqueOfTables(p);
    var q := Step(p, e);
    match e {
      case BeginStart(_, _) => SameAll(p, q);
      case BeginStop(_, _) => SameAll(p, q);
      case Proceed(id, env) =>
        if id in p.requests {
          CallKeeps(p, id, env);
        }
      case HandleDeployed(msg, ids, fails) =>
        if msg in p.deployed {
          DeployKeepsTables(p, msg, ids, fails);
        }
        SameMessages(p, q);
      case LoseDeployed(_) => SameTables(p, q); SameMessages(p, q);
      case Arrive(msg) => PublishKeeps(p, msg);
      case Deliver(m, deleteWorks, publishWorks) =>
        if m < |p.destroyed| && !p.destroyed[m].settled {
          DeliverKeeps(p, m, deleteWorks, publishWorks);
        }
    }
  }

  // ---------- Every run ----------

  ghost function Run(p: Platform, events: seq<Event>): Platform
    requires Inv(p)
    decreases |events|
  {
    if events == [] then p
    else
      StepKeeps(p, events[0]);
      Run(Step(p, events[0]), events[1..])
  }

  lemma {:induction false} RunKeeps(p: Platform, events: seq<Event>)
    requires Inv(p)
    ensures Inv(Run(p, events))
    decreases |events|
  {
    InvGivesUnique(p);
    hide Inv, Step;
    if events != [] {
      StepKeeps(p, events[0]);
      RunKeeps(Step(p, events[0]), events[1..]);
    }
  }

  lemma EmptyInv()
    ensures Inv(EMPTY)
  {
  }

  // In every interleaving: at most one row a broadcaster, a username and a deployment; every egress refers to a live
  // row; a row is marked deployed exactly when it has egresses; and it has two for each deployed transaction committed
  // since its insertion, one of each type.
  lemma RowsMatchEgresses(events: seq<Event>)
    ensures Inv(EMPTY)
    ensures var q := Run(EMPTY, events);
            && UniqueColumns(q.db) && EgressesRefer(q.db) && q.commits.Keys == q.db.streams.Keys
            && forall i :: i in q.db.streams ==>
                 && |EgressesOf(q.db, i)| == 2 * q.commits[i]
                 && (forall t :: |OfType(q.db, Egress(i, t))| == q.commits[i])
                 && (q.db.streams[i].deployed <==> EgressesOf(q.db, i) != {})
  {
    EmptyInv();
    RunKeeps(EMPTY, events);
    var q := Run(EMPTY, events);
    forall i | i in q.db.streams
      ensures |EgressesOf(q.db, i)| == 2 * q.commits[i] && forall t :: |OfType(q.db, Egress(i, t))| == q.commits[i]
      ensures q.db.streams[i].deployed <==> EgressesOf(q.db, i) != {}
    {
      assert RowInv(q, i);
      TypesMakeAll(q.db, i);
      assert EgressesOf(q.db, i) == {} <==> |EgressesOf(q.db, i)| == 0;
    }
  }

  // In every interleaving: a destroyed message is settled after at most four deliveries, its delete is attempted
  // at most three times, and each notification directly follows a successful delete of the same delivery.
  lemma DestroyedMessagesSettle(events: seq<Event>)
    ensures Inv(EMPTY)
    ensures var q := Run(EMPTY, events);
            && (forall m :: 0 <= m < |q.destroyed| ==>
                  && q.destroyed[m].count <= 4 && (q.destroyed[m].count == 4 ==> q.destroyed[m].settled)
                  && Attempts(q.log, m) <= 3)
            && forall i :: 0 <= i < |q.log| && q.log[i].Notified? ==>
                 i > 0 && q.log[i - 1] == Tried(q.log[i].message, q.log[i].delivery, true)
  {
    EmptyInv();
    RunKeeps(EMPTY, events);
    var q := Run(EMPTY, events);
    forall m | 0 <= m < |q.destroyed|
      ensures q.destroyed[m].count <= 4 && (q.destroyed[m].count == 4 ==> q.destroyed[m].settled)
      ensures Attempts(q.log, m) <= 3
    {
      assert MessageInv(q, m);
    }
  }

  // Each delivery of an unsettled message uses up one of its four deliveries, and nothing gives one back.
  lemma DeliveriesRunOut(p: Platform, e: Event, m: nat)
    requires Inv(p) && m < |p.destroyed|
    ensures var q := Step(p, e);
            && m < |q.destroyed| && q.destroyed[m].msg == p.destroyed[m].msg
            && (p.destroyed[m].settled ==> q.destroyed[m] == p.destroyed[m])
            && 4 - q.destroyed[m].count <= 4 - p.destroyed[m].count
            && (!p.destroyed[m].settled && e.Deliver? && e.index == m ==>
                  0 <= 4 - q.destroyed[m].count < 4 - p.destroyed[m].count)
  {
    hide TablesInv, DeleteActiveStreamByBroadcasterId, DeployedTx, Insert, Attempts, LogInv, BusInv, HandleDestroyed;
    UniqueOfTables(p);
    assert MessageInv(p, m);
  }

  // What settling a message means: its broadcaster's row is gone and the notification sent, or the message is unusable
  // or out of deliveries and nothing is touched. A message left for redelivery has deleted the row or done nothing.
  lemma DeliveryDecides(p: Platform, m: nat, deleteWorks: bool, publishWorks: bool)
    requires Inv(p) && m < |p.destroyed| && !p.destroyed[m].settled
    ensures var d, q := p.destroyed[m], Step(p, Deliver(m, deleteWorks, publishWorks));
            var tries := d.msg.hasMetadata && d.msg.decodes && d.msg.broadcasterId.Some? && d.count < 3;
            && (q.destroyed[m].settled <==> !tries || (deleteWorks && publishWorks))
            && (tries && deleteWorks ==>
                  forall i :: i in q.db.streams
                      <==> i in p.db.streams && p.db.streams[i].broadcasterId != d.msg.broadcasterId.value)
            && (tries && deleteWorks ==>
                  forall e :: e in q.db.egresses
                      <==> e in p.db.egresses && p.db.egresses[e].activeStreamId in q.db.streams)
            && (!tries || !deleteWorks ==> q.db == p.db)
            && (Notified(m, d.count + 1) in q.log[|p.log|..] <==> tries && deleteWorks && publishWorks)
  {
    hide RowInv, Attempts, MessageInv, LogInv, BusInv;
    UniqueOfTables(p);
    var d, q := p.destroyed[m], Step(p, Deliver(m, deleteWorks, publishWorks));
    var h := HandleDestroyed(p.db, d.msg, d.count + 1, deleteWorks, publishWorks);
    assert q.log[|p.log|..] == (if h.deleted.Some? then [Tried(m, d.count + 1, h.deleted.value)] else [])
                               + (if h.notified then [Notified(m, d.count + 1)] else []);
  }

  // A row leaves the table only by a stop of its broadcaster, or by a destroyed message of its broadcaster.
  lemma RowsLeaveByTheirBroadcaster(p: Platform, e: Event, i: Uuid)
    requires Inv(p) && i in p.db.streams && i !in Step(p, e).db.streams
    ensures var b := p.db.streams[i].broadcasterId;
            || (e.Proceed? && e.id in p.requests && p.requests[e.id].Deleting? && p.requests[e.id].token.userId == b)
            || (e.Deliver? && e.index < |p.destroyed| && p.destroyed[e.index].msg.broadcasterId == Some(b)
                && e.deleteWorks)
  {
    hide MessagesInv, BusInv, EgressesRefer, InsertAll;
    if e.HandleDeployed? && e.msg in p.deployed && DeployedTx(p.db, e.msg, e.ids, e.fails).Some? {
      var row := StreamOf(p.db, e.msg.broadcasterId.value).value;
      var updated := UpdateDeployedStatusByBroadcasterId(p.db, e.msg.broadcasterId.value, e.msg.deployed).value.0;
      InsertAllCounts(updated, EgressRows(e.msg.egresses, row), e.ids, Egress(row, HLS));
    }
  }

  // ---------- What the interleavings do not promise ----------

  lemma {:induction false} RunSnoc(p: Platform, events: seq<Event>, e: Event)
    requires Inv(p)
    ensures Inv(Run(p, events))
    ensures Run(p, events + [e]) == Step(Run(p, events), e)
    decreases |events|
  {
    hide Inv, Step;
    InvGivesUnique(p);
    if events == [] {
      assert [e] == events + [e] && [e][1..] == [];
      StepKeeps(p, e);
    } else {
      StepKeeps(p, events[0]);
      assert (events + [e])[1..] == events[1..] + [e];
      RunSnoc(Step(p, events[0]), events[1..], e);
    }
  }

  lemma InvGivesUnique(p: Platform)
    requires Inv(p)
    ensures UniqueColumns(p.db)
  {
  }

  ghost predicate Reachable(q: Platform) {
    Inv(EMPTY) && exists events :: Run(EMPTY, events) == q
  }

  lemma ReachEmpty()
    ensures Reachable(EMPTY)
  {
    EmptyInv();
    assert Run(EMPTY, []) == EMPTY;
  }

  lemma ReachStep(p: Platform, e: Event)
    requires Reachable(p)
    ensures UniqueColumns(p.db) && Reachable(Step(p, e))
  {
    var events :| Run(EMPTY, events) == p;
    RunKeeps(EMPTY, events);
    InvGivesUnique(p);
    RunSnoc(EMPTY, events, e);
  }

  const ALICE := UserToken(7, "alice")

  function Fine(rowId: Uuid): CallEnv {
    CallEnv(rowId, "default", false, false, false, false, false)
  }

  // A start of Alice's that no one interferes with, up to and after the insert of its row.
  lemma AliceStarts(p: Platform, rowId: Uuid)
    requires Reachable(p) && 0 !in p.requests && p.db.streams == map[]
    ensures Reachable(Move(p.(deployed := p.deployed + multiset{DeployedMessage(7)}), 0, Inserting(ALICE)))
  {
    hide Reachable;
    var e := BeginStart(0, ALICE);
    ReachStep(p, e);
    var p1 := Step(p, e);
    ReachStep(p1, Proceed(0, Fine(rowId)));
    assert p1.requests[0 := Inserting(ALICE)] == p.requests[0 := Inserting(ALICE)];
  }

  lemma AliceInserts(p: Platform, rowId: Uuid)
    requires Reachable(p) && 0 in p.requests && p.requests[0] == Inserting(ALICE) && p.db.streams == map[]
    ensures Reachable(Leave(p.(db :=
                               p.db.(streams := map[rowId := Stream(false, false, 7, "alice", "default", "alice")]),
                               commits := p.commits[rowId := 0]), 0))
  {
    hide Reachable;
    ReachStep(p, Proceed(0, Fine(rowId)));
    assert |ALICE.sub| == 5 && |Fine(rowId).namespace| == 7;
  }

  // A deployed message that is handled before the row is inserted is lost: the start has succeeded, nothing is in
  // flight, and the row stays undeployed.
  lemma DeployedCanBeLost()
    ensures exists q :: Reachable(q) && q.requests == map[] && q.deployed == multiset{}
                        && q.db.streams.Keys == {1} && !q.db.streams[1].deployed
  {
    hide Reachable;
    ReachEmpty();
    AliceStarts(EMPTY, 1);
    var p := Move(EMPTY.(deployed := multiset{} + multiset{DeployedMessage(7)}), 0, Inserting(ALICE));
    var e := HandleDeployed(DeployedMessage(7), n => n, point => false);
    ReachStep(p, e);
    var q := Step(p, e);
    assert q == p.(deployed := multiset{});
    AliceInserts(q, 1);
  }

  lemma AliceStops(p: Platform)
    requires Reachable(p) && p.requests == map[] && p.db.streams.Keys == {1} && p.db.streams[1].broadcasterId == 7
    ensures exists q :: Reachable(q) && q.requests == map[] && q.db.streams == map[] && q.deployed == p.deployed
                        && q.destroyed == p.destroyed + [Delivery(DestroyedMessage(7), 0, false)]
  {
    hide Reachable;
    ReachStep(p, BeginStop(0, ALICE));
    var p1 := Step(p, BeginStop(0, ALICE));
    ReachStep(p1, Proceed(0, Fine(1)));
    var p2 := Step(p1, Proceed(0, Fine(1)));
    assert p2.requests == map[0 := Deleting(ALICE)];
    ReachStep(p2, Proceed(0, Fine(1)));
    var p3 := Step(p2, Proceed(0, Fine(1)));
    assert p3.db.streams == map[] && p3.requests == map[0 := CallingStop(ALICE)];
    ReachStep(p3, Proceed(0, Fine(1)));
    var p4 := Step(p3, Proceed(0, Fine(1)));
    assert p4.requests == map[];
  }

  // A destroyed message can outlive a restart: published by the stop of one stream, it is delivered after the next
  // start has inserted its row, and deletes that row.
  lemma DestroyedCanHitNewRow()
    ensures exists q :: && Reachable(q) && q.requests == map[]
                        && |q.destroyed| == 1 && !q.destroyed[0].settled && q.db.streams.Keys == {2}
                        && UniqueColumns(q.db) && Step(q, Deliver(0, true, true)).db.streams == map[]
  {
    hide Reachable;
    ReachEmpty();
    AliceStarts(EMPTY, 1);
    var p := Move(EMPTY.(deployed := multiset{} + multiset{DeployedMessage(7)}), 0, Inserting(ALICE));
    AliceInserts(p, 1);
    var running := Leave(p.(db := p.db.(streams := map[1 := Stream(false, false, 7, "alice", "default", "alice")]),
                            commits := p.commits[1 := 0]), 0);
    assert running.requests == map[];
    AliceStops(running);
    var stopped :| Reachable(stopped) && stopped.requests == map[] && stopped.db.streams == map[]
                   && stopped.destroyed == running.destroyed + [Delivery(DestroyedMessage(7), 0, false)];
    AliceStarts(stopped, 2);
    var again := Move(stopped.(deployed := stopped.deployed + multiset{DeployedMessage(7)}), 0, Inserting(ALICE));
    AliceInserts(again, 2);
    var q := Leave(again.(db := again.db.(streams := map[2 := Stream(false, false, 7, "alice", "default", "alice")]),
                          commits := again.commits[2 := 0]), 0);
    assert q.requests == map[];
    assert UniqueColumns(q.db) && Step(q, Deliver(0, true, true)).db.streams == map[];
  }

  // ---------- A request that runs alone ----------

  // The calls of one request, one after the other, with no other step in between.
  ghost function Drive(p: Platform, id: nat, env: CallEnv, calls: nat): Platform
    requires Inv(p)
    decreases calls
  {
    if calls == 0 || id !in p.requests then p
    else
      CallKeeps(p, id, env);
      Drive(Call(p, id, p.requests[id], env), id, env, calls - 1)
  }

  function Sent(destroyed: seq<Delivery>): seq<IngestDestroyed> {
    seq(|destroyed|, i requires 0 <= i < |destroyed| => destroyed[i].msg)
  }

  // Tables and messages after a request, as the service's own methods leave them.
  ghost predicate LeavesAs(p: Platform, q: Platform, s: Streaming) {
    && q.requests == p.requests && q.db == s.db
    && q.deployed == p.deployed + multiset(s.deployed)
    && Sent(q.destroyed) == Sent(p.destroyed) + s.destroyed
  }

  lemma StopAlone(p: Platform, id: nat, token: UserToken, env: CallEnv)
    requires Inv(p) && id !in p.requests
    ensures Inv(Step(p, BeginStop(id, token)))
    ensures LeavesAs(p, Drive(Step(p, BeginStop(id, token)), id, env, 4),
                     StopSpec(Streaming(p.db, [], []), token, env).0)
  {
    hide Inv, StopSpec, Drive;
    InvGivesUnique(p);
    StepKeeps(p, BeginStop(id, token));
    GettingAlone(Step(p, BeginStop(id, token)), id, token, env, 1);
    assert p.requests == Step(p, BeginStop(id, token)).requests - {id};
  }

  // The calls of a stop, from its read of the row on.
  lemma GettingAlone(p: Platform, id: nat, token: UserToken, env: CallEnv, spare: nat)
    requires Inv(p) && id in p.requests && p.requests[id] == Getting(token)
    ensures LeavesAs(Leave(p, id), Drive(p, id, env, 3 + spare), StopSpec(Streaming(p.db, [], []), token, env).0)
  {
    hide Inv, DeleteActiveStreamByBroadcasterId;
    InvGivesUnique(p);
    CallKeeps(p, id, env);
    var p1 := Call(p, id, Getting(token), env);
    if id in p1.requests {
      CallKeeps(p1, id, env);
      InvGivesUnique(p1);
      var p2 := Call(p1, id, Deleting(token), env);
      if id in p2.requests {
        CallKeeps(p2, id, env);
        InvGivesUnique(p2);
        var p3 := Call(p2, id, CallingStop(token), env);
        assert p3.requests == p.requests - {id};
        assert Sent(p3.destroyed) == Sent(p.destroyed) + [DestroyedMessage(token.userId)];
        assert Drive(p, id, env, 3 + spare) == Drive(p1, id, env, 2 + spare) == Drive(p2, id, env, 1 + spare)
               == Drive(p3, id, env, spare);
      } else {
        assert p2.requests == p.requests - {id};
        assert Drive(p, id, env, 3 + spare) == Drive(p1, id, env, 2 + spare) == Drive(p2, id, env, 1 + spare);
      }
    } else {
      assert Drive(p, id, env, 3 + spare) == Drive(p1, id, env, 2 + spare);
    }
  }

  // The calls of a start, from its insert on.
  lemma InsertingAlone(p: Platform, id: nat, token: UserToken, env: CallEnv, spare: nat)
    requires Inv(p) && id in p.requests && p.requests[id] == Inserting(token) && !env.startFails
    ensures var q := Drive(p, id, env, 2 + spare);
            var s := StartSpec(Streaming(p.db, [], []), token, env).0;
            && q.requests == p.requests - {id} && q.db == s.db && q.deployed == p.deployed
            && Sent(q.destroyed) == Sent(p.destroyed) + s.destroyed
  {
    hide Inv, InsertActiveStream;
    InvGivesUnique(p);
    CallKeeps(p, id, env);
    var p1 := Call(p, id, Inserting(token), env);
    if id in p1.requests {
      CallKeeps(p1, id, env);
      InvGivesUnique(p1);
      var p2 := Call(p1, id, Compensating(token), env);
      assert p2.requests == p.requests - {id};
      assert Sent(p2.destroyed) == Sent(p.destroyed) + [DestroyedMessage(token.userId)];
      assert Drive(p, id, env, 2 + spare) == Drive(p1, id, env, 1 + spare) == Drive(p2, id, env, spare);
    } else {
      assert Drive(p, id, env, 2 + spare) == Drive(p1, id, env, 1 + spare);
    }
  }

  // What the rest of a start adds to the message it has already published.
  lemma StartSpecParts(db: StreamDb, token: UserToken, env: CallEnv)
    requires UniqueColumns(db)
    ensures var s := StartSpec(Streaming(db, [], []), token, env).0;
            && s.deployed == [DeployedMessage(token.userId)]
            && (env.startFails ==>
                  var stopped := StopSpec(Streaming(db, [], []), token, env).0;
                  s.db == stopped.db && s.destroyed == stopped.destroyed && stopped.deployed == [])
  {
    hide DeleteActiveStreamByBroadcasterId, Insert, UniqueColumns;
  }

  // Driven alone, the calls of a start come to what StartIngestServer does.
  lemma StartAlone(p: Platform, id: nat, token: UserToken, env: CallEnv)
    requires Inv(p) && id !in p.requests
    ensures Inv(Step(p, BeginStart(id, token)))
    ensures LeavesAs(p, Drive(Step(p, BeginStart(id, token)), id, env, 4),
                     StartSpec(Streaming(p.db, [], []), token, env).0)
  {
    hide Inv, StartSpec, StopSpec;
    InvGivesUnique(p);
    StartSpecParts(p.db, token, env);
    StepKeeps(p, BeginStart(id, token));
    var p0 := Step(p, BeginStart(id, token));
    CallKeeps(p0, id, env);
    var p1 := Call(p0, id, CallingStart(token), env);
    assert Drive(p0, id, env, 4) == Drive(p1, id, env, 3);
    assert p1.requests - {id} == p.requests;
    if env.startFails {
      GettingAlone(p1, id, token, env, 0);
    } else {
      InsertingAlone(p1, id, token, env, 1);
    }
  }
}
