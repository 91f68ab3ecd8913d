/** Starting and stopping one ingest: six goroutines against the cluster, one leased port, one message.
    Every API call may be refused, or take effect and lose its reply; the goroutines run in any order. */
module IngestSystems {
  import opened Wrappers
  import opened PortRanges
  import opened IngestResources
  import opened WebrtcRaces
  import opened Bundles

  // ---------- The cluster API ----------

  datatype Answer = Works | Refused | ReplyLost

  // An object is read as the kind it is stored under.
  function Fetch(objects: Cluster, key: Key, answer: Answer): (r: Option<Object>)
    ensures r.Some? ==> OfKind(r.value, key.kind)
  {
    if answer.Works? && key in objects && OfKind(objects[key], key.kind) then Some(objects[key]) else None
  }

  function Created(objects: Cluster, key: Key, o: Object, answer: Answer): Cluster {
    if answer != Refused && key !in objects then objects[key := o] else objects
  }

  function Deleted(objects: Cluster, key: Key, answer: Answer): Cluster {
    if answer != Refused then objects - {key} else objects
  }

  class K8sClient {
    var objects: Cluster

    constructor ()
      ensures objects == map[]
    {
      objects := map[];
    }

    method Get(key: Key, answer: Answer) returns (r: Option<Object>)
      ensures r == Fetch(objects, key, answer)
    {
      r := if answer.Works? && key in objects && OfKind(objects[key], key.kind) then Some(objects[key]) else None;
    }

    method Create(key: Key, o: Object, answer: Answer) returns (ok: bool)
      modifies this
      ensures objects == Created(old(objects), key, o, answer)
      ensures ok <==> answer.Works? && key !in old(objects)
    {
      ok := answer.Works? && key !in objects;
      if answer != Refused && key !in objects {
        objects := objects[key := o];
      }
    }

    method Delete(key: Key, answer: Answer) returns (ok: bool)
      modifies this
      ensures objects == Deleted(old(objects), key, answer)
      ensures ok <==> answer.Works? && key in old(objects)
    {
      ok := answer.Works? && key in objects;
      if answer != Refused {
        objects := objects - {key};
      }
    }
  }

  predicate OwnedBy(o: Object, owner: string) {
    OWNED_BY in o.labels && o.labels[OWNED_BY] == owner
  }

  // The owner-checked getters: an object of another owner is not seen.
  function FetchOwned(objects: Cluster, key: Key, owner: string, answer: Answer): (r: Option<Object>)
    ensures r.Some? ==>
              && key in objects && r.value == objects[key]
              && OfKind(r.value, key.kind) && OwnedBy(r.value, owner)
  {
    var r := Fetch(objects, key, answer);
    if r.Some? && OwnedBy(r.value, owner) then r else None
  }

  // A read succeeds exactly when it is answered and finds an object of the key's kind that is labelled with the owner;
  // an object without that label, or with another owner's name in it, is not seen.
  lemma OwnedReadDecides(objects: Cluster, key: Key, owner: string, answer: Answer)
    ensures FetchOwned(objects, key, owner, answer)
            == if && answer == Works && key in objects
                  && "app.kubernetes.io/owned-by" in objects[key].labels
                  && objects[key].labels["app.kubernetes.io/owned-by"] == owner
                  && (key.kind == DeploymentKind <==> objects[key].Deployment?)
                  && (key.kind == ServiceKind <==> objects[key].Service?)
                  && (key.kind == GatewayKind <==> objects[key].Gateway?)
                  && (key.kind == VirtualServiceKind <==> objects[key].VirtualService?)
               then Some(objects[key]) else None
  {
  }

  // ---------- Start and Stop as functions ----------

  datatype Destroyed = Destroyed(broadcasterID: string, username: string)

  datatype OperatorState = OperatorState(objects: Cluster, pool: Pool, destroyed: seq<Destroyed>)

  datatype StartError = FullNodePortAssigned | UnableDeploy

  datatype StopError = UnableStop | UnablePortBack(cause: PortError) | NotFoundBroadcaster

  datatype StopAnswers = StopAnswers(get: Slot -> Answer, delete: Slot -> Answer, publish: Answer)

  const RELIABLE := StopAnswers(_ => Works, _ => Works, Works)

  function Keys(app: App): Slot -> Key {
    s => KeyOf(app, s)
  }

  function Objects(launch: Launch, port: Port): Slot -> Object {
    s => Build(launch, port, s)
  }

  lemma KeysAreInjective(app: App)
    ensures Injective(Keys(app))
  {
    SlotsHaveOwnKeys(app);
    assert forall s :: Keys(app)(s) == KeyOf(app, s);
  }

  // The slots whose Create takes effect.
  ghost function Effective(objects: Cluster, key: Slot -> Key, answers: Slot -> Answer, slots: set<Slot>): set<Slot> {
    set s | s in slots && answers(s) != Refused && key(s) !in objects
  }

  // The cluster once the goroutines of the given slots have run.
  ghost function Started(objects: Cluster, launch: Launch, port: Port, answers: Slot -> Answer,
                         slots: set<Slot>)
    : Cluster
  {
    KeysAreInjective(launch.app);
    Put(objects, Effective(objects, Keys(launch.app), answers, slots), Keys(launch.app), Objects(launch, port))
  }

  ghost predicate AllStart(objects: Cluster, key: Slot -> Key, answers: Slot -> Answer, slots: set<Slot>) {
    forall s :: s in slots ==> answers(s).Works? && key(s) !in objects
  }

  lemma StartedOneMore(objects: Cluster, launch: Launch, port: Port, answers: Slot -> Answer, slots: set<Slot>,
                       slot: Slot)
    requires slot !in slots
    ensures var key := Keys(launch.app)(slot);
            var before := Started(objects, launch, port, answers, slots);
            && (key in before <==> key in objects)
            && Started(objects, launch, port, answers, slots + {slot})
               == Created(before, key, Objects(launch, port)(slot), answers(slot))
  {
    var key := Keys(launch.app);
    KeysAreInjective(launch.app);
    var few := Effective(objects, key, answers, slots);
    var more := Effective(objects, key, answers, slots + {slot});
    PutOneMore(objects, few, slot, key, Objects(launch, port));
    assert more == if answers(slot) != Refused && key(slot) !in objects then few + {slot} else few;
  }

  ghost function StartSpec(state: OperatorState, launch: Launch, answers: Slot -> Answer)
    : (r: (OperatorState, Option<StartError>))
    requires state.pool.Valid()
    ensures r.0.pool.Valid()
  {
    var (leased, port) := Lease(state.pool);
    if port.None? then (state, Some(FullNodePortAssigned))
    else
      var objects := Started(state.objects, launch, port.value, answers, ALL_SLOTS);
      if AllStart(state.objects, Keys(launch.app), answers, ALL_SLOTS) then
        (state.(objects := objects, pool := leased), None)
      else
        (state.(objects := objects, pool := GiveBack(leased, port.value).0), Some(UnableDeploy))
  }

  function Seen(objects: Cluster, app: App, answers: StopAnswers, slot: Slot): Option<Object> {
    FetchOwned(objects, Keys(app)(slot), app.name, answers.get(slot))
  }

  predicate SlotStops(objects: Cluster, app: App, answers: StopAnswers, slot: Slot) {
    Seen(objects, app, answers, slot).Some? && answers.delete(slot).Works?
  }

  ghost predicate AllStop(objects: Cluster, app: App, answers: StopAnswers, slots: set<Slot>) {
    forall s :: s in slots ==> SlotStops(objects, app, answers, s)
  }

  // The slots whose Delete takes effect.
  ghost function Removed(objects: Cluster, app: App, answers: StopAnswers, slots: set<Slot>): set<Slot> {
    set s | s in slots && Seen(objects, app, answers, s).Some? && answers.delete(s) != Refused
  }

  // The cluster once the goroutines of the given slots have run.
  ghost function Stopped(objects: Cluster, app: App, answers: StopAnswers, slots: set<Slot>): Cluster {
    Cut(objects, Removed(objects, app, answers, slots), Keys(app))
  }

  // What changes when the goroutine of one more slot has run to its end.
  lemma StoppedOneMore(objects: Cluster, app: App, answers: StopAnswers, running: set<Slot>, slot: Slot)
    requires slot in running && running <= ALL_SLOTS
    ensures var key := Keys(app)(slot);
            var before := Stopped(objects, app, answers, ALL_SLOTS - running);
            && (key in before <==> key in objects) && (key in objects ==> before[key] == objects[key])
            && Stopped(objects, app, answers, ALL_SLOTS - (running - {slot}))
               == if Seen(objects, app, answers, slot).Some? then Deleted(before, key, answers.delete(slot)) else before
    ensures AllStop(objects, app, answers, ALL_SLOTS - (running - {slot}))
            <==> AllStop(objects, app, answers, ALL_SLOTS - running) && SlotStops(objects, app, answers, slot)
  {
    KeysAreInjective(app);
    var few := Removed(objects, app, answers, ALL_SLOTS - running);
    var more := Removed(objects, app, answers, ALL_SLOTS - (running - {slot}));
    assert ALL_SLOTS - (running - {slot}) == ALL_SLOTS - running + {slot};
    CutOneMore(objects, few, slot, Keys(app));
    var goes := Seen(objects, app, answers, slot).Some? && answers.delete(slot) != Refused;
    assert more == if goes then few + {slot} else few;
  }

  function BroadcasterOf(ingest: Option<Object>): string {
    if ingest.Some? && BROADCASTER_ID in ingest.value.labels then ingest.value.labels[BROADCASTER_ID] else ""
  }

  // The port that the race finds in the two captured objects.
  function RecoveredPort(objects: Cluster, app: App, answers: StopAnswers, svcWins: bool): Option<int32> {
    Pick(DeploymentPort(Seen(objects, app, answers, Ingest)),
         ServicePortOf(Seen(objects, app, answers, UdpGateway)), svcWins)
  }

  function GiveBackFound(pool: Pool, found: Option<int32>): (Pool, Option<PortError>) {
    if found.Some? then GiveBack(pool, ToPort(found.value)) else (pool, None)
  }

  ghost function StopSpec(state: OperatorState, app: App, answers: StopAnswers, svcWins: bool)
    : (r: (OperatorState, Option<StopError>))
    ensures state.pool.Valid() ==> r.0.pool.Valid()
  {
    var (pool, refusal) := GiveBackFound(state.pool, RecoveredPort(state.objects, app, answers, svcWins));
    var broadcasterID := BroadcasterOf(Seen(state.objects, app, answers, Ingest));
    var after := state.(objects := Stopped(state.objects, app, answers, ALL_SLOTS), pool := pool);
    if !AllStop(state.objects, app, answers, ALL_SLOTS) then (after, Some(UnableStop))
    else if refusal.Some? then (after, Some(UnablePortBack(refusal.value)))
    else if broadcasterID == "" then (after, Some(NotFoundBroadcaster))
    else if answers.publish == Refused then (after, None)
    else (after.(destroyed := state.destroyed + [Destroyed(broadcasterID, app.name)]), None)
  }

  // ---------- The system object ----------

  class IngestSystem {
    const k8s: K8sClient
    const nodePortRange: PortRange
    var destroyed: seq<Destroyed>

    ghost function State(): OperatorState
      reads this, k8s, nodePortRange
    {
      OperatorState(k8s.objects, nodePortRange.Contents(), destroyed)
    }

    constructor (k8s: K8sClient, nodePortRange: PortRange)
      ensures this.k8s == k8s && this.nodePortRange == nodePortRange && destroyed == []
    {
      this.k8s, this.nodePortRange, destroyed := k8s, nodePortRange, [];
    }

    // The six goroutines of Start, each one Create, in any order.
    method CreateBundle(launch: Launch, port: Port, answers: Slot -> Answer) returns (failed: bool)
      modifies k8s
      ensures k8s.objects == Started(old(k8s.objects), launch, port, answers, ALL_SLOTS)
      ensures failed <==> !AllStart(old(k8s.objects), Keys(launch.app), answers, ALL_SLOTS)
    {
      hide KeyOf, Build, FetchOwned;
      var pending := ALL_SLOTS;
      failed := false;
      while pending != {}
        invariant pending <= ALL_SLOTS
        invariant k8s.objects == Started(old(k8s.objects), launch, port, answers, ALL_SLOTS - pending)
        invariant failed <==> !AllStart(old(k8s.objects), Keys(launch.app), answers, ALL_SLOTS - pending)
      {
        var slot :| slot in pending;
        StartedOneMore(old(k8s.objects), launch, port, answers, ALL_SLOTS - pending, slot);
        var o := BuildObject(launch, port, slot);
        var ok := k8s.Create(Keys(launch.app)(slot), o, answers(slot));
        if !ok {
          failed := true;
        }
        assert ALL_SLOTS - pending + {slot} == ALL_SLOTS - (pending - {slot});
        pending := pending - {slot};
      }
      assert ALL_SLOTS - pending == ALL_SLOTS;
    }

    // Whatever order the goroutines run in, the outcome is that of StartSpec.
    method StartIngestSystem(launch: Launch, answers: Slot -> Answer) returns (err: Option<StartError>)
      requires nodePortRange.Valid()
      modifies k8s, nodePortRange
      ensures nodePortRange.Valid()
      ensures (State(), err) == StartSpec(old(State()), launch, answers)
    {
      var webrtcNodePort := nodePortRange.GetPort();
      if webrtcNodePort.None? {
        return Some(FullNodePortAssigned);
      }
      var failed := CreateBundle(launch, webrtcNodePort.value.port, answers);
      if failed {
        var _ := nodePortRange.PortBack(webrtcNodePort.value.port);
        return Some(UnableDeploy);
      }
      return None;
    }

    // The six goroutines of Stop, each a Get followed by a Delete, in any interleaving.
    method StopBundle(app: App, answers: StopAnswers)
      returns (failed: bool, ingestDeployment: Option<Object>, gatewayService: Option<Object>, broadcasterID: string)
      modifies k8s
      ensures k8s.objects == Stopped(old(k8s.objects), app, answers, ALL_SLOTS)
      ensures failed <==> !AllStop(old(k8s.objects), app, answers, ALL_SLOTS)
      ensures ingestDeployment == Seen(old(k8s.objects), app, answers, Ingest)
      ensures gatewayService == Seen(old(k8s.objects), app, answers, UdpGateway)
      ensures broadcasterID == BroadcasterOf(ingestDeployment)
    {
      hide KeyOf, Build;
      ghost var before := k8s.objects;
      var running, unread := ALL_SLOTS, ALL_SLOTS;
      failed, ingestDeployment, gatewayService, broadcasterID := false, None, None, "";
      while running != {}
        invariant unread <= running <= ALL_SLOTS
        invariant forall s :: s in running && s !in unread ==> Seen(before, app, answers, s).Some?
        invariant k8s.objects == Stopped(before, app, answers, ALL_SLOTS - running)
        invariant failed <==> !AllStop(before, app, answers, ALL_SLOTS - running)
        invariant ingestDeployment == if Ingest in unread then None else Seen(before, app, answers, Ingest)
        invariant gatewayService == if UdpGateway in unread then None else Seen(before, app, answers, UdpGateway)
        invariant broadcasterID == BroadcasterOf(ingestDeployment)
        decreases |running|, |unread|
      {
        var slot :| slot in running;
        StoppedOneMore(before, app, answers, running, slot);
        if slot in unread {
          var o := GetOwned(app, slot, answers);
          assert o == Seen(before, app, answers, slot);
          unread := unread - {slot};
          if slot == Ingest {
            ingestDeployment, broadcasterID := o, BroadcasterOf(o);
          } else if slot == UdpGateway {
            gatewayService := o;
          }
          if o.None? {
            failed := true;
            running := running - {slot};
          }
        } else {
          var ok := k8s.Delete(Keys(app)(slot), answers.delete(slot));
          if !ok {
            failed := true;
          }
          running := running - {slot};
        }
      }
      assert ALL_SLOTS - running == ALL_SLOTS;
    }

    method GetOwned(app: App, slot: Slot, answers: StopAnswers) returns (r: Option<Object>)
      ensures r == Seen(k8s.objects, app, answers, slot)
    {
      r := k8s.Get(Keys(app)(slot), answers.get(slot));
      if r.Some? && !OwnedBy(r.value, app.name) {
        return None;
      }
    }

    // Whatever order the goroutines run in, the outcome is that of StopSpec for one winner of the port race.
    method StopIngestSystem(app: App, answers: StopAnswers) returns (err: Option<StopError>, svcWins: bool)
      requires nodePortRange.Valid()
      modifies k8s, nodePortRange, this
      ensures nodePortRange.Valid()
      ensures (State(), err) == StopSpec(old(State()), app, answers, svcWins)
    {
      var failed, ingestDeployment, gatewayService, broadcasterID := StopBundle(app, answers);
      var dep := FindDeploymentIngestWebrtcPort(ingestDeployment);
      var svc := FindServiceIngestWebrtcPort(gatewayService);
      var found;
      found, svcWins := FindFirstWebrtcPort(dep, svc);
      var refusal: Option<PortError> := None;
      if found.Some? {
        refusal := nodePortRange.PortBack(ToPort(found.value));
      }
      if failed {
        return Some(UnableStop), svcWins;
      }
      if refusal.Some? {
        return Some(UnablePortBack(refusal.value)), svcWins;
      }
      if broadcasterID == "" {
        return Some(NotFoundBroadcaster), svcWins;
      }
      if answers.publish != Refused {
        destroyed := destroyed + [Destroyed(broadcasterID, app.name)];
      }
      return None, svcWins;
    }
  }
}
