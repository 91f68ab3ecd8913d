/** What Start and Stop promise about the cluster, the pool and each other. */
module IngestProperties {
  import opened Wrappers
  import opened PortRanges
  import opened IngestResources
  import opened WebrtcRaces
  import opened Bundles
  import opened IngestSystems

  // ---------- Ownership ----------

  lemma StoppedKeys(objects: Cluster, app: App, answers: StopAnswers, key: Key)
    ensures key in Stopped(objects, app, answers, ALL_SLOTS) ==>
              key in objects && Stopped(objects, app, answers, ALL_SLOTS)[key] == objects[key]
    ensures key in objects && key !in Stopped(objects, app, answers, ALL_SLOTS) <==>
            exists s :: Seen(objects, app, answers, s).Some? && answers.delete(s) != Refused && key == Keys(app)(s)
  {
    var gone := Removed(objects, app, answers, ALL_SLOTS);
    if key in objects && key !in Stopped(objects, app, answers, ALL_SLOTS) {
      var s :| s in gone && Keys(app)(s) == key;
    }
  }

  // From any cluster, under any API failures and any order of the goroutines, Stop of an app deletes only objects
  // labelled as owned by that app, changes no other, and gives back only a port read from such an object.
  lemma OwnershipFrame(state: OperatorState, app: App, answers: StopAnswers, svcWins: bool)
    ensures var after := StopSpec(state, app, answers, svcWins).0;
            && (forall k :: k in after.objects ==> k in state.objects && after.objects[k] == state.objects[k])
            && (forall k :: k in state.objects && k !in after.objects ==> OwnedByName(state.objects[k], app.name))
            && after.pool.busy <= state.pool.busy
            && (forall p :: p in state.pool.busy && p !in after.pool.busy ==>
                  exists k, found: int32 ::
                    && k in state.objects && OwnedByName(state.objects[k], app.name)
                    && (DeploymentPort(Some(state.objects[k])) == Some(found)
                        || ServicePortOf(Some(state.objects[k])) == Some(found))
                    && ToPort(found) == p)
  {
    hide Stopped, AllStop, BroadcasterOf;
    var after := StopSpec(state, app, answers, svcWins).0;
    forall k
      ensures k in after.objects ==> k in state.objects && after.objects[k] == state.objects[k]
      ensures k in state.objects && k !in after.objects ==> OwnedByName(state.objects[k], app.name)
    {
      StoppedKeys(state.objects, app, answers, k);
    }
    forall p | p in state.pool.busy && p !in after.pool.busy
      ensures exists k, found: int32 ::
                && k in state.objects && OwnedByName(state.objects[k], app.name)
                && (DeploymentPort(Some(state.objects[k])) == Some(found)
                    || ServicePortOf(Some(state.objects[k])) == Some(found))
                && ToPort(found) == p
    {
      var found := RecoveredPort(state.objects, app, answers, svcWins).value;
      var dep := Seen(state.objects, app, answers, Ingest);
      var k := Keys(app)(if DeploymentPort(dep) == Some(found) then Ingest else UdpGateway);
      assert k in state.objects && OwnedByName(state.objects[k], app.name);
    }
  }

  // ---------- Schedules ----------

  // The winner of the port race never matters to the cluster; it matters to the pool exactly when the deployment and
  // the gateway service record different ports of which at least one is busy.
  lemma RaceMatters(state: OperatorState, app: App, answers: StopAnswers)
    requires state.pool.Valid()
    ensures StopSpec(state, app, answers, true).0.objects == StopSpec(state, app, answers, false).0.objects
    ensures var dep := DeploymentPort(Seen(state.objects, app, answers, Ingest));
            var svc := ServicePortOf(Seen(state.objects, app, answers, UdpGateway));
            StopSpec(state, app, answers, true).0.pool != StopSpec(state, app, answers, false).0.pool
            <==> && dep.Some? && svc.Some? && ToPort(dep.value) != ToPort(svc.value)
                 && (ToPort(dep.value) in state.pool.busy || ToPort(svc.value) in state.pool.busy)
  {
    hide Seen, Stopped, AllStop, DeploymentPort, ServicePortOf, BroadcasterOf, GiveBack;
    var dep := DeploymentPort(Seen(state.objects, app, answers, Ingest));
    var svc := ServicePortOf(Seen(state.objects, app, answers, UdpGateway));
    if dep.Some? && svc.Some? {
      GiveBackRemoves(state.pool, ToPort(dep.value));
      GiveBackRemoves(state.pool, ToPort(svc.value));
      if ToPort(dep.value) != ToPort(svc.value) && ToPort(dep.value) in state.pool.busy {
        assert ToPort(dep.value) in GiveBack(state.pool, ToPort(svc.value)).0.busy;
      }
    }
  }

  lemma GiveBackRemoves(pool: Pool, p: Port)
    requires pool.Valid()
    ensures GiveBack(pool, p).0 == pool.(busy := pool.busy - {p})
    ensures GiveBack(pool, p).1.None? <==> p in pool.busy
  {
    if p !in pool.busy {
      assert pool.busy - {p} == pool.busy;
    }
  }

  // ---------- Failing starts ----------

  lemma LeaseThenBack(pool: Pool)
    requires pool.Valid() && Lease(pool).1.Some?
    ensures GiveBack(Lease(pool).0, Lease(pool).1.value) == (pool, None)
  {
    assert pool.busy + {Lease(pool).1.value} - {Lease(pool).1.value} == pool.busy;
  }

  // A failed Start leaves the pool as it was and deletes nothing; it fails exactly when the pool is exhausted, an
  // answer is bad or a key is taken.
  lemma FailedStartKeepsPool(state: OperatorState, launch: Launch, answers: Slot -> Answer)
    requires state.pool.Valid()
    ensures var (after, err) := StartSpec(state, launch, answers);
            && (err.Some? ==> after.pool == state.pool)
            && (forall k :: k in state.objects ==> k in after.objects && after.objects[k] == state.objects[k])
            && (err.Some? <==> |state.pool.busy| == state.pool.Capacity()
                               || exists s ::
                                    s in ALL_SLOTS
                                    && (!answers(s).Works? || Keys(launch.app)(s) in state.objects))
  {
    LeaseIsLeast(state.pool);
    if Lease(state.pool).1.Some? {
      LeaseThenBack(state.pool);
      KeysAreInjective(launch.app);
      var effective := Effective(state.objects, Keys(launch.app), answers, ALL_SLOTS);
      assert forall k :: k in Image(effective, Keys(launch.app)) ==> k !in state.objects;
    }
  }

  // What Start does, exactly. On an exhausted pool it does nothing and says so. Otherwise it creates each object whose
  // key is free and whose Create is not refused; it succeeds exactly when all six work, and has then leased the least
  // free port.
  lemma StartDecides(state: OperatorState, launch: Launch, answers: Slot -> Answer)
    requires state.pool.Valid()
    ensures var (after, err) := StartSpec(state, launch, answers);
            && after.destroyed == state.destroyed
            && (|state.pool.busy| == state.pool.Capacity() ==> (after, err) == (state, Some(FullNodePortAssigned)))
            && (|state.pool.busy| < state.pool.Capacity() ==>
                  && Lease(state.pool).1.Some?
                  && var port := Lease(state.pool).1.value;
                  && (forall s :: s in ALL_SLOTS && KeyOf(launch.app, s) !in state.objects && answers(s) != Refused ==>
                        KeyOf(launch.app, s) in after.objects
                        && after.objects[KeyOf(launch.app, s)] == Build(launch, port, s))
                  && (forall k :: k in after.objects && k !in state.objects ==>
                        exists s :: s in ALL_SLOTS && k == KeyOf(launch.app, s) && answers(s) != Refused)
                  && (forall k :: k in state.objects ==> k in after.objects && after.objects[k] == state.objects[k])
                  && if forall s ::
                          s in ALL_SLOTS ==> answers(s) == Works && KeyOf(launch.app, s) !in state.objects
                     then
                       err.None? && after.pool == state.pool.(busy := state.pool.busy + {port})
                     else err == Some(UnableDeploy) && after.pool == state.pool)
  {
    hide KeyOf, Build, StartSpec;
    LeaseIsLeast(state.pool);
    FailedStartKeepsPool(state, launch, answers);
    assert forall s :: Keys(launch.app)(s) == KeyOf(launch.app, s);
    StartErrors(state, launch, answers);
    if Lease(state.pool).1.Some? {
      StartCreates(state, launch, answers);
    }
  }

  lemma StartErrors(state: OperatorState, launch: Launch, answers: Slot -> Answer)
    requires state.pool.Valid()
    ensures var (after, err) := StartSpec(state, launch, answers);
            && after.destroyed == state.destroyed
            && (Lease(state.pool).1.None? ==> (after, err) == (state, Some(FullNodePortAssigned)))
            && (Lease(state.pool).1.Some? && err.Some? ==> err == Some(UnableDeploy))
            && (Lease(state.pool).1.Some? && err.None? ==> after.pool == Lease(state.pool).0)
  {
    hide Started, AllStart, GiveBack;
  }

  lemma StartCreates(state: OperatorState, launch: Launch, answers: Slot -> Answer)
    requires state.pool.Valid() && Lease(state.pool).1.Some?
    ensures var after, port := StartSpec(state, launch, answers).0.objects, Lease(state.pool).1.value;
            && (forall s :: s in ALL_SLOTS && KeyOf(launch.app, s) !in state.objects && answers(s) != Refused ==>
                  KeyOf(launch.app, s) in after && after[KeyOf(launch.app, s)] == Build(launch, port, s))
            && (forall k :: k in after && k !in state.objects ==>
                  exists s :: s in ALL_SLOTS && k == KeyOf(launch.app, s) && answers(s) != Refused)
  {
    hide KeyOf, Build, AllStart, GiveBack, Lease;
    KeysAreInjective(launch.app);
    var port := Lease(state.pool).1.value;
    var effective := Effective(state.objects, Keys(launch.app), answers, ALL_SLOTS);
    forall s
      ensures Objects(launch, port)(s) == Build(launch, port, s) && Keys(launch.app)(s) == KeyOf(launch.app, s)
      ensures s in ALL_SLOTS && KeyOf(launch.app, s) !in state.objects && answers(s) != Refused ==> s in effective
    {
    }
  }

  // Start leaves the cluster as it was exactly when every Create was refused or found its key taken.
  lemma StartLeavesNothing(state: OperatorState, launch: Launch, answers: Slot -> Answer)
    requires state.pool.Valid() && Lease(state.pool).1.Some?
    ensures StartSpec(state, launch, answers).0.objects == state.objects
            <==> forall s :: s in ALL_SLOTS ==> answers(s) == Refused || Keys(launch.app)(s) in state.objects
  {
    hide KeyOf, Build, AllStart, GiveBack, Lease;
    var effective := Effective(state.objects, Keys(launch.app), answers, ALL_SLOTS);
    KeysAreInjective(launch.app);
    if s :| s in ALL_SLOTS && answers(s) != Refused && Keys(launch.app)(s) !in state.objects {
      assert s in effective;
      assert Keys(launch.app)(s) in StartSpec(state, launch, answers).0.objects;
    } else {
      assert effective == {};
      assert Image({}, Keys(launch.app)) == {};
    }
  }

  // What a failed Start leaves behind: if the deployment was created, it stays in the cluster and carries a port
  // that the pool will hand out again.
  lemma FailedStartLeaks(state: OperatorState, launch: Launch, answers: Slot -> Answer)
    requires state.pool.Valid() && NoWebrtcPorts(launch.template)
    requires Lease(state.pool).1.Some?
    requires exists s :: s in ALL_SLOTS && (!answers(s).Works? || Keys(launch.app)(s) in state.objects)
    requires answers(Ingest) != Refused && Keys(launch.app)(Ingest) !in state.objects
    ensures var after := StartSpec(state, launch, answers).0;
            var key := Keys(launch.app)(Ingest);
            && key in after.objects
            && Lease(after.pool).1.Some?
            && DeploymentPort(Some(after.objects[key])) == Some(Lease(after.pool).1.value as int32)
  {
    FailedStartKeepsPool(state, launch, answers);
    KeysAreInjective(launch.app);
    DeploymentRoundTrip(launch);
    var port := Lease(state.pool).1.value;
    assert Ingest in Effective(state.objects, Keys(launch.app), answers, ALL_SLOTS);
    assert Objects(launch, port)(Ingest) == Build(launch, port, Ingest);
  }

  // ---------- Start, then Stop ----------

  ghost predicate KeysFree(objects: Cluster, app: App) {
    forall s :: s in ALL_SLOTS ==> Keys(app)(s) !in objects
  }

  // What Stop reads of a bundle that Start created.
  lemma SeenBundle(objects: Cluster, launch: Launch, port: Port, slot: Slot)
    requires Keys(launch.app)(slot) in objects && objects[Keys(launch.app)(slot)] == Build(launch, port, slot)
    ensures Seen(objects, launch.app, RELIABLE, slot) == Some(Build(launch, port, slot))
  {
    assert Keys(launch.app)(slot) == KeyOf(launch.app, slot);
  }

  // The six objects of a launch are in the cluster, built for the given port.
  ghost predicate HasBundle(objects: Cluster, launch: Launch, port: Port) {
    forall s :: Keys(launch.app)(s) in objects && objects[Keys(launch.app)(s)] == Build(launch, port, s)
  }

  lemma StopOfBundle(state: OperatorState, launch: Launch, port: Port, svcWins: bool)
    requires HasBundle(state.objects, launch, port)
    ensures var own := FirstContainerPort(launch.template.ports);
            var found := if own.Some? && !svcWins then own.value else port as int32;
            var (pool, refusal) := GiveBack(state.pool, ToPort(found));
            StopSpec(state, launch.app, RELIABLE, svcWins)
            == (OperatorState(Cut(state.objects, ALL_SLOTS, Keys(launch.app)), pool,
                  if refusal.Some? || launch.broadcasterID == "" then state.destroyed
                  else state.destroyed + [Destroyed(launch.broadcasterID, launch.app.name)]),
                if refusal.Some? then Some(UnablePortBack(refusal.value))
                else if launch.broadcasterID == "" then Some(NotFoundBroadcaster)
                else None)
  {
    forall s
      ensures Seen(state.objects, launch.app, RELIABLE, s) == Some(Build(launch, port, s))
    {
      SeenBundle(state.objects, launch, port, s);
    }
    assert Removed(state.objects, launch.app, RELIABLE, ALL_SLOTS) == ALL_SLOTS;
    assert forall s :: SlotStops(state.objects, launch.app, RELIABLE, s);
    FoundInBuiltDeployment(launch, port);
    GatewayRoundTrip(launch, port, UdpGateway);
  }

  lemma ReliableStartCreatesAll(objects: Cluster, launch: Launch, port: Port)
    requires KeysFree(objects, launch.app)
    ensures AllStart(objects, Keys(launch.app), RELIABLE.get, ALL_SLOTS)
    ensures Injective(Keys(launch.app))
    ensures Started(objects, launch, port, RELIABLE.get, ALL_SLOTS)
            == Put(objects, ALL_SLOTS, Keys(launch.app), Objects(launch, port))
  {
    hide KeyOf, Build;
    KeysAreInjective(launch.app);
    assert Effective(objects, Keys(launch.app), RELIABLE.get, ALL_SLOTS) == ALL_SLOTS;
  }

  lemma PutHasBundle(objects: Cluster, launch: Launch, port: Port)
    requires Injective(Keys(launch.app))
    ensures HasBundle(Put(objects, ALL_SLOTS, Keys(launch.app), Objects(launch, port)), launch, port)
  {
    hide KeyOf, Build;
    EverySlot();
    assert forall s :: Objects(launch, port)(s) == Build(launch, port, s);
  }

  lemma ReliableStart(state: OperatorState, launch: Launch)
    requires state.pool.Valid() && Lease(state.pool).1.Some? && KeysFree(state.objects, launch.app)
    ensures var (leased, port) := Lease(state.pool);
            var (started, err) := StartSpec(state, launch, RELIABLE.get);
            && err.None? && started.pool == leased && started.destroyed == state.destroyed
            && HasBundle(started.objects, launch, port.value)
            && Cut(started.objects, ALL_SLOTS, Keys(launch.app)) == state.objects
  {
    hide KeyOf, Build, HasBundle, AllStart, Started, Put, Cut;
    var port := Lease(state.pool).1.value;
    ReliableStartCreatesAll(state.objects, launch, port);
    PutHasBundle(state.objects, launch, port);
    CutUndoesPut(state.objects, ALL_SLOTS, Keys(launch.app), Objects(launch, port));
  }

  // With a reliable API and the six keys free, Start then Stop restores the cluster, whoever wins the race, and gives
  // back the port found in the bundle.
  lemma StopAfterStart(state: OperatorState, launch: Launch, svcWins: bool)
    requires state.pool.Valid() && Lease(state.pool).1.Some? && KeysFree(state.objects, launch.app)
    ensures var started := StartSpec(state, launch, RELIABLE.get).0;
            var own := FirstContainerPort(launch.template.ports);
            var found := if own.Some? && !svcWins then ToPort(own.value) else Lease(state.pool).1.value;
            var (pool, refusal) := GiveBack(Lease(state.pool).0, found);
            var (stopped, err) := StopSpec(started, launch.app, RELIABLE, svcWins);
            && stopped.objects == state.objects && stopped.pool == pool
            && (refusal.None? && launch.broadcasterID != "" ==>
                  && err.None?
                  && stopped.destroyed == state.destroyed + [Destroyed(launch.broadcasterID, launch.app.name)])
            && (refusal.Some? || launch.broadcasterID == "" ==> err.Some? && stopped.destroyed == state.destroyed)
  {
    hide StartSpec, StopSpec, HasBundle;
    ReliableStart(state, launch);
    StopOfBundle(StartSpec(state, launch, RELIABLE.get).0, launch, Lease(state.pool).1.value, svcWins);
  }

  lemma LowBits(x: int32, p: Port)
    ensures ToPort(x) == p <==> (x as int - p as int) % 0x1_0000 == 0
  {
  }

  // Start then Stop is the identity on cluster and pool, for both winners of the race, exactly when the template's own
  // webrtc port, if it has one, is the leased port up to the bits that uint16 drops.
  lemma StartThenStop(state: OperatorState, launch: Launch)
    requires state.pool.Valid() && Lease(state.pool).1.Some? && KeysFree(state.objects, launch.app)
    ensures var started := StartSpec(state, launch, RELIABLE.get).0;
            var own := FirstContainerPort(launch.template.ports);
            (forall svcWins ::
               var stopped := StopSpec(started, launch.app, RELIABLE, svcWins).0;
               stopped.objects == state.objects && stopped.pool == state.pool)
            <==> (own.Some? ==> (own.value as int - Lease(state.pool).1.value as int) % 0x1_0000 == 0)
  {
    hide StartSpec, StopSpec, KeysFree, FirstContainerPort;
    var (leased, p) := Lease(state.pool);
    LeaseThenBack(state.pool);
    StopAfterStart(state, launch, true);
    StopAfterStart(state, launch, false);
    var own := FirstContainerPort(launch.template.ports);
    if own.Some? {
      LowBits(own.value, p.value);
    }
    if own.Some? && ToPort(own.value) != p.value {
      assert p.value in GiveBack(leased, ToPort(own.value)).0.busy;
      assert p.value !in state.pool.busy;
      assert StopSpec(StartSpec(state, launch, RELIABLE.get).0, launch.app, RELIABLE, false).0.pool != state.pool;
    }
  }

  // Started by a reliable API, the race decides about the pool exactly when the template's own webrtc port is not the
  // leased one, up to the bits that uint16 drops: the gateway's search finds the leased port, the deployment's search
  // the template's.
  lemma RaceAfterStart(state: OperatorState, launch: Launch)
    requires state.pool.Valid() && Lease(state.pool).1.Some? && KeysFree(state.objects, launch.app)
    ensures var started := StartSpec(state, launch, RELIABLE.get).0;
            var own := FirstContainerPort(launch.template.ports);
            StopSpec(started, launch.app, RELIABLE, true).0.pool
            != StopSpec(started, launch.app, RELIABLE, false).0.pool
            <==> own.Some? && (own.value as int - Lease(state.pool).1.value as int) % 0x1_0000 != 0
  {
    hide StartSpec, StopSpec, KeysFree, FirstContainerPort;
    var (leased, p) := Lease(state.pool);
    LeaseThenBack(state.pool);
    StopAfterStart(state, launch, true);
    StopAfterStart(state, launch, false);
    var own := FirstContainerPort(launch.template.ports);
    if own.Some? {
      LowBits(own.value, p.value);
    }
    if own.Some? && ToPort(own.value) != p.value {
      assert p.value in GiveBack(leased, ToPort(own.value)).0.busy;
      assert p.value !in state.pool.busy;
    }
  }

  // A start after which it decides: an empty cluster, every port free, and a template that names its port 20005.
  lemma RaceCanMatter()
    ensures exists state: OperatorState, launch: Launch ::
              && state.pool.Valid() && KeysFree(state.objects, launch.app)
              && var started := StartSpec(state, launch, RELIABLE.get).0;
                 StopSpec(started, launch.app, RELIABLE, true).0.pool
                 != StopSpec(started, launch.app, RELIABLE, false).0.pool
  {
    hide StartSpec, StopSpec;
    var launch := Launch(App("default", "alice"),
                         IngestTemplate("t", "i", [ContainerPort(WEBRTC_TCP, 20005, "TCP")]), "b");
    var state := OperatorState(map[], Pool(20000, 20009, {}), []);
    assert Lease(state.pool).1 == Some(20000);
    RaceAfterStart(state, launch);
  }

  // And it publishes exactly one message, with the broadcaster id, when that id is not empty.
  lemma StartThenStopIsIdentity(state: OperatorState, launch: Launch, svcWins: bool)
    requires state.pool.Valid() && Lease(state.pool).1.Some? && KeysFree(state.objects, launch.app)
    requires NoWebrtcPorts(launch.template) && launch.broadcasterID != ""
    ensures StopSpec(StartSpec(state, launch, RELIABLE.get).0, launch.app, RELIABLE, svcWins)
            == (state.(destroyed := state.destroyed + [Destroyed(launch.broadcasterID, launch.app.name)]), None)
  {
    FirstContainerPortIsFirst(launch.template.ports);
    LeaseThenBack(state.pool);
    StopAfterStart(state, launch, svcWins);
  }

  // For which templates Start then Stop is the identity on cluster and pool, from every state with a free port and
  // free keys and for both winners: for those that call no port webrtc-tcp or webrtc-udp.
  lemma StartThenStopExactly(launch: Launch)
    ensures (forall state: OperatorState, svcWins ::
               state.pool.Valid() && |state.pool.busy| < state.pool.Capacity()
                   && KeysFree(state.objects, launch.app) ==>
                 var stopped := StopSpec(StartSpec(state, launch, RELIABLE.get).0, launch.app, RELIABLE, svcWins).0;
                 stopped.objects == state.objects && stopped.pool == state.pool)
            <==> forall i :: 0 <= i < |launch.template.ports| ==>
                   launch.template.ports[i].name != "webrtc-tcp" && launch.template.ports[i].name != "webrtc-udp"
  {
    hide StartSpec, StopSpec, KeysFree, FirstContainerPort, Lease;
    FirstContainerPortIsFirst(launch.template.ports);
    var own := FirstContainerPort(launch.template.ports);
    forall state: OperatorState, svcWins |
      state.pool.Valid() && |state.pool.busy| < state.pool.Capacity() && KeysFree(state.objects, launch.app)
      ensures own.None? ==>
                var stopped := StopSpec(StartSpec(state, launch, RELIABLE.get).0, launch.app, RELIABLE, svcWins).0;
                stopped.objects == state.objects && stopped.pool == state.pool
    {
      LeaseIsLeast(state.pool);
      StartThenStop(state, launch);
    }
    if own.Some? {
      var lo: Port := if ToPort(own.value) == 20000 then 20001 else 20000;
      var state := OperatorState(map[], Pool(lo, 20002, {}), []);
      FirstLease(lo);
      EmptyHasFreeKeys(launch.app);
      StartThenStop(state, launch);
    }
  }

  lemma FirstLease(lo: Port)
    requires 20000 <= lo <= 20001
    ensures Pool(lo, 20002, {}).Valid() && Lease(Pool(lo, 20002, {})).1 == Some(lo)
    ensures Pool(lo, 20002, {}).Capacity() > 0
  {
  }

  lemma EmptyHasFreeKeys(app: App)
    ensures KeysFree(map[], app)
  {
  }

  // ---------- What Stop does, exactly ----------

  // What the goroutine of a slot reads.
  function Read(objects: Cluster, app: App, answers: StopAnswers, slot: Slot): Option<Object> {
    FetchOwned(objects, KeyOf(app, slot), app.name, answers.get(slot))
  }

  // Every goroutine has read and deleted its object.
  ghost predicate AllEnd(objects: Cluster, app: App, answers: StopAnswers) {
    forall s :: s in ALL_SLOTS ==> Read(objects, app, answers, s).Some? && answers.delete(s) == Works
  }

  // The port that the winner of the race has found, if either search finds one.
  function FoundPort(objects: Cluster, app: App, answers: StopAnswers, svcWins: bool): Option<int32> {
    var dep := DeploymentPort(Read(objects, app, answers, Ingest));
    var svc := ServicePortOf(Read(objects, app, answers, UdpGateway));
    if dep.None? || (svcWins && svc.Some?) then svc else dep
  }

  function IdOf(deployment: Option<Object>): string {
    var name := "romashorodok.github.io/ingest.broadcaster-id";
    if deployment.Some? && name in deployment.value.labels then deployment.value.labels[name] else ""
  }

  // Stop fails as a deployment failure exactly when some goroutine failed, else on a port that is found and not busy,
  // else on a deployment without a broadcaster id; otherwise it sends that id, unless the publish is refused. Whatever
  // comes of it, the port found is no longer busy.
  lemma StopDecides(state: OperatorState, app: App, answers: StopAnswers, svcWins: bool)
    requires state.pool.Valid()
    ensures var (after, err) := StopSpec(state, app, answers, svcWins);
            var found := FoundPort(state.objects, app, answers, svcWins);
            var id := IdOf(Read(state.objects, app, answers, Ingest));
            var ended := AllEnd(state.objects, app, answers);
            var lost := found.Some? && ToPort(found.value) !in state.pool.busy;
            && after.pool.busy == state.pool.busy - (if found.Some? then {ToPort(found.value)} else {})
            && (err == Some(UnableStop) <==> !ended)
            && (err.Some? && err.value.UnablePortBack? <==> ended && lost)
            && (ended && lost ==> GiveBack(state.pool, ToPort(found.value)) == (state.pool, Some(err.value.cause)))
            && (err == Some(NotFoundBroadcaster) <==> ended && !lost && id == "")
            && (err.None? <==> ended && !lost && id != "")
            && after.destroyed == state.destroyed
                 + if err.None? && answers.publish != Refused then [Destroyed(id, app.name)] else []
  {
    hide KeyOf, FetchOwned, DeploymentPort, ServicePortOf, Stopped;
    forall s
      ensures Seen(state.objects, app, answers, s) == Read(state.objects, app, answers, s)
    {
      assert Keys(app)(s) == KeyOf(app, s);
    }
    hide Read, Seen;
    var found := RecoveredPort(state.objects, app, answers, svcWins);
    assert found == FoundPort(state.objects, app, answers, svcWins);
    if found.Some? {
      GiveBackRemoves(state.pool, ToPort(found.value));
    }
  }

  // The cluster that a reliable Start leaves serves the app at the leased port.
  lemma StartServes(state: OperatorState, launch: Launch)
    requires state.pool.Valid() && |state.pool.busy| < state.pool.Capacity() && KeysFree(state.objects, launch.app)
    ensures var (after, err) := StartSpec(state, launch, RELIABLE.get);
            && err.None? && Lease(state.pool).1.Some?
            && Serves(after.objects, launch.app, launch.template, launch.broadcasterID, Lease(state.pool).1.value)
  {
    hide StartSpec, KeysFree, Lease, Serves, HasBundle;
    LeaseIsLeast(state.pool);
    ReliableStart(state, launch);
    BundleServes(StartSpec(state, launch, RELIABLE.get).0.objects, launch, Lease(state.pool).1.value);
  }

  lemma BundleServes(objects: Cluster, launch: Launch, port: Port)
    requires HasBundle(objects, launch, port)
    ensures Serves(objects, launch.app, launch.template, launch.broadcasterID, port)
  {
    hide KeyOf, Build, Serves;
    assert forall s :: Keys(launch.app)(s) == KeyOf(launch.app, s);
    BuiltObjectsServe(objects, launch, port);
  }
}
