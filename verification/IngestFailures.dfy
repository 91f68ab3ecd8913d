/** What API failures do to the leases: when a failed Start or Stop breaks them, and how one port comes to be handed out
    to two apps. */
module IngestFailures {
  import opened Wrappers
  import opened PortRanges
  import opened IngestResources
  import opened Bundles
  import opened IngestSystems
  import opened IngestProperties
  import opened LeaseProtocol
  import opened Shutdowns
  import opened IngestServices

  // ---------- A failed Start ----------

  // A failed Start keeps the lease invariant exactly when it created nothing. Whatever it created belongs to no lease.
  lemma FailedStartKeepsLeases(state: OperatorState, lent: map<App, Lending>, launch: Launch, answers: Slot -> Answer)
    requires Inv(Resting(state, lent)) && launch.app !in lent && Apart(lent.Keys + {launch.app}) && state.pool.Valid()
    requires Lease(state.pool).1.Some? && StartSpec(state, launch, answers).1.Some?
    ensures Inv(Resting(StartSpec(state, launch, answers).0, lent))
            <==> forall s :: s in ALL_SLOTS ==> answers(s) == Refused
  {
    hide Inv, StartSpec, KeyOf, Build, Lease;
    var after := StartSpec(state, launch, answers).0;
    var s, t := Resting(state, lent), Resting(after, lent);
    FailedStartKeepsPool(state, launch, answers);
    StartLeavesNothing(state, launch, answers);
    UnlentKeysAreFree(s, launch.app);
    StartSends(state, launch, answers);
    if Inv(t) {
      SameLeasesSameObjects(s, t);
    } else {
      assert after == state || after.objects != state.objects;
    }
  }

  lemma StartSends(state: OperatorState, launch: Launch, answers: Slot -> Answer)
    requires state.pool.Valid()
    ensures StartSpec(state, launch, answers).0.destroyed == state.destroyed
  {
    hide Started, AllStart, GiveBack, Lease;
  }

  // At rest, the leases determine the cluster.
  lemma SameLeasesSameObjects(s: System, t: System)
    requires Inv(s) && Inv(t) && s.requests == map[] && t.requests == map[] && s.lent == t.lent
    ensures s.objects == t.objects
  {
    hide Inv;
    ObjectsOfLeases(s, t);
    ObjectsOfLeases(t, s);
  }

  lemma ObjectsOfLeases(s: System, t: System)
    requires Inv(s) && Inv(t) && s.requests == map[] && t.requests == map[] && s.lent == t.lent
    ensures forall k :: k in s.objects ==> k in t.objects && t.objects[k] == s.objects[k]
  {
    hide KeyOf, Build, RequestsInv, PoolInv, Stands;
    forall k | k in s.objects
      ensures k in t.objects && t.objects[k] == s.objects[k]
    {
      var a, x :| Stands(s, a, x) && k == Keys(a)(x);
      RestingStands(s, a, x);
      RestingStands(t, a, x);
    }
  }

  // No key is shared by the two apps.
  ghost predicate Strangers(a: App, b: App) {
    forall s, t :: Keys(a)(s) != Keys(b)(t)
  }

  lemma StrangersByName(a: App, b: App)
    requires a != b && !Collide(a, b)
    ensures Strangers(a, b) && Strangers(b, a)
  {
    AppsShareKey(a, b);
    hide KeyOf;
    assert forall s, t :: KeyOf(a, s) != KeyOf(b, t);
  }

  // What a failed start of `a` leaves: its deployment, and perhaps its gateway service, built for the leased port.
  lemma LeftByFailedStart(state: OperatorState, a: Launch, answers: Slot -> Answer)
    requires state.pool.Valid() && Lease(state.pool).1.Some? && KeysFree(state.objects, a.app)
    requires answers(Ingest) != Refused && exists s :: s in ALL_SLOTS && !answers(s).Works?
    ensures var after := StartSpec(state, a, answers).0;
            var port := Lease(state.pool).1.value;
            && after.pool == state.pool
            && Keys(a.app)(Ingest) in after.objects
            && (forall s :: Keys(a.app)(s) in after.objects ==> after.objects[Keys(a.app)(s)] == Build(a, port, s))
            && (forall k :: k in after.objects ==> k in state.objects || exists s :: k == Keys(a.app)(s))
  {
    hide KeyOf, Build;
    FailedStartKeepsPool(state, a, answers);
    KeysAreInjective(a.app);
    EverySlot();
    var port := Lease(state.pool).1.value;
    var effective := Effective(state.objects, Keys(a.app), answers, ALL_SLOTS);
    assert Ingest in effective;
    assert forall s :: Objects(a, port)(s) == Build(a, port, s);
  }

  // A failed start of `a`, a start of `b` and a stop of `a`, in this order: the start of `b` leases the port that the
  // deployment left by `a` carries, and the stop of `a` gives that port back. Whatever the race decides, the deployment
  // of `b` stands with a port that is free.
  lemma LeakFreesOthersPort(state: OperatorState, a: Launch, b: Launch, answers: Slot -> Answer, svcWins: bool)
    requires state.pool.Valid() && Lease(state.pool).1.Some?
    requires KeysFree(state.objects, a.app) && KeysFree(state.objects, b.app) && Strangers(a.app, b.app)
    requires NoWebrtcPorts(a.template) && NoWebrtcPorts(b.template)
    requires answers(Ingest) != Refused && exists s :: s in ALL_SLOTS && !answers(s).Works?
    ensures var failed := StartSpec(state, a, answers).0;
            var started := StartSpec(failed, b, RELIABLE.get);
            var stopped := StopSpec(started.0, a.app, RELIABLE, svcWins).0;
            var port, key := Lease(state.pool).1.value, Keys(b.app)(Ingest);
            && started.1.None?
            && key in stopped.objects && DeploymentPort(Some(stopped.objects[key])) == Some(port as int32)
            && stopped.pool == state.pool && port !in stopped.pool.busy
  {
    hide KeyOf, Build, StartSpec, KeysFree, FetchOwned;
    var failed := StartSpec(state, a, answers).0;
    var port, key := Lease(state.pool).1.value, Keys(b.app)(Ingest);
    LeftByFailedStart(state, a, answers);
    StillFree(state.objects, failed.objects, a.app, b.app);
    ReliableStart(failed, b);
    var started := StartSpec(failed, b, RELIABLE.get).0;
    LeaseIsLeast(state.pool);
    LeaseThenBack(state.pool);
    FoundAfterLeak(failed.objects, started.objects, a, b, port, svcWins);
    StopFrees(started, a.app, port, svcWins);
    StoppedKeys(started.objects, a.app, RELIABLE, key);
    FirstContainerPortIsFirst(b.template.ports);
    FoundInBuiltDeployment(b, port);
  }

  lemma StillFree(before: Cluster, after: Cluster, a: App, b: App)
    requires KeysFree(before, b) && Strangers(a, b)
    requires forall k :: k in after ==> k in before || exists s :: k == Keys(a)(s)
    ensures KeysFree(after, b)
  {
    hide KeyOf;
  }

  // The stop of `a` finds the leased port in what the failed start has left.
  lemma FoundAfterLeak(left: Cluster, objects: Cluster, a: Launch, b: Launch, port: Port, svcWins: bool)
    requires HasBundle(objects, b, port) && Cut(objects, ALL_SLOTS, Keys(b.app)) == left && Strangers(a.app, b.app)
    requires Keys(a.app)(Ingest) in left && NoWebrtcPorts(a.template)
    requires forall s :: Keys(a.app)(s) in left ==> left[Keys(a.app)(s)] == Build(a, port, s)
    ensures RecoveredPort(objects, a.app, RELIABLE, svcWins) == Some(port as int32)
  {
    hide KeyOf, Build, FetchOwned, DeploymentPort;
    FirstContainerPortIsFirst(a.template.ports);
    FoundInBuiltDeployment(a, port);
    GatewayRoundTrip(a, port, UdpGateway);
    forall s | Keys(a.app)(s) in left
      ensures Seen(objects, a.app, RELIABLE, s) == Some(Build(a, port, s))
    {
      assert Keys(a.app)(s) in objects && objects[Keys(a.app)(s)] == left[Keys(a.app)(s)];
      SeenBundle(objects, a, port, s);
    }
    forall s | Keys(a.app)(s) !in left
      ensures Seen(objects, a.app, RELIABLE, s).None?
    {
      assert Keys(a.app)(s) !in objects by {
        NotInBundle(a.app, b.app, s);
      }
    }
  }

  lemma NotInBundle(a: App, b: App, slot: Slot)
    requires Strangers(a, b)
    ensures Keys(a)(slot) !in Image(ALL_SLOTS, Keys(b))
  {
    hide KeyOf;
  }

  lemma StopFrees(state: OperatorState, app: App, port: Port, svcWins: bool)
    requires RecoveredPort(state.objects, app, RELIABLE, svcWins) == Some(port as int32)
    ensures StopSpec(state, app, RELIABLE, svcWins).0.pool == GiveBack(state.pool, port).0
    ensures StopSpec(state, app, RELIABLE, svcWins).0.objects == Stopped(state.objects, app, RELIABLE, ALL_SLOTS)
  {
    hide RecoveredPort, Stopped, AllStop, BroadcasterOf, GiveBack, Seen;
  }

  // What the start of `c` shares with a deployment that carries the least free port.
  lemma StartSharesPort(state: OperatorState, b: App, c: Launch, port: Port)
    requires state.pool.Valid() && Lease(state.pool).1 == Some(port) && KeysFree(state.objects, c.app)
    requires NoWebrtcPorts(c.template) && Strangers(b, c.app)
    requires Keys(b)(Ingest) in state.objects
             && DeploymentPort(Some(state.objects[Keys(b)(Ingest)])) == Some(port as int32)
    ensures var (after, err) := StartSpec(state, c, RELIABLE.get);
            err.None? && CarriesPort(after, b, port) && CarriesPort(after, c.app, port)
  {
    hide KeyOf, Build, StartSpec, KeysFree, DeploymentPort;
    var after := StartSpec(state, c, RELIABLE.get).0;
    ReliableStart(state, c);
    NotInBundle(b, c.app, Ingest);
    FirstContainerPortIsFirst(c.template.ports);
    FoundInBuiltDeployment(c, port);
    assert HasBundle(after.objects, c, port);
    assert Keys(b)(Ingest) in Cut(after.objects, ALL_SLOTS, Keys(c.app));
  }

  ghost predicate CarriesPort(state: OperatorState, app: App, port: Port) {
    var key := Keys(app)(Ingest);
    key in state.objects && DeploymentPort(Some(state.objects[key])) == Some(port as int32)
  }

  // And so the next start, of `c`, is given the same port: two deployments stand with one port.
  lemma LeakSharesPort(state: OperatorState, a: Launch, b: Launch, c: Launch, answers: Slot -> Answer, svcWins: bool)
    requires state.pool.Valid() && Lease(state.pool).1.Some?
    requires KeysFree(state.objects, a.app) && KeysFree(state.objects, b.app) && KeysFree(state.objects, c.app)
    requires Strangers(a.app, b.app) && Strangers(a.app, c.app) && Strangers(b.app, c.app)
    requires NoWebrtcPorts(a.template) && NoWebrtcPorts(b.template) && NoWebrtcPorts(c.template)
    requires answers(Ingest) != Refused && exists s :: s in ALL_SLOTS && !answers(s).Works?
    ensures var failed := StartSpec(state, a, answers).0;
            var started := StartSpec(failed, b, RELIABLE.get).0;
            var stopped := StopSpec(started, a.app, RELIABLE, svcWins).0;
            stopped.pool == state.pool
            && var (after, err) := StartSpec(stopped, c, RELIABLE.get);
               err.None? && CarriesPort(after, b.app, Lease(state.pool).1.value)
                   && CarriesPort(after, c.app, Lease(state.pool).1.value)
  {
    hide KeyOf, Build, StartSpec, StopSpec, KeysFree, FetchOwned, DeploymentPort, Strangers;
    var failed := StartSpec(state, a, answers).0;
    LeftByFailedStart(state, a, answers);
    LeakFreesOthersPort(state, a, b, answers, svcWins);
    var started := StartSpec(failed, b, RELIABLE.get).0;
    var stopped := StopSpec(started, a.app, RELIABLE, svcWins).0;
    StillFree(state.objects, failed.objects, a.app, c.app);
    StillFree(state.objects, failed.objects, a.app, b.app);
    ReliableStart(failed, b);
    KeysOfStart(failed.objects, started.objects, b.app);
    StillFree(failed.objects, started.objects, b.app, c.app);
    OwnershipFrame(started, a.app, RELIABLE, svcWins);
    FewerKeysFree(started.objects, stopped.objects, c.app);
    StartSharesPort(stopped, b.app, c, Lease(state.pool).1.value);
  }

  lemma KeysOfStart(before: Cluster, after: Cluster, app: App)
    requires Cut(after, ALL_SLOTS, Keys(app)) == before
    ensures forall k :: k in after ==> k in before || exists s :: k == Keys(app)(s)
  {
    hide KeyOf;
    forall k | k in after && k !in before
      ensures exists s :: k == Keys(app)(s)
    {
      assert k in Image(ALL_SLOTS, Keys(app)) by {
        assert k !in Cut(after, ALL_SLOTS, Keys(app));
      }
    }
  }

  lemma FewerKeysFree(before: Cluster, after: Cluster, app: App)
    requires KeysFree(before, app) && forall k :: k in after ==> k in before
    ensures KeysFree(after, app)
  {
    hide KeyOf;
  }

  // ---------- A Stop under failures ----------

  // What Stop does to a bundle, call by call: an object goes exactly when it is read and its Delete takes effect, and
  // the port is given back exactly when one of the two objects that record it is read. So the port is freed while the
  // deployment stands exactly when the deployment is read but its Delete refused, or not read though the gateway is.
  lemma StopUnderFailures(state: OperatorState, launch: Launch, port: Port, answers: StopAnswers, svcWins: bool)
    requires HasBundle(state.objects, launch, port) && NoWebrtcPorts(launch.template)
    requires state.pool.Valid() && port in state.pool.busy
    ensures var after := StopSpec(state, launch.app, answers, svcWins).0;
            var found := answers.get(Ingest).Works? || answers.get(UdpGateway).Works?;
            && after.pool == (if found then state.pool.(busy := state.pool.busy - {port}) else state.pool)
            && (forall s ::
                  Keys(launch.app)(s) !in after.objects
                  <==> answers.get(s).Works? && answers.delete(s) != Refused)
            && (port !in after.pool.busy && Keys(launch.app)(Ingest) in after.objects
                <==> if answers.get(Ingest).Works? then answers.delete(Ingest) == Refused
                     else answers.get(UdpGateway).Works?)
  {
    hide KeyOf, Build, StopSpec, FetchOwned, GiveBack, FirstInContainers;
    var app := launch.app;
    forall s
      ensures Seen(state.objects, app, answers, s)
              == if answers.get(s).Works? then Some(Build(launch, port, s)) else None
    {
      SeenWhenAnswered(state.objects, launch, port, answers, s);
    }
    FirstContainerPortIsFirst(launch.template.ports);
    FoundInBuiltDeployment(launch, port);
    GatewayRoundTrip(launch, port, UdpGateway);
    GiveBackRemoves(state.pool, port);
    StopOutcome(state, app, answers, svcWins);
    forall s
      ensures Keys(app)(s) !in StopSpec(state, app, answers, svcWins).0.objects
              <==> answers.get(s).Works? && answers.delete(s) != Refused
    {
      RemovedKey(state.objects, app, answers, s);
    }
  }

  lemma SeenWhenAnswered(objects: Cluster, launch: Launch, port: Port, answers: StopAnswers, slot: Slot)
    requires HasBundle(objects, launch, port)
    ensures Seen(objects, launch.app, answers, slot)
            == if answers.get(slot).Works? then Some(Build(launch, port, slot)) else None
  {
    assert Keys(launch.app)(slot) == KeyOf(launch.app, slot);
  }

  lemma StopOutcome(state: OperatorState, app: App, answers: StopAnswers, svcWins: bool)
    ensures var after := StopSpec(state, app, answers, svcWins).0;
            && after.pool == GiveBackFound(state.pool, RecoveredPort(state.objects, app, answers, svcWins)).0
            && after.objects == Stopped(state.objects, app, answers, ALL_SLOTS)
  {
    hide RecoveredPort, Stopped, AllStop, BroadcasterOf, GiveBack, Seen;
  }

  lemma RemovedKey(objects: Cluster, app: App, answers: StopAnswers, slot: Slot)
    requires Keys(app)(slot) in objects
    ensures Keys(app)(slot) !in Stopped(objects, app, answers, ALL_SLOTS)
            <==> Seen(objects, app, answers, slot).Some? && answers.delete(slot) != Refused
  {
    hide KeyOf, Seen;
    KeysAreInjective(app);
    EverySlot();
    if Keys(app)(slot) in Image(Removed(objects, app, answers, ALL_SLOTS), Keys(app)) {
      var s :| s in Removed(objects, app, answers, ALL_SLOTS) && Keys(app)(s) == Keys(app)(slot);
    }
  }

  // The goroutine of the slot does its work.
  predicate Gone(answers: StopAnswers, slot: Slot) {
    answers.get(slot).Works? && answers.delete(slot) != Refused
  }

  ghost predicate AllOrNothing(answers: StopAnswers) {
    || (forall s :: Gone(answers, s))
    || ((forall s :: !Gone(answers, s)) && !answers.get(Ingest).Works? && !answers.get(UdpGateway).Works?)
  }

  // What StopUnderFailures says of a lease.
  lemma StopOfLent(state: OperatorState, lent: map<App, Lending>, app: App, answers: StopAnswers, svcWins: bool)
    requires Inv(Resting(state, lent)) && app in lent
    ensures var launch, port := lent[app].launch, lent[app].port;
            && launch.app == app && HasBundle(state.objects, launch, port)
            && state.pool.Valid() && port in state.pool.busy
               && GiveBack(state.pool, port).0 == state.pool.(busy := state.pool.busy - {port})
            && var after := StopSpec(state, app, answers, svcWins).0;
               && after.objects == Stopped(state.objects, app, answers, ALL_SLOTS)
               && after.pool == (if answers.get(Ingest).Works? || answers.get(UdpGateway).Works?
                                 then GiveBack(state.pool, port).0
                                 else state.pool)
               && forall s :: Keys(app)(s) !in after.objects <==> Gone(answers, s)
  {
    var launch, port := lent[app].launch, lent[app].port;
    assert launch.app == app && NoWebrtcPorts(launch.template);
    hide Inv, StopSpec, KeyOf, Build, FetchOwned, HasBundle, GiveBack, Stopped;
    BundleOfLent(Resting(state, lent), app);
    PoolIsValid(Resting(state, lent));
    LentPort(Resting(state, lent), app);
    GiveBackRemoves(state.pool, port);
    StopUnderFailures(state, launch, port, answers, svcWins);
    StopOutcome(state, app, answers, svcWins);
  }

  lemma LeasesKept(state: OperatorState, lent: map<App, Lending>, app: App, answers: StopAnswers, svcWins: bool)
    requires Inv(Resting(state, lent)) && app in lent
    requires var after := StopSpec(state, app, answers, svcWins).0;
             Inv(Resting(after, lent)) || Inv(Resting(after, lent - {app}))
    ensures AllOrNothing(answers)
  {
    hide Inv, StopSpec, HasBundle, GiveBack, Stopped, KeyOf, Gone;
    var after := StopSpec(state, app, answers, svcWins).0;
    StopOfLent(state, lent, app, answers, svcWins);
    if Inv(Resting(after, lent)) {
      WorkNotDone(after, lent, app);
    } else {
      WorkDone(state, after, lent, app);
    }
  }

  lemma KeepsLeases(state: OperatorState, lent: map<App, Lending>, app: App, answers: StopAnswers, svcWins: bool)
    requires Inv(Resting(state, lent)) && app in lent && AllOrNothing(answers)
    ensures var after := StopSpec(state, app, answers, svcWins).0;
            Inv(Resting(after, lent)) || Inv(Resting(after, lent - {app}))
  {
    hide Inv, StopSpec, HasBundle, GiveBack, Stopped, KeyOf;
    var s, after := Resting(state, lent), StopSpec(state, app, answers, svcWins).0;
    var launch, port := lent[app].launch, lent[app].port;
    StopOfLent(state, lent, app, answers, svcWins);
    if forall x :: Gone(answers, x) {
      assert Gone(answers, Ingest);
      AllRemoved(state.objects, launch, port, answers);
      StopEnds(s, Resting(after, lent - {app}), app);
    } else {
      NoneRemoved(state.objects, launch, port, answers);
      MessagesDoNotMatter(s, Resting(after, lent));
    }
  }

  // Under any failures, a Stop of a lent app keeps the lease invariant, its lease kept or ended, exactly when it did
  // all of its work or none of it.
  lemma StopKeepsLeases(state: OperatorState, lent: map<App, Lending>, app: App, answers: StopAnswers, svcWins: bool)
    requires Inv(Resting(state, lent)) && app in lent
    ensures var after := StopSpec(state, app, answers, svcWins).0;
            Inv(Resting(after, lent)) || Inv(Resting(after, lent - {app})) <==> AllOrNothing(answers)
  {
    hide Inv, StopSpec, AllOrNothing;
    var after := StopSpec(state, app, answers, svcWins).0;
    if AllOrNothing(answers) {
      KeepsLeases(state, lent, app, answers, svcWins);
    } else if Inv(Resting(after, lent)) || Inv(Resting(after, lent - {app})) {
      LeasesKept(state, lent, app, answers, svcWins);
    }
  }

  // A lease that stands: every object of it, and its port.
  lemma WorkNotDone(after: OperatorState, lent: map<App, Lending>, app: App)
    requires Inv(Resting(after, lent)) && app in lent
    ensures (forall x :: Keys(app)(x) in after.objects) && lent[app].port in after.pool.busy
  {
    var t := Resting(after, lent);
    LentPort(t, app);
    PoolIsValid(t);
    GiveBackRemoves(t.pool, lent[app].port);
    hide Inv, KeyOf, Build;
    forall x
      ensures Keys(app)(x) in after.objects
    {
      QuiescentBundles(t, app, x);
    }
  }

  // A lease that has ended: no object of it.
  lemma WorkDone(state: OperatorState, after: OperatorState, lent: map<App, Lending>, app: App)
    requires Inv(Resting(state, lent)) && app in lent && Inv(Resting(after, lent - {app}))
    ensures forall x :: Keys(app)(x) !in after.objects
  {
    var t := Resting(after, lent - {app});
    assert t.lent.Keys + {app} == lent.Keys;
    assert Apart(lent.Keys);
    hide Inv, KeyOf;
    UnlentKeysAreFree(t, app);
    EverySlot();
  }

  lemma AllRemoved(objects: Cluster, launch: Launch, port: Port, answers: StopAnswers)
    requires HasBundle(objects, launch, port) && forall x :: Gone(answers, x)
    ensures Stopped(objects, launch.app, answers, ALL_SLOTS) == Cut(objects, ALL_SLOTS, Keys(launch.app))
  {
    hide HasBundle, KeyOf, Seen;
    forall x
      ensures Seen(objects, launch.app, answers, x).Some? && answers.delete(x) != Refused
    {
      assert Gone(answers, x);
      SeenWhenAnswered(objects, launch, port, answers, x);
    }
    EverySlot();
    assert Removed(objects, launch.app, answers, ALL_SLOTS) == ALL_SLOTS;
  }

  lemma NoneRemoved(objects: Cluster, launch: Launch, port: Port, answers: StopAnswers)
    requires HasBundle(objects, launch, port) && forall x :: !Gone(answers, x)
    ensures Stopped(objects, launch.app, answers, ALL_SLOTS) == objects
  {
    hide HasBundle, KeyOf, Seen;
    forall x
      ensures !(Seen(objects, launch.app, answers, x).Some? && answers.delete(x) != Refused)
    {
      assert !Gone(answers, x);
      SeenWhenAnswered(objects, launch, port, answers, x);
    }
    assert Removed(objects, launch.app, answers, ALL_SLOTS) == {};
    assert Cut(objects, {}, Keys(launch.app)) == objects;
  }

  lemma MessagesDoNotMatter(s: System, t: System)
    requires Inv(s) && t == s.(destroyed := t.destroyed)
    ensures Inv(t)
  {
    hide KeyOf, Build, NoWebrtcPorts;
    forall a, x
      ensures Stands(t, a, x) <==> Stands(s, a, x)
    {
    }
    ObjectsSame(s, t);
    forall a | a in t.requests
      ensures RequestInv(t, a)
    {
      assert RequestInv(s, a);
    }
  }

  // A stop that reads the deployment and is refused its Delete: the next start shares the port with what stands.
  lemma RefusedDeleteSharesPort(state: OperatorState, a: Launch, b: Launch, answers: StopAnswers, svcWins: bool)
    requires state.pool.Valid() && Lease(state.pool).1.Some?
    requires KeysFree(state.objects, a.app) && KeysFree(state.objects, b.app) && Strangers(a.app, b.app)
    requires NoWebrtcPorts(a.template) && NoWebrtcPorts(b.template)
    requires answers.get(Ingest).Works? && answers.delete(Ingest) == Refused
    ensures var started := StartSpec(state, a, RELIABLE.get).0;
            var stopped := StopSpec(started, a.app, answers, svcWins).0;
            stopped.pool == state.pool
            && var (after, err) := StartSpec(stopped, b, RELIABLE.get);
               err.None? && CarriesPort(after, a.app, Lease(state.pool).1.value)
                   && CarriesPort(after, b.app, Lease(state.pool).1.value)
  {
    hide KeyOf, Build, StartSpec, StopSpec, KeysFree, FetchOwned, DeploymentPort, Strangers, HasBundle;
    var port := Lease(state.pool).1.value;
    var started := StartSpec(state, a, RELIABLE.get).0;
    var stopped := StopSpec(started, a.app, answers, svcWins).0;
    ReliableStart(state, a);
    LeaseIsLeast(state.pool);
    LeaseThenBack(state.pool);
    GiveBackRemoves(started.pool, port);
    StopUnderFailures(started, a, port, answers, svcWins);
    OwnershipFrame(started, a.app, answers, svcWins);
    KeysOfStart(state.objects, started.objects, a.app);
    StillFree(state.objects, started.objects, a.app, b.app);
    FewerKeysFree(started.objects, stopped.objects, b.app);
    FirstContainerPortIsFirst(a.template.ports);
    FoundInBuiltDeployment(a, port);
    DeploymentStands(started.objects, a, port);
    StartSharesPort(stopped, a.app, b, port);
  }

  lemma DeploymentStands(objects: Cluster, launch: Launch, port: Port)
    requires HasBundle(objects, launch, port)
    ensures var key := Keys(launch.app)(Ingest);
            key in objects && objects[key] == Build(launch, port, Ingest)
  {
    hide KeyOf, Build;
  }

  // ---------- Both, once ----------

  const IDLE := OperatorState(map[], Pool(20000, 20009, {}), [])

  function Plain(name: string): Launch {
    Launch(App("default", name), IngestTemplate("plain", "ingest", []), name)
  }

  lemma PlainStarts(a: string, b: string)
    requires a != b && |a| < 19 && |b| < 19
    ensures Strangers(Plain(a).app, Plain(b).app) && KeysFree(IDLE.objects, Plain(a).app)
            && NoWebrtcPorts(Plain(a).template)
    ensures IDLE.pool.Valid() && Lease(IDLE.pool).1 == Some(20000)
  {
    assert |UDP_GATEWAY_SUFFIX| == |TCP_GATEWAY_SUFFIX| == 19;
    StrangersByName(Plain(a).app, Plain(b).app);
  }

  // Alice's start is refused its virtual service, Bob starts, Alice stops, Carol starts: Bob and Carol have port 20000.
  lemma LeakOnce()
    ensures IDLE.pool.Valid()
    ensures var failed := StartSpec(IDLE, Plain("alice"), s => if s == Routing then Refused else Works).0;
            failed.pool.Valid()
            && var started := StartSpec(failed, Plain("bob"), RELIABLE.get).0;
               var stopped := StopSpec(started, Plain("alice").app, RELIABLE, true).0;
               stopped.pool.Valid()
               && var after := StartSpec(stopped, Plain("carol"), RELIABLE.get).0;
                  CarriesPort(after, Plain("bob").app, 20000) && CarriesPort(after, Plain("carol").app, 20000)
  {
    hide StartSpec, StopSpec, Strangers, KeysFree, CarriesPort;
    PlainStarts("alice", "bob");
    PlainStarts("bob", "carol");
    PlainStarts("carol", "alice");
    PlainStarts("alice", "carol");
    var answers := s => if s == Routing then Refused else Works;
    assert !answers(Routing).Works? && Routing in ALL_SLOTS;
    LeftByFailedStart(IDLE, Plain("alice"), answers);
    LeakSharesPort(IDLE, Plain("alice"), Plain("bob"), Plain("carol"), answers, true);
  }

  // Alice starts, her stop is refused the Delete of her deployment, Bob starts: Alice and Bob have port 20000.
  lemma RefusedDeleteOnce()
    ensures IDLE.pool.Valid()
    ensures var started := StartSpec(IDLE, Plain("alice"), RELIABLE.get).0;
            var answers := StopAnswers(_ => Works, s => if s == Ingest then Refused else Works, Works);
            var stopped := StopSpec(started, Plain("alice").app, answers, true).0;
            stopped.pool.Valid()
            && var after := StartSpec(stopped, Plain("bob"), RELIABLE.get).0;
               CarriesPort(after, Plain("alice").app, 20000) && CarriesPort(after, Plain("bob").app, 20000)
  {
    hide StartSpec, StopSpec, Strangers, KeysFree, CarriesPort;
    PlainStarts("alice", "bob");
    PlainStarts("bob", "alice");
    var answers := StopAnswers(_ => Works, s => if s == Ingest then Refused else Works, Works);
    RefusedDeleteSharesPort(IDLE, Plain("alice"), Plain("bob"), answers, true);
  }
}
