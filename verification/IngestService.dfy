/** The gRPC service of the operator: StartServer stops the app, whatever comes of it, and starts it; StopServer stops
    it. */
module IngestServices {
  import opened Wrappers
  import opened PortRanges
  import opened IngestResources
  import opened Bundles
  import opened IngestSystems
  import opened IngestProperties
  import opened LeaseProtocol
  import opened Shutdowns

  datatype Code = NotFound | Internal

  datatype StartServerRequest = StartServerRequest(app: App, ingestTemplate: string, broadcasterId: string)

  function LaunchOf(req: StartServerRequest, template: IngestTemplate): Launch {
    Launch(req.app, template, req.broadcasterId)
  }

  class IngestControllerService {
    const ingestSystem: IngestSystem
    var ingestTemplates: map<string, IngestTemplate>

    constructor (ingestSystem: IngestSystem, ingestTemplates: map<string, IngestTemplate>)
      ensures this.ingestSystem == ingestSystem && this.ingestTemplates == ingestTemplates
    {
      this.ingestSystem, this.ingestTemplates := ingestSystem, ingestTemplates;
    }

    // An unknown template is refused before anything is stopped; the error of the stop is dropped.
    method StartServer(req: StartServerRequest, stopAnswers: StopAnswers, startAnswers: Slot -> Answer)
      returns (err: Option<Code>, svcWins: bool)
      requires ingestSystem.nodePortRange.Valid()
      modifies ingestSystem, ingestSystem.k8s, ingestSystem.nodePortRange
      ensures ingestSystem.nodePortRange.Valid()
      ensures req.ingestTemplate !in ingestTemplates
              ==> err == Some(NotFound) && ingestSystem.State() == old(ingestSystem.State())
      ensures req.ingestTemplate in ingestTemplates ==>
                var launch := LaunchOf(req, ingestTemplates[req.ingestTemplate]);
                var (after, failure) :=
                    RestartSpec(old(ingestSystem.State()), launch, stopAnswers, startAnswers, svcWins);
                && ingestSystem.State() == after
                && err == if failure.Some? then Some(Internal) else None
    {
      if req.ingestTemplate !in ingestTemplates {
        return Some(NotFound), false;
      }
      var launch := LaunchOf(req, ingestTemplates[req.ingestTemplate]);
      ghost var before := ingestSystem.State();
      var _, winner := ingestSystem.StopIngestSystem(req.app, stopAnswers);
      svcWins := winner;
      var failure := ingestSystem.StartIngestSystem(launch, startAnswers);
      err := if failure.Some? then Some(Internal) else None;
    }

    method StopServer(app: App, answers: StopAnswers) returns (err: Option<Code>, svcWins: bool)
      requires ingestSystem.nodePortRange.Valid()
      modifies ingestSystem, ingestSystem.k8s, ingestSystem.nodePortRange
      ensures ingestSystem.nodePortRange.Valid()
      ensures var (after, failure) := StopSpec(old(ingestSystem.State()), app, answers, svcWins);
              && ingestSystem.State() == after
              && err == if failure.Some? then Some(Internal) else None
    {
      var failure, winner := ingestSystem.StopIngestSystem(app, answers);
      svcWins := winner;
      err := if failure.Some? then Some(Internal) else None;
    }
  }

  lemma StopKeepsPoolValid(state: OperatorState, app: App, answers: StopAnswers, svcWins: bool)
    requires state.pool.Valid()
    ensures var pool := StopSpec(state, app, answers, svcWins).0.pool;
            pool.Valid() && pool.portMin == state.pool.portMin && pool.portMax == state.pool.portMax
  {
    hide Stopped, AllStop, RecoveredPort, BroadcasterOf, Seen;
  }

  ghost function RestartSpec(state: OperatorState, launch: Launch, stopAnswers: StopAnswers,
                             startAnswers: Slot -> Answer, svcWins: bool)
    : (OperatorState, Option<StartError>)
    requires state.pool.Valid()
  {
    StopKeepsPoolValid(state, launch.app, stopAnswers, svcWins);
    StartSpec(StopSpec(state, launch.app, stopAnswers, svcWins).0, launch, startAnswers)
  }

  // ---------- One request at a time, with a reliable API ----------

  // A start that collides with no app that holds a lease, and names no port like the webrtc ports.
  ghost predicate MayStart(lent: map<App, Lending>, launch: Launch) {
    NoWebrtcPorts(launch.template) && Apart(lent.Keys + {launch.app})
  }

  // Stopping an app that holds no lease fails and changes nothing, even if other apps' objects bear its names.
  lemma StopOfUnlent(state: OperatorState, lent: map<App, Lending>, app: App, svcWins: bool)
    requires Inv(Resting(state, lent)) && app !in lent
    ensures StopSpec(state, app, RELIABLE, svcWins) == (state, Some(UnableStop))
  {
    hide Inv, StopSpec, Seen;
    forall x
      ensures Seen(state.objects, app, RELIABLE, x).None?
    {
      NothingSeen(state, lent, app, x);
    }
    StopOfUnseen(state, app, svcWins);
  }

  lemma StopOfUnseen(state: OperatorState, app: App, svcWins: bool)
    requires forall x :: Seen(state.objects, app, RELIABLE, x).None?
    ensures StopSpec(state, app, RELIABLE, svcWins) == (state, Some(UnableStop))
  {
    hide Seen;
    assert Removed(state.objects, app, RELIABLE, ALL_SLOTS) == {};
    assert Cut(state.objects, {}, Keys(app)) == state.objects;
    assert !SlotStops(state.objects, app, RELIABLE, Ingest) && Ingest in ALL_SLOTS;
  }

  lemma NothingSeen(state: OperatorState, lent: map<App, Lending>, app: App, slot: Slot)
    requires Inv(Resting(state, lent)) && app !in lent
    ensures Seen(state.objects, app, RELIABLE, slot).None?
  {
    hide KeyOf, Build, FetchOwned;
    ReadFindsOwn(Resting(state, lent), app, slot);
  }

  lemma StillMayStart(lent: map<App, Lending>, launch: Launch)
    requires MayStart(lent, launch)
    ensures MayStart(lent - {launch.app}, launch)
  {
  }

  lemma UnlentKeysAreFree(s: System, app: App)
    requires Inv(s) && app !in s.lent && Apart(s.lent.Keys + {app})
    ensures KeysFree(s.objects, app)
  {
    hide KeyOf, Build, Expected;
    forall y | y in ALL_SLOTS
      ensures Keys(app)(y) !in s.objects
    {
      if Keys(app)(y) in s.objects {
        var a, x :| Stands(s, a, x) && Keys(app)(y) == Keys(a)(x);
        LentWhenStanding(s, a, x);
        KeysOfApp(a, x);
        KeysOfApp(app, y);
        AppsShareNoKey(a, app, x, y);
      }
    }
  }

  // The bundle of one more lease is put into the cluster.
  lemma PutBundle(s: System, t: System, app: App)
    requires ObjectsInv(s) && s.requests == map[] && t.requests == map[] && app !in s.lent && app in t.lent
    requires s.lent == t.lent - {app} && KeysFree(s.objects, app)
    requires HasBundle(t.objects, t.lent[app].launch, t.lent[app].port) && t.lent[app].launch.app == app
    requires s.objects == Cut(t.objects, ALL_SLOTS, Keys(app))
    ensures ObjectsInv(t)
  {
    hide KeyOf, Build, Stands, KeysFree;
    forall a, x | Stands(t, a, x)
      ensures a in t.lent && Keys(a)(x) in t.objects
              && t.objects[Keys(a)(x)] == Build(t.lent[a].launch, t.lent[a].port, x)
    {
      RestingStands(s, a, x);
      RestingStands(t, a, x);
    }
    forall k | k in t.objects
      ensures exists a, x :: Stands(t, a, x) && k == Keys(a)(x)
    {
      if k in s.objects {
        var a, x :| Stands(s, a, x) && k == Keys(a)(x);
        RestingStands(s, a, x);
        RestingStands(t, a, x);
      } else {
        assert k in Image(ALL_SLOTS, Keys(app));
        var x :| x in ALL_SLOTS && k == Keys(app)(x);
        RestingStands(t, app, x);
      }
    }
  }

  lemma StartBegins(s: System, t: System, launch: Launch)
    requires Inv(s) && s.requests == map[] && t.requests == map[] && launch.app !in s.lent && MayStart(s.lent, launch)
    requires Lease(s.pool).1.Some? && t.pool == Lease(s.pool).0
    requires t.lent == s.lent[launch.app := Lending(launch, Lease(s.pool).1.value)] && t.fleet == t.lent.Keys
    requires HasBundle(t.objects, launch, Lease(s.pool).1.value)
             && s.objects == Cut(t.objects, ALL_SLOTS, Keys(launch.app))
    ensures Inv(t)
  {
    hide KeyOf, Build, NoWebrtcPorts, GoodName, HasBundle, KeysFree, Lease, ObjectsInv, PoolInv, Cut, Put;
    UnlentKeysAreFree(s, launch.app);
    assert s.lent == t.lent - {launch.app};
    assert t.lent.Keys == s.lent.Keys + {launch.app};
    PutBundle(s, t, launch.app);
    PoolTaken(s, t, launch.app, launch);
  }

  // Starting an app that holds no lease fails exactly when the pool is exhausted, and then changes nothing; otherwise
  // the app holds a lease of the least free port.
  lemma StartTakesLease(state: OperatorState, lent: map<App, Lending>, launch: Launch)
    requires Inv(Resting(state, lent)) && launch.app !in lent && MayStart(lent, launch)
    ensures var port := Lease(state.pool).1;
            var (after, err) := StartSpec(state, launch, RELIABLE.get);
            if port.None? then (after, err) == (state, Some(FullNodePortAssigned))
            else err.None? && after.destroyed == state.destroyed
                 && Inv(Resting(after, lent[launch.app := Lending(launch, port.value)]))
  {
    var s := Resting(state, lent);
    PoolIsValid(s);
    if Lease(state.pool).1.Some? {
      UnlentKeysAreFree(s, launch.app);
      ReliableStart(state, launch);
      hide Inv, StartSpec, HasBundle, KeysFree, Lease, Cut, MayStart;
      var after := StartSpec(state, launch, RELIABLE.get).0;
      StartBegins(s, Resting(after, lent[launch.app := Lending(launch, Lease(state.pool).1.value)]), launch);
    }
  }

  // After a stop that ended a lease, its port is free.
  lemma PortAfterStop(state: OperatorState, stopped: OperatorState, lent: map<App, Lending>, app: App)
    requires Inv(Resting(state, lent)) && app in lent && Inv(Resting(stopped, lent - {app}))
    requires stopped.pool.portMin == state.pool.portMin && stopped.pool.portMax == state.pool.portMax
    ensures Lease(stopped.pool).1.Some?
  {
    hide ObjectsInv, RequestsInv;
    var s, t := Resting(state, lent), Resting(stopped, lent - {app});
    assert s.lent[app].port in s.pool.busy;
    forall p | p in t.pool.busy
      ensures p != s.lent[app].port
    {
      var a :| a in t.lent && t.lent[a].port == p;
      assert a in s.lent && a != app;
    }
    assert s.pool.portMin <= s.lent[app].port <= s.pool.portMax;
    assert s.lent[app].port !in t.pool.busy;
  }

  lemma RestartOfLent(state: OperatorState, lent: map<App, Lending>, launch: Launch, svcWins: bool)
    requires Inv(Resting(state, lent)) && MayStart(lent, launch) && launch.app in lent && state.pool.Valid()
    ensures var (after, err) := RestartSpec(state, launch, RELIABLE, RELIABLE.get, svcWins);
            && err.None? && after.destroyed == state.destroyed + Message(lent, launch.app)
            && exists port :: Inv(Resting(after, lent[launch.app := Lending(launch, port)]))
  {
    hide Inv, StartSpec, StopSpec, MayStart, Lease, Message;
    var app := launch.app;
    var stopped := StopSpec(state, app, RELIABLE, svcWins).0;
    StopEndsLease(state, lent, app, svcWins);
    StopKeepsPoolValid(state, app, RELIABLE, svcWins);
    PortAfterStop(state, stopped, lent, app);
    StillMayStart(lent, launch);
    StartTakesLease(stopped, lent - {app}, launch);
    var port := Lease(stopped.pool).1.value;
    assert (lent - {app})[app := Lending(launch, port)] == lent[app := Lending(launch, port)];
  }

  lemma RestartOfUnlent(state: OperatorState, lent: map<App, Lending>, launch: Launch, svcWins: bool)
    requires Inv(Resting(state, lent)) && MayStart(lent, launch) && launch.app !in lent && state.pool.Valid()
    ensures var (after, err) := RestartSpec(state, launch, RELIABLE, RELIABLE.get, svcWins);
            && after.destroyed == state.destroyed
            && (err.Some? <==> |state.pool.busy| == state.pool.Capacity())
            && (err.Some? ==> after == state)
            && (err.None? ==> exists port :: Inv(Resting(after, lent[launch.app := Lending(launch, port)])))
  {
    hide Inv, StartSpec, StopSpec, MayStart, Lease;
    StopOfUnlent(state, lent, launch.app, svcWins);
    StartTakesLease(state, lent, launch);
    LeaseIsLeast(state.pool);
  }

  // With a reliable API, and whoever wins the port race, StartServer replaces the app's lease, sends the message of the
  // lease it ends, and fails exactly when the app held no lease and the pool is exhausted: an app that is streaming
  // can always be started anew.
  lemma StartServerReplaces(state: OperatorState, lent: map<App, Lending>, launch: Launch, svcWins: bool)
    requires Inv(Resting(state, lent)) && MayStart(lent, launch) && state.pool.Valid()
    ensures var (after, err) := RestartSpec(state, launch, RELIABLE, RELIABLE.get, svcWins);
            && after.destroyed == state.destroyed + Message(lent, launch.app)
            && (err.Some? <==> launch.app !in lent && |state.pool.busy| == state.pool.Capacity())
            && (err.Some? ==> after == state)
            && (err.None? ==> exists port :: Inv(Resting(after, lent[launch.app := Lending(launch, port)])))
  {
    hide Inv, RestartSpec, MayStart;
    if launch.app in lent {
      RestartOfLent(state, lent, launch, svcWins);
    } else {
      RestartOfUnlent(state, lent, launch, svcWins);
    }
  }

  // StartServer, then StopServer. The app that a StartServer has started is served at a leased port, with the template
  // and the broadcaster id of the request; the StopServer that follows succeeds, ends that lease, and sends one
  // message, with that id.
  lemma StartServerThenStopServer(state: OperatorState, lent: map<App, Lending>, req: StartServerRequest,
                                  template: IngestTemplate, startWins: bool, stopWins: bool)
    requires Inv(Resting(state, lent)) && state.pool.Valid() && req.broadcasterId != ""
    requires NoWebrtcPorts(template) && Apart(lent.Keys + {req.app})
    ensures var (started, err) := RestartSpec(state, LaunchOf(req, template), RELIABLE, RELIABLE.get, startWins);
            err.None? ==>
              && (exists port ::
                    port in started.pool.busy
                    && Serves(started.objects, req.app, template, req.broadcasterId, port))
              && var (stopped, failure) := StopSpec(started, req.app, RELIABLE, stopWins);
                 && failure.None? && Inv(Resting(stopped, lent - {req.app}))
                 && stopped.destroyed == started.destroyed + [Destroyed(req.broadcasterId, req.app.name)]
  {
    hide Inv, RestartSpec, StopSpec, Serves;
    var launch := LaunchOf(req, template);
    StartServerReplaces(state, lent, launch, startWins);
    var (started, err) := RestartSpec(state, launch, RELIABLE, RELIABLE.get, startWins);
    if err.None? {
      var port :| Inv(Resting(started, lent[req.app := Lending(launch, port)]));
      var lending := lent[req.app := Lending(launch, port)];
      StopEndsLease(started, lending, req.app, stopWins);
      assert lending - {req.app} == lent - {req.app};
      LendingIsBusy(Resting(started, lending), req.app);
      BundleOfLent(Resting(started, lending), req.app);
      BundleServes(started.objects, launch, port);
    }
  }

  lemma LendingIsBusy(s: System, app: App)
    requires Inv(s) && app in s.lent
    ensures s.lent[app].port in s.pool.busy
  {
  }
}
