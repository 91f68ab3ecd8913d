/** Any number of stops of any apps at once, several of one app included, and no start: what they leave of a cluster
    that was at rest. */
module StopCrowds {
  import opened Wrappers
  import opened PortRanges
  import opened IngestResources
  import opened IngestSystems
  import opened LeaseProtocol
  import opened Overlaps
  import opened Shutdowns
  import LeaseRuns
  import WebrtcRaces

  // ---------- One step of one stop ----------

  const FIRST := Stopping(ALL_SLOTS, ALL_SLOTS, false, None, None, None)

  function Now(w: Crowd, id: nat, r: Request): Crowd
    requires id in w.flights
  {
    w.(flights := w.flights[id := Flight(w.flights[id].app, r)])
  }

  // What a goroutine's read makes of the request.
  function ReadBy(r: Request, slot: Slot, o: Option<Object>): Request
    requires r.Stopping?
  {
    var read := r.(unread := r.unread - {slot},
                   dep := if slot == Ingest then o else r.dep,
                   svc := if slot == UdpGateway then o else r.svc);
    if o.Some? then read else read.(running := r.running - {slot}, failed := true)
  }

  function Reads(w: Crowd, id: nat, slot: Slot): Crowd
    requires id in w.flights && w.flights[id].request.Stopping?
  {
    var f := w.flights[id];
    Now(w, id, ReadBy(f.request, slot, FetchOwned(w.objects, Keys(f.app)(slot), f.app.name, Works)))
  }

  function Deletes(w: Crowd, id: nat, slot: Slot): Crowd
    requires id in w.flights && w.flights[id].request.Stopping?
  {
    var f := w.flights[id];
    var key := Keys(f.app)(slot);
    var r := f.request.(running := f.request.running - {slot}, failed := f.request.failed || key !in w.objects);
    Now(w, id, r).(objects := w.objects - {key})
  }

  function Joins(w: Crowd, id: nat, svcWins: bool): Crowd
    requires id in w.flights && w.flights[id].request.Stopping?
  {
    var r := w.flights[id].request;
    var found := WebrtcRaces.Pick(DeploymentPort(r.dep), ServicePortOf(r.svc), svcWins);
    var (pool, refusal) := GiveBackFound(w.pool, found);
    var lent := if found.Some? && refusal.None? then Unlend(w.lent, ToPort(found.value)) else w.lent;
    var next := if r.failed || refusal.Some? || BroadcasterOf(r.dep) == "" then w.(flights := w.flights - {id})
                else Now(w, id, Publishing(BroadcasterOf(r.dep), None));
    next.(pool := pool, lent := lent)
  }

  function Publishes(w: Crowd, id: nat): Crowd
    requires id in w.flights && w.flights[id].request.Publishing?
  {
    var f := w.flights[id];
    w.(flights := w.flights - {id}, destroyed := w.destroyed + [Destroyed(f.request.broadcasterID, f.app.name)])
  }

  predicate OnlyStops(w: Crowd) {
    forall id :: id in w.flights ==>
      (w.flights[id].request.Stopping? || w.flights[id].request.Publishing?) && w.flights[id].request.next.None?
  }

  // The next state, when nothing but stops is in flight and nothing else begins.
  function StopAct(w: Crowd, act: Act): Crowd
    requires OnlyStops(w) && !act.event.BeginStart?
  {
    var id := act.id;
    match act.event
    case BeginStop(app) => if id in w.flights then w else w.(flights := w.flights[id := Flight(app, FIRST)])
    case Goroutine(app, slot) =>
      if id !in w.flights || w.flights[id].app != app then w
      else
        var r := w.flights[id].request;
        if !r.Stopping? || slot !in r.running then w
        else if slot in r.unread then Reads(w, id, slot)
        else Deletes(w, id, slot)
    case Join(app, svcWins) =>
      if id !in w.flights || w.flights[id].app != app then w
      else
        var r := w.flights[id].request;
        if !r.Stopping? || r.running != {} then w else Joins(w, id, svcWins)
    case Publish(app) =>
      if id !in w.flights || w.flights[id].app != app || !w.flights[id].request.Publishing? then w else Publishes(w, id)
    case _ => w
  }

  lemma SameFlights(w: Crowd, id: nat)
    ensures id in w.flights ==> w.flights[id := w.flights[id]] == w.flights
    ensures id !in w.flights ==> w.flights - {id} == w.flights
  {
  }

  // The view of a flight in which nothing happens.
  lemma IdlePerform(w: Crowd, act: Act)
    requires w.pool.Valid() && Step(View(w, act.id), act.event) == View(w, act.id)
    requires act.id in w.flights ==> w.flights[act.id].app == AppOf(act.event)
    ensures Perform(w, act) == w
  {
    hide Step;
    MergeOwnView(w, act.id, AppOf(act.event));
  }

  lemma GoroutinePerform(w: Crowd, id: nat, slot: Slot)
    requires w.pool.Valid() && id in w.flights && w.flights[id].request.Stopping?
             && slot in w.flights[id].request.running
    ensures var act := Act(id, Goroutine(w.flights[id].app, slot));
            Perform(w, act) == if slot in w.flights[id].request.unread then Reads(w, id, slot) else Deletes(w, id, slot)
  {
    hide FetchOwned, Keys, StopJoin, CreateCall, CreateJoin, PortCall, BeginRequest;
  }

  lemma JoinPerform(w: Crowd, id: nat, svcWins: bool)
    requires w.pool.Valid() && id in w.flights && w.flights[id].request.Stopping? && w.flights[id].request.next.None?
    requires w.flights[id].request.running == {}
    ensures Perform(w, Act(id, Join(w.flights[id].app, svcWins))) == Joins(w, id, svcWins)
  {
    hide DeploymentPort, ServicePortOf, BroadcasterOf, GiveBack, Unlend, StopCall, CreateCall, CreateJoin, PortCall,
         BeginRequest;
  }

  lemma PublishPerform(w: Crowd, id: nat)
    requires w.pool.Valid() && id in w.flights && w.flights[id].request.Publishing? && w.flights[id].request.next.None?
    ensures Perform(w, Act(id, Publish(w.flights[id].app))) == Publishes(w, id)
  {
    hide StopCall, StopJoin, CreateCall, CreateJoin, PortCall, BeginRequest;
  }

  lemma PerformIsStopAct(w: Crowd, act: Act)
    requires w.pool.Valid() && OnlyStops(w) && !act.event.BeginStart?
    ensures Perform(w, act) == StopAct(w, act)
  {
    hide Reads, Deletes, Joins, Publishes, StopCall, StopJoin, CreateCall, CreateJoin, PortCall;
    var id, app := act.id, AppOf(act.event);
    if id in w.flights && w.flights[id].app == app {
      var r := w.flights[id].request;
      match act.event
      case Goroutine(_, slot) =>
        if r.Stopping? && slot in r.running {
          GoroutinePerform(w, id, slot);
        } else {
          IdlePerform(w, act);
        }
      case Join(_, svcWins) =>
        if r.Stopping? && r.running == {} {
          JoinPerform(w, id, svcWins);
        } else {
          IdlePerform(w, act);
        }
      case Publish(_) =>
        if r.Publishing? {
          PublishPerform(w, id);
        } else {
          IdlePerform(w, act);
        }
      case _ => IdlePerform(w, act);
    } else if id !in w.flights && !act.event.BeginStop? {
      IdlePerform(w, act);
    }
  }

  // ---------- The invariant ----------

  // What is left of the cluster, the pool and the leases of `home`.
  ghost predicate Left(home: System, w: Crowd) {
    && (forall k :: k in w.objects ==> k in home.objects && w.objects[k] == home.objects[k])
    && (forall a :: a in w.lent ==> a in home.lent && w.lent[a] == home.lent[a])
    && PoolInv(With(w, map[]))
  }

  // The six objects of the app are gone.
  ghost predicate Gone(w: Crowd, app: App) {
    forall x :: Keys(app)(x) !in w.objects
  }

  ghost function BuiltFor(home: System, app: App, slot: Slot): Option<Object> {
    if app in home.lent then Some(Build(home.lent[app].launch, home.lent[app].port, slot)) else None
  }

  // A stop in flight: what it has captured is of the app's lease, and the objects of the goroutines that have returned
  // are gone, whoever deleted them.
  ghost predicate StopInv(home: System, w: Crowd, f: Flight) {
    match f.request
    case Stopping(running, unread, failed, dep, svc, next) =>
      && unread <= running <= ALL_SLOTS && next.None?
      && (dep.Some? ==> dep == BuiltFor(home, f.app, Ingest))
      && (svc.Some? ==> svc == BuiltFor(home, f.app, UdpGateway))
      && (Ingest in unread ==> dep.None?)
      && (f.app !in home.lent ==> unread == running)
      && (Ingest in running && Ingest !in unread ==> dep.Some?)
      && (f.app in home.lent ==> forall x :: x !in running ==> Keys(f.app)(x) !in w.objects)
    case Publishing(broadcasterID, next) =>
      && next.None? && f.app in home.lent && Gone(w, f.app)
      && broadcasterID == home.lent[f.app].launch.broadcasterID != ""
    case _ => false
  }

  ghost predicate Flies(w: Crowd, id: nat, app: App) {
    id in w.flights && w.flights[id].app == app
  }

  ghost predicate Captures(w: Crowd, id: nat, app: App) {
    Flies(w, id, app) && w.flights[id].request.Stopping? && w.flights[id].request.dep.Some?
  }

  ghost predicate Tells(w: Crowd, id: nat, app: App) {
    Flies(w, id, app) && w.flights[id].request.Publishing?
  }

  // The apps of which a stop has begun: an object is missing only from them, and one of them either has a stop in
  // flight or has lost all its objects.
  ghost predicate Begun(home: System, w: Crowd, begun: set<App>) {
    && (forall id :: id in w.flights ==> w.flights[id].app in begun)
    && (forall a, x :: a in home.lent && Keys(a)(x) !in w.objects ==> a in begun)
    && (forall a :: a in begun && a in home.lent && !Gone(w, a) ==> exists id :: Flies(w, id, a))
  }

  // A lease that stands has its deployment, or a stop in flight that has read it.
  ghost predicate Held(w: Crowd) {
    forall a :: a in w.lent && Keys(a)(Ingest) !in w.objects ==> exists id :: Captures(w, id, a)
  }

  // The messages sent are those of the apps in `sent`, none of which is there twice or will be again.
  ghost predicate Told(home: System, w: Crowd, sent: seq<App>) {
    && w.destroyed == home.destroyed + Messages(sent, home.lent)
    && (forall i, j :: 0 <= i < j < |sent| ==> sent[i] != sent[j])
    && (forall a :: a in sent ==> a in home.lent && a !in w.lent && home.lent[a].launch.broadcasterID != "")
    && (forall id, a :: Tells(w, id, a) ==> a !in w.lent && a !in sent)
    && (forall i, j, a :: Tells(w, i, a) && Tells(w, j, a) ==> i == j)
  }

  ghost predicate Flights(home: System, w: Crowd) {
    forall id :: id in w.flights ==> StopInv(home, w, w.flights[id])
  }

  ghost predicate Drains(home: System, w: Crowd, begun: set<App>, sent: seq<App>) {
    Left(home, w) && Flights(home, w) && Begun(home, w, begun) && Held(w) && Told(home, w, sent)
  }

  ghost predicate AtHome(home: System) {
    Inv(home) && home.requests == map[]
  }

  // ---------- What a read finds ----------

  lemma HomeObject(home: System, app: App, slot: Slot)
    requires AtHome(home) && app in home.lent
    ensures Keys(app)(slot) in home.objects && Some(home.objects[Keys(app)(slot)]) == BuiltFor(home, app, slot)
  {
    hide Inv, KeyOf, Build;
    QuiescentBundles(home, app, slot);
  }

  lemma HomeRead(home: System, app: App, slot: Slot)
    requires AtHome(home)
    ensures FetchOwned(home.objects, Keys(app)(slot), app.name, Works) == BuiltFor(home, app, slot)
  {
    RestingStands(home, app, slot);
    hide KeyOf, Build, RequestsInv, ObjectsInv, PoolInv, Stands;
    ReadFindsOwn(home, app, slot);
  }

  // The object of the app's own lease, if it is still there.
  lemma ReadFinds(home: System, w: Crowd, app: App, slot: Slot)
    requires AtHome(home) && Left(home, w)
    ensures FetchOwned(w.objects, Keys(app)(slot), app.name, Works)
            == if Keys(app)(slot) in w.objects then BuiltFor(home, app, slot) else None
  {
    hide AtHome, Keys, Build;
    HomeRead(home, app, slot);
  }

  // Deleting an object of one lease leaves those of the others.
  lemma OnlyThatKey(home: System, a: App, b: App, x: Slot, y: Slot)
    requires AtHome(home) && a in home.lent && b in home.lent && Keys(a)(x) == Keys(b)(y)
    ensures a == b && x == y
  {
    hide Keys;
    KeysMeet(home, a, b, x, y);
  }

  // ---------- Each step keeps it ----------

  // A flight's part depends on the objects only, and fewer of them do no harm.
  lemma FlightStays(home: System, w: Crowd, v: Crowd, f: Flight)
    requires StopInv(home, w, f) && forall k :: k in v.objects ==> k in w.objects
    ensures StopInv(home, v, f)
  {
    hide Keys, Build;
  }

  lemma FlightsKeep(home: System, w: Crowd, v: Crowd, id: nat)
    requires Flights(home, w) && forall k :: k in v.objects ==> k in w.objects
    requires forall i :: i in v.flights && i != id ==> i in w.flights && v.flights[i] == w.flights[i]
    requires id in v.flights ==> StopInv(home, v, v.flights[id])
    ensures Flights(home, v)
  {
    hide StopInv;
    forall i | i in v.flights
      ensures StopInv(home, v, v.flights[i])
    {
      if i != id {
        FlightStays(home, w, v, v.flights[i]);
      }
    }
  }

  lemma BeginKeeps(home: System, w: Crowd, begun: set<App>, sent: seq<App>, id: nat, app: App)
    requires Drains(home, w, begun, sent) && id !in w.flights
    ensures Drains(home, w.(flights := w.flights[id := Flight(app, FIRST)]), begun + {app}, sent)
  {
    hide Keys, Build, StopInv, Left, Messages;
    var v := w.(flights := w.flights[id := Flight(app, FIRST)]);
    FirstInv(home, v, app);
    FlightsKeep(home, w, v, id);
    SameLeft(home, w, v);
    assert Flies(v, id, app);
    forall i, a | Flies(w, i, a)
      ensures Flies(v, i, a) && (Captures(w, i, a) ==> Captures(v, i, a))
    {
    }
    forall i, a
      ensures Tells(v, i, a) <==> Tells(w, i, a)
    {
    }
  }

  lemma FirstInv(home: System, v: Crowd, app: App)
    ensures StopInv(home, v, Flight(app, FIRST))
  {
    EverySlot();
  }

  lemma SameLeft(home: System, w: Crowd, v: Crowd)
    requires Left(home, w) && v.objects == w.objects && v.pool == w.pool && v.lent == w.lent
    ensures Left(home, v)
  {
    hide Keys, Build;
    PoolSame(With(w, map[]), With(v, map[]));
  }

  // A read changes its own request only.
  lemma ReadInv(home: System, w: Crowd, id: nat, slot: Slot)
    requires AtHome(home) && Left(home, w) && id in w.flights && StopInv(home, w, w.flights[id])
    requires w.flights[id].request.Stopping? && slot in w.flights[id].request.unread
    ensures var v := Reads(w, id, slot);
            StopInv(home, v, v.flights[id])
  {
    hide AtHome, Left, Keys, Build, FetchOwned;
    ReadFinds(home, w, w.flights[id].app, slot);
    var r := w.flights[id].request;
    assert slot in r.running && slot !in r.unread - {slot} && slot !in r.running - {slot};
  }

  lemma ReadsKeep(home: System, w: Crowd, begun: set<App>, sent: seq<App>, id: nat, slot: Slot)
    requires AtHome(home) && Drains(home, w, begun, sent) && id in w.flights
    requires w.flights[id].request.Stopping? && slot in w.flights[id].request.unread
    ensures Drains(home, Reads(w, id, slot), begun, sent)
  {
    hide AtHome, Keys, Build, FetchOwned, StopInv, Left, Messages;
    var v := Reads(w, id, slot);
    var f := w.flights[id];
    ReadInv(home, w, id, slot);
    FlightsKeep(home, w, v, id);
    SameLeft(home, w, v);
    forall i, a
      ensures Flies(v, i, a) <==> Flies(w, i, a)
      ensures Tells(v, i, a) <==> Tells(w, i, a)
      ensures Captures(w, i, a) ==> Captures(v, i, a)
    {
      if i == id && Captures(w, i, a) {
        UnreadNotCaptured(home, w, id, slot);
      }
    }
  }

  // The deployment is read once: a stop that has captured it does not read it again.
  lemma UnreadNotCaptured(home: System, w: Crowd, id: nat, slot: Slot)
    requires id in w.flights && StopInv(home, w, w.flights[id])
    requires w.flights[id].request.Stopping? && slot in w.flights[id].request.unread
    ensures w.flights[id].request.dep.Some? ==> slot != Ingest
  {
  }

  lemma DeleteInv(home: System, w: Crowd, id: nat, slot: Slot)
    requires id in w.flights && StopInv(home, w, w.flights[id]) && w.flights[id].request.Stopping?
    requires slot in w.flights[id].request.running && slot !in w.flights[id].request.unread
    ensures var v := Deletes(w, id, slot);
            && StopInv(home, v, v.flights[id]) && w.flights[id].app in home.lent
            && (slot == Ingest ==> w.flights[id].request.dep.Some?)
  {
    hide Keys, Build;
    var r := w.flights[id].request;
    assert slot !in r.running - {slot};
  }

  lemma FewerLeft(home: System, w: Crowd, v: Crowd, key: Key)
    requires Left(home, w) && v.objects == w.objects - {key} && v.pool == w.pool && v.lent == w.lent
    ensures Left(home, v)
  {
    hide Keys, Build;
    PoolSame(With(w, map[]), With(v, map[]));
  }

  lemma DeleteFlights(w: Crowd, id: nat, slot: Slot)
    requires id in w.flights && w.flights[id].request.Stopping?
    ensures var v := Deletes(w, id, slot);
            && v.objects == w.objects - {Keys(w.flights[id].app)(slot)}
            && (v.pool, v.lent, v.destroyed, v.fleet) == (w.pool, w.lent, w.destroyed, w.fleet)
            && id in v.flights && (forall i ::
                                     i in v.flights && i != id
                                     ==> i in w.flights && v.flights[i] == w.flights[i])
            && (forall i, a :: Flies(v, i, a) <==> Flies(w, i, a))
            && (forall i, a :: Tells(v, i, a) <==> Tells(w, i, a))
            && (forall i, a :: Captures(v, i, a) <==> Captures(w, i, a))
  {
    hide Keys;
  }

  lemma DeletesBegun(home: System, w: Crowd, begun: set<App>, id: nat, slot: Slot)
    requires AtHome(home) && Begun(home, w, begun) && id in w.flights && w.flights[id].request.Stopping?
    requires w.flights[id].app in home.lent
    ensures Begun(home, Deletes(w, id, slot), begun)
  {
    hide AtHome, Keys, Deletes, Captures, Tells;
    var v, app := Deletes(w, id, slot), w.flights[id].app;
    DeleteFlights(w, id, slot);
    forall i | i in v.flights
      ensures v.flights[i].app in begun
    {
      assert Flies(v, i, v.flights[i].app) && Flies(w, i, v.flights[i].app);
    }
    forall a, x | a in home.lent && Keys(a)(x) !in v.objects
      ensures a in begun
    {
      if Keys(a)(x) in w.objects {
        OnlyThatKey(home, a, app, x, slot);
      }
    }
    forall a | a in begun && a in home.lent && !Gone(v, a)
      ensures exists i :: Flies(v, i, a)
    {
      assert !Gone(w, a);
      var i :| Flies(w, i, a);
      assert Flies(v, i, a);
    }
  }

  lemma DeletesHeld(home: System, w: Crowd, id: nat, slot: Slot)
    requires AtHome(home) && Left(home, w) && Held(w) && id in w.flights && w.flights[id].request.Stopping?
    requires w.flights[id].app in home.lent && (slot == Ingest ==> w.flights[id].request.dep.Some?)
    ensures Held(Deletes(w, id, slot))
  {
    hide AtHome, Keys, Deletes, Left, Tells;
    var v, app := Deletes(w, id, slot), w.flights[id].app;
    DeleteFlights(w, id, slot);
    LentAtHome(home, w);
    forall a | a in v.lent && Keys(a)(Ingest) !in v.objects
      ensures exists i :: Captures(v, i, a)
    {
      if Keys(a)(Ingest) in w.objects {
        OnlyThatKey(home, a, app, Ingest, slot);
        assert Captures(w, id, a) && Captures(v, id, a);
      } else {
        var i :| Captures(w, i, a);
        assert Captures(v, i, a);
      }
    }
  }

  lemma DeletesKeep(home: System, w: Crowd, begun: set<App>, sent: seq<App>, id: nat, slot: Slot)
    requires AtHome(home) && Drains(home, w, begun, sent) && id in w.flights && w.flights[id].request.Stopping?
    requires slot in w.flights[id].request.running && slot !in w.flights[id].request.unread
    ensures Drains(home, Deletes(w, id, slot), begun, sent)
  {
    hide AtHome, Keys, Build, StopInv, Left, Messages, Flies, Tells, Captures, Deletes, Begun, Held;
    var v, app := Deletes(w, id, slot), w.flights[id].app;
    DeleteFlights(w, id, slot);
    DeleteInv(home, w, id, slot);
    FlightsKeep(home, w, v, id);
    FewerLeft(home, w, v, Keys(app)(slot));
    DeletesBegun(home, w, begun, id, slot);
    DeletesHeld(home, w, id, slot);
  }

  lemma LentAtHome(home: System, w: Crowd)
    requires Left(home, w)
    ensures forall a :: a in w.lent ==> a in home.lent && w.lent[a] == home.lent[a]
  {
  }

  // ---------- Joins ----------

  // The port that a join finds: that of the app's lease, if anything has been read.
  lemma JoinFinds(home: System, w: Crowd, id: nat, svcWins: bool)
    requires AtHome(home) && id in w.flights && w.flights[id].request.Stopping? && StopInv(home, w, w.flights[id])
    ensures var f := w.flights[id];
            var found := WebrtcRaces.Pick(DeploymentPort(f.request.dep), ServicePortOf(f.request.svc), svcWins);
            && (found.Some? ==> f.app in home.lent && ToPort(found.value) == home.lent[f.app].port)
            && (f.request.dep.Some? ==> found.Some?)
            && BroadcasterOf(f.request.dep)
               == (if f.request.dep.Some? then home.lent[f.app].launch.broadcasterID else "")
  {
    var f := w.flights[id];
    if f.app in home.lent {
      LeaseAtHome(home, f.app);
      hide Inv, KeyOf;
      DeploymentRoundTrip(home.lent[f.app].launch);
      GatewayRoundTrip(home.lent[f.app].launch, home.lent[f.app].port, UdpGateway);
    }
  }

  lemma LeaseAtHome(home: System, app: App)
    requires AtHome(home) && app in home.lent
    ensures home.lent[app].launch.app == app && NoWebrtcPorts(home.lent[app].launch.template)
    ensures GiveBack(home.pool, home.lent[app].port).1.None?
    ensures forall b :: b in home.lent && home.lent[b].port == home.lent[app].port ==> b == app
  {
    hide ObjectsInv;
    LentIsBusy(home, app);
  }

  // What giving back a lease's port does, once or again.
  lemma GivenBack(home: System, w: Crowd, app: App)
    requires AtHome(home) && Left(home, w) && app in home.lent
    ensures var (pool, refusal) := GiveBack(w.pool, home.lent[app].port);
            && (refusal.None? <==> app in w.lent)
            && (refusal.Some? ==> pool == w.pool)
            && (refusal.None? ==> Left(home, w.(pool := pool, lent := Unlend(w.lent, home.lent[app].port))))
            && (refusal.None? ==> Unlend(w.lent, home.lent[app].port) == w.lent - {app})
  {
    hide Keys, Build;
    LeaseAtHome(home, app);
    hide AtHome;
    var port := home.lent[app].port;
    var s := With(w, map[]);
    if app in w.lent {
      LentIsBusy(s, app);
      PoolGivenBack(s, s.(pool := GiveBack(w.pool, port).0, lent := Unlend(w.lent, port)), app);
      PoolSame(s.(pool := GiveBack(w.pool, port).0, lent := Unlend(w.lent, port)),
               With(w.(pool := GiveBack(w.pool, port).0, lent := Unlend(w.lent, port)), map[]));
    } else {
      NotBusy(home, w, app);
    }
  }

  lemma NotBusy(home: System, w: Crowd, app: App)
    requires AtHome(home) && Left(home, w) && app in home.lent && app !in w.lent
    ensures home.lent[app].port !in w.pool.busy && GiveBack(w.pool, home.lent[app].port).1.Some?
  {
    LeaseAtHome(home, app);
    hide Inv, Keys, Build;
    forall p | p in w.pool.busy
      ensures p != home.lent[app].port
    {
      var b :| b in w.lent && w.lent[b].port == p;
    }
  }

  // The flight of a join, afterwards: over, or about to publish.
  lemma JoinFlights(home: System, w: Crowd, id: nat, svcWins: bool)
    requires AtHome(home) && Left(home, w) && id in w.flights && StopInv(home, w, w.flights[id])
    requires w.flights[id].request.Stopping? && w.flights[id].request.running == {}
    ensures var v, f := Joins(w, id, svcWins), w.flights[id];
            && v.objects == w.objects && v.destroyed == w.destroyed && Left(home, v)
            && (forall i :: i in v.flights && i != id ==> i in w.flights && v.flights[i] == w.flights[i])
            && (forall i :: i in w.flights && i != id ==> i in v.flights)
            && (forall a ::
                  a in v.lent
                  <==> a in w.lent && !(a == f.app && (f.request.dep.Some? || f.request.svc.Some?)))
            && (id in v.flights <==> && !f.request.failed && f.request.dep.Some? && f.app in w.lent
                                     && home.lent[f.app].launch.broadcasterID != "")
            && (id in v.flights ==>
                  v.flights[id] == Flight(f.app, Publishing(home.lent[f.app].launch.broadcasterID, None)))
  {
    hide Keys, Build, DeploymentPort, ServicePortOf, BroadcasterOf, GiveBack, Unlend, Left, AtHome;
    var f := w.flights[id];
    JoinFinds(home, w, id, svcWins);
    SearchesFind(home, f);
    if f.app in home.lent {
      GivenBack(home, w, f.app);
    }
    LentAtHome(home, w);
    var v := Joins(w, id, svcWins);
    var found := WebrtcRaces.Pick(DeploymentPort(f.request.dep), ServicePortOf(f.request.svc), svcWins);
    assert found.Some? <==> f.request.dep.Some? || f.request.svc.Some?;
    if found.Some? {
      var (pool, refusal) := GiveBack(w.pool, home.lent[f.app].port);
      assert GiveBackFound(w.pool, found) == (pool, refusal);
      if refusal.None? {
        assert v.pool == pool && v.lent == Unlend(w.lent, home.lent[f.app].port) == w.lent - {f.app};
        LeftIgnores(home, w.(pool := pool, lent := Unlend(w.lent, home.lent[f.app].port)), v);
      } else {
        assert v.pool == w.pool && v.lent == w.lent;
        LeftIgnores(home, w, v);
      }
    } else {
      LeftIgnores(home, w, v);
    }
  }

  lemma LeftIgnores(home: System, w: Crowd, v: Crowd)
    requires v == w.(flights := v.flights, destroyed := v.destroyed)
    ensures Left(home, w) <==> Left(home, v)
  {
    if Left(home, w) {
      SameLeft(home, w, v);
    }
    if Left(home, v) {
      SameLeft(home, v, w);
    }
  }

  // Both searches find something in what they are given.
  lemma SearchesFind(home: System, f: Flight)
    requires AtHome(home) && f.request.Stopping?
    requires f.request.dep.Some? ==> f.request.dep == BuiltFor(home, f.app, Ingest)
    requires f.request.svc.Some? ==> f.request.svc == BuiltFor(home, f.app, UdpGateway)
    ensures DeploymentPort(f.request.dep).Some? <==> f.request.dep.Some?
    ensures ServicePortOf(f.request.svc).Some? <==> f.request.svc.Some?
  {
    if f.app in home.lent {
      LeaseAtHome(home, f.app);
      hide Inv, KeyOf;
      DeploymentRoundTrip(home.lent[f.app].launch);
      GatewayRoundTrip(home.lent[f.app].launch, home.lent[f.app].port, UdpGateway);
    }
  }

  // A flight of which the objects are all gone may end, or turn to publishing.
  lemma BegunWithout(home: System, w: Crowd, v: Crowd, begun: set<App>, id: nat)
    requires Begun(home, w, begun) && v.objects == w.objects && id in w.flights
    requires w.flights[id].app in home.lent ==> Gone(w, w.flights[id].app)
    requires forall i :: i in v.flights && i != id ==> i in w.flights && v.flights[i] == w.flights[i]
    requires forall i :: i in w.flights && i != id ==> i in v.flights
    requires id in v.flights ==> v.flights[id].app == w.flights[id].app
    ensures Begun(home, v, begun)
  {
    hide Keys;
    forall a | a in begun && a in home.lent && !Gone(v, a)
      ensures exists i :: Flies(v, i, a)
    {
      assert !Gone(w, a);
      var i :| Flies(w, i, a);
      assert Flies(v, i, a);
    }
  }

  lemma HeldWithout(home: System, w: Crowd, v: Crowd, id: nat)
    requires Held(w) && v.objects == w.objects && id in w.flights
    requires forall i :: i in w.flights && i != id ==> i in v.flights && v.flights[i] == w.flights[i]
    requires forall a :: a in v.lent ==> a in w.lent && !Captures(w, id, a)
    ensures Held(v)
  {
    hide Keys;
    forall a | a in v.lent && Keys(a)(Ingest) !in v.objects
      ensures exists i :: Captures(v, i, a)
    {
      var i :| Captures(w, i, a);
      assert Captures(v, i, a);
    }
  }

  lemma JoinsTold(home: System, w: Crowd, sent: seq<App>, id: nat, svcWins: bool)
    requires AtHome(home) && Left(home, w) && Told(home, w, sent) && id in w.flights && StopInv(home, w, w.flights[id])
    requires w.flights[id].request.Stopping? && w.flights[id].request.running == {}
    ensures Told(home, Joins(w, id, svcWins), sent)
  {
    hide AtHome, Keys, Build, Left, Messages, Joins, StopInv;
    var v, f := Joins(w, id, svcWins), w.flights[id];
    JoinFlights(home, w, id, svcWins);
    forall i, a | Tells(v, i, a)
      ensures if i == id then a == f.app && a in w.lent && a !in v.lent else Tells(w, i, a)
    {
    }
  }

  lemma JoinsKeep(home: System, w: Crowd, begun: set<App>, sent: seq<App>, id: nat, svcWins: bool)
    requires AtHome(home) && Drains(home, w, begun, sent) && id in w.flights && w.flights[id].request.Stopping?
    requires w.flights[id].request.running == {}
    ensures Drains(home, Joins(w, id, svcWins), begun, sent)
  {
    hide AtHome, Keys, Build, Left, Joins, Begun, Told, Held;
    var v, f := Joins(w, id, svcWins), w.flights[id];
    assert StopInv(home, w, f);
    JoinFlights(home, w, id, svcWins);
    assert f.app in home.lent ==> Gone(w, f.app);
    FlightsKeep(home, w, v, id);
    BegunWithout(home, w, v, begun, id);
    HeldWithout(home, w, v, id);
    JoinsTold(home, w, sent, id, svcWins);
  }

  lemma PublishesTold(home: System, w: Crowd, sent: seq<App>, id: nat)
    requires Told(home, w, sent) && id in w.flights && w.flights[id].request.Publishing?
    requires StopInv(home, w, w.flights[id])
    ensures Told(home, Publishes(w, id), sent + [w.flights[id].app])
  {
    hide Keys, Messages;
    var v, f := Publishes(w, id), w.flights[id];
    assert Tells(w, id, f.app);
    MessagesSnoc(sent, f.app, home.lent);
    forall i, a | Tells(v, i, a)
      ensures Tells(w, i, a) && i != id && a != f.app
    {
    }
  }

  lemma PublishesKeep(home: System, w: Crowd, begun: set<App>, sent: seq<App>, id: nat)
    requires AtHome(home) && Drains(home, w, begun, sent) && id in w.flights && w.flights[id].request.Publishing?
    ensures Drains(home, Publishes(w, id), begun, sent + [w.flights[id].app])
  {
    hide AtHome, Keys, Build, Left, Begun, Told, Held;
    var v, f := Publishes(w, id), w.flights[id];
    assert StopInv(home, w, f);
    SameLeft(home, w, v);
    FlightsKeep(home, w, v, id);
    BegunWithout(home, w, v, begun, id);
    HeldWithout(home, w, v, id);
    PublishesTold(home, w, sent, id);
  }

  // ---------- Every run ----------

  function BegunBy(w: Crowd, act: Act): set<App> {
    if act.event.BeginStop? && act.id !in w.flights then {act.event.app} else {}
  }

  function SentBy(w: Crowd, act: Act): seq<App> {
    if act.event.Publish? && act.id in w.flights && w.flights[act.id].app == act.event.app
       && w.flights[act.id].request.Publishing?
    then [act.event.app]
    else []
  }

  lemma ActKeeps(home: System, w: Crowd, begun: set<App>, sent: seq<App>, act: Act)
    requires AtHome(home) && Drains(home, w, begun, sent) && !act.event.BeginStart?
    ensures w.pool.Valid()
    ensures Drains(home, Perform(w, act), begun + BegunBy(w, act), sent + SentBy(w, act))
  {
    hide AtHome, Begun, Held, Told, Left, Reads, Deletes, Joins, Publishes;
    LeftIsValid(home, w);
    StopsOnly(home, w);
    PerformIsStopAct(w, act);
    assert begun + {} == begun && sent + [] == sent;
    match act.event
    case BeginStop(app) =>
      if act.id !in w.flights {
        BeginKeeps(home, w, begun, sent, act.id, app);
      }
    case Goroutine(app, slot) =>
      if act.id in w.flights && w.flights[act.id].app == app {
        var r := w.flights[act.id].request;
        if r.Stopping? && slot in r.running {
          if slot in r.unread {
            ReadsKeep(home, w, begun, sent, act.id, slot);
          } else {
            DeletesKeep(home, w, begun, sent, act.id, slot);
          }
        }
      }
    case Join(app, svcWins) =>
      if act.id in w.flights && w.flights[act.id].app == app {
        var r := w.flights[act.id].request;
        if r.Stopping? && r.running == {} {
          JoinsKeep(home, w, begun, sent, act.id, svcWins);
        }
      }
    case Publish(app) =>
      if act.id in w.flights && w.flights[act.id].app == app && w.flights[act.id].request.Publishing? {
        PublishesKeep(home, w, begun, sent, act.id);
      }
    case TakePort(_) =>
  }

  lemma LeftIsValid(home: System, w: Crowd)
    requires Left(home, w)
    ensures w.pool.Valid()
  {
  }

  lemma StopsOnly(home: System, w: Crowd)
    requires Flights(home, w)
    ensures OnlyStops(w)
  {
    forall id | id in w.flights
      ensures (w.flights[id].request.Stopping? || w.flights[id].request.Publishing?) && w.flights[id].request.next.None?
    {
      assert StopInv(home, w, w.flights[id]);
    }
  }

  function CrowdOf(home: System): Crowd {
    Crowd(home.objects, home.pool, map[], home.destroyed, home.lent, home.fleet)
  }

  lemma HomeDrains(home: System)
    requires AtHome(home)
    ensures Drains(home, CrowdOf(home), {}, [])
  {
    hide Keys, Build, RequestsInv, ObjectsInv;
    PoolSame(home, With(CrowdOf(home), map[]));
    forall a, x | a in home.lent
      ensures Keys(a)(x) in home.objects
    {
      HomeObject(home, a, x);
    }
  }

  // With no stop in flight and every lent app stopped, nothing is left.
  lemma DrainsToNothing(home: System, w: Crowd, begun: set<App>, sent: seq<App>)
    requires AtHome(home) && Drains(home, w, begun, sent) && w.flights == map[] && home.lent.Keys <= begun
    ensures w.objects == map[] && w.pool.busy == {} && w.lent == map[]
  {
    hide Keys, Build, Inv, StopInv, Told;
    assert forall id, a :: !Flies(w, id, a);
    assert forall id, a :: !Captures(w, id, a);
    forall k | k in home.objects
      ensures k !in w.objects
    {
      HomeKeys(home, k);
      var a, x :| a in home.lent && k == Keys(a)(x);
      assert Gone(w, a);
    }
    forall a | a in home.lent
      ensures a !in w.lent
    {
      assert Gone(w, a);
    }
    assert w.lent == map[] && forall p :: p !in w.pool.busy;
  }

  lemma HomeKeys(home: System, k: Key)
    requires AtHome(home) && k in home.objects
    ensures exists a, x :: a in home.lent && k == Keys(a)(x)
  {
    hide Keys, Build, RequestsInv, PoolInv, Stands;
    var a, x :| Stands(home, a, x) && k == Keys(a)(x);
    RestingStands(home, a, x);
  }

  // The apps of which a run begins a stop, and those whose message it sends, in order.
  function BegunIn(w: Crowd, acts: seq<Act>): set<App>
    requires w.pool.Valid()
    decreases |acts|
  {
    if acts == [] then {} else BegunBy(w, acts[0]) + BegunIn(Perform(w, acts[0]), acts[1..])
  }

  function SentIn(w: Crowd, acts: seq<Act>): seq<App>
    requires w.pool.Valid()
    decreases |acts|
  {
    if acts == [] then [] else SentBy(w, acts[0]) + SentIn(Perform(w, acts[0]), acts[1..])
  }

  lemma {:induction false} RunDrains(home: System, w: Crowd, begun: set<App>, sent: seq<App>, acts: seq<Act>)
    requires AtHome(home) && Drains(home, w, begun, sent) && w.pool.Valid()
    requires forall i :: 0 <= i < |acts| ==> !acts[i].event.BeginStart?
    ensures Drains(home, RunAll(w, acts), begun + BegunIn(w, acts), sent + SentIn(w, acts))
    decreases |acts|
  {
    hide AtHome, Drains, Perform, BegunBy, SentBy;
    if acts == [] {
      assert begun + {} == begun && sent + [] == sent;
    } else {
      var v := Perform(w, acts[0]);
      ActKeeps(home, w, begun, sent, acts[0]);
      RunDrains(home, v, begun + BegunBy(w, acts[0]), sent + SentBy(w, acts[0]), acts[1..]);
      assert begun + BegunIn(w, acts) == begun + BegunBy(w, acts[0]) + BegunIn(v, acts[1..]);
      assert sent + SentIn(w, acts) == sent + SentBy(w, acts[0]) + SentIn(v, acts[1..]);
    }
  }

  // Draining is complete however many stops overlap, of one app or of several: if every app that holds a lease is
  // stopped at least once, and no stop is left in flight, then no object is left and no port is busy, and no lease has
  // sent its message twice.
  lemma OverlappingStopsDrain(home: System, acts: seq<Act>)
    requires AtHome(home) && home.pool.Valid()
    requires forall i :: 0 <= i < |acts| ==> !acts[i].event.BeginStart?
    requires RunAll(CrowdOf(home), acts).flights == map[] && home.lent.Keys <= BegunIn(CrowdOf(home), acts)
    ensures var w, sent := RunAll(CrowdOf(home), acts), SentIn(CrowdOf(home), acts);
            && w.objects == map[] && w.pool.busy == {} && w.lent == map[]
            && w.destroyed == home.destroyed + Messages(sent, home.lent)
            && (forall i, j :: 0 <= i < j < |sent| ==> sent[i] != sent[j])
            && (forall a :: a in sent ==> a in home.lent && home.lent[a].launch.broadcasterID != "")
  {
    hide AtHome, RunAll, BegunIn, SentIn, Left, Flights, Begun, Held, Messages;
    var start := CrowdOf(home);
    HomeDrains(home);
    RunDrains(home, start, {}, [], acts);
    assert {} + BegunIn(start, acts) == BegunIn(start, acts) && [] + SentIn(start, acts) == SentIn(start, acts);
    DrainsToNothing(home, RunAll(start, acts), BegunIn(start, acts), SentIn(start, acts));
  }

  // ---------- Stops of one app that take turns ----------

  ghost predicate Single(w: Crowd, app: App) {
    forall i, j :: Flies(w, i, app) && Flies(w, j, app) ==> i == j
  }

  // A stop that has found everything so far.
  ghost predicate Proper(w: Crowd, app: App, r: Request) {
    && r.Stopping? && !r.failed && (Ingest !in r.unread ==> r.dep.Some?)
    && forall x :: Keys(app)(x) in w.objects <==> x in r.running
  }

  // The app's lease is untouched or its one stop has found everything so far; once it has ended, its message has been
  // sent or is about to be.
  ghost predicate Regular(w: Crowd, app: App, sent: seq<App>) {
    if app in w.lent then
      && (forall i :: Flies(w, i, app) ==> Proper(w, app, w.flights[i].request))
      && ((forall i :: !Flies(w, i, app)) ==> forall x :: Keys(app)(x) in w.objects)
    else app in sent || exists i :: Tells(w, i, app)
  }

  // Steps of other apps do not matter.
  lemma RegularFrame(w: Crowd, v: Crowd, app: App, sent: seq<App>, more: seq<App>)
    requires Regular(w, app, sent) && (app in sent ==> app in more)
    requires app in v.lent <==> app in w.lent
    requires forall i :: Flies(v, i, app) <==> Flies(w, i, app)
    requires forall i :: Flies(w, i, app) ==> i in v.flights && v.flights[i] == w.flights[i]
    requires forall x :: Keys(app)(x) in v.objects <==> Keys(app)(x) in w.objects
    ensures Regular(v, app, more)
  {
    hide Keys;
    if i :| Tells(w, i, app) {
      assert Tells(v, i, app);
    }
  }

  lemma RegularBegin(w: Crowd, app: App, sent: seq<App>, id: nat, other: App)
    requires Regular(w, app, sent) && id !in w.flights
    requires Single(w.(flights := w.flights[id := Flight(other, FIRST)]), app)
    ensures Regular(w.(flights := w.flights[id := Flight(other, FIRST)]), app, sent)
  {
    hide Keys;
    var v := w.(flights := w.flights[id := Flight(other, FIRST)]);
    EverySlot();
    forall i | Flies(w, i, app)
      ensures Flies(v, i, app) && v.flights[i] == w.flights[i] && (Tells(w, i, app) ==> Tells(v, i, app))
    {
    }
    if other == app {
      assert Flies(v, id, app);
    }
  }

  lemma RegularRead(home: System, w: Crowd, app: App, sent: seq<App>, id: nat, slot: Slot)
    requires AtHome(home) && Left(home, w) && Regular(w, app, sent) && Single(w, app) && app in home.lent
    requires id in w.flights && StopInv(home, w, w.flights[id])
    requires w.flights[id].request.Stopping? && slot in w.flights[id].request.unread
    ensures Regular(Reads(w, id, slot), app, sent)
  {
    hide AtHome, Left, Keys, Build, FetchOwned;
    var v, f := Reads(w, id, slot), w.flights[id];
    forall i, a
      ensures Flies(v, i, a) <==> Flies(w, i, a)
      ensures Tells(v, i, a) <==> Tells(w, i, a)
    {
    }
    ReadFinds(home, w, f.app, slot);
    if f.app == app && app in w.lent {
      assert Flies(w, id, app) && Proper(w, app, f.request);
    }
  }

  lemma RegularDelete(home: System, w: Crowd, app: App, sent: seq<App>, id: nat, slot: Slot)
    requires AtHome(home) && Regular(w, app, sent) && Single(w, app) && app in home.lent
    requires id in w.flights && StopInv(home, w, w.flights[id]) && w.flights[id].request.Stopping?
    requires slot in w.flights[id].request.running && slot !in w.flights[id].request.unread
    ensures Regular(Deletes(w, id, slot), app, sent)
  {
    hide AtHome, Keys, Build;
    var v, f := Deletes(w, id, slot), w.flights[id];
    DeleteFlights(w, id, slot);
    DeleteInv(home, w, id, slot);
    forall x
      ensures Keys(app)(x) in v.objects <==> Keys(app)(x) in w.objects && !(f.app == app && x == slot)
    {
      if Keys(app)(x) == Keys(f.app)(slot) {
        OnlyThatKey(home, app, f.app, x, slot);
      }
    }
    if f.app == app && app in w.lent {
      assert Flies(w, id, app) && Proper(w, app, f.request);
    }
  }

  lemma RegularJoin(home: System, w: Crowd, app: App, sent: seq<App>, id: nat, svcWins: bool)
    requires AtHome(home) && Left(home, w) && Regular(w, app, sent) && Single(w, app) && app in home.lent
    requires home.lent[app].launch.broadcasterID != ""
    requires id in w.flights && StopInv(home, w, w.flights[id])
    requires w.flights[id].request.Stopping? && w.flights[id].request.running == {}
    ensures Regular(Joins(w, id, svcWins), app, sent)
  {
    hide AtHome, Keys, Build, Left, Joins;
    var v, f := Joins(w, id, svcWins), w.flights[id];
    JoinFlights(home, w, id, svcWins);
    if f.app != app {
      RegularFrame(w, v, app, sent, sent);
    } else if app in w.lent {
      assert Flies(w, id, app) && Proper(w, app, f.request);
      assert Tells(v, id, app);
    } else if i :| Tells(w, i, app) {
      assert Tells(v, i, app);
    }
  }

  lemma RegularPublish(home: System, w: Crowd, app: App, sent: seq<App>, id: nat)
    requires Regular(w, app, sent) && Told(home, w, sent) && id in w.flights && w.flights[id].request.Publishing?
    ensures Regular(Publishes(w, id), app, sent + [w.flights[id].app])
  {
    hide Keys;
    var v, f := Publishes(w, id), w.flights[id];
    if f.app != app {
      RegularFrame(w, v, app, sent, sent + [f.app]);
    } else {
      assert Tells(w, id, app);
    }
  }

  lemma ActRegular(home: System, w: Crowd, begun: set<App>, sent: seq<App>, act: Act, app: App)
    requires AtHome(home) && Drains(home, w, begun, sent) && !act.event.BeginStart? && w.pool.Valid()
    requires app in home.lent && home.lent[app].launch.broadcasterID != ""
    requires Regular(w, app, sent) && Single(w, app) && Single(Perform(w, act), app)
    ensures Regular(Perform(w, act), app, sent + SentBy(w, act))
  {
    hide AtHome, Begun, Held, Told, Left, Reads, Deletes, Joins, Publishes, Regular, Single, StopInv;
    StopsOnly(home, w);
    PerformIsStopAct(w, act);
    assert sent + [] == sent;
    match act.event
    case BeginStop(other) =>
      if act.id !in w.flights {
        RegularBegin(w, app, sent, act.id, other);
      }
    case Goroutine(other, slot) =>
      if act.id in w.flights && w.flights[act.id].app == other {
        var r := w.flights[act.id].request;
        if r.Stopping? && slot in r.running {
          if slot in r.unread {
            RegularRead(home, w, app, sent, act.id, slot);
          } else {
            RegularDelete(home, w, app, sent, act.id, slot);
          }
        }
      }
    case Join(other, svcWins) =>
      if act.id in w.flights && w.flights[act.id].app == other {
        var r := w.flights[act.id].request;
        if r.Stopping? && r.running == {} {
          RegularJoin(home, w, app, sent, act.id, svcWins);
        }
      }
    case Publish(other) =>
      if act.id in w.flights && w.flights[act.id].app == other && w.flights[act.id].request.Publishing? {
        RegularPublish(home, w, app, sent, act.id);
      }
    case TakePort(_) =>
  }

  // Who is in flight changes only when a stop begins or ends.
  lemma FliersAfter(w: Crowd, act: Act, app: App)
    requires w.pool.Valid() && OnlyStops(w) && !act.event.BeginStart?
    ensures forall i :: Flies(Perform(w, act), i, app) ==>
              Flies(w, i, app) || (i == act.id && i !in w.flights && act.event == BeginStop(app))
  {
    hide Keys, FetchOwned, DeploymentPort, ServicePortOf, BroadcasterOf, GiveBack, Unlend;
    PerformIsStopAct(w, act);
  }

  lemma SingleStays(w: Crowd, act: Act, loose: set<App>, app: App)
    requires w.pool.Valid() && OnlyStops(w) && !act.event.BeginStart?
    requires InTurn(w, act, loose) && app !in loose && Single(w, app)
    ensures Single(Perform(w, act), app)
  {
    hide Perform;
    FliersAfter(w, act, app);
  }

  lemma {:induction false} RunRegular(home: System, w: Crowd, begun: set<App>, sent: seq<App>, acts: seq<Act>,
                                      loose: set<App>, app: App)
    requires AtHome(home) && Drains(home, w, begun, sent) && w.pool.Valid()
    requires forall i :: 0 <= i < |acts| ==> !acts[i].event.BeginStart?
    requires app in home.lent && home.lent[app].launch.broadcasterID != ""
    requires AllInTurn(w, acts, loose) && app !in loose && Single(w, app) && Regular(w, app, sent)
    ensures Regular(RunAll(w, acts), app, sent + SentIn(w, acts))
    decreases |acts|
  {
    hide AtHome, Perform, BegunBy, SentBy, InTurn, Single, Regular, Left, Begun, Held, Told, Flights;
    if acts == [] {
      assert sent + [] == sent;
    } else {
      var v := Perform(w, acts[0]);
      ActKeeps(home, w, begun, sent, acts[0]);
      StopsOnly(home, w);
      SingleStays(w, acts[0], loose, app);
      ActRegular(home, w, begun, sent, acts[0], app);
      RunRegular(home, v, begun + BegunBy(w, acts[0]), sent + SentBy(w, acts[0]), acts[1..], loose, app);
      assert sent + SentIn(w, acts) == sent + SentBy(w, acts[0]) + SentIn(v, acts[1..]);
    }
  }

  lemma HomeIsRegular(home: System, app: App)
    requires AtHome(home) && app in home.lent
    ensures Single(CrowdOf(home), app) && Regular(CrowdOf(home), app, [])
  {
    hide AtHome, Keys, Build;
    forall x
      ensures Keys(app)(x) in home.objects
    {
      HomeObject(home, app, x);
    }
  }

  // And each lease with a broadcaster id sends its message, once, if its app's stops take turns, whatever those of the
  // loose apps do.
  lemma StopsInTurnTell(home: System, acts: seq<Act>, loose: set<App>)
    requires AtHome(home) && home.pool.Valid()
    requires forall i :: 0 <= i < |acts| ==> !acts[i].event.BeginStart?
    requires RunAll(CrowdOf(home), acts).flights == map[] && home.lent.Keys <= BegunIn(CrowdOf(home), acts)
    requires AllInTurn(CrowdOf(home), acts, loose)
    ensures forall a :: a in home.lent && a !in loose && home.lent[a].launch.broadcasterID != "" ==>
              a in SentIn(CrowdOf(home), acts)
  {
    hide AtHome, RunAll, BegunIn, SentIn, AllInTurn, Messages, Drains, Single;
    var start := CrowdOf(home);
    OverlappingStopsDrain(home, acts);
    forall a | a in home.lent && a !in loose && home.lent[a].launch.broadcasterID != ""
      ensures a in SentIn(start, acts)
    {
      HomeDrains(home);
      HomeIsRegular(home, a);
      RunRegular(home, start, {}, [], acts, loose, a);
      assert [] + SentIn(start, acts) == SentIn(start, acts);
      assert forall i :: !Tells(RunAll(start, acts), i, a);
    }
  }

  // ---------- Stops that spoil each other ----------

  // The app's message can no longer be sent: its deployment is gone, and every stop in flight has failed or has not
  // read it.
  ghost predicate Silenced(w: Crowd, app: App, sent: seq<App>) {
    && app !in sent && Keys(app)(Ingest) !in w.objects
    && forall i :: Flies(w, i, app) ==>
         && w.flights[i].request.Stopping?
         && (w.flights[i].request.failed || w.flights[i].request.dep.None?)
  }

  lemma ReadSilenced(home: System, w: Crowd, app: App, sent: seq<App>, id: nat, slot: Slot)
    requires AtHome(home) && Left(home, w) && Silenced(w, app, sent)
    requires id in w.flights && w.flights[id].request.Stopping?
    ensures Silenced(Reads(w, id, slot), app, sent)
  {
    hide AtHome, Left, Keys, Build, FetchOwned;
    var v, f := Reads(w, id, slot), w.flights[id];
    ReadFinds(home, w, f.app, slot);
    forall i | Flies(v, i, app)
      ensures Flies(w, i, app) && v.flights[i].request.Stopping?
      ensures v.flights[i].request.failed || v.flights[i].request.dep.None?
    {
      assert Flies(w, i, app);
    }
  }

  lemma DeleteSilenced(w: Crowd, app: App, sent: seq<App>, id: nat, slot: Slot)
    requires Silenced(w, app, sent) && id in w.flights && w.flights[id].request.Stopping?
    ensures Silenced(Deletes(w, id, slot), app, sent)
  {
    hide Keys;
    var v := Deletes(w, id, slot);
    forall i | Flies(v, i, app)
      ensures v.flights[i].request.Stopping? && (v.flights[i].request.failed || v.flights[i].request.dep.None?)
    {
      assert Flies(w, i, app);
    }
  }

  lemma JoinSilenced(home: System, w: Crowd, app: App, sent: seq<App>, id: nat, svcWins: bool)
    requires AtHome(home) && Left(home, w) && Silenced(w, app, sent) && id in w.flights
             && StopInv(home, w, w.flights[id])
    requires w.flights[id].request.Stopping? && w.flights[id].request.running == {}
    ensures Silenced(Joins(w, id, svcWins), app, sent)
  {
    hide AtHome, Left, Keys, Build, Joins, StopInv;
    var v := Joins(w, id, svcWins);
    JoinFlights(home, w, id, svcWins);
    forall i | Flies(v, i, app)
      ensures v.flights[i].request.Stopping? && (v.flights[i].request.failed || v.flights[i].request.dep.None?)
    {
      assert Flies(w, i, app);
    }
  }

  lemma ActSilenced(home: System, w: Crowd, begun: set<App>, sent: seq<App>, act: Act, app: App)
    requires AtHome(home) && Drains(home, w, begun, sent) && !act.event.BeginStart? && w.pool.Valid()
    requires Silenced(w, app, sent)
    ensures Silenced(Perform(w, act), app, sent + SentBy(w, act))
  {
    hide AtHome, Keys, Begun, Held, Told, Left, Reads, Deletes, Joins, StopInv;
    StopsOnly(home, w);
    PerformIsStopAct(w, act);
    assert sent + [] == sent;
    if act.id in w.flights && w.flights[act.id].app == AppOf(act.event) {
      assert Flies(w, act.id, AppOf(act.event));
      var r := w.flights[act.id].request;
      match act.event
      case Goroutine(_, slot) =>
        if r.Stopping? && slot in r.running {
          if slot in r.unread {
            ReadSilenced(home, w, app, sent, act.id, slot);
          } else {
            DeleteSilenced(w, app, sent, act.id, slot);
          }
        }
      case Join(_, svcWins) =>
        if r.Stopping? && r.running == {} {
          JoinSilenced(home, w, app, sent, act.id, svcWins);
        }
      case _ =>
    }
  }
}
