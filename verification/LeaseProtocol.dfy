/** All interleavings of concurrent start and stop requests, one API call or pool call a step.
    The API is reliable here: Create fails only on a taken key, a read only when the object is absent or foreign,
    Delete only when the object is gone. At most one request an app is in flight. */
module LeaseProtocol {
  import opened Wrappers
  import opened PortRanges
  import opened IngestResources
  import opened WebrtcRaces
  import opened IngestSystems

  // A lease: the launch a port was taken for, and the port.
  datatype Lending = Lending(launch: Launch, port: Port)

  datatype Request =
    // Inside StopIngestSystem; `running` goroutines have not returned, `unread` ones have not read their object.
    | Stopping(running: set<Slot>, unread: set<Slot>, failed: bool, dep: Option<Object>, svc: Option<Object>,
               next: Option<Launch>)
    | Publishing(broadcasterID: string, next: Option<Launch>)
    // Inside StartIngestSystem.
    | Leasing(launch: Launch)
    | Creating(launch: Launch, port: Port, pending: set<Slot>, failed: bool)

  // `lent` is history: who took which port with GetPort and has not seen it given back. `fleet` is the apps that the
  // run may start.
  datatype System = System(objects: Cluster, pool: Pool, requests: map<App, Request>, destroyed: seq<Destroyed>,
                           lent: map<App, Lending>, fleet: set<App>)

  datatype Event =
    | BeginStop(app: App)
    | BeginStart(launch: Launch)
    | Goroutine(app: App, slot: Slot)
    | Join(app: App, svcWins: bool)
    | Publish(app: App)
    | TakePort(app: App)

  function Fresh(pool: Pool, fleet: set<App>): System {
    System(map[], pool, map[], [], map[], fleet)
  }

  // A request is over, or, in StartServer, the stop is over and the start begins.
  function Finish(requests: map<App, Request>, app: App, next: Option<Launch>): map<App, Request> {
    if next.Some? then requests[app := Leasing(next.value)] else requests - {app}
  }

  function Unlend(lent: map<App, Lending>, port: Port): map<App, Lending> {
    map a | a in lent && lent[a].port != port :: lent[a]
  }

  function StopCall(s: System, app: App, r: Request, slot: Slot): System
    requires r.Stopping?
  {
    var key := Keys(app)(slot);
    if slot in r.unread then
      var o := FetchOwned(s.objects, key, app.name, Works);
      var read := r.(unread := r.unread - {slot},
                     dep := if slot == Ingest then o else r.dep,
                     svc := if slot == UdpGateway then o else r.svc);
      s.(requests := s.requests[app := if o.Some? then read
                                       else read.(running := r.running - {slot}, failed := true)])
    else
      s.(objects := s.objects - {key},
         requests := s.requests[app := r.(running := r.running - {slot}, failed := r.failed || key !in s.objects)])
  }

  function CreateCall(s: System, app: App, r: Request, slot: Slot): System
    requires r.Creating?
  {
    var key := Keys(app)(slot);
    s.(objects := if key in s.objects then s.objects else s.objects[key := Build(r.launch, r.port, slot)],
       requests := s.requests[app := r.(pending := r.pending - {slot}, failed := r.failed || key in s.objects)])
  }

  function StopJoin(s: System, app: App, r: Request, svcWins: bool): System
    requires r.Stopping?
  {
    var found := Pick(DeploymentPort(r.dep), ServicePortOf(r.svc), svcWins);
    var (pool, refusal) := GiveBackFound(s.pool, found);
    var lent := if found.Some? && refusal.None? then Unlend(s.lent, ToPort(found.value)) else s.lent;
    var broadcasterID := BroadcasterOf(r.dep);
    s.(pool := pool, lent := lent,
       requests := if r.failed || refusal.Some? || broadcasterID == "" then Finish(s.requests, app, r.next)
                   else s.requests[app := Publishing(broadcasterID, r.next)])
  }

  function CreateJoin(s: System, app: App, r: Request): System
    requires r.Creating?
  {
    if r.failed then
      var (pool, refusal) := GiveBack(s.pool, r.port);
      s.(pool := pool, lent := if refusal.None? then Unlend(s.lent, r.port) else s.lent,
         requests := s.requests - {app})
    else s.(requests := s.requests - {app})
  }

  function PortCall(s: System, app: App, r: Request): System
    requires r.Leasing? && s.pool.Valid()
  {
    var (pool, port) := Lease(s.pool);
    if port.None? then s.(requests := s.requests - {app})
    else s.(pool := pool, lent := s.lent[app := Lending(r.launch, port.value)],
            requests := s.requests[app := Creating(r.launch, port.value, ALL_SLOTS, false)])
  }

  function BeginRequest(s: System, app: App, next: Option<Launch>): System {
    if app in s.requests then s
    else s.(requests := s.requests[app := Stopping(ALL_SLOTS, ALL_SLOTS, false, None, None, next)])
  }

  // One step; an event that is not enabled changes nothing.
  function Step(s: System, e: Event): (t: System)
    requires s.pool.Valid()
    ensures t.pool.Valid() && t.pool.portMin == s.pool.portMin && t.pool.portMax == s.pool.portMax
    ensures t.fleet == s.fleet
  {
    match e
    case BeginStop(app) => BeginRequest(s, app, None)
    case BeginStart(launch) => BeginRequest(s, launch.app, Some(launch))
    case Goroutine(app, slot) =>
      if app !in s.requests then s
      else
        var r := s.requests[app];
        if r.Stopping? && slot in r.running then StopCall(s, app, r, slot)
        else if r.Creating? && slot in r.pending then CreateCall(s, app, r, slot)
        else s
    case Join(app, svcWins) =>
      if app !in s.requests then s
      else
        var r := s.requests[app];
        if r.Stopping? && r.running == {} then StopJoin(s, app, r, svcWins)
        else if r.Creating? && r.pending == {} then CreateJoin(s, app, r)
        else s
    case Publish(app) =>
      if app !in s.requests || !s.requests[app].Publishing? then s
      else
        var r := s.requests[app];
        s.(destroyed := s.destroyed + [Destroyed(r.broadcasterID, app.name)],
           requests := Finish(s.requests, app, r.next))
    case TakePort(app) =>
      if app !in s.requests || !s.requests[app].Leasing? then s else PortCall(s, app, s.requests[app])
  }

  // ---------- The invariant ----------

  // No app of the fleet is called like a webrtc gateway service of another.
  ghost predicate Apart(fleet: set<App>) {
    forall a, b :: a in fleet && b in fleet ==> !Collide(a, b)
  }

  // Good names are enough.
  lemma GoodNamesAreApart(fleet: set<App>)
    requires forall a :: a in fleet ==> GoodName(a)
    ensures Apart(fleet)
  {
    forall a, b | a in fleet && b in fleet
      ensures !Collide(a, b)
    {
      if Collide(a, b) {
        CollidersHaveBadName(a, b);
      }
    }
  }

  lemma CollidersHaveBadName(a: App, b: App)
    requires Collide(a, b)
    ensures !GoodName(a) || !GoodName(b)
  {
    var long := if IsGatewayOf(a, b) then a else b;
    assert EndsWith(long.name, UDP_GATEWAY_SUFFIX) || EndsWith(long.name, TCP_GATEWAY_SUFFIX);
  }

  // What is asked of a start: an app of the fleet, and no template port called like the webrtc ports.
  ghost predicate GoodLaunch(fleet: set<App>, launch: Launch) {
    launch.app in fleet && NoWebrtcPorts(launch.template)
  }

  ghost predicate GoodEvent(fleet: set<App>, e: Event) {
    e.BeginStart? ==> GoodLaunch(fleet, e.launch)
  }

  // The objects that must be in the cluster for a lease, given the request in flight for its app.
  ghost function Expected(s: System, app: App): set<Slot> {
    if app !in s.lent then {}
    else if app !in s.requests then ALL_SLOTS
    else
      match s.requests[app]
      case Stopping(running, _, _, _, _, _) => running
      case Creating(_, _, pending, _) => ALL_SLOTS - pending
      case _ => {}
  }

  ghost predicate Stands(s: System, app: App, slot: Slot) {
    slot in Expected(s, app)
  }

  // The cluster holds exactly the expected objects of the leases, each built for its lease.
  ghost predicate ObjectsInv(s: System) {
    && (forall app, slot :: Stands(s, app, slot) ==>
          && Keys(app)(slot) in s.objects
          && s.objects[Keys(app)(slot)] == Build(s.lent[app].launch, s.lent[app].port, slot))
    && (forall k :: k in s.objects ==> exists app, slot :: Stands(s, app, slot) && k == Keys(app)(slot))
  }

  // The busy ports are exactly the lent ones, and no two apps were lent the same.
  ghost predicate PoolInv(s: System) {
    && s.pool.Valid()
    && (forall a :: a in s.lent ==> s.lent[a].port in s.pool.busy)
    && (forall p :: p in s.pool.busy ==> exists a :: a in s.lent && s.lent[a].port == p)
    && (forall a, b :: a in s.lent && b in s.lent && s.lent[a].port == s.lent[b].port ==> a == b)
  }

  ghost predicate NextInv(fleet: set<App>, app: App, next: Option<Launch>) {
    next.Some? ==> next.value.app == app && GoodLaunch(fleet, next.value)
  }

  // What a goroutine has captured: nothing before its read, and then the object of the lease, if there is one.
  ghost function Captured(s: System, app: App, slot: Slot, unread: set<Slot>): Option<Object> {
    if slot in unread || app !in s.lent then None
    else Some(Build(s.lent[app].launch, s.lent[app].port, slot))
  }

  ghost predicate RequestInv(s: System, app: App)
    requires app in s.requests
  {
    match s.requests[app]
    case Stopping(running, unread, failed, dep, svc, next) =>
      && unread <= running <= ALL_SLOTS && NextInv(s.fleet, app, next)
      && dep == Captured(s, app, Ingest, unread) && svc == Captured(s, app, UdpGateway, unread)
      && (app in s.lent ==> !failed)
      && (app !in s.lent ==> unread == running)
    case Publishing(_, next) => app !in s.lent && NextInv(s.fleet, app, next)
    case Leasing(launch) => app !in s.lent && NextInv(s.fleet, app, Some(launch))
    case Creating(launch, port, pending, failed) =>
      app in s.lent && s.lent[app] == Lending(launch, port) && pending <= ALL_SLOTS && !failed
  }

  ghost predicate RequestsInv(s: System) {
    && (forall app :: app in s.requests ==> RequestInv(s, app))
    && (forall app :: app in s.lent ==> s.lent[app].launch.app == app && GoodLaunch(s.fleet, s.lent[app].launch))
    && Apart(s.fleet)
  }

  ghost predicate Inv(s: System) {
    ObjectsInv(s) && PoolInv(s) && RequestsInv(s)
  }

  // ---------- Each step keeps the invariant ----------

  // Keys of leased apps meet only on the same app and slot.
  lemma KeysMeet(s: System, a: App, b: App, x: Slot, y: Slot)
    requires RequestsInv(s) && a in s.lent && b in s.lent && Keys(a)(x) == Keys(b)(y)
    ensures a == b && x == y
  {
    if a != b {
      AppsShareNoKey(a, b, x, y);
    } else {
      SlotsHaveOwnKeys(a);
    }
  }

  // An owner-checked read finds the object of the app's own lease, and nothing without a lease.
  lemma ReadFindsOwn(s: System, app: App, slot: Slot)
    requires ObjectsInv(s) && RequestsInv(s)
    ensures FetchOwned(s.objects, Keys(app)(slot), app.name, Works)
            == if Stands(s, app, slot) then Some(Build(s.lent[app].launch, s.lent[app].port, slot)) else None
  {
    hide KeyOf, Build, Expected, RequestInv, GoodLaunch;
    var key := Keys(app)(slot);
    KeysOfApp(app, slot);
    if Stands(s, app, slot) {
      LentWhenStanding(s, app, slot);
    } else if key in s.objects {
      var a, x :| Stands(s, a, x) && key == Keys(a)(x);
      KeysOfApp(a, x);
      LentWhenStanding(s, a, x);
      if a == app {
        SlotsHaveOwnKeys(a);
      } else {
        assert a.name != app.name;
        assert OwnedBy(s.objects[key], a.name);
      }
    }
  }

  lemma KeysOfApp(app: App, slot: Slot)
    ensures Keys(app)(slot) == KeyOf(app, slot) && KeyOf(app, slot).namespace == app.namespace
    ensures forall launch: Launch, port :: launch.app == app ==>
              OwnedBy(Build(launch, port, slot), app.name) && OfKind(Build(launch, port, slot), KeyOf(app, slot).kind)
  {
  }

  lemma LentWhenStanding(s: System, app: App, slot: Slot)
    requires Stands(s, app, slot)
    ensures app in s.lent
  {
  }

  // A step that touches only one app's request keeps the other apps' part of the invariant.
  ghost predicate OnlyApp(s: System, t: System, app: App) {
    && t.fleet == s.fleet
    && (forall a ::
          a != app
          ==> (a in t.requests <==> a in s.requests) && (a in s.requests ==> t.requests[a] == s.requests[a]))
    && (forall a :: a != app ==> (a in t.lent <==> a in s.lent) && (a in s.lent ==> t.lent[a] == s.lent[a]))
  }

  lemma OtherAppsStand(s: System, t: System, app: App, a: App, slot: Slot)
    requires OnlyApp(s, t, app) && a != app
    ensures Stands(t, a, slot) <==> Stands(s, a, slot)
  {
  }

  lemma OtherRequests(s: System, t: System, app: App)
    requires RequestsInv(s) && OnlyApp(s, t, app)
    requires app in t.requests ==> RequestInv(t, app)
    requires app in t.lent ==> t.lent[app].launch.app == app && GoodLaunch(t.fleet, t.lent[app].launch)
    ensures RequestsInv(t)
  {
    forall a | a in t.requests
      ensures RequestInv(t, a)
    {
      if a != app {
        assert RequestInv(s, a);
      }
    }
  }

  // Both apps and slots standing for the same objects.
  lemma ObjectsSame(s: System, t: System)
    requires ObjectsInv(s) && t.objects == s.objects && t.lent == s.lent
    requires forall a, x :: Stands(t, a, x) <==> Stands(s, a, x)
    ensures ObjectsInv(t)
  {
    hide Expected, KeyOf, Build;
    forall a, x | Stands(t, a, x)
      ensures Stands(s, a, x) && a in s.lent
    {
      LentWhenStanding(t, a, x);
    }
  }

  // One object less stands, and it is deleted.
  lemma ObjectsCut(s: System, t: System, app: App, slot: Slot)
    requires ObjectsInv(s) && RequestsInv(s) && Stands(s, app, slot)
    requires t.objects == s.objects - {Keys(app)(slot)} && t.lent == s.lent
    requires forall a, x :: Stands(t, a, x) <==> Stands(s, a, x) && !(a == app && x == slot)
    ensures ObjectsInv(t)
  {
    hide Expected, KeyOf, Build, RequestInv, GoodLaunch;
    LentWhenStanding(s, app, slot);
    forall a, x | Stands(t, a, x)
      ensures Stands(s, a, x) && a in s.lent && Keys(a)(x) != Keys(app)(slot)
    {
      LentWhenStanding(s, a, x);
      if Keys(a)(x) == Keys(app)(slot) {
        KeysMeet(s, a, app, x, slot);
      }
    }
    forall k | k in t.objects
      ensures exists a, x :: Stands(t, a, x) && k == Keys(a)(x)
    {
      var a, x :| Stands(s, a, x) && k == Keys(a)(x);
      assert Stands(t, a, x);
    }
  }

  // One object more stands, and it is created.
  lemma ObjectsPut(s: System, t: System, app: App, slot: Slot)
    requires ObjectsInv(s) && RequestsInv(s) && app in s.lent && t.lent == s.lent && Keys(app)(slot) !in s.objects
    requires t.objects == s.objects[Keys(app)(slot) := Build(s.lent[app].launch, s.lent[app].port, slot)]
    requires forall a, x :: Stands(t, a, x) <==> Stands(s, a, x) || (a == app && x == slot)
    ensures ObjectsInv(t)
  {
    hide Expected, KeyOf, Build, RequestInv, GoodLaunch;
    forall a, x | Stands(t, a, x)
      ensures a in s.lent && Keys(a)(x) in t.objects
      ensures t.objects[Keys(a)(x)] == Build(t.lent[a].launch, t.lent[a].port, x)
    {
      if Stands(s, a, x) {
        LentWhenStanding(s, a, x);
      }
    }
    forall k | k in t.objects
      ensures exists a, x :: Stands(t, a, x) && k == Keys(a)(x)
    {
      if k == Keys(app)(slot) {
        assert Stands(t, app, slot);
      } else {
        var a, x :| Stands(s, a, x) && k == Keys(a)(x);
        assert Stands(t, a, x);
      }
    }
  }

  // A read by a goroutine of Stop.
  lemma ReadKeeps(s: System, app: App, slot: Slot)
    requires Inv(s) && app in s.requests && s.requests[app].Stopping?
    requires slot in s.requests[app].unread
    ensures Inv(StopCall(s, app, s.requests[app], slot))
  {
    hide KeyOf, Build, GoodLaunch, FetchOwned, ObjectsInv, PoolInv;
    var t := StopCall(s, app, s.requests[app], slot);
    assert RequestInv(s, app);
    ReadFindsOwn(s, app, slot);
    OtherRequests(s, t, app);
    forall a, x
      ensures Stands(t, a, x) <==> Stands(s, a, x)
    {
      if a != app {
        OtherAppsStand(s, t, app, a, x);
      }
    }
    ObjectsSame(s, t);
    PoolSame(s, t);
  }

  // A delete by a goroutine of Stop.
  lemma DeleteKeeps(s: System, app: App, slot: Slot)
    requires Inv(s) && app in s.requests && s.requests[app].Stopping?
    requires slot in s.requests[app].running && slot !in s.requests[app].unread
    ensures Inv(StopCall(s, app, s.requests[app], slot))
  {
    hide KeyOf, Build, GoodLaunch, FetchOwned, ObjectsInv, PoolInv;
    var t := StopCall(s, app, s.requests[app], slot);
    assert RequestInv(s, app);
    StandingIsThere(s, app, slot);
    OtherRequests(s, t, app);
    forall a, x
      ensures Stands(t, a, x) <==> Stands(s, a, x) && !(a == app && x == slot)
    {
      if a != app {
        OtherAppsStand(s, t, app, a, x);
      }
    }
    ObjectsCut(s, t, app, slot);
    PoolSame(s, t);
  }

  lemma StandingIsThere(s: System, app: App, slot: Slot)
    requires ObjectsInv(s) && Stands(s, app, slot)
    ensures Keys(app)(slot) in s.objects
  {
  }

  lemma PoolSame(s: System, t: System)
    requires PoolInv(s) && t.pool == s.pool && t.lent == s.lent
    ensures PoolInv(t)
  {
  }

  // A key that stands for no object of a leased app is free.
  lemma KeyIsFree(s: System, app: App, slot: Slot)
    requires ObjectsInv(s) && RequestsInv(s) && app in s.lent && !Stands(s, app, slot)
    ensures Keys(app)(slot) !in s.objects
  {
    hide Expected, KeyOf, Build, RequestInv, GoodLaunch;
    if Keys(app)(slot) in s.objects {
      var a, x :| Stands(s, a, x) && Keys(app)(slot) == Keys(a)(x);
      LentWhenStanding(s, a, x);
      KeysMeet(s, a, app, x, slot);
    }
  }

  // A create by a goroutine of Start.
  lemma CreateKeeps(s: System, app: App, slot: Slot)
    requires Inv(s) && app in s.requests && s.requests[app].Creating?
    requires slot in s.requests[app].pending
    ensures Inv(CreateCall(s, app, s.requests[app], slot))
  {
    hide KeyOf, Build, GoodLaunch, FetchOwned, ObjectsInv, PoolInv;
    var t := CreateCall(s, app, s.requests[app], slot);
    assert RequestInv(s, app);
    assert !Stands(s, app, slot);
    KeyIsFree(s, app, slot);
    OtherRequests(s, t, app);
    EverySlot();
    forall a, x
      ensures Stands(t, a, x) <==> Stands(s, a, x) || (a == app && x == slot)
    {
      if a != app {
        OtherAppsStand(s, t, app, a, x);
      }
    }
    ObjectsPut(s, t, app, slot);
    PoolSame(s, t);
  }

  // Giving back the port of a lease ends exactly that lease.
  lemma PoolGivenBack(s: System, t: System, app: App)
    requires PoolInv(s) && app in s.lent
    requires t.pool == GiveBack(s.pool, s.lent[app].port).0 && t.lent == Unlend(s.lent, s.lent[app].port)
    ensures PoolInv(t) && t.lent == s.lent - {app}
  {
    forall p | p in t.pool.busy
      ensures exists a :: a in t.lent && t.lent[a].port == p
    {
      var a :| a in s.lent && s.lent[a].port == p;
      assert a in t.lent && t.lent[a].port == p;
    }
  }

  lemma LentIsBusy(s: System, app: App)
    requires PoolInv(s) && app in s.lent
    ensures GiveBack(s.pool, s.lent[app].port).1.None?
  {
  }

  lemma PoolIsValid(s: System)
    requires PoolInv(s)
    ensures s.pool.Valid()
  {
  }

  lemma PoolTaken(s: System, t: System, app: App, launch: Launch)
    requires PoolInv(s) && app !in s.lent && Lease(s.pool).1.Some?
    requires t.pool == Lease(s.pool).0 && t.lent == s.lent[app := Lending(launch, Lease(s.pool).1.value)]
    ensures PoolInv(t)
  {
    var p := Lease(s.pool).1.value;
    forall q | q in t.pool.busy
      ensures exists a :: a in t.lent && t.lent[a].port == q
    {
      if q == p {
        assert app in t.lent && t.lent[app].port == q;
      } else {
        var a :| a in s.lent && s.lent[a].port == q;
        assert a in t.lent && t.lent[a].port == q;
      }
    }
  }

  // With no object standing for the app, its lease may end or begin without touching the cluster.
  lemma ObjectsIdle(s: System, t: System, app: App)
    requires ObjectsInv(s) && t.objects == s.objects && OnlyApp(s, t, app)
    requires forall x :: !Stands(s, app, x) && !Stands(t, app, x)
    ensures ObjectsInv(t)
  {
    hide KeyOf, Build;
    forall a, x
      ensures Stands(t, a, x) <==> Stands(s, a, x)
      ensures Stands(t, a, x) ==> a in s.lent && a in t.lent && t.lent[a] == s.lent[a]
    {
      if a != app {
        OtherAppsStand(s, t, app, a, x);
        if Stands(s, a, x) {
          LentWhenStanding(s, a, x);
        }
      }
    }
  }

  // What the race finds in the captures of a stop that has read everything: the port of the lease, if there is one.
  lemma JoinFindsLease(s: System, app: App, svcWins: bool)
    requires RequestsInv(s) && app in s.requests && s.requests[app].Stopping? && s.requests[app].running == {}
    ensures var r := s.requests[app];
            Pick(DeploymentPort(r.dep), ServicePortOf(r.svc), svcWins)
            == if app in s.lent then Some(s.lent[app].port as int32) else None
  {
    hide KeyOf, Build;
    assert RequestInv(s, app);
    if app in s.lent {
      DeploymentRoundTrip(s.lent[app].launch);
      GatewayRoundTrip(s.lent[app].launch, s.lent[app].port, UdpGateway);
    }
  }

  // The end of the goroutines of Stop: the lease ends, and no call was refused.
  lemma StopJoinKeeps(s: System, app: App, svcWins: bool)
    requires Inv(s) && app in s.requests && s.requests[app].Stopping? && s.requests[app].running == {}
    ensures Inv(StopJoin(s, app, s.requests[app], svcWins))
    ensures app !in StopJoin(s, app, s.requests[app], svcWins).lent
  {
    hide KeyOf, Build, GoodLaunch, DeploymentPort, ServicePortOf, ObjectsInv, PoolInv, GiveBack, Unlend;
    var t := StopJoin(s, app, s.requests[app], svcWins);
    assert RequestInv(s, app);
    StopJoinPool(s, app, svcWins);
    OtherRequests(s, t, app);
    ObjectsIdle(s, t, app);
  }

  // Its part in the pool: the lease of the app, if there is one, and no other, has ended.
  lemma StopJoinPool(s: System, app: App, svcWins: bool)
    requires PoolInv(s) && RequestsInv(s)
    requires app in s.requests && s.requests[app].Stopping? && s.requests[app].running == {}
    ensures var t := StopJoin(s, app, s.requests[app], svcWins);
            PoolInv(t) && t.lent == s.lent - {app}
  {
    hide KeyOf, Build, RequestInv, DeploymentPort, ServicePortOf, PoolInv, GiveBack, Unlend, Finish, BroadcasterOf;
    var t := StopJoin(s, app, s.requests[app], svcWins);
    JoinFindsLease(s, app, svcWins);
    if app in s.lent {
      LentIsBusy(s, app);
      PoolGivenBack(s, t, app);
    } else {
      PoolSame(s, t);
    }
  }

  // The end of the goroutines of Start: none of them failed, and the lease stands.
  lemma CreateJoinKeeps(s: System, app: App)
    requires Inv(s) && app in s.requests && s.requests[app].Creating? && s.requests[app].pending == {}
    ensures Inv(CreateJoin(s, app, s.requests[app]))
    ensures CreateJoin(s, app, s.requests[app]).lent == s.lent && app in s.lent
  {
    hide KeyOf, Build, GoodLaunch, ObjectsInv, PoolInv, GiveBack;
    var t := CreateJoin(s, app, s.requests[app]);
    assert RequestInv(s, app);
    PoolSame(s, t);
    OtherRequests(s, t, app);
    forall a, x
      ensures Stands(t, a, x) <==> Stands(s, a, x)
    {
      if a != app {
        OtherAppsStand(s, t, app, a, x);
      }
    }
    ObjectsSame(s, t);
  }

  lemma PortCallKeeps(s: System, app: App)
    requires Inv(s) && app in s.requests && s.requests[app].Leasing?
    ensures Inv(PortCall(s, app, s.requests[app]))
  {
    hide KeyOf, Build, GoodLaunch, ObjectsInv, PoolInv, Lease;
    PoolIsValid(s);
    var t := PortCall(s, app, s.requests[app]);
    assert RequestInv(s, app);
    if Lease(s.pool).1.None? {
      PoolSame(s, t);
    } else {
      PoolTaken(s, t, app, s.requests[app].launch);
    }
    OtherRequests(s, t, app);
    ObjectsIdle(s, t, app);
  }

  // Publishing, and beginning a request.
  lemma PublishKeeps(s: System, app: App)
    requires Inv(s) && app in s.requests && s.requests[app].Publishing?
    ensures Inv(Step(s, Publish(app)))
  {
    hide KeyOf, Build, GoodLaunch, ObjectsInv, PoolInv;
    PoolIsValid(s);
    var t := Step(s, Publish(app));
    assert RequestInv(s, app);
    PoolSame(s, t);
    OtherRequests(s, t, app);
    ObjectsIdle(s, t, app);
  }

  lemma BeginKeeps(s: System, app: App, next: Option<Launch>)
    requires Inv(s) && NextInv(s.fleet, app, next)
    ensures Inv(BeginRequest(s, app, next))
  {
    hide KeyOf, Build, GoodLaunch, ObjectsInv, PoolInv;
    if app !in s.requests {
      var t := BeginRequest(s, app, next);
      PoolSame(s, t);
      OtherRequests(s, t, app);
      forall a, x
        ensures Stands(t, a, x) <==> Stands(s, a, x)
      {
        if a != app {
          OtherAppsStand(s, t, app, a, x);
        }
      }
      ObjectsSame(s, t);
    }
  }

  lemma StepKeeps(s: System, e: Event)
    requires Inv(s) && GoodEvent(s.fleet, e)
    ensures Inv(Step(s, e))
  {
    hide ObjectsInv, RequestsInv, StopCall, CreateCall, StopJoin, CreateJoin, PortCall, BeginRequest;
    match e
    case BeginStop(app) => BeginKeeps(s, app, None);
    case BeginStart(launch) => BeginKeeps(s, launch.app, Some(launch));
    case Goroutine(app, slot) =>
      if app in s.requests {
        var r := s.requests[app];
        if r.Stopping? && slot in r.running {
          if slot in r.unread {
            ReadKeeps(s, app, slot);
          } else {
            DeleteKeeps(s, app, slot);
          }
        } else if r.Creating? && slot in r.pending {
          CreateKeeps(s, app, slot);
        }
      }
    case Join(app, svcWins) =>
      if app in s.requests {
        var r := s.requests[app];
        if r.Stopping? && r.running == {} {
          StopJoinKeeps(s, app, svcWins);
        } else if r.Creating? && r.pending == {} {
          CreateJoinKeeps(s, app);
        }
      }
    case Publish(app) =>
      if app in s.requests && s.requests[app].Publishing? {
        PublishKeeps(s, app);
      }
    case TakePort(app) =>
      if app in s.requests && s.requests[app].Leasing? {
        PortCallKeeps(s, app);
      }
  }

  // ---------- Every run ----------

  function Run(s: System, events: seq<Event>): System
    requires s.pool.Valid()
    decreases |events|
  {
    if events == [] then s else Run(Step(s, events[0]), events[1..])
  }

  lemma {:induction false} RunKeeps(s: System, events: seq<Event>)
    requires Inv(s)
    requires forall i :: 0 <= i < |events| ==> GoodEvent(s.fleet, events[i])
    ensures Inv(Run(s, events))
    decreases |events|
  {
    assert s.pool.Valid();
    hide Inv, Step, GoodEvent;
    if events != [] {
      StepKeeps(s, events[0]);
      RunKeeps(Step(s, events[0]), events[1..]);
    }
  }

  ghost predicate IsDeployment(s: System, k: Key) {
    k in s.objects && k.kind.DeploymentKind?
  }

  function CarriedPort(s: System, k: Key): Option<int32> {
    if k in s.objects then DeploymentPort(Some(s.objects[k])) else None
  }

  function OwnerOf(k: Key): App {
    App(k.namespace, k.name)
  }

  lemma DeploymentCarriesLease(s: System, k: Key)
    requires ObjectsInv(s) && RequestsInv(s) && IsDeployment(s, k)
    ensures OwnerOf(k) in s.lent && CarriedPort(s, k) == Some(s.lent[OwnerOf(k)].port as int32)
  {
    hide Expected, Build, RequestInv, DeploymentPort;
    var a, x :| Stands(s, a, x) && k == Keys(a)(x);
    assert Keys(a)(x) == KeyOf(a, x);
    LentWhenStanding(s, a, x);
    assert x == Ingest && a == OwnerOf(k);
    DeploymentRoundTrip(s.lent[a].launch);
  }

  // The busy ports are exactly the lent ones, no two apps are lent the same port, and every deployment in the cluster
  // carries the port its own app was lent.
  ghost predicate Safe(t: System) {
    && t.pool.busy == (set a | a in t.lent :: t.lent[a].port)
    && (forall a, b :: a in t.lent && b in t.lent && a != b ==> t.lent[a].port != t.lent[b].port)
    && (forall k :: IsDeployment(t, k) ==>
          OwnerOf(k) in t.lent && CarriedPort(t, k) == Some(t.lent[OwnerOf(k)].port as int32))
  }

  // Every interleaving is safe, from an empty cluster and a fresh pool, for apps of which none is called like a gateway
  // service of another.
  lemma LeaseSafety(lo: Port, hi: Port, fleet: set<App>, events: seq<Event>)
    requires Pool(lo, hi, {}).Valid() && Apart(fleet)
    requires forall i :: 0 <= i < |events| ==> GoodEvent(fleet, events[i])
    ensures Inv(Run(Fresh(Pool(lo, hi, {}), fleet), events))
    ensures Safe(Run(Fresh(Pool(lo, hi, {}), fleet), events))
  {
    hide Inv, Safe, Run;
    FreshHolds(Pool(lo, hi, {}), fleet);
    RunKeeps(Fresh(Pool(lo, hi, {}), fleet), events);
    InvIsSafe(Run(Fresh(Pool(lo, hi, {}), fleet), events));
  }

  lemma InvIsSafe(t: System)
    requires Inv(t)
    ensures Safe(t)
  {
    hide CarriedPort, RequestInv, Stands;
    CarryingLeases(t);
  }

  lemma FreshHolds(pool: Pool, fleet: set<App>)
    requires pool.Valid() && pool.busy == {} && Apart(fleet)
    ensures Inv(Fresh(pool, fleet))
  {
    hide Build, RequestInv;
  }

  lemma CarryingLeases(t: System)
    requires Inv(t)
    ensures t.pool.busy == (set a | a in t.lent :: t.lent[a].port)
    ensures forall k :: IsDeployment(t, k) ==>
              OwnerOf(k) in t.lent && CarriedPort(t, k) == Some(t.lent[OwnerOf(k)].port as int32)
  {
    hide CarriedPort, RequestInv, Stands;
    forall k | IsDeployment(t, k)
      ensures OwnerOf(k) in t.lent && CarriedPort(t, k) == Some(t.lent[OwnerOf(k)].port as int32)
    {
      DeploymentCarriesLease(t, k);
    }
  }

  lemma CarriedPortIsBusy(s: System, k: Key)
    requires Inv(s) && IsDeployment(s, k)
    ensures CarriedPort(s, k).Some? && ToPort(CarriedPort(s, k).value) in s.pool.busy
  {
    hide CarriedPort, RequestInv, Stands;
    DeploymentCarriesLease(s, k);
  }

  lemma CarriedPortsDiffer(s: System, k: Key, l: Key)
    requires Inv(s) && IsDeployment(s, k) && IsDeployment(s, l)
    requires CarriedPort(s, k) == CarriedPort(s, l)
    ensures k == l
  {
    hide CarriedPort, RequestInv, Stands;
    DeploymentCarriesLease(s, k);
    DeploymentCarriesLease(s, l);
    assert OwnerOf(k) == OwnerOf(l);
  }

  lemma BusyPortIsCarried(s: System, p: Port)
    requires Inv(s) && s.requests == map[] && p in s.pool.busy
    ensures exists k :: IsDeployment(s, k) && CarriedPort(s, k) == Some(p as int32)
  {
    hide CarriedPort, RequestInv, Stands;
    var a :| a in s.lent && s.lent[a].port == p;
    var k := Keys(a)(Ingest);
    DeploymentKey(a);
    QuiescentBundles(s, a, Ingest);
    DeploymentCarriesLease(s, k);
    assert IsDeployment(s, k) && CarriedPort(s, k) == Some(p as int32);
  }

  // Once no request is in flight, the port that the search finds in a deployment is a one-to-one map from the
  // deployments in the cluster onto the busy ports.
  lemma QuiescentBijection(s: System)
    requires Inv(s) && s.requests == map[]
    ensures forall k :: IsDeployment(s, k) ==> CarriedPort(s, k).Some? && ToPort(CarriedPort(s, k).value) in s.pool.busy
    ensures forall k, l :: IsDeployment(s, k) && IsDeployment(s, l) && CarriedPort(s, k) == CarriedPort(s, l) ==> k == l
    ensures forall p :: p in s.pool.busy ==> exists k :: IsDeployment(s, k) && CarriedPort(s, k) == Some(p as int32)
  {
    hide Inv, IsDeployment, CarriedPort;
    forall k | IsDeployment(s, k)
      ensures CarriedPort(s, k).Some? && ToPort(CarriedPort(s, k).value) in s.pool.busy
    {
      CarriedPortIsBusy(s, k);
    }
    forall k, l | IsDeployment(s, k) && IsDeployment(s, l) && CarriedPort(s, k) == CarriedPort(s, l)
      ensures k == l
    {
      CarriedPortsDiffer(s, k, l);
    }
    forall p | p in s.pool.busy
      ensures exists k :: IsDeployment(s, k) && CarriedPort(s, k) == Some(p as int32)
    {
      BusyPortIsCarried(s, p);
    }
  }

  lemma QuiescentBundles(s: System, app: App, slot: Slot)
    requires Inv(s) && s.requests == map[] && app in s.lent
    ensures Keys(app)(slot) in s.objects
    ensures s.objects[Keys(app)(slot)] == Build(s.lent[app].launch, s.lent[app].port, slot)
  {
    hide KeyOf, Build;
    EverySlot();
    assert Stands(s, app, slot);
  }

  lemma DeploymentKey(app: App)
    ensures Keys(app)(Ingest) == Key(DeploymentKind, app.namespace, app.name)
  {
  }

  // ---------- Every request can finish ----------

  function Work(r: Request): nat {
    match r
    case Stopping(running, unread, _, _, _, _) => 10 + |running| + |unread|
    case Publishing(_, _) => 9
    case Leasing(_) => 8
    case Creating(_, _, pending, _) => 1 + |pending|
  }

  function WorkLeft(s: System, app: App): nat {
    if app in s.requests then Work(s.requests[app]) else 0
  }

  function AppOf(e: Event): App {
    match e
    case BeginStop(app) => app
    case BeginStart(launch) => launch.app
    case Goroutine(app, _) => app
    case Join(app, _) => app
    case Publish(app) => app
    case TakePort(app) => app
  }

  lemma StopCallShrinks(s: System, app: App, r: Request, slot: Slot)
    requires r.Stopping? && slot in r.running && r.unread <= r.running
    ensures WorkLeft(StopCall(s, app, r, slot), app) < Work(r)
  {
    hide FetchOwned;
    assert slot !in r.unread ==> r.unread - {slot} == r.unread;
  }

  lemma CreateCallShrinks(s: System, app: App, r: Request, slot: Slot)
    requires r.Creating? && slot in r.pending
    ensures WorkLeft(CreateCall(s, app, r, slot), app) < Work(r)
  {
    hide Build;
  }

  lemma JoinShrinks(s: System, app: App, r: Request)
    requires r.Stopping? || r.Creating?
    ensures r.Stopping? ==> WorkLeft(StopJoin(s, app, r, false), app) < Work(r)
    ensures r.Creating? ==> WorkLeft(CreateJoin(s, app, r), app) < Work(r)
  {
    hide GiveBack, DeploymentPort, ServicePortOf;
  }

  lemma PortCallShrinks(s: System, app: App, r: Request)
    requires r.Leasing? && s.pool.Valid()
    ensures WorkLeft(PortCall(s, app, r), app) < Work(r)
  {
    hide Lease;
    assert |ALL_SLOTS| == 6;
  }

  lemma StoppingCanMove(s: System, app: App)
    requires Inv(s) && app in s.requests && s.requests[app].Stopping?
    ensures exists e :: AppOf(e) == app && WorkLeft(Step(s, e), app) < WorkLeft(s, app)
  {
    var r := s.requests[app];
    assert RequestInv(s, app) && s.pool.Valid();
    hide Inv, RequestInv, StopCall, StopJoin;
    var e: Event;
    if r.running == {} {
      JoinShrinks(s, app, r);
      e := Join(app, false);
    } else {
      var slot :| slot in r.running;
      StopCallShrinks(s, app, r, slot);
      e := Goroutine(app, slot);
    }
    assert AppOf(e) == app && WorkLeft(Step(s, e), app) < WorkLeft(s, app);
  }

  lemma CreatingCanMove(s: System, app: App)
    requires Inv(s) && app in s.requests && s.requests[app].Creating?
    ensures exists e :: AppOf(e) == app && WorkLeft(Step(s, e), app) < WorkLeft(s, app)
  {
    var r := s.requests[app];
    PoolIsValid(s);
    hide Inv, CreateCall, CreateJoin;
    var e: Event;
    if r.pending == {} {
      JoinShrinks(s, app, r);
      e := Join(app, false);
    } else {
      var slot :| slot in r.pending;
      CreateCallShrinks(s, app, r, slot);
      e := Goroutine(app, slot);
    }
    assert AppOf(e) == app && WorkLeft(Step(s, e), app) < WorkLeft(s, app);
  }

  // A request in flight always has a step of its own that brings it closer to its end...
  lemma RequestCanMove(s: System, app: App)
    requires Inv(s) && app in s.requests
    ensures exists e :: AppOf(e) == app && WorkLeft(Step(s, e), app) < WorkLeft(s, app)
  {
    var r := s.requests[app];
    PoolIsValid(s);
    if r.Stopping? {
      StoppingCanMove(s, app);
    } else if r.Creating? {
      CreatingCanMove(s, app);
    } else {
      hide Inv, PortCall;
      var e := if r.Publishing? then Publish(app) else TakePort(app);
      if r.Leasing? {
        PortCallShrinks(s, app, r);
      }
      assert AppOf(e) == app && WorkLeft(Step(s, e), app) < WorkLeft(s, app);
    }
  }

  // ... and no step of another app takes it back.
  lemma OthersDoNotInterfere(s: System, e: Event, app: App)
    requires s.pool.Valid() && AppOf(e) != app
    ensures WorkLeft(Step(s, e), app) == WorkLeft(s, app)
  {
  }
}
