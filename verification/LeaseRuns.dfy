/** Runs of the lease protocol: requests driven alone do what the service's methods do, every run can come to rest, and
    safety holds exactly for fleets and templates that do not get in each other's way. */
module LeaseRuns {
  import opened Wrappers
  import opened PortRanges
  import opened IngestResources
  import WebrtcRaces
  import opened Bundles
  import opened IngestSystems
  import opened IngestProperties
  import opened LeaseProtocol

  // ---------- Reaching a state ----------

  // Events of the given apps that begin no start but the given ones.
  ghost predicate Only(events: seq<Event>, apps: set<App>, starts: set<Launch>) {
    forall i :: 0 <= i < |events| ==> AppOf(events[i]) in apps && (events[i].BeginStart? ==> events[i].launch in starts)
  }

  ghost predicate Reaches(s: System, apps: set<App>, starts: set<Launch>, t: System) {
    s.pool.Valid() && exists events :: Only(events, apps, starts) && Run(s, events) == t
  }

  lemma {:induction false} RunAppend(s: System, first: seq<Event>, second: seq<Event>)
    requires s.pool.Valid()
    ensures Run(s, first).pool.Valid() && Run(s, first).fleet == s.fleet
    ensures Run(s, first + second) == Run(Run(s, first), second)
    decreases |first|
  {
    hide Step;
    if first == [] {
      assert first + second == second;
    } else {
      assert (first + second)[1..] == first[1..] + second;
      RunAppend(Step(s, first[0]), first[1..], second);
    }
  }

  lemma Stay(s: System, apps: set<App>, starts: set<Launch>)
    requires s.pool.Valid()
    ensures Reaches(s, apps, starts, s)
  {
    assert Run(s, []) == s && Only([], apps, starts);
  }

  lemma Through(s: System, t: System, u: System, apps: set<App>, starts: set<Launch>, moreApps: set<App>,
                moreStarts: set<Launch>)
    requires Reaches(s, apps, starts, t) && Reaches(t, moreApps, moreStarts, u)
    ensures Reaches(s, apps + moreApps, starts + moreStarts, u)
  {
    var first :| Only(first, apps, starts) && Run(s, first) == t;
    var second :| Only(second, moreApps, moreStarts) && Run(t, second) == u;
    RunAppend(s, first, second);
    assert Only(first + second, apps + moreApps, starts + moreStarts);
  }

  lemma OneMore(s: System, t: System, e: Event, apps: set<App>, starts: set<Launch>)
    requires Reaches(s, apps, starts, t) && AppOf(e) in apps && (e.BeginStart? ==> e.launch in starts)
    ensures t.pool.Valid() && Reaches(s, apps, starts, Step(t, e))
  {
    hide Step;
    var events :| Only(events, apps, starts) && Run(s, events) == t;
    RunAppend(s, events, [e]);
    assert Run(t, [e]) == Run(Step(t, e), [e][1..]) == Step(t, e);
    assert Only(events + [e], apps, starts);
  }

  // ---------- A stop, driven alone ----------

  function StateOf(s: System): OperatorState {
    OperatorState(s.objects, s.pool, s.destroyed)
  }

  // The system with other objects, and the given request of the app.
  function With(s: System, objects: Cluster, app: App, r: Request): System {
    s.(objects := objects, requests := s.requests[app := r])
  }

  lemma WithTwice(s: System, objects: Cluster, app: App, r: Request, more: Cluster, next: Request)
    ensures With(With(s, objects, app, r), more, app, next) == With(s, more, app, next)
  {
    assert s.requests[app := r][app := next] == s.requests[app := next];
  }

  ghost function Capture(s: System, app: App, slot: Slot, done: set<Slot>): Option<Object> {
    if slot in done then Seen(s.objects, app, RELIABLE, slot) else None
  }

  // A stop begun in s, once the goroutines of `done` have ended and those of `read` have read their object.
  ghost function Stopper(s: System, app: App, next: Option<Launch>, done: set<Slot>, read: set<Slot>): Request {
    Stopping(ALL_SLOTS - done, ALL_SLOTS - done - read, !AllStop(s.objects, app, RELIABLE, done),
             Capture(s, app, Ingest, done + read), Capture(s, app, UdpGateway, done + read), next)
  }

  ghost function StopHalf(s: System, app: App, next: Option<Launch>, done: set<Slot>, read: set<Slot>): System {
    With(s, Stopped(s.objects, app, RELIABLE, done), app, Stopper(s, app, next, done, read))
  }

  // What the read of one goroutine makes of the request.
  lemma StopperReads(s: System, app: App, next: Option<Launch>, done: set<Slot>, slot: Slot)
    requires slot !in done && slot in ALL_SLOTS && done <= ALL_SLOTS
    ensures var r := Stopper(s, app, next, done, {});
            var o := Seen(s.objects, app, RELIABLE, slot);
            var read := r.(unread := r.unread - {slot},
                           dep := if slot == Ingest then o else r.dep,
                           svc := if slot == UdpGateway then o else r.svc);
            if o.Some? then read == Stopper(s, app, next, done, {slot})
            else read.(running := r.running - {slot}, failed := true) == Stopper(s, app, next, done + {slot}, {})
  {
    hide Stopped, Seen, AllStop;
    StopSlotEffect(s, app, done, slot);
    assert ALL_SLOTS - (done + {slot}) - {} == ALL_SLOTS - done - {} - {slot} == ALL_SLOTS - done - {slot}
           == ALL_SLOTS - (done + {slot});
    assert done + {slot} == done + {slot} + {};
  }

  // The step of a goroutine that reads.
  lemma ReadingStep(s: System, objects: Cluster, app: App, r: Request, slot: Slot)
    requires s.pool.Valid() && r.Stopping? && slot in r.running && slot in r.unread
    ensures var o := FetchOwned(objects, Keys(app)(slot), app.name, Works);
            var read := r.(unread := r.unread - {slot},
                           dep := if slot == Ingest then o else r.dep,
                           svc := if slot == UdpGateway then o else r.svc);
            Step(With(s, objects, app, r), Goroutine(app, slot))
            == With(s, objects, app, if o.Some? then read else read.(running := r.running - {slot}, failed := true))
  {
    hide FetchOwned, Keys, CreateCall, StopJoin, CreateJoin, PortCall, BeginRequest;
    var o := FetchOwned(objects, Keys(app)(slot), app.name, Works);
    var read := r.(unread := r.unread - {slot},
                   dep := if slot == Ingest then o else r.dep,
                   svc := if slot == UdpGateway then o else r.svc);
    WithTwice(s, objects, app, r, objects,
              if o.Some? then read else read.(running := r.running - {slot}, failed := true));
  }

  // The read of one goroutine, which ends it if it finds nothing.
  lemma StopReads(s: System, app: App, next: Option<Launch>, done: set<Slot>, slot: Slot)
    requires s.pool.Valid() && slot !in done && slot in ALL_SLOTS && done <= ALL_SLOTS
    ensures Step(StopHalf(s, app, next, done, {}), Goroutine(app, slot))
            == if Seen(s.objects, app, RELIABLE, slot).Some? then StopHalf(s, app, next, done, {slot})
               else StopHalf(s, app, next, done + {slot}, {})
  {
    hide FetchOwned, Stopped, Seen, AllStop, Keys, Capture, Step;
    StopSlotEffect(s, app, done, slot);
    StopperReads(s, app, next, done, slot);
    ReadingStep(s, Stopped(s.objects, app, RELIABLE, done), app, Stopper(s, app, next, done, {}), slot);
  }

  lemma StopDeletes(s: System, app: App, next: Option<Launch>, done: set<Slot>, slot: Slot)
    requires s.pool.Valid() && slot !in done && slot in ALL_SLOTS && done <= ALL_SLOTS
    requires Seen(s.objects, app, RELIABLE, slot).Some?
    ensures Step(StopHalf(s, app, next, done, {slot}), Goroutine(app, slot))
            == StopHalf(s, app, next, done + {slot}, {})
  {
    hide KeyOf, FetchOwned, Stopped, Seen, AllStop, Keys, CreateCall, StopJoin, CreateJoin, PortCall, BeginRequest;
    var objects, r := Stopped(s.objects, app, RELIABLE, done), Stopper(s, app, next, done, {slot});
    StopSlotEffect(s, app, done, slot);
    assert ALL_SLOTS - (done + {slot}) - {} == ALL_SLOTS - done - {slot} == ALL_SLOTS - (done + {slot});
    assert done + {slot} == done + {slot} + {};
    WithTwice(s, objects, app, r, objects - {Keys(app)(slot)}, Stopper(s, app, next, done + {slot}, {}));
  }

  lemma StopSlotEffect(s: System, app: App, done: set<Slot>, slot: Slot)
    requires slot !in done && slot in ALL_SLOTS && done <= ALL_SLOTS
    ensures var key := Keys(app)(slot);
            var before := Stopped(s.objects, app, RELIABLE, done);
            var seen := Seen(s.objects, app, RELIABLE, slot);
            && FetchOwned(before, key, app.name, Works) == seen
            && (seen.Some? ==> key in before)
            && Stopped(s.objects, app, RELIABLE, done + {slot}) == (if seen.Some? then before - {key} else before)
            && (AllStop(s.objects, app, RELIABLE, done + {slot})
                <==> AllStop(s.objects, app, RELIABLE, done) && seen.Some?)
  {
    hide KeyOf, Stopped, AllStop;
    assert ALL_SLOTS - (ALL_SLOTS - done) == done && ALL_SLOTS - (ALL_SLOTS - done - {slot}) == done + {slot};
    StoppedOneMore(s.objects, app, RELIABLE, ALL_SLOTS - done, slot);
    SameRead(s.objects, Stopped(s.objects, app, RELIABLE, done), Keys(app)(slot), app.name);
  }

  lemma SameRead(before: Cluster, after: Cluster, key: Key, owner: string)
    requires (key in before <==> key in after) && (key in before ==> after[key] == before[key])
    ensures FetchOwned(after, key, owner, Works) == FetchOwned(before, key, owner, Works)
  {
  }

  lemma {:induction false} StopSlots(from: System, s: System, app: App, next: Option<Launch>, done: set<Slot>,
                                     starts: set<Launch>)
    requires s.pool.Valid() && done <= ALL_SLOTS && Reaches(from, {app}, starts, StopHalf(s, app, next, done, {}))
    ensures Reaches(from, {app}, starts, StopHalf(s, app, next, ALL_SLOTS, {}))
    decreases ALL_SLOTS - done
  {
    hide Reaches, StopHalf, Step;
    if done != ALL_SLOTS {
      var slot :| slot in ALL_SLOTS - done;
      OneMore(from, StopHalf(s, app, next, done, {}), Goroutine(app, slot), {app}, starts);
      StopReads(s, app, next, done, slot);
      if Seen(s.objects, app, RELIABLE, slot).Some? {
        OneMore(from, StopHalf(s, app, next, done, {slot}), Goroutine(app, slot), {app}, starts);
        StopDeletes(s, app, next, done, slot);
      }
      StopSlots(from, s, app, next, done + {slot}, starts);
    }
  }

  // The leases once the given port has been given back, if it was busy.
  function LentAfter(lent: map<App, Lending>, pool: Pool, found: Option<int32>): map<App, Lending> {
    if found.Some? && GiveBack(pool, ToPort(found.value)).1.None? then Unlend(lent, ToPort(found.value)) else lent
  }

  // What a whole stop of the app leaves, as the service's own method leaves it.
  ghost function StopEnd(s: System, app: App, next: Option<Launch>, svcWins: bool): System {
    var after := StopSpec(StateOf(s), app, RELIABLE, svcWins).0;
    s.(objects := after.objects, pool := after.pool, destroyed := after.destroyed,
       lent := LentAfter(s.lent, s.pool, RecoveredPort(s.objects, app, RELIABLE, svcWins)),
       requests := Finish(s.requests, app, next))
  }

  lemma StopBegins(s: System, app: App, next: Option<Launch>)
    requires s.pool.Valid() && app !in s.requests
    ensures BeginRequest(s, app, next) == StopHalf(s, app, next, {}, {})
  {
    hide KeyOf, Seen;
    assert Removed(s.objects, app, RELIABLE, {}) == {};
    assert Cut(s.objects, {}, Keys(app)) == s.objects;
    assert ALL_SLOTS - {} == ALL_SLOTS && ALL_SLOTS - {} - {} == ALL_SLOTS;
  }

  lemma FinishForgets(requests: map<App, Request>, app: App, r: Request, next: Option<Launch>)
    requires app !in requests
    ensures Finish(requests[app := r], app, next) == Finish(requests, app, next)
  {
    if next.Some? {
      assert requests[app := r][app := Leasing(next.value)] == requests[app := Leasing(next.value)];
    } else {
      assert requests[app := r] - {app} == requests - {app} == requests;
    }
  }

  // What the join of a stop does, its own request forgotten.
  lemma JoinForgets(s: System, objects: Cluster, app: App, r: Request, svcWins: bool)
    requires r.Stopping? && app !in s.requests
    ensures var found := WebrtcRaces.Pick(DeploymentPort(r.dep), ServicePortOf(r.svc), svcWins);
            var (pool, refusal) := GiveBackFound(s.pool, found);
            StopJoin(With(s, objects, app, r), app, r, svcWins)
            == s.(objects := objects, pool := pool, lent := LentAfter(s.lent, s.pool, found),
                  requests := if r.failed || refusal.Some? || BroadcasterOf(r.dep) == ""
                              then Finish(s.requests, app, r.next)
                              else s.requests[app := Publishing(BroadcasterOf(r.dep), r.next)])
  {
    hide GiveBack, DeploymentPort, ServicePortOf, BroadcasterOf, Unlend, Finish;
    FinishForgets(s.requests, app, r, r.next);
    assert s.requests[app := r][app := Publishing(BroadcasterOf(r.dep), r.next)]
           == s.requests[app := Publishing(BroadcasterOf(r.dep), r.next)];
  }

  // The end of the goroutines, and the publish if there is one.
  lemma StopEnds(s: System, app: App, next: Option<Launch>, svcWins: bool)
    requires s.pool.Valid() && app !in s.requests
    ensures var joined := Step(StopHalf(s, app, next, ALL_SLOTS, {}), Join(app, svcWins));
            StopEnd(s, app, next, svcWins)
            == if app in joined.requests && joined.requests[app].Publishing? then Step(joined, Publish(app)) else joined
  {
    hide KeyOf, Seen, Stopped, AllStop, GiveBack, DeploymentPort, ServicePortOf, BroadcasterOf, CreateCall,
         StopCall, StopJoin,
         CreateJoin, PortCall, BeginRequest, LentAfter;
    var r := Stopper(s, app, next, ALL_SLOTS, {});
    var objects := Stopped(s.objects, app, RELIABLE, ALL_SLOTS);
    assert ALL_SLOTS - ALL_SLOTS == {};
    JoinForgets(s, objects, app, r, svcWins);
    FinishForgets(s.requests, app, Publishing(BroadcasterOf(r.dep), next), next);
    assert r.dep == Seen(s.objects, app, RELIABLE, Ingest) && r.svc == Seen(s.objects, app, RELIABLE, UdpGateway);
    assert Step(StopHalf(s, app, next, ALL_SLOTS, {}), Join(app, svcWins))
           == StopJoin(With(s, objects, app, r), app, r, svcWins);
  }

  // The calls of a stop, with no other step in between, leave what StopIngestSystem leaves.
  lemma StopDriven(s: System, app: App, svcWins: bool)
    requires s.pool.Valid() && app !in s.requests
    ensures Reaches(s, {app}, {}, StopEnd(s, app, None, svcWins))
  {
    hide Reaches, StopHalf, StopEnd, Step;
    Stay(s, {app}, {});
    OneMore(s, s, BeginStop(app), {app}, {});
    StopFollows(s, app, None, svcWins, {}, BeginStop(app));
  }

  lemma StopFollows(s: System, app: App, next: Option<Launch>, svcWins: bool, starts: set<Launch>, begin: Event)
    requires s.pool.Valid() && app !in s.requests
    requires begin == (if next.None? then BeginStop(app) else BeginStart(next.value)) && AppOf(begin) == app
    requires Reaches(s, {app}, starts, Step(s, begin))
    ensures Reaches(s, {app}, starts, StopEnd(s, app, next, svcWins))
  {
    hide Reaches, StopHalf, StopEnd, StopCall, StopJoin, CreateCall, CreateJoin, PortCall;
    StopBegins(s, app, next);
    StopSlots(s, s, app, next, {}, starts);
    var half := StopHalf(s, app, next, ALL_SLOTS, {});
    OneMore(s, half, Join(app, svcWins), {app}, starts);
    OneMore(s, Step(half, Join(app, svcWins)), Publish(app), {app}, starts);
    StopEnds(s, app, next, svcWins);
  }

  // ---------- A start, driven alone ----------

  // What a whole start of the app leaves, as the service's own method leaves it; the app's request is over.
  ghost function StartEnd(s: System, launch: Launch): System
    requires s.pool.Valid()
  {
    var (after, err) := StartSpec(StateOf(s), launch, RELIABLE.get);
    s.(objects := after.objects, pool := after.pool, requests := s.requests - {launch.app},
       lent := if err.None? then Taken(s, launch).lent
               else if Lease(s.pool).1.None? then s.lent
               else Unlend(Taken(s, launch).lent, Lease(s.pool).1.value))
  }

  // The app has taken its port.
  function Taken(s: System, launch: Launch): System
    requires s.pool.Valid()
  {
    var (pool, port) := Lease(s.pool);
    if port.None? then s else s.(pool := pool, lent := s.lent[launch.app := Lending(launch, port.value)])
  }

  ghost function Creator(s: System, launch: Launch, port: Port, done: set<Slot>): Request {
    Creating(launch, port, ALL_SLOTS - done, !AllStart(s.objects, Keys(launch.app), RELIABLE.get, done))
  }

  ghost function StartHalf(s: System, launch: Launch, port: Port, done: set<Slot>): System {
    With(s, Started(s.objects, launch, port, RELIABLE.get, done), launch.app, Creator(s, launch, port, done))
  }

  lemma StartSlotEffect(objects: Cluster, launch: Launch, port: Port, done: set<Slot>, slot: Slot)
    requires slot !in done && slot in ALL_SLOTS && done <= ALL_SLOTS
    ensures var key := Keys(launch.app)(slot);
            var before := Started(objects, launch, port, RELIABLE.get, done);
            && Started(objects, launch, port, RELIABLE.get, done + {slot})
               == (if key in before then before else before[key := Build(launch, port, slot)])
            && (AllStart(objects, Keys(launch.app), RELIABLE.get, done + {slot})
                <==> AllStart(objects, Keys(launch.app), RELIABLE.get, done) && key !in before)
  {
    hide KeyOf, Build, Started;
    StartedOneMore(objects, launch, port, RELIABLE.get, done, slot);
    assert Objects(launch, port)(slot) == Build(launch, port, slot);
  }

  lemma StartCreates(s: System, launch: Launch, port: Port, done: set<Slot>, slot: Slot)
    requires s.pool.Valid() && slot !in done && slot in ALL_SLOTS && done <= ALL_SLOTS
    ensures Step(StartHalf(s, launch, port, done), Goroutine(launch.app, slot))
            == StartHalf(s, launch, port, done + {slot})
  {
    hide KeyOf, Build, Started, AllStart, Keys, StopCall, StopJoin, CreateJoin, PortCall, BeginRequest;
    var app := launch.app;
    var objects, r := Started(s.objects, launch, port, RELIABLE.get, done), Creator(s, launch, port, done);
    var more, next := Started(s.objects, launch, port, RELIABLE.get, done + {slot}),
                      Creator(s, launch, port, done + {slot});
    StartSlotEffect(s.objects, launch, port, done, slot);
    assert ALL_SLOTS - (done + {slot}) == ALL_SLOTS - done - {slot};
    WithTwice(s, objects, app, r, more, next);
  }

  lemma {:induction false} StartSlots(from: System, s: System, launch: Launch, port: Port, done: set<Slot>,
                                      starts: set<Launch>)
    requires s.pool.Valid() && done <= ALL_SLOTS
             && Reaches(from, {launch.app}, starts, StartHalf(s, launch, port, done))
    ensures Reaches(from, {launch.app}, starts, StartHalf(s, launch, port, ALL_SLOTS))
    decreases ALL_SLOTS - done
  {
    hide Reaches, StartHalf, Step;
    if done != ALL_SLOTS {
      var slot :| slot in ALL_SLOTS - done;
      OneMore(from, StartHalf(s, launch, port, done), Goroutine(launch.app, slot), {launch.app}, starts);
      StartCreates(s, launch, port, done, slot);
      StartSlots(from, s, launch, port, done + {slot}, starts);
    }
  }

  lemma StartBegins(s: System, launch: Launch)
    requires s.pool.Valid() && launch.app in s.requests && s.requests[launch.app] == Leasing(launch)
    ensures Step(s, TakePort(launch.app))
            == if Lease(s.pool).1.None? then StartEnd(s, launch)
               else StartHalf(Taken(s, launch), launch, Lease(s.pool).1.value, {})
  {
    hide KeyOf, Build, Lease, StopCall, StopJoin, CreateCall, CreateJoin, BeginRequest, Unlend;
    var app := launch.app;
    assert ALL_SLOTS - {} == ALL_SLOTS;
    if Lease(s.pool).1.Some? {
      NothingStarted(s.objects, launch, Lease(s.pool).1.value);
    }
  }

  lemma NothingStarted(objects: Cluster, launch: Launch, port: Port)
    ensures Started(objects, launch, port, RELIABLE.get, {}) == objects
    ensures AllStart(objects, Keys(launch.app), RELIABLE.get, {})
  {
    hide KeyOf, Build;
    KeysAreInjective(launch.app);
    assert Effective(objects, Keys(launch.app), RELIABLE.get, {}) == {};
    assert Image({}, Keys(launch.app)) == {};
    assert Started(objects, launch, port, RELIABLE.get, {}).Keys == objects.Keys;
  }

  lemma StartEnds(s: System, launch: Launch)
    requires s.pool.Valid() && launch.app in s.requests && Lease(s.pool).1.Some? && Taken(s, launch).pool.Valid()
    ensures Step(StartHalf(Taken(s, launch), launch, Lease(s.pool).1.value, ALL_SLOTS), Join(launch.app, false))
            == StartEnd(s, launch)
  {
    hide KeyOf, Build, Started, AllStart, Lease, GiveBack, StopCall, StopJoin, CreateCall, BeginRequest, Unlend,
         PortCall;
    var app, port := launch.app, Lease(s.pool).1.value;
    LeaseThenBack(s.pool);
    assert ALL_SLOTS - ALL_SLOTS == {};
    forall objects, r: Request
      ensures With(s, objects, app, r).requests - {app} == s.requests - {app}
    {
    }
  }

  // The calls of StartServer, with no other step in between: a stop, and then a start, as the service's methods do
  // them.
  lemma StartServerDriven(s: System, launch: Launch, svcWins: bool)
    requires s.pool.Valid() && launch.app !in s.requests
    ensures var stopped := StopEnd(s, launch.app, Some(launch), svcWins);
            stopped.pool.Valid() && Reaches(s, {launch.app}, {launch}, StartEnd(stopped, launch))
  {
    hide Reaches, StartHalf, StartEnd, StopHalf, Step, Taken, LentAfter, StopSpec;
    var app := launch.app;
    Stay(s, {app}, {launch});
    OneMore(s, s, BeginStart(launch), {app}, {launch});
    StopFollows(s, app, Some(launch), svcWins, {launch}, BeginStart(launch));
    var stopped := StopEnd(s, app, Some(launch), svcWins);
    OneMore(s, stopped, TakePort(app), {app}, {launch});
    StartBegins(stopped, launch);
    if Lease(stopped.pool).1.Some? {
      var port := Lease(stopped.pool).1.value;
      TakenIsValid(stopped, launch);
      StartSlots(s, Taken(stopped, launch), launch, port, {}, {launch});
      OneMore(s, StartHalf(Taken(stopped, launch), launch, port, ALL_SLOTS), Join(app, false), {app}, {launch});
      StartEnds(stopped, launch);
    }
  }

  lemma TakenIsValid(s: System, launch: Launch)
    requires s.pool.Valid()
    ensures Taken(s, launch).pool.Valid()
  {
  }

  // ---------- Every run can come to rest ----------

  lemma StepsTouchOwnRequest(s: System, e: Event)
    requires s.pool.Valid()
    ensures Step(s, e).requests - {AppOf(e)} == s.requests - {AppOf(e)}
  {
    hide KeyOf, Build, FetchOwned, Lease, GiveBack, Unlend, DeploymentPort, ServicePortOf, BroadcasterOf;
  }

  // A request that runs alone from here ends, and begins nothing.
  lemma {:induction false} FinishOne(from: System, s: System, app: App, apps: set<App>)
    requires Inv(s) && app in s.requests && app in apps && Reaches(from, apps, {}, s)
    ensures exists t :: Reaches(from, apps, {}, t) && Inv(t) && t.requests == s.requests - {app}
    decreases WorkLeft(s, app)
  {
    PoolIsValid(s);
    RequestCanMove(s, app);
    hide Inv, Reaches, Step, WorkLeft;
    var e :| AppOf(e) == app && WorkLeft(Step(s, e), app) < WorkLeft(s, app);
    NoBegin(s, e);
    StepsTouchOwnRequest(s, e);
    StepKeeps(s, e);
    OneMore(from, s, e, apps, {});
    var t := Step(s, e);
    if app in t.requests {
      FinishOne(from, t, app, apps);
    } else {
      assert t.requests == t.requests - {app};
    }
  }

  lemma NoBegin(s: System, e: Event)
    requires s.pool.Valid() && AppOf(e) in s.requests && WorkLeft(Step(s, e), AppOf(e)) < WorkLeft(s, AppOf(e))
    ensures !e.BeginStart?
  {
  }

  lemma {:induction false} FinishAll(from: System, s: System, apps: set<App>)
    requires Inv(s) && s.requests.Keys <= apps && Reaches(from, apps, {}, s)
    ensures exists t :: Reaches(from, apps, {}, t) && Inv(t) && t.requests == map[]
    decreases s.requests.Keys
  {
    hide Inv, Reaches;
    if s.requests != map[] {
      var app :| app in s.requests;
      FinishOne(from, s, app, apps);
      var t :| Reaches(from, apps, {}, t) && Inv(t) && t.requests == s.requests - {app};
      assert t.requests.Keys == s.requests.Keys - {app};
      FinishAll(from, t, apps);
    }
  }

  lemma CanRest(s: System)
    requires Inv(s) && s.pool.Valid()
    ensures exists more :: Only(more, s.requests.Keys, {}) && Run(s, more).requests == map[]
  {
    hide Inv, Run, Only;
    Stay(s, s.requests.Keys, {});
    FinishAll(s, s, s.requests.Keys);
    var t :| Reaches(s, s.requests.Keys, {}, t) && Inv(t) && t.requests == map[];
    var more :| Only(more, s.requests.Keys, {}) && Run(s, more) == t;
  }

  // Every run can be continued, by the calls of the requests in flight alone, to a state where none is in flight.
  lemma EveryRunCanRest(lo: Port, hi: Port, fleet: set<App>, events: seq<Event>)
    requires Pool(lo, hi, {}).Valid() && Apart(fleet)
    requires forall i :: 0 <= i < |events| ==> GoodEvent(fleet, events[i])
    ensures exists more ::
              && Only(more, Run(Fresh(Pool(lo, hi, {}), fleet), events).requests.Keys, {})
              && Run(Fresh(Pool(lo, hi, {}), fleet), events + more).requests == map[]
  {
    hide Inv, Run, Safe, Only;
    var start := Fresh(Pool(lo, hi, {}), fleet);
    var s := Run(start, events);
    LeaseSafety(lo, hi, fleet, events);
    RunAppend(start, events, []);
    CanRest(s);
    var more :| Only(more, s.requests.Keys, {}) && Run(s, more).requests == map[];
    RunAppend(start, events, more);
  }

  // ---------- What happens without the conditions of safety ----------

  // The cluster holds the bundle of one launch and nothing else.
  ghost predicate OneBundle(objects: Cluster, launch: Launch, port: Port) {
    HasBundle(objects, launch, port) && Cut(objects, ALL_SLOTS, Keys(launch.app)) == map[]
  }

  lemma OnlyOwnKeys(objects: Cluster, launch: Launch, port: Port, k: Key)
    requires OneBundle(objects, launch, port) && k in objects
    ensures exists x :: k == Keys(launch.app)(x) && objects[k] == Build(launch, port, x)
  {
    hide KeyOf, Build;
    assert k in Image(ALL_SLOTS, Keys(launch.app)) by {
      assert k !in Cut(objects, ALL_SLOTS, Keys(launch.app));
    }
  }

  // Another app's stop finds nothing, even under a key that both apps use.
  lemma StrangerSeesNothing(objects: Cluster, launch: Launch, port: Port, app: App, slot: Slot)
    requires OneBundle(objects, launch, port) && app != launch.app
    ensures Seen(objects, app, RELIABLE, slot).None?
  {
    hide KeyOf, Build, OneBundle;
    var k := Keys(app)(slot);
    KeysOfApp(app, slot);
    if k in objects {
      OnlyOwnKeys(objects, launch, port, k);
      var x :| k == Keys(launch.app)(x) && objects[k] == Build(launch, port, x);
      KeysOfApp(launch.app, x);
      assert OwnedBy(objects[k], launch.app.name);
    }
  }

  // A stop that sees nothing changes nothing.
  lemma UnseenStopEnds(s: System, launch: Launch)
    requires forall x :: Seen(s.objects, launch.app, RELIABLE, x).None?
    ensures StopEnd(s, launch.app, Some(launch), false) == s.(requests := s.requests[launch.app := Leasing(launch)])
  {
    hide Seen, KeyOf, BroadcasterOf;
    assert Removed(s.objects, launch.app, RELIABLE, ALL_SLOTS) == {};
    assert Cut(s.objects, {}, Keys(launch.app)) == s.objects;
    assert !SlotStops(s.objects, launch.app, RELIABLE, Ingest);
  }

  // A start in an empty cluster, with every port free, takes the least port.
  lemma FirstStart(s: System, launch: Launch)
    requires s.pool.Valid() && s.pool.busy == {} && s.objects == map[] && s.requests == map[] && s.lent == map[]
    ensures exists t ::
              && Reaches(s, {launch.app}, {launch}, t)
              && t == s.(objects := t.objects, pool := s.pool.(busy := {s.pool.portMin}),
                         lent := map[launch.app := Lending(launch, s.pool.portMin)])
              && OneBundle(t.objects, launch, s.pool.portMin)
  {
    hide KeyOf, Build, StartSpec, OneBundle, StopEnd;
    var lo := s.pool.portMin;
    StartServerDriven(s, launch, false);
    assert forall x :: Seen(s.objects, launch.app, RELIABLE, x).None?;
    UnseenStopEnds(s, launch);
    var stopped := s.(requests := map[launch.app := Leasing(launch)]);
    assert LeastFree(lo, s.pool.portMax, {}) == Some(lo) && {} + {lo} == {lo};
    assert Lease(s.pool) == (s.pool.(busy := {lo}), Some(lo));
    ReliableStart(StateOf(stopped), launch);
    var t := StartEnd(stopped, launch);
    BundleAlone(t.objects, launch, lo);
    assert t.requests == map[] && t.lent == map[launch.app := Lending(launch, lo)];
  }

  lemma BundleAlone(objects: Cluster, launch: Launch, port: Port)
    requires HasBundle(objects, launch, port) && Cut(objects, ALL_SLOTS, Keys(launch.app)) == map[]
    ensures OneBundle(objects, launch, port)
  {
  }

  // The first of two leases stands, and nothing else.
  ghost predicate FirstLeased(t: System, lo: Port, hi: Port, launch: Launch) {
    && MIN_PORT_BORDER <= lo < hi <= MAX_PORT_BORDER
    && t.requests == map[] && t.pool == Pool(lo, hi, {lo}) && t.lent == map[launch.app := Lending(launch, lo)]
    && OneBundle(t.objects, launch, lo)
  }

  lemma SecondPort(lo: Port, hi: Port)
    requires MIN_PORT_BORDER <= lo < hi <= MAX_PORT_BORDER
    ensures Pool(lo, hi, {lo}).Valid() && Lease(Pool(lo, hi, {lo})).1 == Some(lo + 1)
  {
    assert LeastFree(lo, hi, {lo}) == LeastFree(lo + 1, hi, {lo}) == Some(lo + 1);
  }

  lemma SecondDeployment(s: System, lo: Port, hi: Port, first: Launch, second: Launch)
    requires FirstLeased(s, lo, hi, first) && second.app != first.app && s.pool.Valid()
    ensures var (after, err) := StartSpec(StateOf(s), second, RELIABLE.get);
            && Keys(second.app)(Ingest) in after.objects
            && after.objects[Keys(second.app)(Ingest)] == Build(second, lo + 1, Ingest)
            && (Collide(second.app, first.app) ==> err.Some?)
  {
    hide KeyOf, Build, OneBundle, Collide, Started, AllStart;
    SecondPort(lo, hi);
    DeploymentCreated(s.objects, first, lo, second, lo + 1);
    if Collide(second.app, first.app) {
      TakenKey(s.objects, first, lo, second.app);
    }
  }

  lemma DeploymentCreated(objects: Cluster, first: Launch, taken: Port, second: Launch, port: Port)
    requires OneBundle(objects, first, taken) && second.app != first.app
    ensures var after := Started(objects, second, port, RELIABLE.get, ALL_SLOTS);
            && Keys(second.app)(Ingest) in after
            && after[Keys(second.app)(Ingest)] == Build(second, port, Ingest)
  {
    hide KeyOf, Build, OneBundle;
    KeysAreInjective(second.app);
    var k := Keys(second.app)(Ingest);
    if k in objects {
      OnlyOwnKeys(objects, first, taken, k);
      var x :| k == Keys(first.app)(x);
      DeploymentsDiffer(second.app, first.app, x);
    }
    assert Ingest in Effective(objects, Keys(second.app), RELIABLE.get, ALL_SLOTS);
    assert Objects(second, port)(Ingest) == Build(second, port, Ingest);
  }

  lemma DeploymentsDiffer(a: App, b: App, x: Slot)
    requires a != b
    ensures Keys(a)(Ingest) != Keys(b)(x)
  {
  }

  lemma TakenKey(objects: Cluster, launch: Launch, port: Port, app: App)
    requires OneBundle(objects, launch, port) && Collide(app, launch.app)
    ensures !AllStart(objects, Keys(app), RELIABLE.get, ALL_SLOTS)
  {
    CollidingKeys(app, launch.app);
    hide KeyOf, Build;
    var s, t :| KeyOf(app, s) == KeyOf(launch.app, t);
    assert Keys(app)(s) == KeyOf(app, s) && Keys(launch.app)(t) == KeyOf(launch.app, t);
    EverySlot();
    assert s in ALL_SLOTS && Keys(app)(s) in objects;
  }

  // The second start takes the second port; if the two apps collide, it fails, and leaves its deployment without a
  // lease.
  lemma SecondStart(s: System, lo: Port, hi: Port, first: Launch, second: Launch)
    requires FirstLeased(s, lo, hi, first) && second.app != first.app
    ensures exists t ::
              && Reaches(s, {second.app}, {second}, t)
              && Keys(second.app)(Ingest) in t.objects
              && t.objects[Keys(second.app)(Ingest)] == Build(second, lo + 1, Ingest)
              && (second.app in t.lent ==> t.lent[second.app].port == lo + 1)
              && (Collide(second.app, first.app) ==> second.app !in t.lent)
  {
    hide KeyOf, Build, StartSpec, OneBundle, StopEnd, Collide;
    SecondPort(lo, hi);
    StartServerDriven(s, second, false);
    forall x
      ensures Seen(s.objects, second.app, RELIABLE, x).None?
    {
      StrangerSeesNothing(s.objects, first, lo, second.app, x);
    }
    UnseenStopEnds(s, second);
    var stopped := s.(requests := map[second.app := Leasing(second)]);
    assert stopped == s.(requests := s.requests[second.app := Leasing(second)]);
    SecondDeployment(s, lo, hi, first, second);
    var t := StartEnd(stopped, second);
    assert StateOf(stopped) == StateOf(s);
    assert second.app in t.lent ==> t.lent[second.app].port == lo + 1;
  }

  // A deployment that its app has no lease for, or that carries another port, is not safe.
  lemma Unsafe(t: System, launch: Launch, port: Port)
    requires Keys(launch.app)(Ingest) in t.objects && t.objects[Keys(launch.app)(Ingest)] == Build(launch, port, Ingest)
    requires launch.app in t.lent
             ==> t.lent[launch.app].port == port
                 && FirstContainerPort(launch.template.ports) !in {None, Some(port as int32)}
    ensures !Safe(t)
  {
    DeploymentKey(launch.app);
    FoundInBuiltDeployment(launch, port);
    var k := Keys(launch.app)(Ingest);
    assert IsDeployment(t, k) && OwnerOf(k) == launch.app;
  }

  // Starts of apps and templates of the given sets.
  ghost predicate StartsFrom(events: seq<Event>, fleet: set<App>, templates: set<IngestTemplate>) {
    forall i :: 0 <= i < |events| && events[i].BeginStart? ==>
      events[i].launch.app in fleet && events[i].launch.template in templates
  }

  ghost predicate HasUnsafeRun(lo: Port, hi: Port, fleet: set<App>, templates: set<IngestTemplate>)
    requires Pool(lo, hi, {}).Valid()
  {
    exists events :: StartsFrom(events, fleet, templates) && !Safe(Run(Fresh(Pool(lo, hi, {}), fleet), events))
  }

  lemma UnsafeReached(lo: Port, hi: Port, fleet: set<App>, templates: set<IngestTemplate>, apps: set<App>,
                      starts: set<Launch>, t: System)
    requires Pool(lo, hi, {}).Valid() && Reaches(Fresh(Pool(lo, hi, {}), fleet), apps, starts, t) && !Safe(t)
    requires forall l :: l in starts ==> l.app in fleet && l.template in templates
    ensures HasUnsafeRun(lo, hi, fleet, templates)
  {
    hide Safe, Run;
    var events :| Only(events, apps, starts) && Run(Fresh(Pool(lo, hi, {}), fleet), events) == t;
    assert StartsFrom(events, fleet, templates);
  }

  // Two starts, one after the other, that are not safe.
  lemma UnsafePair(lo: Port, hi: Port, fleet: set<App>, templates: set<IngestTemplate>, a: App, b: App,
                   template: IngestTemplate)
    requires MIN_PORT_BORDER <= lo < hi <= MAX_PORT_BORDER
    requires a in fleet && b in fleet && a != b && template in templates
    requires Collide(b, a) || FirstContainerPort(template.ports) == Some(lo as int32)
    ensures HasUnsafeRun(lo, hi, fleet, templates)
  {
    hide Reaches, Safe, OneBundle, Collide, Keys, Build, HasUnsafeRun;
    var first, second := Launch(a, template, ""), Launch(b, template, "");
    var s := Fresh(Pool(lo, hi, {}), fleet);
    FirstStart(s, first);
    var t :| && Reaches(s, {a}, {first}, t) && OneBundle(t.objects, first, lo)
             && t == s.(objects := t.objects, pool := s.pool.(busy := {lo}), lent := map[a := Lending(first, lo)]);
    SecondStart(t, lo, hi, first, second);
    var u :| && Reaches(t, {b}, {second}, u)
             && Keys(b)(Ingest) in u.objects && u.objects[Keys(b)(Ingest)] == Build(second, lo + 1, Ingest)
             && (b in u.lent ==> u.lent[b].port == lo + 1)
             && (Collide(b, a) ==> b !in u.lent);
    Through(s, t, u, {a}, {first}, {b}, {second});
    Unsafe(u, second, lo + 1);
    UnsafeReached(lo, hi, fleet, templates, {a} + {b}, {first} + {second}, u);
  }

  lemma DeploymentOfBundle(objects: Cluster, launch: Launch, port: Port)
    requires OneBundle(objects, launch, port)
    ensures var k := Keys(launch.app)(Ingest);
            k in objects && objects[k] == Build(launch, port, Ingest)
  {
    hide KeyOf, Build;
  }

  lemma UnsafeAlone(lo: Port, hi: Port, fleet: set<App>, templates: set<IngestTemplate>, a: App,
                    template: IngestTemplate)
    requires Pool(lo, hi, {}).Valid() && a in fleet && template in templates
    requires FirstContainerPort(template.ports) !in {None, Some(lo as int32)}
    ensures HasUnsafeRun(lo, hi, fleet, templates)
  {
    hide Reaches, Safe, Build, HasUnsafeRun;
    var launch := Launch(a, template, "");
    var s := Fresh(Pool(lo, hi, {}), fleet);
    FirstStart(s, launch);
    var t :| && Reaches(s, {a}, {launch}, t) && OneBundle(t.objects, launch, lo)
             && t == s.(objects := t.objects, pool := s.pool.(busy := {lo}), lent := map[a := Lending(launch, lo)]);
    DeploymentOfBundle(t.objects, launch, lo);
    Unsafe(t, launch, lo);
    UnsafeReached(lo, hi, fleet, templates, {a}, {launch}, t);
  }

  // Which fleets and templates are safe: with at least two apps and two ports, every run is safe exactly when no app is
  // called like a gateway service of another and no template names a port like the webrtc ports.
  lemma SafeExactly(lo: Port, hi: Port, fleet: set<App>, templates: set<IngestTemplate>)
    requires MIN_PORT_BORDER <= lo < hi <= MAX_PORT_BORDER
    requires templates != {} && exists a, b :: a in fleet && b in fleet && a != b
    ensures (forall events ::
               StartsFrom(events, fleet, templates) ==> Safe(Run(Fresh(Pool(lo, hi, {}), fleet), events)))
            <==> Apart(fleet) && (forall t :: t in templates ==> NoWebrtcPorts(t))
  {
    hide Safe, Run, NoWebrtcPorts;
    if t :| t in templates && !NoWebrtcPorts(t) {
      WebrtcNameIsUnsafe(lo, hi, fleet, templates, t);
    } else if !Apart(fleet) {
      var a, b :| a in fleet && b in fleet && Collide(a, b);
      CollidersDiffer(a, b);
      var template :| template in templates;
      UnsafePair(lo, hi, fleet, templates, b, a, template);
    } else {
      forall events | StartsFrom(events, fleet, templates)
        ensures Safe(Run(Fresh(Pool(lo, hi, {}), fleet), events))
      {
        LeaseSafety(lo, hi, fleet, events);
      }
    }
  }

  lemma CollidersDiffer(a: App, b: App)
    requires Collide(a, b)
    ensures a != b
  {
    assert |UDP_GATEWAY_SUFFIX| > 0 && |TCP_GATEWAY_SUFFIX| > 0;
  }

  lemma WebrtcNameIsUnsafe(lo: Port, hi: Port, fleet: set<App>, templates: set<IngestTemplate>,
                           template: IngestTemplate)
    requires MIN_PORT_BORDER <= lo < hi <= MAX_PORT_BORDER
    requires template in templates && !NoWebrtcPorts(template) && exists a, b :: a in fleet && b in fleet && a != b
    ensures HasUnsafeRun(lo, hi, fleet, templates)
  {
    hide HasUnsafeRun;
    FirstContainerPortIsFirst(template.ports);
    var a, b :| a in fleet && b in fleet && a != b;
    if FirstContainerPort(template.ports) == Some(lo as int32) {
      UnsafePair(lo, hi, fleet, templates, a, b, template);
    } else {
      UnsafeAlone(lo, hi, fleet, templates, a, template);
    }
  }
}
