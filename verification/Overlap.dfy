/** Requests in flight for the same app at the same time, which the service does not keep apart. Each request has an id
    and takes its steps as in the lease protocol, against the one cluster and the one pool. */
module Overlaps {
  import opened Wrappers
  import opened PortRanges
  import opened IngestResources
  import opened IngestSystems
  import opened IngestProperties
  import opened Bundles
  import opened LeaseProtocol
  import opened LeaseRuns

  datatype Flight = Flight(app: App, request: Request)

  datatype Crowd = Crowd(objects: Cluster, pool: Pool, flights: map<nat, Flight>, destroyed: seq<Destroyed>,
                         lent: map<App, Lending>, fleet: set<App>)

  datatype Act = Act(id: nat, event: Event)

  function Alone(pool: Pool, fleet: set<App>): Crowd {
    Crowd(map[], pool, map[], [], map[], fleet)
  }

  function With(w: Crowd, requests: map<App, Request>): System {
    System(w.objects, w.pool, requests, w.destroyed, w.lent, w.fleet)
  }

  // What the request of an id sees: everything but the other requests.
  function View(w: Crowd, id: nat): System {
    With(w, if id in w.flights then map[w.flights[id].app := w.flights[id].request] else map[])
  }

  function Merge(w: Crowd, id: nat, app: App, s: System): Crowd {
    Crowd(s.objects, s.pool,
          if app in s.requests then w.flights[id := Flight(app, s.requests[app])] else w.flights - {id},
          s.destroyed, s.lent, w.fleet)
  }

  // One step of one request; a first step uses an id that is not in flight.
  function Perform(w: Crowd, act: Act): (v: Crowd)
    requires w.pool.Valid()
    ensures v.pool.Valid()
  {
    if act.id in w.flights && w.flights[act.id].app != AppOf(act.event) then w
    else Merge(w, act.id, AppOf(act.event), Step(View(w, act.id), act.event))
  }

  function RunAll(w: Crowd, acts: seq<Act>): Crowd
    requires w.pool.Valid()
    decreases |acts|
  {
    if acts == [] then w else RunAll(Perform(w, acts[0]), acts[1..])
  }

  // Safety speaks of cluster, pool and leases only.
  ghost predicate SafeCrowd(w: Crowd) {
    Safe(With(w, map[]))
  }

  // ---------- Requests that take turns ----------

  predicate Begins(e: Event) {
    e.BeginStop? || e.BeginStart?
  }

  // A request begins when no other one of its app is in flight; those of the `loose` apps begin at any time.
  ghost predicate InTurn(w: Crowd, act: Act, loose: set<App>) {
    Begins(act.event) && act.id !in w.flights && AppOf(act.event) !in loose ==>
      forall j :: j in w.flights ==> w.flights[j].app != AppOf(act.event)
  }

  ghost predicate AllInTurn(w: Crowd, acts: seq<Act>, loose: set<App>)
    requires w.pool.Valid()
    decreases |acts|
  {
    acts == [] || (InTurn(w, acts[0], loose) && AllInTurn(Perform(w, acts[0]), acts[1..], loose))
  }

  ghost predicate OneEach(flights: map<nat, Flight>) {
    forall i, j :: i in flights && j in flights && flights[i].app == flights[j].app ==> i == j
  }

  ghost function ByApp(flights: map<nat, Flight>): map<App, Request>
    requires OneEach(flights)
  {
    map i | i in flights :: flights[i].app := flights[i].request
  }

  // The requests by app.
  ghost function Narrow(w: Crowd): System
    requires OneEach(w.flights)
  {
    With(w, ByApp(w.flights))
  }

  // The id is the app's, or free to be.
  ghost predicate IdOf(flights: map<nat, Flight>, id: nat, app: App) {
    if id in flights then flights[id].app == app else forall j :: j in flights ==> flights[j].app != app
  }

  lemma ByAppHas(flights: map<nat, Flight>)
    requires OneEach(flights)
    ensures forall i ::
              i in flights
              ==> flights[i].app in ByApp(flights) && ByApp(flights)[flights[i].app] == flights[i].request
    ensures forall a :: a in ByApp(flights) ==> exists i :: i in flights && flights[i].app == a
  {
  }

  lemma ByAppIs(flights: map<nat, Flight>, requests: map<App, Request>)
    requires OneEach(flights)
    requires forall i :: i in flights ==> flights[i].app in requests && requests[flights[i].app] == flights[i].request
    requires forall a :: a in requests ==> exists i :: i in flights && flights[i].app == a
    ensures ByApp(flights) == requests
  {
    hide ByApp, OneEach;
    ByAppHas(flights);
  }

  lemma FlightChanged(flights: map<nat, Flight>, id: nat, app: App, r: Request)
    requires OneEach(flights) && IdOf(flights, id, app)
    ensures OneEach(flights[id := Flight(app, r)])
    ensures ByApp(flights[id := Flight(app, r)]) == (ByApp(flights) - {app}) + map[app := r]
  {
    hide ByApp;
    var after, requests := flights[id := Flight(app, r)], (ByApp(flights) - {app}) + map[app := r];
    ByAppHas(flights);
    forall a | a in requests
      ensures exists i :: i in after && after[i].app == a
    {
      if a == app {
        assert id in after && after[id].app == a;
      } else {
        var i :| i in flights && flights[i].app == a;
        assert i in after && after[i].app == a;
      }
    }
    ByAppIs(after, requests);
  }

  lemma FlightRemoved(flights: map<nat, Flight>, id: nat, app: App)
    requires OneEach(flights) && IdOf(flights, id, app)
    ensures OneEach(flights - {id})
    ensures ByApp(flights - {id}) == (ByApp(flights) - {app}) + map[]
  {
    hide ByApp;
    var after, requests := flights - {id}, (ByApp(flights) - {app}) + map[];
    ByAppHas(flights);
    forall a | a in requests
      ensures exists i :: i in after && after[i].app == a
    {
      var i :| i in flights && flights[i].app == a;
      assert i in after && after[i].app == a;
    }
    ByAppIs(after, requests);
  }

  function Own(s: System, app: App): System {
    s.(requests := if app in s.requests then map[app := s.requests[app]] else map[])
  }

  // t with the other requests of s.
  function Among(s: System, app: App, t: System): System {
    t.(requests := (s.requests - {app}) + t.requests)
  }

  // Changing, or removing, one's own request.
  lemma RequestChanged(requests: map<App, Request>, app: App, r: Request, next: Request)
    ensures (requests - {app}) + map[app := r][app := next] == requests[app := next]
  {
  }

  lemma RequestRemoved(requests: map<App, Request>, app: App, r: Request)
    ensures (requests - {app}) + (map[app := r] - {app}) == requests - {app}
  {
  }

  lemma RequestFinished(requests: map<App, Request>, app: App, r: Request, next: Option<Launch>)
    ensures (requests - {app}) + Finish(map[app := r], app, next) == Finish(requests, app, next)
  {
    if next.Some? {
      RequestChanged(requests, app, r, Leasing(next.value));
    } else {
      RequestRemoved(requests, app, r);
    }
  }

  lemma StopCallIsLocal(s: System, app: App, slot: Slot)
    requires app in s.requests && s.requests[app].Stopping?
    ensures StopCall(s, app, s.requests[app], slot) == Among(s, app, StopCall(Own(s, app), app, s.requests[app], slot))
  {
    hide FetchOwned, Keys;
    var r := s.requests[app];
    RequestChanged(s.requests, app, r, StopCall(s, app, r, slot).requests[app]);
  }

  lemma CreateCallIsLocal(s: System, app: App, slot: Slot)
    requires app in s.requests && s.requests[app].Creating?
    ensures CreateCall(s, app, s.requests[app], slot)
            == Among(s, app, CreateCall(Own(s, app), app, s.requests[app], slot))
  {
    hide Build, Keys;
    var r := s.requests[app];
    RequestChanged(s.requests, app, r, CreateCall(s, app, r, slot).requests[app]);
  }

  lemma GoroutineIsLocal(s: System, app: App, slot: Slot)
    requires s.pool.Valid() && app in s.requests
    ensures Step(s, Goroutine(app, slot)) == Among(s, app, Step(Own(s, app), Goroutine(app, slot)))
  {
    hide StopCall, CreateCall, CreateJoin, StopJoin, PortCall, BeginRequest;
    var r := s.requests[app];
    assert (s.requests - {app}) + map[app := r] == s.requests;
    if r.Stopping? {
      StopCallIsLocal(s, app, slot);
    } else if r.Creating? {
      CreateCallIsLocal(s, app, slot);
    }
  }

  lemma StopJoinIsLocal(s: System, app: App, svcWins: bool)
    requires app in s.requests && s.requests[app].Stopping?
    ensures StopJoin(s, app, s.requests[app], svcWins)
            == Among(s, app, StopJoin(Own(s, app), app, s.requests[app], svcWins))
  {
    hide GiveBack, DeploymentPort, ServicePortOf, BroadcasterOf, Unlend, Finish;
    var r := s.requests[app];
    RequestFinished(s.requests, app, r, r.next);
    RequestChanged(s.requests, app, r, Publishing(BroadcasterOf(r.dep), r.next));
  }

  lemma JoinIsLocal(s: System, app: App, svcWins: bool)
    requires s.pool.Valid() && app in s.requests
    ensures Step(s, Join(app, svcWins)) == Among(s, app, Step(Own(s, app), Join(app, svcWins)))
  {
    hide GiveBack, Unlend, StopJoin, StopCall, CreateCall, PortCall, BeginRequest;
    var r := s.requests[app];
    assert (s.requests - {app}) + map[app := r] == s.requests;
    RequestRemoved(s.requests, app, r);
    if r.Stopping? {
      StopJoinIsLocal(s, app, svcWins);
    }
  }

  lemma CallIsLocal(s: System, e: Event)
    requires s.pool.Valid() && AppOf(e) in s.requests && (e.Publish? || e.TakePort?)
    ensures Step(s, e) == Among(s, AppOf(e), Step(Own(s, AppOf(e)), e))
  {
    hide Lease, Finish, StopJoin, StopCall, CreateCall, CreateJoin, BeginRequest;
    var app := AppOf(e);
    var r := s.requests[app];
    assert (s.requests - {app}) + map[app := r] == s.requests;
    RequestRemoved(s.requests, app, r);
    if r.Publishing? {
      RequestFinished(s.requests, app, r, r.next);
    } else if r.Leasing? && Lease(s.pool).1.Some? {
      RequestChanged(s.requests, app, r, Creating(r.launch, Lease(s.pool).1.value, ALL_SLOTS, false));
    }
  }

  // A step sees and touches no request but its own.
  lemma StepIsLocal(s: System, e: Event)
    requires s.pool.Valid()
    ensures Step(s, e) == Among(s, AppOf(e), Step(Own(s, AppOf(e)), e))
  {
    hide StopJoin, StopCall, CreateCall, CreateJoin, PortCall, Finish;
    var app := AppOf(e);
    if app in s.requests {
      assert (s.requests - {app}) + map[app := s.requests[app]] == s.requests;
    } else {
      assert s.requests - {app} == s.requests;
    }
    match e
    case Goroutine(_, slot) => if app in s.requests { GoroutineIsLocal(s, app, slot); }
    case Join(_, svcWins) => if app in s.requests { JoinIsLocal(s, app, svcWins); }
    case Publish(_) => if app in s.requests { CallIsLocal(s, e); }
    case TakePort(_) => if app in s.requests { CallIsLocal(s, e); }
    case BeginStop(_) =>
    case BeginStart(_) =>
  }

  lemma IdleWithoutRequest(s: System, e: Event)
    requires s.pool.Valid() && AppOf(e) !in s.requests && !Begins(e)
    ensures Step(s, e) == s
  {
  }

  lemma OwnRequestOnly(s: System, e: Event)
    requires s.pool.Valid() && s.requests.Keys <= {AppOf(e)}
    ensures Step(s, e).requests.Keys <= {AppOf(e)}
  {
    hide Step;
    StepsTouchOwnRequest(s, e);
    assert (Step(s, e).requests - {AppOf(e)}).Keys == (s.requests - {AppOf(e)}).Keys == {};
  }

  // Seen by app, one step of an id is one step of the lease protocol, or none.
  lemma PerformIsStep(w: Crowd, act: Act)
    requires w.pool.Valid() && OneEach(w.flights) && InTurn(w, act, {})
    ensures OneEach(Perform(w, act).flights)
    ensures Narrow(Perform(w, act)) == Narrow(w) || Narrow(Perform(w, act)) == Step(Narrow(w), act.event)
  {
    hide Step;
    var id, e, app := act.id, act.event, AppOf(act.event);
    if id !in w.flights && !Begins(e) {
      IdleWithoutRequest(View(w, id), e);
      assert w.flights - {id} == w.flights;
    } else if id !in w.flights || w.flights[id].app == app {
      OwnView(w, id, app);
      var t := Step(View(w, id), e);
      OwnRequestOnly(View(w, id), e);
      StepIsLocal(Narrow(w), e);
      MergeIsAmong(w, id, app, t);
    }
  }

  lemma OwnView(w: Crowd, id: nat, app: App)
    requires OneEach(w.flights) && IdOf(w.flights, id, app)
    ensures View(w, id) == Own(Narrow(w), app) && View(w, id).requests.Keys <= {app}
  {
  }

  lemma MergeIsAmong(w: Crowd, id: nat, app: App, t: System)
    requires OneEach(w.flights) && IdOf(w.flights, id, app) && t.requests.Keys <= {app} && t.fleet == w.fleet
    ensures OneEach(Merge(w, id, app, t).flights)
    ensures Narrow(Merge(w, id, app, t)) == Among(Narrow(w), app, t)
  {
    hide OneEach, ByApp, IdOf;
    if app in t.requests {
      assert t.requests == map[app := t.requests[app]];
      FlightChanged(w.flights, id, app, t.requests[app]);
    } else {
      assert t.requests == map[];
      FlightRemoved(w.flights, id, app);
    }
  }

  lemma PerformKeeps(w: Crowd, act: Act)
    requires w.pool.Valid() && OneEach(w.flights) && InTurn(w, act, {})
    requires Inv(Narrow(w)) && GoodEvent(w.fleet, act.event)
    ensures var v := Perform(w, act);
            OneEach(v.flights) && v.fleet == w.fleet && Inv(Narrow(v))
  {
    hide Inv, Step, OneEach, InTurn, Narrow, GoodEvent;
    PerformIsStep(w, act);
    assert Narrow(w).fleet == w.fleet && Narrow(w).pool == w.pool by {
      NarrowShares(w);
    }
    StepKeeps(Narrow(w), act.event);
  }

  lemma NarrowShares(w: Crowd)
    requires OneEach(w.flights)
    ensures Narrow(w).fleet == w.fleet && Narrow(w).pool == w.pool
    ensures Safe(Narrow(w)) ==> SafeCrowd(w)
  {
  }

  lemma {:induction false} RunAllKeeps(w: Crowd, acts: seq<Act>)
    requires w.pool.Valid() && OneEach(w.flights) && Inv(Narrow(w)) && AllInTurn(w, acts, {})
    requires forall i :: 0 <= i < |acts| ==> GoodEvent(w.fleet, acts[i].event)
    ensures SafeCrowd(RunAll(w, acts))
    decreases |acts|
  {
    hide Inv, OneEach, InTurn, Narrow, GoodEvent, Perform, Safe, SafeCrowd;
    if acts == [] {
      InvIsSafe(Narrow(w));
      NarrowShares(w);
    } else {
      PerformKeeps(w, acts[0]);
      RunAllKeeps(Perform(w, acts[0]), acts[1..]);
    }
  }

  lemma NoFlights(w: Crowd)
    requires w.flights == map[]
    ensures OneEach(w.flights) && Narrow(w) == With(w, map[])
  {
    hide ByApp;
    ByAppIs(w.flights, map[]);
  }

  // Requests of any number of apps at once are safe, as long as a request of an app begins only when no other request
  // of that app is in flight.
  lemma InTurnIsSafe(lo: Port, hi: Port, fleet: set<App>, acts: seq<Act>)
    requires Pool(lo, hi, {}).Valid() && Apart(fleet)
    requires forall i :: 0 <= i < |acts| ==> GoodEvent(fleet, acts[i].event)
    requires AllInTurn(Alone(Pool(lo, hi, {}), fleet), acts, {})
    ensures SafeCrowd(RunAll(Alone(Pool(lo, hi, {}), fleet), acts))
  {
    hide Inv, SafeCrowd, AllInTurn, RunAll;
    var w := Alone(Pool(lo, hi, {}), fleet);
    FreshHolds(Pool(lo, hi, {}), fleet);
    NoFlights(w);
    RunAllKeeps(w, acts);
  }

  // ---------- Runs of one id after another ----------

  // A run in which only the given launches begin, and only the loose apps out of turn.
  ghost predicate Gets(w: Crowd, starts: set<Launch>, loose: set<App>, v: Crowd) {
    w.pool.Valid() && exists acts :: StartsOnly(acts, starts) && AllInTurn(w, acts, loose) && RunAll(w, acts) == v
  }

  ghost predicate StartsOnly(acts: seq<Act>, starts: set<Launch>) {
    forall i :: 0 <= i < |acts| && acts[i].event.BeginStart? ==> acts[i].event.launch in starts
  }

  lemma {:induction false} RunAllAppend(w: Crowd, first: seq<Act>, second: seq<Act>, loose: set<App>)
    requires w.pool.Valid()
    ensures RunAll(w, first).pool.Valid() && RunAll(w, first + second) == RunAll(RunAll(w, first), second)
    ensures AllInTurn(w, first, loose) && AllInTurn(RunAll(w, first), second, loose)
            ==> AllInTurn(w, first + second, loose)
    decreases |first|
  {
    hide Perform, InTurn;
    if first == [] {
      assert first + second == second;
    } else {
      assert (first + second)[1..] == first[1..] + second;
      RunAllAppend(Perform(w, first[0]), first[1..], second, loose);
    }
  }

  lemma GetsOn(u: Crowd, v: Crowd, w: Crowd, starts: set<Launch>, loose: set<App>)
    requires Gets(u, starts, loose, v) && Gets(v, starts, loose, w)
    ensures Gets(u, starts, loose, w)
  {
    hide RunAll, AllInTurn;
    var first :| StartsOnly(first, starts) && AllInTurn(u, first, loose) && RunAll(u, first) == v;
    var second :| StartsOnly(second, starts) && AllInTurn(v, second, loose) && RunAll(v, second) == w;
    RunAllAppend(u, first, second, loose);
    assert StartsOnly(first + second, starts);
  }

  // The id may take steps of the app: it is the app's or free, and no other one is in flight for it unless it is loose.
  ghost predicate MayAct(w: Crowd, id: nat, app: App, loose: set<App>) {
    && (id in w.flights ==> w.flights[id].app == app)
    && (app in loose || forall j :: j in w.flights && w.flights[j].app == app ==> j == id)
  }

  function Acts(id: nat, events: seq<Event>): seq<Act> {
    seq(|events|, i requires 0 <= i < |events| => Act(id, events[i]))
  }

  lemma MergeOwnView(w: Crowd, id: nat, app: App)
    requires id in w.flights ==> w.flights[id].app == app
    ensures Merge(w, id, app, View(w, id)) == w
  {
    if id in w.flights {
      assert w.flights[id := w.flights[id]] == w.flights;
    } else {
      assert w.flights - {id} == w.flights;
    }
  }

  lemma MergeTwice(w: Crowd, id: nat, app: App, s: System, t: System)
    requires s.requests.Keys <= {app} && s.fleet == w.fleet
    ensures View(Merge(w, id, app, s), id) == s
    ensures Merge(Merge(w, id, app, s), id, app, t) == Merge(w, id, app, t)
  {
    if app in s.requests {
      assert s.requests == map[app := s.requests[app]];
    } else {
      assert s.requests == map[];
    }
    var once, twice := Merge(w, id, app, s), Merge(Merge(w, id, app, s), id, app, t);
    assert twice.flights == Merge(w, id, app, t).flights;
  }

  // The steps of one id are those of a lease protocol with no other request.
  lemma {:induction false} OneIdRuns(w: Crowd, id: nat, app: App, events: seq<Event>, loose: set<App>)
    requires w.pool.Valid() && MayAct(w, id, app, loose)
    requires forall i :: 0 <= i < |events| ==> AppOf(events[i]) == app
    ensures RunAll(w, Acts(id, events)) == Merge(w, id, app, Run(View(w, id), events))
    ensures AllInTurn(w, Acts(id, events), loose)
    decreases |events|
  {
    hide Step, Merge, View;
    MergeOwnView(w, id, app);
    if events != [] {
      ViewOf(w, id, app);
      var s := Step(View(w, id), events[0]);
      OwnRequestOnly(View(w, id), events[0]);
      MergeTwice(w, id, app, s, Run(s, events[1..]));
      PerformOf(w, id, app, events[0], loose);
      assert Acts(id, events)[1..] == Acts(id, events[1..]);
      OneIdRuns(Merge(w, id, app, s), id, app, events[1..], loose);
    }
  }

  lemma ViewOf(w: Crowd, id: nat, app: App)
    requires id in w.flights ==> w.flights[id].app == app
    ensures View(w, id).requests.Keys <= {app} && View(w, id).fleet == w.fleet && View(w, id).pool == w.pool
  {
  }

  lemma PerformOf(w: Crowd, id: nat, app: App, e: Event, loose: set<App>)
    requires w.pool.Valid() && MayAct(w, id, app, loose) && AppOf(e) == app
    ensures InTurn(w, Act(id, e), loose)
    ensures var v := Merge(w, id, app, Step(View(w, id), e));
            Perform(w, Act(id, e)) == v && v.pool.Valid() && MayAct(v, id, app, loose)
  {
    hide Step;
  }

  lemma Lift(w: Crowd, id: nat, app: App, starts: set<Launch>, t: System, more: set<Launch>, loose: set<App>)
    requires w.pool.Valid() && MayAct(w, id, app, loose) && starts <= more
    requires Reaches(View(w, id), {app}, starts, t)
    ensures Gets(w, more, loose, Merge(w, id, app, t))
  {
    hide Run, RunAll, AllInTurn, Merge, View, MayAct;
    var events :| Only(events, {app}, starts) && Run(View(w, id), events) == t;
    OneIdRuns(w, id, app, events, loose);
    assert StartsOnly(Acts(id, events), more);
  }

  // ---------- Two stops of one app ----------

  // A stop has begun and has read its deployment.
  function Reader(dep: Option<Object>): Request {
    Stopping(ALL_SLOTS, ALL_SLOTS - {Ingest}, false, dep, None, None)
  }

  lemma StopReadsDeployment(s: System, app: App)
    requires s.pool.Valid() && app !in s.requests && Seen(s.objects, app, RELIABLE, Ingest).Some?
    ensures Reaches(s, {app}, {}, LeaseRuns.With(s, s.objects, app, Reader(Seen(s.objects, app, RELIABLE, Ingest))))
  {
    hide Reaches, Step, Seen, Stopped;
    Stay(s, {app}, {});
    OneMore(s, s, BeginStop(app), {app}, {});
    BeginIsRequest(s, app);
    StopBegins(s, app, None);
    OneMore(s, StopHalf(s, app, None, {}, {}), Goroutine(app, Ingest), {app}, {});
    StopReads(s, app, None, {}, Ingest);
    NothingStopped(s.objects, app);
    assert ALL_SLOTS - {} == ALL_SLOTS && {} + {Ingest} == {Ingest};
    assert Stopper(s, app, None, {}, {Ingest}) == Reader(Seen(s.objects, app, RELIABLE, Ingest));
  }

  lemma BeginIsRequest(s: System, app: App)
    requires s.pool.Valid()
    ensures Step(s, BeginStop(app)) == BeginRequest(s, app, None)
  {
  }

  lemma NothingStopped(objects: Cluster, app: App)
    ensures Stopped(objects, app, RELIABLE, {}) == objects
  {
    hide KeyOf, Seen;
    assert Removed(objects, app, RELIABLE, {}) == {};
    assert Cut(objects, {}, Keys(app)) == objects;
  }

  // A stop whose objects are gone ends its goroutines one by one, and keeps what it has read.
  function Late(running: set<Slot>, dep: Option<Object>): Request {
    Stopping(running, running - {Ingest}, running != ALL_SLOTS, dep, None, None)
  }

  ghost predicate AllGone(objects: Cluster, app: App) {
    Keys(app)(Ingest) !in objects && forall x :: FetchOwned(objects, Keys(app)(x), app.name, Works).None?
  }

  lemma LateCall(s: System, app: App, running: set<Slot>, slot: Slot, dep: Option<Object>)
    requires s.pool.Valid() && AllGone(s.objects, app) && slot in running && running <= ALL_SLOTS
    ensures Step(LeaseRuns.With(s, s.objects, app, Late(running, dep)), Goroutine(app, slot))
            == LeaseRuns.With(s, s.objects, app, Late(running - {slot}, dep))
  {
    hide FetchOwned, Keys, CreateCall, CreateJoin, StopJoin, PortCall, BeginRequest;
    assert running - {slot} - {Ingest} == running - {Ingest} - {slot} && slot !in running - {slot};
    assert slot == Ingest ==> running - {slot} - {Ingest} == running - {Ingest};
    assert Keys(app)(Ingest) !in s.objects && s.objects - {Keys(app)(Ingest)} == s.objects;
    LeaseRuns.WithTwice(s, s.objects, app, Late(running, dep), s.objects, Late(running - {slot}, dep));
  }

  lemma {:induction false} LateCalls(from: System, s: System, app: App, running: set<Slot>, dep: Option<Object>)
    requires s.pool.Valid() && AllGone(s.objects, app) && running <= ALL_SLOTS
    requires Reaches(from, {app}, {}, LeaseRuns.With(s, s.objects, app, Late(running, dep)))
    ensures Reaches(from, {app}, {}, LeaseRuns.With(s, s.objects, app, Late({}, dep)))
    decreases running
  {
    hide Reaches, Step, Late, AllGone;
    if running != {} {
      var slot :| slot in running;
      OneMore(from, LeaseRuns.With(s, s.objects, app, Late(running, dep)), Goroutine(app, slot), {app}, {});
      LateCall(s, app, running, slot, dep);
      LateCalls(from, s, app, running - {slot}, dep);
    }
  }

  // Its join gives back the port it has read, whoever holds that port by now.
  lemma LateJoin(s: System, app: App, dep: Option<Object>)
    requires s.pool.Valid() && app !in s.requests && DeploymentPort(dep).Some?
    ensures var port := ToPort(DeploymentPort(dep).value);
            Step(LeaseRuns.With(s, s.objects, app, Late({}, dep)), Join(app, false))
            == s.(pool := GiveBack(s.pool, port).0, lent := LentAfter(s.lent, s.pool, DeploymentPort(dep)))
  {
    hide DeploymentPort, BroadcasterOf, GiveBack, LentAfter, StopJoin, StopCall, CreateCall, CreateJoin, PortCall,
         BeginRequest;
    JoinForgets(s, s.objects, app, Late({}, dep), false);
    assert s.requests - {app} == s.requests;
  }

  lemma LateStopEnds(s: System, app: App, dep: Option<Object>)
    requires s.pool.Valid() && app !in s.requests && DeploymentPort(dep).Some? && AllGone(s.objects, app)
    ensures var port := ToPort(DeploymentPort(dep).value);
            Reaches(LeaseRuns.With(s, s.objects, app, Late(ALL_SLOTS, dep)), {app}, {},
                    s.(pool := GiveBack(s.pool, port).0, lent := LentAfter(s.lent, s.pool, DeploymentPort(dep))))
  {
    hide Reaches, Step, Late, AllGone, GiveBack, LentAfter, DeploymentPort;
    var from := LeaseRuns.With(s, s.objects, app, Late(ALL_SLOTS, dep));
    Stay(from, {app}, {});
    LateCalls(from, s, app, ALL_SLOTS, dep);
    OneMore(from, LeaseRuns.With(s, s.objects, app, Late({}, dep)), Join(app, false), {app}, {});
    LateJoin(s, app, dep);
  }

  // ---------- The run ----------

  // A start by a new id, in an empty cluster with every port free.
  lemma StartAmong(w: Crowd, id: nat, launch: Launch, starts: set<Launch>, loose: set<App>)
    requires w.pool.Valid() && w.pool.busy == {} && w.objects == map[] && w.lent == map[] && id !in w.flights
             && launch in starts && MayAct(w, id, launch.app, loose)
    ensures exists v ::
              && Gets(w, starts, loose, v) && OneBundle(v.objects, launch, w.pool.portMin)
              && v == w.(objects := v.objects, pool := w.pool.(busy := {w.pool.portMin}),
                         lent := map[launch.app := Lending(launch, w.pool.portMin)])
  {
    hide Reaches, OneBundle, Gets;
    var s := View(w, id);
    FirstStart(s, launch);
    var t :| && Reaches(s, {launch.app}, {launch}, t) && OneBundle(t.objects, launch, s.pool.portMin)
             && t == s.(objects := t.objects, pool := s.pool.(busy := {s.pool.portMin}),
                        lent := map[launch.app := Lending(launch, s.pool.portMin)]);
    Lift(w, id, launch.app, {launch}, t, starts, loose);
    var v := Merge(w, id, launch.app, t);
    assert w.flights - {id} == w.flights;
    assert Gets(w, starts, loose, v) && OneBundle(v.objects, launch, w.pool.portMin);
  }

  // A stop by a new id reads the deployment, and no more yet.
  lemma ReadAmong(w: Crowd, id: nat, launch: Launch, port: Port, starts: set<Launch>, loose: set<App>)
    requires w.pool.Valid() && OneBundle(w.objects, launch, port) && id !in w.flights
             && MayAct(w, id, launch.app, loose)
    ensures Gets(w, starts, loose,
                 w.(flights := w.flights[id := Flight(launch.app, Reader(Some(Build(launch, port, Ingest))))]))
  {
    hide Reaches, Gets, Build, KeyOf, FetchOwned;
    var app, s := launch.app, View(w, id);
    SeenBundle(w.objects, launch, port, Ingest);
    StopReadsDeployment(s, app);
    Lift(w, id, app, {}, LeaseRuns.With(s, s.objects, app, Reader(Some(Build(launch, port, Ingest)))), starts, loose);
  }

  // A whole stop by another new id gives the port back, and leaves the first stop where it is.
  lemma StopAmong(w: Crowd, id: nat, launch: Launch, port: Port, starts: set<Launch>, loose: set<App>)
    requires OneBundle(w.objects, launch, port) && NoWebrtcPorts(launch.template) && id !in w.flights
             && MayAct(w, id, launch.app, loose)
    requires w.pool.Valid() && w.pool.busy == {port} && w.lent == map[launch.app := Lending(launch, port)]
    ensures exists v ::
              && Gets(w, starts, loose, v)
              && v == w.(objects := map[], pool := w.pool.(busy := {}), lent := map[], destroyed := v.destroyed)
  {
    hide Reaches, Gets, StopEnd;
    var app, s := launch.app, View(w, id);
    StopDriven(s, app, false);
    StopOfOnly(s, launch, port);
    var t := StopEnd(s, app, None, false);
    Lift(w, id, app, {}, t, starts, loose);
    assert w.flights - {id} == w.flights;
    assert Gets(w, starts, loose, Merge(w, id, app, t));
  }

  lemma StopOfOnly(s: System, launch: Launch, port: Port)
    requires OneBundle(s.objects, launch, port) && NoWebrtcPorts(launch.template) && s.requests == map[]
    requires s.pool.Valid() && s.pool.busy == {port} && s.lent == map[launch.app := Lending(launch, port)]
    ensures var t := StopEnd(s, launch.app, None, false);
            t == s.(objects := map[], pool := s.pool.(busy := {}), lent := map[], destroyed := t.destroyed)
  {
    hide KeyOf, Build, StopSpec, HasBundle;
    FirstContainerPortIsFirst(launch.template.ports);
    StopOfBundle(StateOf(s), launch, port, false);
    RecoveredOfBundle(s.objects, launch, port);
    assert {port} - {port} == {};
    assert GiveBack(s.pool, port) == (s.pool.(busy := {}), None);
  }

  lemma RecoveredOfBundle(objects: Cluster, launch: Launch, port: Port)
    requires HasBundle(objects, launch, port) && NoWebrtcPorts(launch.template)
    ensures RecoveredPort(objects, launch.app, RELIABLE, false) == Some(port as int32)
  {
    hide KeyOf, Seen;
    FirstContainerPortIsFirst(launch.template.ports);
    FoundInBuiltDeployment(launch, port);
    assert Keys(launch.app)(Ingest) in objects;
    SeenBundle(objects, launch, port, Ingest);
  }

  // The first stop ends at last, and gives the port back a second time.
  lemma EndAmong(w: Crowd, id: nat, launch: Launch, other: Launch, port: Port, starts: set<Launch>, loose: set<App>)
    requires OneBundle(w.objects, other, port) && NoWebrtcPorts(launch.template) && launch.app != other.app
    requires w.pool.Valid() && w.pool.busy == {port} && w.lent == map[other.app := Lending(other, port)]
    requires w.flights == map[id := Flight(launch.app, Reader(Some(Build(launch, port, Ingest))))]
    ensures Gets(w, starts, loose, w.(pool := w.pool.(busy := {}), lent := map[], flights := map[]))
  {
    hide Reaches, Gets, Build, KeyOf, OneBundle;
    var app, s := launch.app, With(w, map[]);
    var dep := Some(Build(launch, port, Ingest));
    FirstContainerPortIsFirst(launch.template.ports);
    FoundInBuiltDeployment(launch, port);
    GoneForStranger(w.objects, other, port, app);
    LateStopEnds(s, app, dep);
    assert {port} - {port} == {};
    assert GiveBack(s.pool, port) == (s.pool.(busy := {}), None);
    assert map[][app := Reader(dep)] == map[app := Reader(dep)];
    assert View(w, id) == LeaseRuns.With(s, s.objects, app, Late(ALL_SLOTS, dep));
    var t := s.(pool := s.pool.(busy := {}), lent := map[]);
    assert LentAfter(s.lent, s.pool, DeploymentPort(dep)) == map[];
    Lift(w, id, app, {}, t, starts, loose);
    assert w.flights - {id} == map[];
  }

  lemma GoneForStranger(objects: Cluster, other: Launch, port: Port, app: App)
    requires OneBundle(objects, other, port) && app != other.app
    ensures AllGone(objects, app)
  {
    hide KeyOf, Build, OneBundle;
    forall x
      ensures FetchOwned(objects, Keys(app)(x), app.name, Works).None?
    {
      StrangerSeesNothing(objects, other, port, app, x);
      assert Seen(objects, app, RELIABLE, x) == FetchOwned(objects, Keys(app)(x), app.name, Works);
    }
    if Keys(app)(Ingest) in objects {
      OnlyOwnKeys(objects, other, port, Keys(app)(Ingest));
      var x :| Keys(app)(Ingest) == Keys(other.app)(x);
      DeploymentsDiffer(app, other.app, x);
    }
  }

  // Two stops of one app at once: both read the bundle, the first gives the port back, another app leases it, and the
  // second gives it back again. For every range, fleet and two launches of different apps, the other app's deployment
  // is left with a port that the pool counts as free.
  lemma PortGivenBackTwice(lo: Port, hi: Port, fleet: set<App>, loose: set<App>, launch: Launch,
                           other: Launch)
    requires Pool(lo, hi, {}).Valid() && launch.app != other.app && launch.app in loose
    requires NoWebrtcPorts(launch.template) && NoWebrtcPorts(other.template)
    ensures exists w ::
              && Gets(Alone(Pool(lo, hi, {}), fleet), {launch, other}, loose, w) && w.flights == map[]
              && Keys(other.app)(Ingest) in w.objects
              && DeploymentPort(Some(w.objects[Keys(other.app)(Ingest)])) == Some(lo as int32)
              && lo !in w.pool.busy && !SafeCrowd(w)
  {
    hide Gets, OneBundle, Build, Keys, SafeCrowd;
    var starts := {launch, other};
    var w0 := Alone(Pool(lo, hi, {}), fleet);
    StartAmong(w0, 0, launch, starts, loose);
    var w1 :| && Gets(w0, starts, loose, w1) && OneBundle(w1.objects, launch, lo)
              && w1 == w0.(objects := w1.objects, pool := Pool(lo, hi, {lo}),
                           lent := map[launch.app := Lending(launch, lo)]);
    ReadAmong(w1, 1, launch, lo, starts, loose);
    var reader := Flight(launch.app, Reader(Some(Build(launch, lo, Ingest))));
    var w2 := w1.(flights := w1.flights[1 := reader]);
    StopAmong(w2, 2, launch, lo, starts, loose);
    var w3 :| && Gets(w2, starts, loose, w3)
              && w3 == w2.(objects := map[], pool := Pool(lo, hi, {}), lent := map[], destroyed := w3.destroyed);
    StartAmong(w3, 3, other, starts, loose);
    var w4 :| && Gets(w3, starts, loose, w4) && OneBundle(w4.objects, other, lo)
              && w4 == w3.(objects := w4.objects, pool := Pool(lo, hi, {lo}),
                           lent := map[other.app := Lending(other, lo)]);
    EndAmong(w4, 1, launch, other, lo, starts, loose);
    var w5 := w4.(pool := Pool(lo, hi, {}), lent := map[], flights := map[]);
    GetsOn(w0, w1, w2, starts, loose);
    GetsOn(w0, w2, w3, starts, loose);
    GetsOn(w0, w3, w4, starts, loose);
    GetsOn(w0, w4, w5, starts, loose);
    DeploymentOfBundle(w5.objects, other, lo);
    LeftBehind(w5, other, lo);
  }

  lemma LeftBehind(w: Crowd, launch: Launch, port: Port)
    requires Keys(launch.app)(Ingest) in w.objects && w.objects[Keys(launch.app)(Ingest)] == Build(launch, port, Ingest)
    requires launch.app !in w.lent && NoWebrtcPorts(launch.template)
    ensures !SafeCrowd(w) && DeploymentPort(Some(w.objects[Keys(launch.app)(Ingest)])) == Some(port as int32)
  {
    hide Safe, Build, KeyOf;
    FirstContainerPortIsFirst(launch.template.ports);
    FoundInBuiltDeployment(launch, port);
    Unsafe(With(w, map[]), launch, port);
  }

  // ---------- Which apps may overlap ----------

  ghost predicate GoodActs(fleet: set<App>, acts: seq<Act>) {
    forall i :: 0 <= i < |acts| ==> GoodEvent(fleet, acts[i].event)
  }

  // An app that may overlap with itself is enough for an unsafe run.
  lemma LooseIsUnsafe(lo: Port, hi: Port, fleet: set<App>, loose: set<App>, app: App, other: App)
    requires Pool(lo, hi, {}).Valid() && app in loose && app in fleet && other in fleet && app != other
    ensures exists acts ::
              && GoodActs(fleet, acts) && AllInTurn(Alone(Pool(lo, hi, {}), fleet), acts, loose)
              && !SafeCrowd(RunAll(Alone(Pool(lo, hi, {}), fleet), acts))
  {
    hide SafeCrowd, AllInTurn, RunAll;
    var plain := IngestTemplate("plain", "ingest", []);
    var first, second := Launch(app, plain, ""), Launch(other, plain, "");
    var start := Alone(Pool(lo, hi, {}), fleet);
    PortGivenBackTwice(lo, hi, fleet, loose, first, second);
    var w :| Gets(start, {first, second}, loose, w) && !SafeCrowd(w);
    var acts :| StartsOnly(acts, {first, second}) && AllInTurn(start, acts, loose) && RunAll(start, acts) == w;
    assert GoodActs(fleet, acts);
  }

  // Which apps may have several requests in flight at once: none. In a fleet of at least two apps that do not collide,
  // with only the loose apps beginning out of turn, every run is safe exactly when there is no loose app.
  lemma OverlapExactly(lo: Port, hi: Port, fleet: set<App>, loose: set<App>)
    requires Pool(lo, hi, {}).Valid() && Apart(fleet) && loose <= fleet
    requires exists a, b :: a in fleet && b in fleet && a != b
    ensures (forall acts ::
               GoodActs(fleet, acts) && AllInTurn(Alone(Pool(lo, hi, {}), fleet), acts, loose) ==>
                 SafeCrowd(RunAll(Alone(Pool(lo, hi, {}), fleet), acts)))
            <==> loose == {}
  {
    hide SafeCrowd, AllInTurn, RunAll, Apart;
    if app :| app in loose {
      var a, b :| a in fleet && b in fleet && a != b;
      LooseIsUnsafe(lo, hi, fleet, loose, app, if app == a then b else a);
    } else {
      assert loose == {};
      forall acts | GoodActs(fleet, acts) && AllInTurn(Alone(Pool(lo, hi, {}), fleet), acts, loose)
        ensures SafeCrowd(RunAll(Alone(Pool(lo, hi, {}), fleet), acts))
      {
        InTurnIsSafe(lo, hi, fleet, acts);
      }
    }
  }
}
