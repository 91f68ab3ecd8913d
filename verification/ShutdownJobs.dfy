/** The shutdown of the operator: every registered job runs at the same time, and a template that was reconciled several
    times has several. A job lists the deployments of its template once, and then stops and deletes them one by one. */
module ShutdownJobs {
  import opened Wrappers
  import opened PortRanges
  import opened IngestResources
  import opened IngestSystems
  import opened LeaseProtocol
  import opened Overlaps
  import opened Shutdowns
  import opened StopCrowds
  import IngestFailures
  import IngestServices
  import LeaseRuns

  // The deployments still to be stopped, each with the app that its labels name.
  datatype Job =
    | Unlisted
    | Between(items: map<Key, App>)
    | Awaiting(key: Key, app: App, items: map<Key, App>)
    | Removing(key: Key, app: App, items: map<Key, App>)

  // The stop that a job awaits is in flight under the job's id. `begun` and `sent` are history.
  datatype Drain = Drain(crowd: Crowd, registered: map<nat, string>, jobs: map<nat, Job>, begun: set<App>,
                         sent: seq<App>)

  datatype Move =
    | List(id: nat)
    | Take(id: nat, key: Key)
    | Call(id: nat, event: Event)
    | Return(id: nat)
    | Remove(id: nat)

  function Begin(home: System, registered: map<nat, string>): Drain {
    Drain(CrowdOf(home), registered, map id | id in registered :: Unlisted, {}, [])
  }

  function Items(objects: Cluster, template: string): map<Key, App> {
    map k | k in Listing(objects, template) :: App(k.namespace, LabelOf(objects[k], OWNED_BY))
  }

  function Acted(d: Drain, act: Act): Drain
    requires d.crowd.pool.Valid()
  {
    d.(crowd := Perform(d.crowd, act), begun := d.begun + BegunBy(d.crowd, act), sent := d.sent + SentBy(d.crowd, act))
  }

  function With(d: Drain, id: nat, job: Job): Drain {
    d.(jobs := d.jobs[id := job])
  }

  // One step of one job, or one call of the stop that it awaits; a move that is not enabled changes nothing.
  function Go(d: Drain, m: Move): (e: Drain)
    requires d.crowd.pool.Valid()
    ensures e.crowd.pool.Valid() && e.registered == d.registered && e.jobs.Keys == d.jobs.Keys
  {
    if m.id !in d.jobs then d
    else
      var job := d.jobs[m.id];
      match m
      case List(id) =>
        if job.Unlisted? && id in d.registered then
          With(d, id, Between(Items(d.crowd.objects, d.registered[id])))
        else d
      case Take(id, key) =>
        if job.Between? && key in job.items then
          With(Acted(d, Act(id, BeginStop(job.items[key]))), id, Awaiting(key, job.items[key], job.items - {key}))
        else d
      case Call(id, event) =>
        if job.Awaiting? && AppOf(event) == job.app && !Begins(event) then Acted(d, Act(id, event)) else d
      case Return(id) =>
        if job.Awaiting? && id !in d.crowd.flights then With(d, id, Removing(job.key, job.app, job.items)) else d
      case Remove(id) =>
        if job.Removing? then
          With(d.(crowd := d.crowd.(objects := d.crowd.objects - {job.key})), id, Between(job.items))
        else d
  }

  function GoAll(d: Drain, moves: seq<Move>): Drain
    requires d.crowd.pool.Valid()
    decreases |moves|
  {
    if moves == [] then d else GoAll(Go(d, moves[0]), moves[1..])
  }

  predicate Done(d: Drain) {
    forall id :: id in d.jobs ==> d.jobs[id] == Between(map[])
  }

  // ---------- The invariant ----------

  ghost predicate GoodItem(home: System, template: string, key: Key, app: App) {
    LentFor(home.lent, app, template) && key == Keys(app)(Ingest)
  }

  ghost predicate GoodItems(home: System, template: string, items: map<Key, App>) {
    forall k :: k in items ==> GoodItem(home, template, k, items[k])
  }

  // Every lent app of the template has been begun or is still to be stopped.
  ghost predicate Covers(home: System, template: string, items: map<Key, App>, begun: set<App>) {
    forall a :: LentFor(home.lent, a, template) ==> a in begun || Keys(a)(Ingest) in items
  }

  ghost predicate JobInv(home: System, w: Crowd, begun: set<App>, template: string, id: nat, job: Job) {
    && (id in w.flights ==> job.Awaiting? && w.flights[id].app == job.app)
    && (!job.Unlisted? ==> GoodItems(home, template, job.items) && Covers(home, template, job.items, begun))
    && (job.Awaiting? || job.Removing? ==> GoodItem(home, template, job.key, job.app))
    && ((job.Awaiting? && id !in w.flights) || job.Removing? ==> job.key !in w.objects)
  }

  ghost predicate DrainInv(home: System, d: Drain) {
    && Drains(home, d.crowd, d.begun, d.sent)
    && d.jobs.Keys == d.registered.Keys && d.crowd.flights.Keys <= d.jobs.Keys
    && forall id :: id in d.jobs ==> JobInv(home, d.crowd, d.begun, d.registered[id], id, d.jobs[id])
  }

  lemma BeginHolds(home: System, registered: map<nat, string>)
    requires AtHome(home)
    ensures DrainInv(home, Begin(home, registered)) && home.pool.Valid()
  {
    hide AtHome, Drains;
    HomeDrains(home);
    DrainsAreValid(home, CrowdOf(home), {}, []);
  }

  lemma DrainsAreValid(home: System, w: Crowd, begun: set<App>, sent: seq<App>)
    requires Drains(home, w, begun, sent)
    ensures w.pool.Valid()
  {
  }

  // What the listing finds: the deployments, still there, of the apps lent a port for the template.
  lemma ItemsAreGood(home: System, w: Crowd, begun: set<App>, sent: seq<App>, template: string)
    requires AtHome(home) && Drains(home, w, begun, sent)
    ensures GoodItems(home, template, Items(w.objects, template))
            && Covers(home, template, Items(w.objects, template), begun)
  {
    hide Inv, Keys, Build, Flights, Held, Told;
    forall k | k in Items(w.objects, template)
      ensures GoodItem(home, template, k, Items(w.objects, template)[k])
    {
      ListedAreLent(home, k, template);
    }
    forall a | LentFor(home.lent, a, template)
      ensures a in begun || Keys(a)(Ingest) in Items(w.objects, template)
    {
      DeploymentKey(a);
      ListedAreLent(home, Keys(a)(Ingest), template);
    }
  }

  // One job's step, with another job's part unchanged: fewer objects and more apps begun do no harm.
  lemma JobStays(home: System, w: Crowd, v: Crowd, begun: set<App>, more: set<App>, template: string, id: nat, job: Job)
    requires JobInv(home, w, begun, template, id, job) && begun <= more
    requires forall k :: k in v.objects ==> k in w.objects
    requires id in v.flights <==> id in w.flights
    requires id in w.flights ==> v.flights[id].app == w.flights[id].app
    ensures JobInv(home, v, more, template, id, job)
  {
    hide Keys;
  }

  lemma JobsKeep(home: System, d: Drain, e: Drain, id: nat)
    requires DrainInv(home, d) && id in d.jobs && e.registered == d.registered && e.jobs.Keys == d.jobs.Keys
    requires Drains(home, e.crowd, e.begun, e.sent) && d.begun <= e.begun
    requires forall k :: k in e.crowd.objects ==> k in d.crowd.objects
    requires forall i :: i != id ==> (i in e.crowd.flights <==> i in d.crowd.flights)
    requires forall i :: i != id && i in d.crowd.flights ==> e.crowd.flights[i] == d.crowd.flights[i]
    requires forall i :: i != id && i in d.jobs ==> e.jobs[i] == d.jobs[i]
    requires JobInv(home, e.crowd, e.begun, e.registered[id], id, e.jobs[id])
    ensures DrainInv(home, e)
  {
    hide Drains, JobInv;
    forall i | i in e.jobs
      ensures JobInv(home, e.crowd, e.begun, e.registered[i], i, e.jobs[i])
    {
      if i != id {
        JobStays(home, d.crowd, e.crowd, d.begun, e.begun, d.registered[i], i, d.jobs[i]);
      }
    }
  }

  // One act of one id leaves the other flights, and adds no object; the flight that it ends has no object left.
  lemma ActFrame(home: System, w: Crowd, begun: set<App>, sent: seq<App>, act: Act)
    requires AtHome(home) && Drains(home, w, begun, sent) && !act.event.BeginStart? && w.pool.Valid()
    ensures var v := Perform(w, act);
            && (forall k :: k in v.objects ==> k in w.objects)
            && (forall i :: i != act.id ==> (i in v.flights <==> i in w.flights))
            && (forall i :: i != act.id && i in w.flights ==> v.flights[i] == w.flights[i])
            && (act.id in w.flights && act.id in v.flights ==> v.flights[act.id].app == w.flights[act.id].app)
            && (act.id !in w.flights && !Begins(act.event) ==> act.id !in v.flights)
            && (act.id in w.flights && act.id !in v.flights && w.flights[act.id].app in home.lent ==>
                  Gone(v, w.flights[act.id].app))
  {
    hide AtHome, Left, Begun, Held, Told, Keys, FetchOwned, DeploymentPort, ServicePortOf, BroadcasterOf,
         GiveBack, Unlend, Build;
    StopsOnly(home, w);
    PerformIsStopAct(w, act);
    if act.id in w.flights {
      assert StopInv(home, w, w.flights[act.id]);
    }
  }

  lemma ListKeeps(home: System, d: Drain, id: nat)
    requires AtHome(home) && DrainInv(home, d) && id in d.jobs && d.jobs[id].Unlisted?
    ensures DrainInv(home, With(d, id, Between(Items(d.crowd.objects, d.registered[id]))))
  {
    hide AtHome, Drains, Items;
    ItemsAreGood(home, d.crowd, d.begun, d.sent, d.registered[id]);
    JobsKeep(home, d, With(d, id, Between(Items(d.crowd.objects, d.registered[id]))), id);
  }

  lemma TakeKeeps(home: System, d: Drain, id: nat, key: Key)
    requires AtHome(home) && DrainInv(home, d) && d.crowd.pool.Valid()
    requires id in d.jobs && d.jobs[id].Between? && key in d.jobs[id].items
    ensures DrainInv(home, Go(d, Take(id, key)))
  {
    hide AtHome, Drains, Keys, Perform;
    var job, app := d.jobs[id], d.jobs[id].items[key];
    var act := Act(id, BeginStop(app));
    assert JobInv(home, d.crowd, d.begun, d.registered[id], id, job);
    ActKeeps(home, d.crowd, d.begun, d.sent, act);
    ActFrame(home, d.crowd, d.begun, d.sent, act);
    TakenFlies(d.crowd, id, app);
    var e := Go(d, Take(id, key));
    TakenCovers(home, d.registered[id], job.items, key, app, d.begun);
    JobsKeep(home, d, e, id);
  }

  lemma TakenFlies(w: Crowd, id: nat, app: App)
    requires w.pool.Valid() && id !in w.flights
    ensures var v := Perform(w, Act(id, BeginStop(app)));
            id in v.flights && v.flights[id].app == app
  {
  }

  lemma TakenCovers(home: System, template: string, items: map<Key, App>, key: Key, app: App, begun: set<App>)
    requires GoodItems(home, template, items) && Covers(home, template, items, begun)
    requires key in items && items[key] == app
    ensures GoodItems(home, template, items - {key}) && Covers(home, template, items - {key}, begun + {app})
  {
    hide LentFor;
    forall a | LentFor(home.lent, a, template)
      ensures a in begun + {app} || Keys(a)(Ingest) in items - {key}
    {
      if Keys(a)(Ingest) == key {
        assert GoodItem(home, template, key, app);
        DeploymentKey(a);
        DeploymentKey(app);
      }
    }
  }

  lemma CallKeeps(home: System, d: Drain, id: nat, event: Event)
    requires AtHome(home) && DrainInv(home, d) && d.crowd.pool.Valid()
    requires id in d.jobs && d.jobs[id].Awaiting? && AppOf(event) == d.jobs[id].app && !Begins(event)
    ensures DrainInv(home, Acted(d, Act(id, event)))
  {
    hide AtHome, Drains, Keys, Perform;
    var job, act := d.jobs[id], Act(id, event);
    assert JobInv(home, d.crowd, d.begun, d.registered[id], id, job);
    ActKeeps(home, d.crowd, d.begun, d.sent, act);
    ActFrame(home, d.crowd, d.begun, d.sent, act);
    assert d.begun + {} == d.begun;
    JobsKeep(home, d, Acted(d, act), id);
  }

  lemma ReturnKeeps(home: System, d: Drain, id: nat)
    requires DrainInv(home, d) && id in d.jobs && d.jobs[id].Awaiting? && id !in d.crowd.flights
    ensures DrainInv(home, With(d, id, Removing(d.jobs[id].key, d.jobs[id].app, d.jobs[id].items)))
  {
    hide Drains, Keys;
    assert JobInv(home, d.crowd, d.begun, d.registered[id], id, d.jobs[id]);
    JobsKeep(home, d, With(d, id, Removing(d.jobs[id].key, d.jobs[id].app, d.jobs[id].items)), id);
  }

  // The delete after a stop finds the deployment gone.
  lemma RemoveKeeps(home: System, d: Drain, id: nat)
    requires DrainInv(home, d) && id in d.jobs && d.jobs[id].Removing?
    ensures d.crowd.(objects := d.crowd.objects - {d.jobs[id].key}) == d.crowd
    ensures DrainInv(home, With(d, id, Between(d.jobs[id].items)))
  {
    hide Drains, Keys;
    assert JobInv(home, d.crowd, d.begun, d.registered[id], id, d.jobs[id]);
    assert d.crowd.objects - {d.jobs[id].key} == d.crowd.objects;
    JobsKeep(home, d, With(d, id, Between(d.jobs[id].items)), id);
  }

  lemma GoKeeps(home: System, d: Drain, m: Move)
    requires AtHome(home) && DrainInv(home, d) && d.crowd.pool.Valid()
    ensures DrainInv(home, Go(d, m))
  {
    hide AtHome, DrainInv, Perform, Items;
    if m.id in d.jobs {
      var job := d.jobs[m.id];
      match m
      case List(id) => if job.Unlisted? && id in d.registered { ListKeeps(home, d, id); }
      case Take(id, key) => if job.Between? && key in job.items { TakeKeeps(home, d, id, key); }
      case Call(id, event) =>
        if job.Awaiting? && AppOf(event) == job.app && !Begins(event) { CallKeeps(home, d, id, event); }
      case Return(id) => if job.Awaiting? && id !in d.crowd.flights { ReturnKeeps(home, d, id); }
      case Remove(id) => if job.Removing? { RemoveKeeps(home, d, id); }
    }
  }

  lemma {:induction false} GoAllKeeps(home: System, d: Drain, moves: seq<Move>)
    requires AtHome(home) && DrainInv(home, d) && d.crowd.pool.Valid()
    ensures GoAll(d, moves).crowd.pool.Valid() && GoAll(d, moves).registered == d.registered
    ensures DrainInv(home, GoAll(d, moves))
    decreases |moves|
  {
    hide AtHome, DrainInv, Go;
    if moves != [] {
      GoKeeps(home, d, moves[0]);
      GoAllKeeps(home, Go(d, moves[0]), moves[1..]);
    }
  }

  // ---------- Draining is complete ----------

  // Every template that some app was started from has a job.
  ghost predicate Registers(home: System, registered: map<nat, string>) {
    forall a :: a in home.lent ==> exists id :: id in registered && registered[id] == home.lent[a].launch.template.name
  }

  lemma DoneCovers(home: System, d: Drain)
    requires DrainInv(home, d) && Registers(home, d.registered) && Done(d)
    ensures d.crowd.flights == map[] && home.lent.Keys <= d.begun
  {
    hide Drains, Keys;
    forall id | id in d.crowd.flights
      ensures !d.jobs[id].Between?
    {
      assert JobInv(home, d.crowd, d.begun, d.registered[id], id, d.jobs[id]);
    }
    forall a | a in home.lent
      ensures a in d.begun
    {
      var template := home.lent[a].launch.template.name;
      var id :| id in d.registered && d.registered[id] == template;
      assert JobInv(home, d.crowd, d.begun, template, id, d.jobs[id]);
      assert LentFor(home.lent, a, template);
    }
  }

  // From any state at rest, with any number of jobs a template and in every interleaving of all of them: once all jobs
  // are done, no object is left in the cluster and no port is busy, and the messages sent are those of leases with a
  // broadcaster id, none of them twice.
  lemma DrainIsComplete(home: System, registered: map<nat, string>, moves: seq<Move>)
    requires AtHome(home) && Registers(home, registered)
    ensures home.pool.Valid()
    ensures var d := GoAll(Begin(home, registered), moves);
            Done(d) ==>
              && d.crowd.objects == map[] && d.crowd.pool.busy == {} && d.crowd.lent == map[]
              && d.crowd.destroyed == home.destroyed + Messages(d.sent, home.lent)
              && (forall i, j :: 0 <= i < j < |d.sent| ==> d.sent[i] != d.sent[j])
              && (forall a :: a in d.sent ==> a in home.lent && home.lent[a].launch.broadcasterID != "")
  {
    hide AtHome, Registers, GoAll, Messages, Left, Flights, StopCrowds.Begun, Held, JobInv;
    BeginHolds(home, registered);
    GoAllKeeps(home, Begin(home, registered), moves);
    var d := GoAll(Begin(home, registered), moves);
    if Done(d) {
      DoneCovers(home, d);
      DrainsToNothing(home, d.crowd, d.begun, d.sent);
    }
  }

  // ---------- Every drain can end ----------

  function Phase(job: Job): nat {
    match job
    case Unlisted => 3
    case Awaiting(_, _, _) => 2
    case Removing(_, _, _) => 1
    case Between(_) => 0
  }

  // What is left to do of a job: its listing, its deployments, and the call it is in.
  function Remaining(job: Job): nat {
    if job.Unlisted? then 0 else |job.items|
  }

  function CallsLeft(d: Drain, id: nat): nat {
    if id in d.crowd.flights then Work(d.crowd.flights[id].request) else 0
  }

  ghost predicate Shorter(d: Drain, e: Drain, id: nat)
    requires id in d.jobs && id in e.jobs
  {
    var job, next := d.jobs[id], e.jobs[id];
    || (job.Unlisted? && !next.Unlisted?)
    || (!job.Unlisted? && !next.Unlisted?
        && (Remaining(next) < Remaining(job)
            || (Remaining(next) == Remaining(job)
                && (Phase(next) < Phase(job) || (Phase(next) == Phase(job) && CallsLeft(e, id) < CallsLeft(d, id))))))
  }

  // The next call of a stop in flight.
  lemma NextCall(home: System, w: Crowd, id: nat)
    requires w.pool.Valid() && Flights(home, w) && id in w.flights
    ensures exists e ::
              && AppOf(e) == w.flights[id].app && !Begins(e)
              && var v := Perform(w, Act(id, e));
                 (if id in v.flights then Work(v.flights[id].request) else 0) < Work(w.flights[id].request)
  {
    hide Keys, FetchOwned, GiveBack, Unlend, DeploymentPort, ServicePortOf, BroadcasterOf, Perform;
    var f := w.flights[id];
    var app, r := f.app, f.request;
    assert StopInv(home, w, f);
    StopsOnly(home, w);
    var e: Event;
    if r.Publishing? {
      e := Publish(app);
    } else if r.running == {} {
      e := Join(app, false);
    } else {
      var slot :| slot in r.running;
      e := Goroutine(app, slot);
      assert slot !in r.unread ==> r.unread - {slot} == r.unread;
    }
    PerformIsStopAct(w, Act(id, e));
    assert AppOf(e) == app && !Begins(e);
  }

  lemma NextMove(home: System, d: Drain, id: nat)
    requires AtHome(home) && DrainInv(home, d) && d.crowd.pool.Valid()
    requires id in d.jobs && d.jobs[id] != Between(map[])
    ensures exists m: Move :: m.id == id && Shorter(d, Go(d, m), id)
  {
    hide AtHome, Left, StopCrowds.Begun, Held, Told, Perform, Items, Work, StopInv, LentFor, Keys;
    var job := d.jobs[id];
    assert JobInv(home, d.crowd, d.begun, d.registered[id], id, job);
    var m: Move;
    match job {
      case Unlisted => m := List(id);
      case Between(items) =>
        var key :| key in items;
        m := Take(id, key);
        assert (items - {key}).Keys == items.Keys - {key};
        assert |items - {key}| == |(items - {key}).Keys| && |items| == |items.Keys|;
      case Removing(_, _, _) => m := Remove(id);
      case Awaiting(_, app, _) =>
        if id in d.crowd.flights {
          NextCall(home, d.crowd, id);
          var e :| && AppOf(e) == app && !Begins(e)
                   && var v := Perform(d.crowd, Act(id, e));
                      (if id in v.flights then Work(v.flights[id].request) else 0) < Work(d.crowd.flights[id].request);
          m := Call(id, e);
        } else {
          m := Return(id);
        }
    }
    assert m.id == id && Shorter(d, Go(d, m), id);
  }

  lemma OthersWait(d: Drain, m: Move)
    requires d.crowd.pool.Valid()
    ensures forall i :: i in d.jobs && i != m.id ==> Go(d, m).jobs[i] == d.jobs[i]
  {
    hide Perform, Items;
  }

  ghost predicate Leads(d: Drain, e: Drain)
    requires d.crowd.pool.Valid()
  {
    exists moves :: GoAll(d, moves) == e
  }

  lemma LeadsOn(d: Drain, m: Move, e: Drain)
    requires d.crowd.pool.Valid() && Leads(Go(d, m), e)
    ensures Leads(d, e)
  {
    hide Go;
    var moves :| GoAll(Go(d, m), moves) == e;
    assert ([m] + moves)[1..] == moves;
    assert GoAll(d, [m] + moves) == e;
  }

  lemma {:induction false} GoAllAppend(d: Drain, first: seq<Move>, second: seq<Move>)
    requires d.crowd.pool.Valid()
    ensures GoAll(d, first).crowd.pool.Valid() && GoAll(d, first + second) == GoAll(GoAll(d, first), second)
    decreases |first|
  {
    hide Go;
    if first == [] {
      assert first + second == second;
    } else {
      assert (first + second)[1..] == first[1..] + second;
      GoAllAppend(Go(d, first[0]), first[1..], second);
    }
  }

  lemma {:induction false} JobCanFinish(home: System, d: Drain, id: nat)
    requires AtHome(home) && DrainInv(home, d) && d.crowd.pool.Valid() && id in d.jobs
    ensures exists e ::
              && Leads(d, e) && DrainInv(home, e) && e.crowd.pool.Valid()
              && e.jobs == d.jobs[id := Between(map[])]
    decreases if d.jobs[id].Unlisted? then 1 else 0, Remaining(d.jobs[id]), Phase(d.jobs[id]), CallsLeft(d, id)
  {
    hide AtHome, DrainInv, Go, Leads;
    if d.jobs[id] == Between(map[]) {
      LeadsNowhere(d);
      assert d.jobs == d.jobs[id := Between(map[])];
    } else {
      NextMove(home, d, id);
      var m: Move :| m.id == id && Shorter(d, Go(d, m), id);
      var next := Go(d, m);
      GoKeeps(home, d, m);
      OthersWait(d, m);
      JobCanFinish(home, next, id);
      var e :| && Leads(next, e) && DrainInv(home, e) && e.crowd.pool.Valid()
               && e.jobs == next.jobs[id := Between(map[])];
      LeadsOn(d, m, e);
      assert e.jobs == d.jobs[id := Between(map[])];
    }
  }

  lemma LeadsNowhere(d: Drain)
    requires d.crowd.pool.Valid()
    ensures Leads(d, d)
  {
    assert GoAll(d, []) == d;
  }

  lemma LeadsThrough(d: Drain, e: Drain, f: Drain)
    requires d.crowd.pool.Valid() && e.crowd.pool.Valid() && Leads(d, e) && Leads(e, f)
    ensures Leads(d, f)
  {
    hide GoAll;
    var first :| GoAll(d, first) == e;
    var second :| GoAll(e, second) == f;
    GoAllAppend(d, first, second);
  }

  lemma {:induction false} DrainCanEnd(home: System, d: Drain, todo: set<nat>)
    requires AtHome(home) && DrainInv(home, d) && d.crowd.pool.Valid()
    requires forall id :: id in d.jobs && d.jobs[id] != Between(map[]) ==> id in todo
    ensures exists e :: Leads(d, e) && Done(e)
    decreases todo
  {
    hide AtHome, DrainInv, Leads;
    if Done(d) {
      LeadsNowhere(d);
    } else {
      var id :| id in d.jobs && d.jobs[id] != Between(map[]);
      JobCanFinish(home, d, id);
      var e :| && Leads(d, e) && DrainInv(home, e) && e.crowd.pool.Valid() && e.jobs == d.jobs[id := Between(map[])];
      DrainCanEnd(home, e, todo - {id});
      var f :| Leads(e, f) && Done(f);
      LeadsThrough(d, e, f);
    }
  }

  // Whatever has happened so far, the jobs can all be done.
  lemma EveryDrainCanEnd(home: System, registered: map<nat, string>, moves: seq<Move>)
    requires AtHome(home)
    ensures home.pool.Valid()
    ensures exists more :: Done(GoAll(Begin(home, registered), moves + more))
  {
    hide AtHome, GoAll, DrainInv, Done;
    var start := Begin(home, registered);
    BeginHolds(home, registered);
    GoAllKeeps(home, start, moves);
    var d := GoAll(start, moves);
    DrainCanEnd(home, d, d.jobs.Keys);
    var e :| Leads(d, e) && Done(e);
    var more :| GoAll(d, more) == e;
    GoAllAppend(start, moves, more);
  }

  // ---------- Which messages are sent ----------

  ghost predicate HasId(home: System, app: App) {
    app in home.lent && home.lent[app].launch.broadcasterID != ""
  }

  ghost predicate OneJob(registered: map<nat, string>, template: string) {
    forall i, j :: i in registered && j in registered && registered[i] == template && registered[j] == template
        ==> i == j
  }

  // The stops of an app whose template has one job take turns.
  lemma OneJobIsSingle(home: System, d: Drain, app: App)
    requires DrainInv(home, d) && app in home.lent && OneJob(d.registered, home.lent[app].launch.template.name)
    ensures Single(d.crowd, app)
  {
    hide Drains, Keys;
    forall i | Flies(d.crowd, i, app)
      ensures i in d.registered && d.registered[i] == home.lent[app].launch.template.name
    {
      assert JobInv(home, d.crowd, d.begun, d.registered[i], i, d.jobs[i]);
    }
  }

  lemma GoRegular(home: System, d: Drain, m: Move, app: App)
    requires AtHome(home) && DrainInv(home, d) && d.crowd.pool.Valid() && HasId(home, app)
    requires OneJob(d.registered, home.lent[app].launch.template.name) && Regular(d.crowd, app, d.sent)
    ensures Regular(Go(d, m).crowd, app, Go(d, m).sent)
  {
    hide AtHome, Drains, JobInv, Perform, Items, Regular, Single, OneJob;
    GoKeeps(home, d, m);
    OneJobIsSingle(home, d, app);
    OneJobIsSingle(home, Go(d, m), app);
    if m.id in d.jobs {
      var job := d.jobs[m.id];
      match m
      case Take(id, key) =>
        if job.Between? && key in job.items {
          ActRegular(home, d.crowd, d.begun, d.sent, Act(id, BeginStop(job.items[key])), app);
        }
      case Call(id, event) =>
        if job.Awaiting? && AppOf(event) == job.app && !Begins(event) {
          ActRegular(home, d.crowd, d.begun, d.sent, Act(id, event), app);
        }
      case Remove(id) => if job.Removing? { RemoveKeeps(home, d, id); }
      case _ =>
    }
  }

  lemma {:induction false} GoAllRegular(home: System, d: Drain, moves: seq<Move>, app: App)
    requires AtHome(home) && DrainInv(home, d) && d.crowd.pool.Valid() && HasId(home, app)
    requires OneJob(d.registered, home.lent[app].launch.template.name) && Regular(d.crowd, app, d.sent)
    ensures Regular(GoAll(d, moves).crowd, app, GoAll(d, moves).sent)
    decreases |moves|
  {
    hide AtHome, DrainInv, Go, Regular, OneJob;
    if moves != [] {
      GoKeeps(home, d, moves[0]);
      GoRegular(home, d, moves[0], app);
      GoAllRegular(home, Go(d, moves[0]), moves[1..], app);
    }
  }

  lemma GoSilenced(home: System, d: Drain, m: Move, app: App)
    requires AtHome(home) && DrainInv(home, d) && d.crowd.pool.Valid() && Silenced(d.crowd, app, d.sent)
    ensures Silenced(Go(d, m).crowd, app, Go(d, m).sent)
  {
    hide AtHome, Drains, JobInv, Perform, Items, Silenced;
    if m.id in d.jobs {
      var job := d.jobs[m.id];
      match m
      case Take(id, key) =>
        if job.Between? && key in job.items {
          ActSilenced(home, d.crowd, d.begun, d.sent, Act(id, BeginStop(job.items[key])), app);
        }
      case Call(id, event) =>
        if job.Awaiting? && AppOf(event) == job.app && !Begins(event) {
          ActSilenced(home, d.crowd, d.begun, d.sent, Act(id, event), app);
        }
      case Remove(id) => if job.Removing? { RemoveKeeps(home, d, id); }
      case _ =>
    }
  }

  lemma {:induction false} GoAllSilenced(home: System, d: Drain, moves: seq<Move>, app: App)
    requires AtHome(home) && DrainInv(home, d) && d.crowd.pool.Valid() && Silenced(d.crowd, app, d.sent)
    ensures Silenced(GoAll(d, moves).crowd, app, GoAll(d, moves).sent)
    decreases |moves|
  {
    hide AtHome, DrainInv, Go, Silenced;
    if moves != [] {
      GoKeeps(home, d, moves[0]);
      GoSilenced(home, d, moves[0], app);
      GoAllSilenced(home, Go(d, moves[0]), moves[1..], app);
    }
  }

  // Every lease with a broadcaster id has sent its message.
  ghost predicate AllTold(home: System, sent: seq<App>) {
    forall a :: HasId(home, a) ==> a in sent
  }

  lemma OneJobTells(home: System, registered: map<nat, string>, moves: seq<Move>, app: App)
    requires AtHome(home) && Registers(home, registered) && HasId(home, app) && home.pool.Valid()
    requires OneJob(registered, home.lent[app].launch.template.name) && Done(GoAll(Begin(home, registered), moves))
    ensures app in GoAll(Begin(home, registered), moves).sent
  {
    hide AtHome, Registers, GoAll, OneJob, DrainInv, Done, Messages;
    var start := Begin(home, registered);
    BeginHolds(home, registered);
    HomeIsRegular(home, app);
    GoAllRegular(home, start, moves, app);
    DrainIsComplete(home, registered, moves);
    GoAllKeeps(home, start, moves);
    DoneCovers(home, GoAll(start, moves));
  }

  // ---------- Two jobs that spoil each other ----------

  // One stop reads and deletes one object.
  lemma TakesOne(home: System, w: Crowd, id: nat, slot: Slot)
    requires AtHome(home) && Left(home, w) && w.pool.Valid() && OnlyStops(w) && id in w.flights
    requires w.flights[id].request == FIRST && w.flights[id].app in home.lent
    requires Keys(w.flights[id].app)(slot) in w.objects
    ensures var app := w.flights[id].app;
            var v := Perform(Perform(w, Act(id, Goroutine(app, slot))), Act(id, Goroutine(app, slot)));
            && v.objects == w.objects - {Keys(app)(slot)} && v.pool.Valid() && OnlyStops(v) && Left(home, v)
            && v.flights.Keys == w.flights.Keys
               && (forall i :: i in w.flights && i != id ==> v.flights[i] == w.flights[i])
            && v.flights[id].app == app && v.flights[id].request.Stopping?
            && v.flights[id].request.running == v.flights[id].request.unread == ALL_SLOTS - {slot}
            && (slot != Ingest ==> v.flights[id].request.dep.None?)
  {
    hide AtHome, Left, Keys, Build, FetchOwned, Perform;
    var app := w.flights[id].app;
    EverySlot();
    ReadFinds(home, w, app, slot);
    PerformIsStopAct(w, Act(id, Goroutine(app, slot)));
    var w1 := Reads(w, id, slot);
    PerformIsStopAct(w1, Act(id, Goroutine(app, slot)));
    var v := Deletes(w1, id, slot);
    FewerLeft(home, w, w.(objects := v.objects), Keys(app)(slot));
    LeftIgnores(home, w.(objects := v.objects), v);
  }

  // One stop deletes the deployment, the other one the headless service, and neither finds the object that the other
  // has deleted.
  lemma SpoiledReads(home: System, w: Crowd, i: nat, j: nat, app: App)
    requires AtHome(home) && Left(home, w) && app in home.lent && i != j && w.pool.Valid()
    requires w.objects == home.objects && w.flights == map[i := Flight(app, FIRST), j := Flight(app, FIRST)]
    ensures var w1 := Perform(w, Act(i, Goroutine(app, Ingest)));
            var w2 := Perform(w1, Act(i, Goroutine(app, Ingest)));
            var w3 := Perform(w2, Act(j, Goroutine(app, Headless)));
            var w4 := Perform(w3, Act(j, Goroutine(app, Headless)));
            var w5 := Perform(w4, Act(i, Goroutine(app, Headless)));
            Silenced(w5, app, [])
  {
    hide AtHome, Left, Keys, Build, FetchOwned, Perform, Silenced;
    HomeObject(home, app, Ingest);
    HomeObject(home, app, Headless);
    KeysDiffer(app);
    TakesOne(home, w, i, Ingest);
    var w2 := Perform(Perform(w, Act(i, Goroutine(app, Ingest))), Act(i, Goroutine(app, Ingest)));
    TakesOne(home, w2, j, Headless);
    var w4 := Perform(Perform(w2, Act(j, Goroutine(app, Headless))), Act(j, Goroutine(app, Headless)));
    EverySlot();
    LastRead(w4, i, j, app);
  }

  lemma LastRead(w: Crowd, i: nat, j: nat, app: App)
    requires w.pool.Valid() && OnlyStops(w) && w.flights.Keys == {i, j} && i != j
    requires w.flights[i].app == app && w.flights[i].request.Stopping?
             && w.flights[i].request.unread == ALL_SLOTS - {Ingest}
    requires w.flights[i].request.running == ALL_SLOTS - {Ingest}
    requires w.flights[j].request.Stopping? && w.flights[j].request.dep.None?
    requires Keys(app)(Ingest) !in w.objects && Keys(app)(Headless) !in w.objects
    ensures Silenced(Perform(w, Act(i, Goroutine(app, Headless))), app, [])
  {
    hide Keys, FetchOwned, Perform;
    PerformIsStopAct(w, Act(i, Goroutine(app, Headless)));
    NothingToRead(w.objects, Keys(app)(Headless), app.name);
    assert Headless in ALL_SLOTS - {Ingest};
    assert Perform(w, Act(i, Goroutine(app, Headless))) == Reads(w, i, Headless);
  }

  lemma KeysDiffer(app: App)
    ensures Keys(app)(Ingest) != Keys(app)(Headless)
  {
  }

  lemma NothingToRead(objects: Cluster, key: Key, owner: string)
    requires key !in objects
    ensures FetchOwned(objects, key, owner, Works).None?
  {
  }

  // The two jobs list and take the deployment, and then make those calls.
  lemma SpoiledRun(home: System, registered: map<nat, string>, i: nat, j: nat, app: App)
    requires AtHome(home) && home.pool.Valid() && app in home.lent && i != j
    requires i in registered && registered[i] == home.lent[app].launch.template.name
    requires j in registered && registered[j] == home.lent[app].launch.template.name
    ensures exists moves ::
              var d := GoAll(Begin(home, registered), moves);
              Silenced(d.crowd, app, d.sent)
  {
    hide AtHome, Left, Silenced, Perform, GoAll, Items;
    var start := Begin(home, registered);
    var d := TakenByBoth(home, registered, i, j, app);
    var first, second := Goroutine(app, Ingest), Goroutine(app, Headless);
    CallIs(d, i, app, first);
    var d1 := Go(d, Call(i, first));
    CallIs(d1, i, app, first);
    var d2 := Go(d1, Call(i, first));
    CallIs(d2, j, app, second);
    var d3 := Go(d2, Call(j, second));
    CallIs(d3, j, app, second);
    var d4 := Go(d3, Call(j, second));
    CallIs(d4, i, app, second);
    var d5 := Go(d4, Call(i, second));
    HomeIsLeft(home, d.crowd);
    SpoiledReads(home, d.crowd, i, j, app);
    LeadsNowhere(d5);
    LeadsOn(d4, Call(i, second), d5);
    LeadsOn(d3, Call(j, second), d5);
    LeadsOn(d2, Call(j, second), d5);
    LeadsOn(d1, Call(i, first), d5);
    LeadsOn(d, Call(i, first), d5);
    LeadsThrough(start, d, d5);
    var moves :| GoAll(start, moves) == d5;
  }

  lemma HomeIsLeft(home: System, w: Crowd)
    requires AtHome(home) && w == CrowdOf(home).(flights := w.flights)
    ensures Left(home, w)
  {
    hide AtHome, Keys, Build;
    HomeDrains(home);
    LeftIgnores(home, CrowdOf(home), w);
  }

  lemma CallIs(d: Drain, id: nat, app: App, event: Event)
    requires d.crowd.pool.Valid() && id in d.jobs && d.jobs[id].Awaiting? && d.jobs[id].app == app
    requires event.Goroutine? && AppOf(event) == app
    ensures var e := Go(d, Call(id, event));
            e.crowd == Perform(d.crowd, Act(id, event)) && e.sent == d.sent && e.jobs == d.jobs
  {
    hide Perform;
    assert d.sent + [] == d.sent;
  }

  // Both jobs have listed the deployment and await its stop.
  lemma TakenByBoth(home: System, registered: map<nat, string>, i: nat, j: nat, app: App) returns (d: Drain)
    requires AtHome(home) && home.pool.Valid() && app in home.lent && i != j
    requires i in registered && registered[i] == home.lent[app].launch.template.name
    requires j in registered && registered[j] == home.lent[app].launch.template.name
    ensures Leads(Begin(home, registered), d) && d.crowd.pool.Valid() && d.sent == []
    ensures i in d.jobs && d.jobs[i].Awaiting? && d.jobs[i].app == app
    ensures j in d.jobs && d.jobs[j].Awaiting? && d.jobs[j].app == app
    ensures d.crowd == CrowdOf(home).(flights := map[i := Flight(app, FIRST), j := Flight(app, FIRST)])
  {
    hide AtHome, Items, Perform;
    var key := Keys(app)(Ingest);
    var template := home.lent[app].launch.template.name;
    var items := Items(home.objects, template);
    ItemOfLent(home, app);
    var d0 := Begin(home, registered);
    var d1 := Go(d0, List(i));
    var d2 := Go(d1, List(j));
    BeginStopIs(d2.crowd, i, app);
    var d3 := Go(d2, Take(i, key));
    BeginStopIs(d3.crowd, j, app);
    var d4 := Go(d3, Take(j, key));
    LeadsNowhere(d4);
    LeadsOn(d3, Take(j, key), d4);
    LeadsOn(d2, Take(i, key), d4);
    LeadsOn(d1, List(j), d4);
    LeadsOn(d0, List(i), d4);
    d := d4;
  }

  lemma BeginStopIs(w: Crowd, id: nat, app: App)
    requires w.pool.Valid() && id !in w.flights
    ensures Perform(w, Act(id, BeginStop(app))) == w.(flights := w.flights[id := Flight(app, FIRST)])
    ensures SentBy(w, Act(id, BeginStop(app))) == []
  {
  }

  lemma ItemOfLent(home: System, app: App)
    requires AtHome(home) && app in home.lent
    ensures var items := Items(home.objects, home.lent[app].launch.template.name);
            Keys(app)(Ingest) in items && items[Keys(app)(Ingest)] == app
  {
    hide Inv, Keys, Build;
    var template := home.lent[app].launch.template.name;
    assert LentFor(home.lent, app, template);
    DeploymentKey(app);
    ListedAreLent(home, Keys(app)(Ingest), template);
  }

  // Each lease with a broadcaster id sends its message, exactly once, in every interleaving that ends, exactly when its
  // template has been registered once. With two jobs of the template, both stops may fail.
  lemma MessagesExactly(home: System, registered: map<nat, string>)
    requires AtHome(home) && Registers(home, registered)
    ensures home.pool.Valid()
    ensures (forall moves :: Done(GoAll(Begin(home, registered), moves)) ==>
                               AllTold(home, GoAll(Begin(home, registered), moves).sent))
            <==> (forall a :: HasId(home, a) ==> OneJob(registered, home.lent[a].launch.template.name))
  {
    hide AtHome, Registers, GoAll, Done, OneJob;
    BeginHolds(home, registered);
    if a :| HasId(home, a) && !OneJob(registered, home.lent[a].launch.template.name) {
      TwoJobsMayNotTell(home, registered, a);
    } else {
      forall moves | Done(GoAll(Begin(home, registered), moves))
        ensures AllTold(home, GoAll(Begin(home, registered), moves).sent)
      {
        forall a | HasId(home, a)
          ensures a in GoAll(Begin(home, registered), moves).sent
        {
          OneJobTells(home, registered, moves, a);
        }
      }
    }
  }

  lemma TwoJobsMayNotTell(home: System, registered: map<nat, string>, app: App)
    requires AtHome(home) && home.pool.Valid() && HasId(home, app)
    requires !OneJob(registered, home.lent[app].launch.template.name)
    ensures exists moves ::
              && Done(GoAll(Begin(home, registered), moves))
              && !AllTold(home, GoAll(Begin(home, registered), moves).sent)
  {
    hide AtHome, GoAll, Done, DrainInv, Silenced;
    var start := Begin(home, registered);
    var i, j :| && i in registered && j in registered && i != j
                && registered[i] == registered[j] == home.lent[app].launch.template.name;
    SpoiledRun(home, registered, i, j, app);
    var moves :| var d := GoAll(start, moves); Silenced(d.crowd, app, d.sent);
    EveryDrainCanEnd(home, registered, moves);
    var more :| Done(GoAll(start, moves + more));
    BeginHolds(home, registered);
    GoAllKeeps(home, start, moves);
    GoAllAppend(start, moves, more);
    GoAllSilenced(home, GoAll(start, moves), more, app);
    SilencedIsUntold(GoAll(start, moves + more).crowd, app, GoAll(start, moves + more).sent);
  }

  lemma SilencedIsUntold(w: Crowd, app: App, sent: seq<App>)
    requires Silenced(w, app, sent)
    ensures app !in sent
  {
  }

  // Alice streams, and her template has been reconciled twice: a shutdown that ends without her message.
  lemma SpoiledOnce()
    ensures exists home, moves ::
              && AtHome(home) && home.pool.Valid() && HasId(home, IngestFailures.Plain("alice").app)
              && home.lent.Keys == {IngestFailures.Plain("alice").app}
              && var d := GoAll(Begin(home, map[0 := "plain", 1 := "plain"]), moves);
                 Done(d) && forall a :: a !in d.sent
  {
    hide AtHome, GoAll, Done, OneJob, Registers, Drains, Messages, StartSpec;
    var registered := map[0 := "plain", 1 := "plain"];
    var home := AliceStreams();
    var alice := IngestFailures.Plain("alice").app;
    assert registered[0] == registered[1];
    NotOneJob(registered, "plain");
    TwoJobsMayNotTell(home, registered, alice);
    var moves :| Done(GoAll(Begin(home, registered), moves))
                 && !AllTold(home, GoAll(Begin(home, registered), moves).sent);
    RegistersPlain(home, registered, alice);
    DrainIsComplete(home, registered, moves);
    var sent := GoAll(Begin(home, registered), moves).sent;
    assert forall a :: a in sent ==> HasId(home, a);
    assert forall a :: HasId(home, a) ==> a == alice;
    assert alice !in sent;
  }

  lemma NotOneJob(registered: map<nat, string>, template: string)
    requires 0 in registered && 1 in registered && registered[0] == template && registered[1] == template
    ensures !OneJob(registered, template)
  {
  }

  lemma RegistersPlain(home: System, registered: map<nat, string>, app: App)
    requires home.lent.Keys == {app} && home.lent[app].launch.template.name == "plain"
    requires 0 in registered && registered[0] == "plain"
    ensures Registers(home, registered)
  {
  }

  lemma AliceStreams() returns (home: System)
    ensures AtHome(home) && home.pool.Valid()
    ensures var alice := IngestFailures.Plain("alice").app;
            home.lent.Keys == {alice} && HasId(home, alice) && home.lent[alice].launch.template.name == "plain"
  {
    hide StartSpec, Inv;
    var launch := IngestFailures.Plain("alice");
    IngestFailures.PlainStarts("alice", "bob");
    NoneCollides(launch.app);
    FreshHolds(IngestFailures.IDLE.pool, {});
    assert Resting(IngestFailures.IDLE, map[]) == Fresh(IngestFailures.IDLE.pool, {});
    MayStartAlone(launch);
    IngestServices.StartTakesLease(IngestFailures.IDLE, map[], launch);
    var after := StartSpec(IngestFailures.IDLE, launch, RELIABLE.get).0;
    home := Resting(after, map[launch.app := Lending(launch, 20000)]);
  }

  lemma NoneCollides(app: App)
    ensures Apart({}) && Apart({app})
  {
    if Collide(app, app) {
      LeaseRuns.CollidersDiffer(app, app);
    }
  }

  lemma MayStartAlone(launch: Launch)
    requires NoWebrtcPorts(launch.template) && Apart({launch.app})
    ensures IngestServices.MayStart(map[], launch)
  {
    var none: map<App, Lending> := map[];
    assert none.Keys + {launch.app} == {launch.app};
  }
}
