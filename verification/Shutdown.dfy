/** Draining at shutdown: every deployment of a template is stopped and deleted, one by one. */
module Shutdowns {
  import opened Wrappers
  import opened PortRanges
  import opened IngestResources
  import opened Bundles
  import opened IngestSystems
  import opened IngestProperties
  import opened LeaseProtocol

  // The operator with no request in flight. Its fleet is the apps that hold a lease.
  function Resting(state: OperatorState, lent: map<App, Lending>): System {
    System(state.objects, state.pool, map[], state.destroyed, lent, lent.Keys)
  }

  // The message of stopping an app: none without a lease or a broadcaster id.
  function Message(lent: map<App, Lending>, app: App): seq<Destroyed> {
    if app !in lent || lent[app].launch.broadcasterID == "" then []
    else [Destroyed(lent[app].launch.broadcasterID, app.name)]
  }

  function Messages(apps: seq<App>, lent: map<App, Lending>): seq<Destroyed> {
    if apps == [] then [] else Messages(apps[..|apps| - 1], lent) + Message(lent, apps[|apps| - 1])
  }

  lemma MessagesSnoc(apps: seq<App>, app: App, lent: map<App, Lending>)
    ensures Messages(apps + [app], lent) == Messages(apps, lent) + Message(lent, app)
  {
    hide Message;
    assert (apps + [app])[..|apps|] == apps;
  }

  lemma {:induction false} MessagesAppend(first: seq<App>, second: seq<App>, lent: map<App, Lending>)
    ensures Messages(first + second, lent) == Messages(first, lent) + Messages(second, lent)
  {
    hide Message;
    var n := |second| - 1;
    if second == [] {
      assert first + second == first;
    } else {
      assert (first + second)[..|first| + n] == first + second[..n];
      MessagesAppend(first, second[..n], lent);
    }
  }

  // ---------- Stopping one lent app ----------

  lemma BundleOfLent(s: System, app: App)
    requires Inv(s) && s.requests == map[] && app in s.lent
    ensures HasBundle(s.objects, s.lent[app].launch, s.lent[app].port)
  {
    assert s.lent[app].launch.app == app;
    hide Inv, KeyOf, Build;
    forall x
      ensures Keys(app)(x) in s.objects && s.objects[Keys(app)(x)] == Build(s.lent[app].launch, s.lent[app].port, x)
    {
      QuiescentBundles(s, app, x);
    }
  }

  // At rest, every app that is lent a port is served at it, with the template and the broadcaster id of its launch.
  lemma QuiescentServes(s: System, app: App)
    requires Inv(s) && s.requests == map[] && app in s.lent
    ensures var launch, port := s.lent[app].launch, s.lent[app].port;
            Serves(s.objects, app, launch.template, launch.broadcasterID, port) && port in s.pool.busy
  {
    assert s.lent[app].launch.app == app && s.lent[app].port in s.pool.busy;
    hide Inv, HasBundle, Serves;
    BundleOfLent(s, app);
    BundleServes(s.objects, s.lent[app].launch, s.lent[app].port);
  }

  lemma RestingStands(s: System, app: App, slot: Slot)
    requires s.requests == map[]
    ensures Stands(s, app, slot) <==> app in s.lent
  {
    EverySlot();
  }

  lemma CutKeepsOthers(s: System, app: App, a: App, x: Slot)
    requires RequestsInv(s) && app in s.lent && a in s.lent && a != app
    ensures Keys(a)(x) !in Image(ALL_SLOTS, Keys(app))
  {
    hide KeyOf, GoodLaunch;
    if Keys(a)(x) in Image(ALL_SLOTS, Keys(app)) {
      var y :| y in ALL_SLOTS && Keys(app)(y) == Keys(a)(x);
      KeysMeet(s, a, app, x, y);
    }
  }

  lemma CutBundle(s: System, t: System, app: App)
    requires ObjectsInv(s) && RequestsInv(s) && s.requests == map[] && t.requests == map[] && app in s.lent
    requires t.objects == Cut(s.objects, ALL_SLOTS, Keys(app)) && t.lent == s.lent - {app}
    ensures ObjectsInv(t)
  {
    hide Cut, KeyOf, Build, Stands, RequestsInv;
    forall a, x | Stands(t, a, x)
      ensures a in t.lent && Keys(a)(x) in t.objects
              && t.objects[Keys(a)(x)] == Build(t.lent[a].launch, t.lent[a].port, x)
    {
      CutStands(s, t, app, a, x);
    }
    forall k | k in t.objects
      ensures exists a, x :: Stands(t, a, x) && k == Keys(a)(x)
    {
      CutKey(s, t, app, k);
    }
  }

  lemma CutKey(s: System, t: System, app: App, k: Key)
    requires ObjectsInv(s) && RequestsInv(s) && s.requests == map[] && t.requests == map[] && app in s.lent
    requires t.objects == Cut(s.objects, ALL_SLOTS, Keys(app)) && t.lent == s.lent - {app} && k in t.objects
    ensures exists a, x :: Stands(t, a, x) && k == Keys(a)(x)
  {
    hide KeyOf, Build, Stands, RequestsInv;
    var a, x :| Stands(s, a, x) && k == Keys(a)(x);
    CutStands(s, t, app, a, x);
    assert Stands(t, a, x);
  }

  lemma CutStands(s: System, t: System, app: App, a: App, x: Slot)
    requires ObjectsInv(s) && RequestsInv(s) && s.requests == map[] && t.requests == map[] && app in s.lent
    requires t.objects == Cut(s.objects, ALL_SLOTS, Keys(app)) && t.lent == s.lent - {app}
    ensures Stands(t, a, x) <==> Stands(s, a, x) && a != app
    ensures Stands(t, a, x) ==>
              && a in t.lent && t.lent[a] == s.lent[a]
              && Keys(a)(x) in t.objects && t.objects[Keys(a)(x)] == s.objects[Keys(a)(x)]
    ensures Keys(app)(x) !in t.objects
  {
    RestingStands(s, a, x);
    RestingStands(t, a, x);
    InImage(app, x);
    if a in s.lent && a != app {
      CutKeepsOthers(s, app, a, x);
    }
    hide KeyOf, Build, RequestsInv, Image, Stands;
  }

  lemma InImage(app: App, slot: Slot)
    ensures Keys(app)(slot) in Image(ALL_SLOTS, Keys(app))
  {
    EverySlot();
  }

  // What Stop of a bundle comes to when the template has no webrtc port of its own.
  lemma StopGivesBackLease(state: OperatorState, launch: Launch, port: Port, svcWins: bool)
    requires HasBundle(state.objects, launch, port) && NoWebrtcPorts(launch.template)
    requires GiveBack(state.pool, port).1.None?
    ensures StopSpec(state, launch.app, RELIABLE, svcWins)
            == (OperatorState(Cut(state.objects, ALL_SLOTS, Keys(launch.app)), GiveBack(state.pool, port).0,
                              state.destroyed + Message(map[launch.app := Lending(launch, port)], launch.app)),
                if launch.broadcasterID == "" then Some(NotFoundBroadcaster) else None)
  {
    hide StopSpec, HasBundle, GiveBack, Cut;
    FirstContainerPortIsFirst(launch.template.ports);
    StopOfBundle(state, launch, port, svcWins);
    assert state.destroyed + [] == state.destroyed;
  }

  // With a reliable API, Stop of a lent app ends its lease, removes its bundle and sends its message; it fails exactly
  // when there is no broadcaster id to send.
  lemma StopEndsLease(state: OperatorState, lent: map<App, Lending>, app: App, svcWins: bool)
    requires Inv(Resting(state, lent)) && app in lent
    ensures var (after, err) := StopSpec(state, app, RELIABLE, svcWins);
            && Inv(Resting(after, lent - {app}))
            && after.destroyed == state.destroyed + Message(lent, app)
            && err == if lent[app].launch.broadcasterID == "" then Some(NotFoundBroadcaster) else None
  {
    var s := Resting(state, lent);
    var launch, port := lent[app].launch, lent[app].port;
    assert launch.app == app && NoWebrtcPorts(launch.template);
    hide Inv, StopSpec, HasBundle, GiveBack, Cut;
    var after := StopSpec(state, app, RELIABLE, svcWins).0;
    BundleOfLent(s, app);
    LentPort(s, app);
    StopGivesBackLease(state, launch, port, svcWins);
    StopEnds(s, Resting(after, lent - {app}), app);
  }

  lemma LentPort(s: System, app: App)
    requires Inv(s) && app in s.lent
    ensures GiveBack(s.pool, s.lent[app].port).1.None?
  {
    LentIsBusy(s, app);
  }

  lemma StopEnds(s: System, t: System, app: App)
    requires Inv(s) && s.requests == map[] && t.requests == map[] && app in s.lent
    requires t.objects == Cut(s.objects, ALL_SLOTS, Keys(app)) && t.lent == s.lent - {app}
    requires t.pool == GiveBack(s.pool, s.lent[app].port).0 && t.fleet == t.lent.Keys <= s.fleet
    ensures Inv(t)
  {
    assert RequestsInv(t);
    CutBundle(s, t, app);
    assert Unlend(s.lent, s.lent[app].port) == s.lent - {app};
    PoolGivenBack(s, t, app);
  }

  // ---------- One template ----------

  predicate Listed(objects: Cluster, k: Key, template: string) {
    && k in objects && k.kind.DeploymentKind?
    && CREATED_BY in objects[k].labels && objects[k].labels[CREATED_BY] == template
  }

  function Listing(objects: Cluster, template: string): set<Key> {
    set k | k in objects && Listed(objects, k, template)
  }

  ghost predicate LentFor(lent: map<App, Lending>, app: App, template: string) {
    app in lent && lent[app].launch.template.name == template
  }

  // At rest, the listed deployments of a template are those of the apps lent a port for it.
  lemma ListedAreLent(s: System, k: Key, template: string)
    requires Inv(s) && s.requests == map[]
    ensures Listed(s.objects, k, template) <==> k == Keys(OwnerOf(k))(Ingest) && LentFor(s.lent, OwnerOf(k), template)
    ensures Listed(s.objects, k, template) ==>
              OWNED_BY in s.objects[k].labels && s.objects[k].labels[OWNED_BY] == OwnerOf(k).name
  {
    var app := OwnerOf(k);
    DeploymentKey(app);
    if IsDeployment(s, k) {
      DeploymentCarriesLease(s, k);
    }
    if app in s.lent {
      assert s.lent[app].launch.app == app;
      QuiescentBundles(s, app, Ingest);
    }
  }

  // The apps that have been stopped, and what is left of the leases.
  ghost function Remaining(lent: map<App, Lending>, stopped: seq<App>): map<App, Lending> {
    map a | a in lent && a !in stopped :: lent[a]
  }

  // Apps lent a port for the template, none of them twice.
  ghost predicate DistinctFor(apps: seq<App>, lent: map<App, Lending>, template: string) {
    && (forall i, j :: 0 <= i < j < |apps| ==> apps[i] != apps[j])
    && (forall a :: a in apps ==> LentFor(lent, a, template))
  }

  lemma DistinctSnoc(apps: seq<App>, app: App, lent: map<App, Lending>, template: string)
    requires DistinctFor(apps, lent, template)
    ensures app !in apps && LentFor(lent, app, template) ==> DistinctFor(apps + [app], lent, template)
  {
  }

  // Reading an absent label of a Go map gives the empty string.
  function LabelOf(o: Object, name: string): string {
    if name in o.labels then o.labels[name] else ""
  }

  lemma NothingYet(lent: map<App, Lending>, template: string)
    ensures Remaining(lent, []) == lent && Messages([], lent) == [] && DistinctFor([], lent, template)
  {
  }

  // The listed deployments, each with the app its labels name.
  method ListDeployments(system: IngestSystem, template: string, ghost lent: map<App, Lending>)
    returns (items: map<Key, App>)
    requires Inv(Resting(system.State(), lent))
    ensures items.Keys == Listing(system.k8s.objects, template)
    ensures forall k :: k in items ==> items[k] == OwnerOf(k)
  {
    var objects := system.k8s.objects;
    items := map k | k in Listing(objects, template) :: App(k.namespace, LabelOf(objects[k], OWNED_BY));
    forall k | k in items
      ensures items[k] == OwnerOf(k)
    {
      ListedAreLent(Resting(system.State(), lent), k, template);
    }
  }

  // Draining one template, with a reliable API. The list is read once; each listed deployment is stopped
  // through the labels it was listed with, and then deleted.
  method DrainTemplate(system: IngestSystem, template: string, ghost lent: map<App, Lending>)
    returns (stopped: seq<App>)
    requires system.nodePortRange.Valid() && Inv(Resting(system.State(), lent))
    modifies system, system.k8s, system.nodePortRange
    ensures system.nodePortRange.Valid() && Inv(Resting(system.State(), Remaining(lent, stopped)))
    ensures DistinctFor(stopped, lent, template) && (forall a :: LentFor(lent, a, template) ==> a in stopped)
    ensures system.destroyed == old(system.destroyed) + Messages(stopped, lent)
  {
    hide Inv, LentFor, Remaining, Listing, Messages, Message, DistinctFor;
    var items := ListDeployments(system, template, lent);
    stopped := [];
    NothingYet(lent, template);
    while items.Keys != {}
      invariant system.nodePortRange.Valid()
      invariant Inv(Resting(system.State(), Remaining(lent, stopped)))
      invariant DistinctFor(stopped, lent, template)
      invariant items.Keys == Listing(system.k8s.objects, template)
      invariant forall k :: k in items ==> items[k] == OwnerOf(k)
      invariant system.destroyed == old(system.destroyed) + Messages(stopped, lent)
      decreases |items.Keys|
    {
      var k :| k in items;
      StopListed(system, k, items[k], template, lent, stopped);
      MessagesSnoc(stopped, items[k], lent);
      DistinctSnoc(stopped, items[k], lent, template);
      stopped := stopped + [items[k]];
      items := items - {k};
    }
    NothingListed(system.State(), lent, stopped, template);
  }

  lemma NothingListed(state: OperatorState, lent: map<App, Lending>, stopped: seq<App>, template: string)
    requires Inv(Resting(state, Remaining(lent, stopped))) && Listing(state.objects, template) == {}
    ensures forall a :: LentFor(lent, a, template) ==> a in stopped
  {
    var s := Resting(state, Remaining(lent, stopped));
    forall a | LentFor(lent, a, template)
      ensures a in stopped
    {
      DeploymentKey(a);
      ListedAreLent(s, Keys(a)(Ingest), template);
      assert a !in stopped ==> Keys(a)(Ingest) in Listing(s.objects, template);
    }
  }

  // Stopping one listed deployment takes that one, and no other, off the list.
  lemma OneLessListed(s: System, t: System, app: App, k: Key, template: string)
    requires Inv(s) && Inv(t) && s.requests == map[] && t.requests == map[] && t.lent == s.lent - {app}
    requires Listed(s.objects, k, template) && OwnerOf(k) == app
    requires forall m :: m in t.objects ==> m in s.objects && t.objects[m] == s.objects[m]
    ensures Listing(t.objects, template) == Listing(s.objects, template) - {k}
    ensures k !in t.objects
  {
    hide Inv;
    forall l
      ensures Listed(t.objects, l, template) <==> Listed(s.objects, l, template) && l != k
    {
      ListedAreLent(s, k, template);
      ListedAreLent(s, l, template);
      ListedAreLent(t, l, template);
    }
    NotLentNotThere(t, k, s, template);
  }

  lemma NotLentNotThere(t: System, k: Key, s: System, template: string)
    requires Inv(t) && OwnerOf(k) !in t.lent && Listed(s.objects, k, template)
    ensures k !in t.objects
  {
    if IsDeployment(t, k) {
      DeploymentCarriesLease(t, k);
    }
  }

  method StopListed(system: IngestSystem, k: Key, app: App, template: string, ghost lent: map<App, Lending>,
                    ghost stopped: seq<App>)
    requires system.nodePortRange.Valid() && Inv(Resting(system.State(), Remaining(lent, stopped)))
    requires k in Listing(system.k8s.objects, template) && app == OwnerOf(k)
    modifies system, system.k8s, system.nodePortRange
    ensures system.nodePortRange.Valid() && Inv(Resting(system.State(), Remaining(lent, stopped + [app])))
    ensures app !in stopped && LentFor(lent, app, template)
    ensures system.destroyed == old(system.destroyed) + Message(lent, app)
    ensures Listing(system.k8s.objects, template) == Listing(old(system.k8s.objects), template) - {k}
  {
    hide Inv, StopSpec, Listed, Messages;
    ghost var before := system.State();
    ghost var rest := Remaining(lent, stopped);
    ListedAreLent(Resting(before, rest), k, template);
    var _, svcWins := system.StopIngestSystem(app, RELIABLE);
    StopEndsLease(before, rest, app, svcWins);
    ghost var after := system.State();
    assert rest - {app} == Remaining(lent, stopped + [app]);
    OwnershipFrame(before, app, RELIABLE, svcWins);
    OneLessListed(Resting(before, rest), Resting(after, rest - {app}), app, k, template);
    var _ := system.k8s.Delete(k, Works);
    assert system.k8s.objects == after.objects;
  }

  // ---------- All templates ----------

  // The apps stopped so far: no one twice, each of them lent, and every app lent for a drained template among them.
  ghost predicate Drained(stopped: seq<App>, lent: map<App, Lending>, templates: seq<string>) {
    && (forall i, j :: 0 <= i < j < |stopped| ==> stopped[i] != stopped[j])
    && (forall a :: a in stopped ==> a in lent)
    && (forall a :: a in lent && lent[a].launch.template.name in templates ==> a in stopped)
  }

  lemma DrainedMore(stopped: seq<App>, more: seq<App>, lent: map<App, Lending>, templates: seq<string>,
                    template: string)
    requires Drained(stopped, lent, templates)
    requires DistinctFor(more, Remaining(lent, stopped), template)
    requires forall a :: LentFor(Remaining(lent, stopped), a, template) ==> a in more
    ensures Drained(stopped + more, lent, templates + [template])
    ensures Remaining(Remaining(lent, stopped), more) == Remaining(lent, stopped + more)
  {
    forall a | a in more
      ensures a in lent && a !in stopped
    {
      assert LentFor(Remaining(lent, stopped), a, template);
    }
    var all := stopped + more;
    forall i, j | 0 <= i < j < |all|
      ensures all[i] != all[j]
    {
      if i < |stopped| && j >= |stopped| {
        assert all[j] in more && all[i] in stopped;
      }
    }
    forall a | a in lent && lent[a].launch.template.name in templates + [template]
      ensures a in stopped + more
    {
      if a !in stopped {
        assert LentFor(Remaining(lent, stopped), a, template);
      }
    }
  }

  lemma {:induction false} MessagesOfRemaining(apps: seq<App>, lent: map<App, Lending>, stopped: seq<App>)
    requires forall a :: a in apps ==> a in Remaining(lent, stopped)
    ensures Messages(apps, Remaining(lent, stopped)) == Messages(apps, lent)
  {
    if apps != [] {
      MessagesOfRemaining(apps[..|apps| - 1], lent, stopped);
      assert apps[|apps| - 1] in apps;
    }
  }

  lemma DistinctAreRemaining(apps: seq<App>, lent: map<App, Lending>, template: string)
    requires DistinctFor(apps, lent, template)
    ensures forall a :: a in apps ==> a in lent
  {
    forall a | a in apps
      ensures a in lent
    {
      assert LentFor(lent, a, template);
    }
  }

  // An operator at rest with no lease has an empty cluster and a free pool.
  lemma NoLeaseNoObject(state: OperatorState)
    requires Inv(Resting(state, map[]))
    ensures state.objects == map[] && state.pool.busy == {}
  {
    var s := Resting(state, map[]);
    assert forall app, slot :: !Stands(s, app, slot);
    assert forall k :: k !in s.objects;
  }

  lemma AllDrained(lent: map<App, Lending>, stopped: seq<App>, templates: seq<string>)
    requires Drained(stopped, lent, templates)
    requires forall a :: a in lent ==> lent[a].launch.template.name in templates
    ensures Remaining(lent, stopped) == map[]
    ensures forall a :: a in stopped <==> a in lent
  {
  }

  // Every run of the lease protocol that has come to rest meets what draining asks for.
  lemma RunsCanBeDrained(lo: Port, hi: Port, fleet: set<App>, events: seq<Event>)
    requires Pool(lo, hi, {}).Valid() && Apart(fleet)
    requires forall i :: 0 <= i < |events| ==> GoodEvent(fleet, events[i])
    requires Run(Fresh(Pool(lo, hi, {}), fleet), events).requests == map[]
    ensures var t := Run(Fresh(Pool(lo, hi, {}), fleet), events);
            Inv(Resting(OperatorState(t.objects, t.pool, t.destroyed), t.lent))
  {
    hide Inv, Step, Run, Safe;
    LeaseSafety(lo, hi, fleet, events);
    InvAtRest(Run(Fresh(Pool(lo, hi, {}), fleet), events));
  }

  lemma InvAtRest(t: System)
    requires Inv(t) && t.requests == map[]
    ensures Inv(Resting(OperatorState(t.objects, t.pool, t.destroyed), t.lent))
  {
    hide KeyOf, Build, NoWebrtcPorts;
    var s := Resting(OperatorState(t.objects, t.pool, t.destroyed), t.lent);
    forall a, x
      ensures Stands(s, a, x) <==> Stands(t, a, x)
    {
    }
    ObjectsSame(t, s);
  }

  // Draining is complete: from any state at rest in which the lease invariant holds, draining every template
  // leaves no object in the cluster and no busy port, and sends one message for each app stopped that has a broadcaster
  // id; each lent app is stopped exactly once.
  method DrainAll(system: IngestSystem, templates: seq<string>, ghost lent: map<App, Lending>)
    returns (stopped: seq<App>)
    requires system.nodePortRange.Valid() && Inv(Resting(system.State(), lent))
    requires forall a :: a in lent ==> lent[a].launch.template.name in templates
    modifies system, system.k8s, system.nodePortRange
    ensures system.k8s.objects == map[] && system.nodePortRange.Contents().busy == {}
    ensures (forall a :: a in stopped <==> a in lent)
            && (forall i, j :: 0 <= i < j < |stopped| ==> stopped[i] != stopped[j])
    ensures system.destroyed == old(system.destroyed) + Messages(stopped, lent)
  {
    hide Inv, Remaining, Messages, LentFor, DistinctFor;
    stopped := [];
    NothingYet(lent, "");
    for i := 0 to |templates|
      invariant system.nodePortRange.Valid()
      invariant Inv(Resting(system.State(), Remaining(lent, stopped)))
      invariant Drained(stopped, lent, templates[..i])
      invariant system.destroyed == old(system.destroyed) + Messages(stopped, lent)
    {
      ghost var rest := Remaining(lent, stopped);
      var more := DrainTemplate(system, templates[i], rest);
      DrainedMore(stopped, more, lent, templates[..i], templates[i]);
      DistinctAreRemaining(more, rest, templates[i]);
      MessagesOfRemaining(more, lent, stopped);
      MessagesAppend(stopped, more, lent);
      stopped := stopped + more;
      assert templates[..i] + [templates[i]] == templates[..i + 1];
    }
    assert templates[..|templates|] == templates;
    AllDrained(lent, stopped, templates);
    NoLeaseNoObject(system.State());
  }
}
