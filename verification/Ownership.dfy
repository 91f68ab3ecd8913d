/** Whose objects a step may touch, in every run of the lease protocol: any fleet, any template, colliding or not. */
module Ownerships {
  import opened Wrappers
  import opened PortRanges
  import opened IngestResources
  import opened IngestSystems
  import opened LeaseProtocol
  import LeaseRuns

  // The objects that the goroutines of a stop have read, and not yet deleted, are still there, labelled with its app.
  ghost predicate StillOwned(s: System, app: App, slot: Slot) {
    Keys(app)(slot) in s.objects && OwnedBy(s.objects[Keys(app)(slot)], app.name)
  }

  ghost predicate OwnRequest(s: System, app: App)
    requires app in s.requests
  {
    match s.requests[app]
    case Stopping(running, unread, _, _, _, next) =>
      && (next.Some? ==> next.value.app == app)
      && forall x :: x in running && x !in unread ==> StillOwned(s, app, x)
    case Publishing(_, next) => next.Some? ==> next.value.app == app
    case Leasing(launch) => launch.app == app
    case Creating(launch, _, _, _) => launch.app == app
  }

  ghost predicate Owners(s: System) {
    forall app :: app in s.requests ==> OwnRequest(s, app)
  }

  // A step of an app deletes only objects labelled with its name, creates only such, and changes no other.
  ghost predicate TouchesOwn(s: System, t: System, app: App) {
    && (forall k :: k in s.objects && k !in t.objects ==> OwnedByName(s.objects[k], app.name))
    && (forall k :: k in t.objects && k !in s.objects ==> OwnedByName(t.objects[k], app.name))
    && (forall k :: k in s.objects && k in t.objects ==> t.objects[k] == s.objects[k])
  }

  // One cluster object has one owner: what one app still owns, another app's step leaves.
  lemma OthersStay(s: System, t: System, app: App, a: App, slot: Slot)
    requires TouchesOwn(s, t, app) && a != app && StillOwned(s, a, slot)
    requires forall k :: k in s.objects && k !in t.objects ==> k.namespace == app.namespace
    ensures StillOwned(t, a, slot)
  {
    assert Keys(a)(slot).namespace == a.namespace;
  }

  lemma StepTouchesOwn(s: System, e: Event)
    requires s.pool.Valid() && Owners(s)
    ensures var t := Step(s, e);
            && TouchesOwn(s, t, AppOf(e))
            && (forall k :: k in s.objects && k !in t.objects ==> k.namespace == AppOf(e).namespace)
  {
    hide Lease, GiveBack, Unlend, DeploymentPort, ServicePortOf, BroadcasterOf, FetchOwned;
    var app := AppOf(e);
    if e.Goroutine? && app in s.requests {
      assert OwnRequest(s, app);
      KeysOfApp(app, e.slot);
    }
  }

  lemma StepKeepsOwners(s: System, e: Event)
    requires s.pool.Valid() && Owners(s)
    ensures Owners(Step(s, e))
  {
    hide Lease, GiveBack, Unlend, DeploymentPort, ServicePortOf, BroadcasterOf, StillOwned;
    var t, app := Step(s, e), AppOf(e);
    StepTouchesOwn(s, e);
    forall a | a in t.requests
      ensures OwnRequest(t, a)
    {
      if a != app {
        OtherOwner(s, e, a);
      } else {
        OwnOwner(s, e);
      }
    }
  }

  lemma OtherOwner(s: System, e: Event, a: App)
    requires s.pool.Valid() && Owners(s) && a in Step(s, e).requests && a != AppOf(e)
    ensures OwnRequest(Step(s, e), a)
  {
    hide Step, TouchesOwn, StillOwned, Owners;
    var t := Step(s, e);
    StepTouchesOwn(s, e);
    LeaseRuns.StepsTouchOwnRequest(s, e);
    assert a in t.requests - {AppOf(e)} && a in s.requests && t.requests[a] == s.requests[a];
    OwnerOf(s, a);
    forall x | StillOwned(s, a, x)
      ensures StillOwned(t, a, x)
    {
      OthersStay(s, t, AppOf(e), a, x);
    }
  }

  lemma OwnerOf(s: System, a: App)
    requires Owners(s) && a in s.requests
    ensures OwnRequest(s, a)
  {
  }

  lemma OwnOwner(s: System, e: Event)
    requires s.pool.Valid() && Owners(s) && AppOf(e) in Step(s, e).requests
    ensures OwnRequest(Step(s, e), AppOf(e))
  {
    hide Lease, GiveBack, Unlend, DeploymentPort, ServicePortOf, BroadcasterOf, KeyOf, Build, StillOwned, StopCall,
         CreateCall;
    var app := AppOf(e);
    if app in s.requests {
      assert OwnRequest(s, app);
      if e.Goroutine? && s.requests[app].Stopping? && e.slot in s.requests[app].running {
        CallKeepsOwned(s, app, e.slot);
      } else if e.Goroutine? && s.requests[app].Creating? && e.slot in s.requests[app].pending {
        CreateKeepsLaunch(s, app, e.slot);
      }
    }
  }

  lemma CreateKeepsLaunch(s: System, app: App, slot: Slot)
    requires app in s.requests && s.requests[app].Creating?
    ensures var t := CreateCall(s, app, s.requests[app], slot);
            app in t.requests && t.requests[app].Creating? && t.requests[app].launch == s.requests[app].launch
  {
    hide Build, KeyOf;
  }

  lemma CallKeepsOwned(s: System, app: App, slot: Slot)
    requires app in s.requests && s.requests[app].Stopping? && OwnRequest(s, app) && slot in s.requests[app].running
    ensures var t := StopCall(s, app, s.requests[app], slot);
            app in t.requests && OwnRequest(t, app)
  {
    hide KeyOf;
    SlotsHaveOwnKeys(app);
    assert forall x, y :: Keys(app)(x) == Keys(app)(y) ==> KeyOf(app, x) == KeyOf(app, y);
  }

  lemma {:induction false} RunKeepsOwners(s: System, events: seq<Event>)
    requires s.pool.Valid() && Owners(s)
    ensures Run(s, events).pool.Valid() && Owners(Run(s, events))
    decreases |events|
  {
    hide Owners, Step;
    if events != [] {
      StepKeepsOwners(s, events[0]);
      RunKeepsOwners(Step(s, events[0]), events[1..]);
    }
  }

  // In every interleaving, for any fleet and any launches, each step deletes and creates only objects labelled with its
  // own app's name, and changes no other.
  lemma OwnershipOverRuns(pool: Pool, fleet: set<App>, events: seq<Event>, e: Event)
    requires pool.Valid()
    ensures Run(Fresh(pool, fleet), events).pool.Valid()
    ensures var s := Run(Fresh(pool, fleet), events);
            TouchesOwn(s, Step(s, e), AppOf(e))
  {
    hide TouchesOwn, Step, OwnRequest;
    RunKeepsOwners(Fresh(pool, fleet), events);
    StepTouchesOwn(Run(Fresh(pool, fleet), events), e);
  }
}
