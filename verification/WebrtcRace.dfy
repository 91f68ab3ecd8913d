/** The race between the two port searches: three goroutines and one receiver over a channel of capacity two. */
module WebrtcRaces {
  import opened Wrappers
  import opened IngestResources

  const CAPACITY := 2

  // A searcher sends its find, if it has one, and is then counted off the wait group.
  datatype Searcher = Searching | Sent | Finished

  // The third goroutine waits for both searchers and sends nil.
  datatype Closer = Waiting | Closed

  datatype Race = Race(
    dep: Option<int32>,
    svc: Option<int32>,
    depSearcher: Searcher,
    svcSearcher: Searcher,
    closer: Closer,
    channel: seq<Option<int32>>,
    received: Option<Option<int32>>)

  datatype Step = DepMoves | SvcMoves | CloserMoves | Receive

  const ALL_STEPS: set<Step> := {DepMoves, SvcMoves, CloserMoves, Receive}

  function Begin(dep: Option<int32>, svc: Option<int32>): Race {
    Race(dep, svc, Searching, Searching, Waiting, [], None)
  }

  predicate SearcherEnabled(pc: Searcher, found: Option<int32>, channel: seq<Option<int32>>) {
    match pc
    case Searching => found.None? || |channel| < CAPACITY
    case Sent => true
    case Finished => false
  }

  predicate Enabled(r: Race, step: Step) {
    match step
    case DepMoves => SearcherEnabled(r.depSearcher, r.dep, r.channel)
    case SvcMoves => SearcherEnabled(r.svcSearcher, r.svc, r.channel)
    case CloserMoves => r.closer.Waiting? && r.depSearcher.Finished? && r.svcSearcher.Finished?
        && |r.channel| < CAPACITY
    case Receive => r.received.None? && r.channel != []
  }

  function SearcherNext(pc: Searcher, found: Option<int32>): Searcher {
    if pc.Searching? && found.Some? then Sent else Finished
  }

  function Sends(pc: Searcher, found: Option<int32>): seq<Option<int32>> {
    if pc.Searching? && found.Some? then [found] else []
  }

  function Next(r: Race, step: Step): Race
    requires Enabled(r, step)
  {
    match step
    case DepMoves =>
      r.(depSearcher := SearcherNext(r.depSearcher, r.dep), channel := r.channel + Sends(r.depSearcher, r.dep))
    case SvcMoves =>
      r.(svcSearcher := SearcherNext(r.svcSearcher, r.svc), channel := r.channel + Sends(r.svcSearcher, r.svc))
    case CloserMoves => r.(closer := Closed, channel := r.channel + [None])
    case Receive => r.(received := Some(r.channel[0]), channel := r.channel[1..])
  }

  // Everything ever sent, in order.
  function Stream(r: Race): seq<Option<int32>> {
    (if r.received.Some? then [r.received.value] else []) + r.channel
  }

  function SentCount(pc: Searcher, found: Option<int32>): nat {
    if found.Some? && !pc.Searching? then 1 else 0
  }

  ghost predicate Inv(r: Race) {
    var stream := Stream(r);
    var finds := SentCount(r.depSearcher, r.dep) + SentCount(r.svcSearcher, r.svc);
    && (r.dep.None? ==> !r.depSearcher.Sent?)
    && (r.svc.None? ==> !r.svcSearcher.Sent?)
    && (r.closer.Closed? ==> r.depSearcher.Finished? && r.svcSearcher.Finished?)
    && |stream| == finds + (if r.closer.Closed? then 1 else 0)
    && (finds > 0 ==> stream[0].Some? && (stream[0] == r.dep || stream[0] == r.svc))
    && (finds == 0 && r.closer.Closed? ==> stream[0] == None)
  }

  predicate Done(r: Race) {
    r.depSearcher.Finished? && r.svcSearcher.Finished? && r.closer.Closed? && r.received.Some?
  }

  function Left(pc: Searcher): nat {
    match pc case Searching => 2 case Sent => 1 case Finished => 0
  }

  function Measure(r: Race): nat {
    Left(r.depSearcher) + Left(r.svcSearcher)
    + (if r.closer.Waiting? then 1 else 0) + (if r.received.None? then 1 else 0)
  }

  lemma InvHolds(r: Race, step: Step)
    requires Inv(r) && Enabled(r, step)
    ensures Inv(Next(r, step))
    ensures Measure(Next(r, step)) < Measure(r)
  {
    match step
    case Receive => assert Stream(Next(r, step)) == Stream(r);
    case CloserMoves => StreamGrows(r, Next(r, step), [None]);
    case DepMoves => StreamGrows(r, Next(r, step), Sends(r.depSearcher, r.dep));
    case SvcMoves => StreamGrows(r, Next(r, step), Sends(r.svcSearcher, r.svc));
  }

  lemma StreamGrows(r: Race, next: Race, sent: seq<Option<int32>>)
    requires next.received == r.received && next.channel == r.channel + sent
    ensures Stream(next) == Stream(r) + sent
  {
  }

  // No goroutine is ever left blocked: until all are done, one of them can move.
  lemma SomeoneCanMove(r: Race)
    requires Inv(r) && !Done(r)
    ensures exists step :: step in ALL_STEPS && Enabled(r, step)
  {
    if r.received.None? && r.channel != [] {
      assert Enabled(r, Receive);
    } else if !r.depSearcher.Finished? {
      assert Enabled(r, DepMoves);
    } else if !r.svcSearcher.Finished? {
      assert Enabled(r, SvcMoves);
    } else {
      assert Enabled(r, CloserMoves);
    }
  }

  // The port the race returns when the deployment's find wins a tie, or loses it.
  function Pick(dep: Option<int32>, svc: Option<int32>, svcWins: bool): Option<int32> {
    if dep.None? || (svcWins && svc.Some?) then svc else dep
  }

  // In every schedule of the four parties to the end: nil is returned exactly when neither search found a port,
  // and otherwise one of the finds is.
  method FindFirstWebrtcPort(dep: Option<int32>, svc: Option<int32>) returns (result: Option<int32>, svcWins: bool)
    ensures result.None? <==> dep.None? && svc.None?
    ensures result.Some? ==> result == dep || result == svc
    ensures result == Pick(dep, svc, svcWins)
  {
    var race := Begin(dep, svc);
    while !Done(race)
      invariant Inv(race) && race.dep == dep && race.svc == svc
      decreases Measure(race)
    {
      SomeoneCanMove(race);
      var step :| step in ALL_STEPS && Enabled(race, step);
      InvHolds(race, step);
      race := Next(race, step);
    }
    result := race.received.value;
    assert result == Stream(race)[0];
    svcWins := result == svc;
  }

  // ---------- All schedules, as sequences of steps ----------

  ghost predicate Schedule(r: Race, steps: seq<Step>, last: Race)
    decreases |steps|
  {
    if steps == [] then r == last
    else Enabled(r, steps[0]) && Schedule(Next(r, steps[0]), steps[1..], last)
  }

  // Every schedule keeps the invariant and the two finds, and each of its steps uses up some of the measure.
  lemma {:induction false} EverySchedule(r: Race, steps: seq<Step>, last: Race)
    requires Inv(r) && Schedule(r, steps, last)
    ensures Inv(last) && last.dep == r.dep && last.svc == r.svc
    ensures |steps| + Measure(last) <= Measure(r)
    decreases |steps|
  {
    if steps != [] {
      InvHolds(r, steps[0]);
      EverySchedule(Next(r, steps[0]), steps[1..], last);
    }
  }

  // The channel holds at most two finds: with two of them unreceived, the third goroutine waits.
  lemma {:induction false} ChannelHoldsTwo(r: Race, steps: seq<Step>, last: Race)
    requires |r.channel| <= 2 && Schedule(r, steps, last)
    ensures |last.channel| <= 2
    ensures |last.channel| == 2 && last.depSearcher.Finished? && last.svcSearcher.Finished? && last.closer.Waiting?
            ==> !Enabled(last, CloserMoves)
    decreases |steps|
  {
    if steps != [] {
      ChannelHoldsTwo(Next(r, steps[0]), steps[1..], last);
    }
  }

  // A schedule that cannot go on has at most six steps, leaves no goroutine blocked, and has received the race's port.
  lemma CompleteSchedule(dep: Option<int32>, svc: Option<int32>, steps: seq<Step>, last: Race)
    requires Schedule(Begin(dep, svc), steps, last)
    requires !exists step :: Enabled(last, step)
    ensures Done(last) && |steps| <= 6
    ensures exists svcWins :: last.received == Some(Pick(dep, svc, svcWins))
  {
    EverySchedule(Begin(dep, svc), steps, last);
    if !Done(last) {
      SomeoneCanMove(last);
    }
    var result := last.received.value;
    assert result == Stream(last)[0];
    assert last.received == Some(Pick(dep, svc, result == svc));
  }

  // Either winner is possible: the schedule that lets the winner send first.
  lemma BothWinnersHappen(dep: Option<int32>, svc: Option<int32>, svcWins: bool)
    requires dep.Some? && svc.Some?
    ensures exists steps, last ::
              Schedule(Begin(dep, svc), steps, last) && Done(last) && last.received == Some(Pick(dep, svc, svcWins))
  {
    var first := if svcWins then SvcMoves else DepMoves;
    var second := if svcWins then DepMoves else SvcMoves;
    var r0 := Begin(dep, svc);
    var r1 := Next(r0, first);
    var r2 := Next(r1, Receive);
    var r3 := Next(r2, first);
    var r4 := Next(r3, second);
    var r5 := Next(r4, second);
    var r6 := Next(r5, CloserMoves);
    Prepend(r6, [], r6, r5, CloserMoves);
    Prepend(r5, [CloserMoves], r6, r4, second);
    Prepend(r4, [second, CloserMoves], r6, r3, second);
    Prepend(r3, [second, second, CloserMoves], r6, r2, first);
    Prepend(r2, [first, second, second, CloserMoves], r6, r1, Receive);
    Prepend(r1, [Receive, first, second, second, CloserMoves], r6, r0, first);
    assert r6.received == Some(Pick(dep, svc, svcWins));
  }

  lemma Prepend(r: Race, steps: seq<Step>, last: Race, before: Race, step: Step)
    requires Schedule(r, steps, last)
    requires Enabled(before, step) && Next(before, step) == r
    ensures Schedule(before, [step] + steps, last)
  {
    assert ([step] + steps)[1..] == steps;
  }
}
