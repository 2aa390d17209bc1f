/**
 * What a service becoming ready does to everything that waits, in full (usecases/src/supervisor_ready.rs):
 * who is launched, who keeps waiting, who fails, and that nobody is left out.
 */
module Releases {
  import opened Graphs
  import opened Model
  import opened ProcessTable
  import opened Handlers
  import opened Coherence
  import opened Promises
  import opened Replies
  import Readiness
  import Waiting

  // ----- one waiter -----

  /**
   * One released waiter: launched and watched, awaited if it probes, registered if it is a scheduled task,
   * left as it is if it runs; its schedule is armed. One that cannot be spawned is errored, and so is
   * whatever waits for it. It releases its own waiters when it is online at once or merely registered.
   */
  ghost predicate WaiterTried(at: State, after: State, name: Name, released: bool, ports: Ports)
    requires Has(at.records, name)
  {
    var record := Find(at.records, name).value;
    match LaunchLeaves(record, true, ports.spawn(at.tick))
    case None =>
      && !released && after.launched == at.launched && after.timers == at.timers && after.effects == at.effects
      && Find(after.records, name) == Waiting.Fallen(at.records, name) && DownstreamFailed(at, after, name)
    case Some(left) =>
      && (released <==> left.kind.Scheduled? || left.runtime.status == Online)
      && Find(after.records, name) == Some(Record(record.spec, left.runtime)) && OthersStand(at, after, name)
      && after.waiters == at.waiters && after.timers.restarts == at.timers.restarts
      && after.timers.fires - {name} == at.timers.fires - {name} && Rescheduled(at, after, name, ports)
      && LaunchFollowed(at, after, name, left, ports)
  }

  /** What follows the launch of a waiter: a process just spawned is watched, and awaited if it has a probe. */
  ghost predicate LaunchFollowed(at: State, after: State, name: Name, left: Left, ports: Ports)
    requires Has(at.records, name)
  {
    if left.kind.Fresh? && left.pid.Some? then
      var generation := after.timers.CurrentGeneration(name);
      && after.launched == at.launched + [Launch(name, left.pid.value)]
      && WatchesIn(after.effects) == WatchesIn(at.effects) + [ExitWatch(name, generation, left.pid.value)]
      && forall e <- AwaitedProbe(Record(Find(at.records, name).value.spec, left.runtime), name, generation) :: e in after.effects
    else
      after.launched == at.launched && WatchesIn(after.effects) == WatchesIn(at.effects)
  }

  lemma WaiterPromise(s: State, waiter: Name, ports: Ports)
    requires Has(s.records, waiter)
    ensures var (next, released) := LaunchWaiter(s, waiter, ports); WaiterTried(s, next, waiter, released, ports)
  {
    LaunchAnswer(s, waiter, true, ports);
    hide LaunchOne, LaunchWaiter, WaiterTried, Find;
    if LaunchOne(s, waiter, true, ports).1.None? {
      RefusedWaiter(s, waiter, ports);
    } else {
      AcceptedWaiter(s, waiter, ports);
    }
  }

  lemma RefusedWaiter(s: State, waiter: Name, ports: Ports)
    requires Has(s.records, waiter) && LaunchOne(s, waiter, true, ports).1.None?
    ensures var (next, released) := LaunchWaiter(s, waiter, ports); WaiterTried(s, next, waiter, released, ports)
  {
    LaunchAnswer(s, waiter, true, ports);
    LaunchPromise(s, waiter, true, ports);
    LaunchAside(s, waiter, true, ports);
    var tried := LaunchOne(s, waiter, true, ports).0;
    hide LaunchOne, Find, MarkErroredIfSettled, FailDownstream, Reaches, StillWaiting, Waiting.FallenRecord;
    var marked := MarkErroredIfSettled(tried, waiter);
    assert forall x :: Find(marked.records, x) == if x == waiter then Waiting.Fallen(s.records, x) else Find(s.records, x) by {
      forall x ensures Find(marked.records, x) == if x == waiter then Waiting.Fallen(s.records, x) else Find(s.records, x) {
        Waiting.ErrorMarks(tried, waiter, x);
      }
    }
    Readiness.ErrorLogsNothing(tried, waiter);
    FailPromise(marked, waiter);
    Waiting.FailDownstreamMarks(marked, waiter, waiter);
    Waiting.FallsOnce(s.records, marked.records, waiter);
    FailedFrom(s, marked, FailDownstream(marked, waiter).0, LaunchWaiter(s, waiter, ports).0, waiter);
  }

  /** The launch that was not refused, watched. */
  lemma AcceptedIsWatched(s: State, waiter: Name, ports: Ports)
    requires Has(s.records, waiter) && LaunchLeaves(Find(s.records, waiter).value, true, ports.spawn(s.tick)).Some?
    ensures var left := LaunchLeaves(Find(s.records, waiter).value, true, ports.spawn(s.tick)).value;
            var (tried, outcome) := LaunchOne(s, waiter, true, ports);
            && outcome.Some? && outcome.value.kind == left.kind
            && var watched := Watch(tried, outcome.value);
               && Find(watched.records, waiter) == Some(Record(Find(s.records, waiter).value.spec, left.runtime))
               && OthersStand(s, watched, waiter)
               && watched.waiters == s.waiters
               && watched.timers.restarts == s.timers.restarts && watched.timers.fires == s.timers.fires
               && LaunchFollowed(s, watched, waiter, left, ports)
  {
    LaunchAnswer(s, waiter, true, ports);
    LaunchPromise(s, waiter, true, ports);
    hide LaunchOne, Find, Watch, WatchesIn;
    var (tried, outcome) := LaunchOne(s, waiter, true, ports);
    WatchPromise(tried, outcome.value);
    WatchIsAside(tried, outcome.value);
    hide LaunchLeaves;
  }

  lemma AcceptedWaiter(s: State, waiter: Name, ports: Ports)
    requires Has(s.records, waiter) && LaunchOne(s, waiter, true, ports).1.Some?
    ensures var (next, released) := LaunchWaiter(s, waiter, ports); WaiterTried(s, next, waiter, released, ports)
  {
    LaunchAnswer(s, waiter, true, ports);
    hide LaunchOne, Find, Watch, ArmTimerFor, WatchesIn, Rescheduled, LaunchLeaves, LaunchFollowed, LaunchWaiter;
    AcceptedIsWatched(s, waiter, ports);
    var (tried, outcome) := LaunchOne(s, waiter, true, ports);
    var left := LaunchLeaves(Find(s.records, waiter).value, true, ports.spawn(s.tick)).value;
    var watched := Watch(tried, outcome.value);
    var armed := ArmTimerFor(watched, waiter, ports);
    ArmingLeaves(s, watched, waiter, ports);
    FollowedStill(s, watched, armed, waiter, left, ports);
    ReleasesWhen(s, waiter, ports, armed, outcome.value);
  }

  /** Arming the schedule of a launched waiter changes nothing else. */
  lemma ArmingLeaves(s: State, watched: State, waiter: Name, ports: Ports)
    requires Has(s.records, waiter) && Has(watched.records, waiter)
    requires Find(watched.records, waiter).value.spec == Find(s.records, waiter).value.spec
    ensures var armed := ArmTimerFor(watched, waiter, ports);
            && armed.records == watched.records && armed.launched == watched.launched && armed.waiters == watched.waiters
            && armed.timers.restarts == watched.timers.restarts && armed.timers.fires - {waiter} == watched.timers.fires - {waiter}
            && armed.timers.generations == watched.timers.generations
            && WatchesIn(armed.effects) == WatchesIn(watched.effects) && (forall e <- watched.effects :: e in armed.effects)
            && Rescheduled(s, armed, waiter, ports)
  {
    ArmPromise(watched, waiter, ports);
    ArmTimerIsAside(watched, waiter, ports);
    ArmLeavesWaiters(watched, waiter, ports);
    hide Find, ArmTimerFor, WatchesIn, Rescheduled;
    RescheduledFrom(s, watched, ArmTimerFor(watched, waiter, ports), waiter, ports);
  }

  lemma ReleasesWhen(s: State, waiter: Name, ports: Ports, armed: State, o: StartOutcome)
    requires LaunchOne(s, waiter, true, ports).1 == Some(o)
    requires armed == ArmTimerFor(Watch(LaunchOne(s, waiter, true, ports).0, o), waiter, ports)
    ensures LaunchWaiter(s, waiter, ports) ==
            (Tick(armed), o.kind.Scheduled? || (Has(armed.records, waiter) && Find(armed.records, waiter).value.runtime.status.Online?))
  {
    hide LaunchOne, Watch, ArmTimerFor, Find;
  }

  lemma FollowedStill(at: State, watched: State, armed: State, name: Name, left: Left, ports: Ports)
    requires Has(at.records, name) && LaunchFollowed(at, watched, name, left, ports)
    requires armed.launched == watched.launched && WatchesIn(armed.effects) == WatchesIn(watched.effects)
    requires armed.timers.generations == watched.timers.generations && forall e <- watched.effects :: e in armed.effects
    ensures LaunchFollowed(at, armed, name, left, ports)
  {
    hide Find, WatchesIn;
  }

  // ----- the turns of a pass -----

  /** One waiter tried in a pass: the state it is tried in, the one it leaves, and whether it releases its own. */
  datatype Turn = Turn(name: Name, at: State, after: State, released: bool)

  function TurnOf(s: State, waiter: Name, ports: Ports): Turn {
    var (next, released) := LaunchWaiter(s, waiter, ports);
    Turn(waiter, s, next, released)
  }

  function ListTurns(s: State, list: seq<Name>, ports: Ports): seq<Turn>
    decreases |list|
  {
    if list == [] then []
    else if StillWaiting(s.waiters, list[0]) then ListTurns(s, list[1..], ports)
    else [TurnOf(s, list[0], ports)] + ListTurns(LaunchWaiter(s, list[0], ports).0, list[1..], ports)
  }

  function QueueTurns(s: State, queue: seq<Name>, ports: Ports): seq<Turn>
    decreases |s.waiters|, |queue|
  {
    if queue == [] then []
    else
      var ready, left := queue[|queue| - 1], queue[..|queue| - 1];
      if ready !in s.waiters then QueueTurns(s, left, ports)
      else
        var taken := s.(waiters := s.waiters - {ready});
        ForgetShrinks(s.waiters, ready);
        LaunchListShrinks(taken, s.waiters[ready], left, ports);
        var (next, longer) := LaunchList(taken, s.waiters[ready], left, ports);
        ListTurns(taken, s.waiters[ready], ports) + QueueTurns(next, longer, ports)
  }

  /** Nothing but the waiters changes, and they only become fewer. */
  ghost predicate Between(s: State, next: State) {
    next == s.(waiters := next.waiters) && FewerWait(s.waiters, next.waiters)
  }

  ghost predicate FewerWait(g: Graph, next: Graph) {
    (forall d <- next :: d in g) && (forall d, x :: Edge(next, d, x) ==> Edge(g, d, x))
  }

  /** Each turn begins where the one before it ended, and the last leads to `next`. */
  ghost predicate Chained(s: State, turns: seq<Turn>, next: State)
    decreases |turns|
  {
    if turns == [] then Between(s, next)
    else Between(s, turns[0].at) && Chained(turns[0].after, turns[1..], next)
  }

  ghost predicate TurnIsDone(turn: Turn, ports: Ports) {
    && Has(turn.at.records, turn.name) && !StillWaiting(turn.at.waiters, turn.name)
    && WaiterTried(turn.at, turn.after, turn.name, turn.released, ports)
  }

  /** `x` waited, directly or not, for a service that was refused. */
  ghost predicate FailsWith(turn: Turn, x: Name, ports: Ports) {
    && Has(turn.at.records, turn.name)
    && LaunchLeaves(Find(turn.at.records, turn.name).value, true, ports.spawn(turn.at.tick)).None?
    && Reaches(turn.at.waiters, turn.name, x)
  }

  ghost predicate Failed(turns: seq<Turn>, x: Name, ports: Ports) {
    exists turn <- turns :: FailsWith(turn, x, ports)
  }

  predicate Tried(turns: seq<Turn>, x: Name) {
    exists turn <- turns :: turn.name == x
  }

  predicate IsReleased(turns: seq<Turn>, x: Name) {
    exists turn <- turns :: turn.name == x && turn.released
  }

  // ----- what a single turn changes of the waiters -----

  lemma TurnIsFewer(s: State, waiter: Name, ports: Ports)
    requires Has(s.records, waiter) && WaitersKnown(s.records, s.waiters)
    ensures var turn := TurnOf(s, waiter, ports);
            && FewerWait(s.waiters, turn.after.waiters) && WaitersKnown(turn.after.records, turn.after.waiters)
            && (forall n :: Has(turn.after.records, n) <==> Has(s.records, n))
            && (forall d, x :: Edge(s.waiters, d, x) && !Edge(turn.after.waiters, d, x) ==> FailsWith(turn, x, ports))
  {
    LaunchAnswer(s, waiter, true, ports);
    if LaunchOne(s, waiter, true, ports).1.Some? {
      Readiness.AcceptedLaunch(s, waiter, ports);
      hide LaunchOne, Find, LaunchWaiter, Reaches, LaunchLeaves, Readiness.IsReadyNow;
      forall key <- s.waiters ensures AllHave(LaunchWaiter(s, waiter, ports).0.records, s.waiters[key]) {
        assert AllHave(s.records, s.waiters[key]);
      }
    } else {
      RefusedIsFewer(s, waiter, ports);
    }
  }

  lemma RefusedIsFewer(s: State, waiter: Name, ports: Ports)
    requires Has(s.records, waiter) && WaitersKnown(s.records, s.waiters) && LaunchOne(s, waiter, true, ports).1.None?
    ensures var turn := TurnOf(s, waiter, ports);
            && FewerWait(s.waiters, turn.after.waiters) && WaitersKnown(turn.after.records, turn.after.waiters)
            && (forall n :: Has(turn.after.records, n) <==> Has(s.records, n))
            && (forall d, x :: Edge(s.waiters, d, x) && !Edge(turn.after.waiters, d, x) ==> FailsWith(turn, x, ports))
  {
    LaunchAnswer(s, waiter, true, ports);
    Readiness.RefusedLaunch(s, waiter, ports);
    Readiness.RefusedStaysKnown(s, waiter, ports);
    RefusedWaiter(s, waiter, ports);
    hide LaunchOne, Find, LaunchWaiter, Reaches, LaunchLeaves, Readiness.IsReadyNow, StillWaiting, Edge, WaitersKnown;
    var turn := TurnOf(s, waiter, ports);
    forall d, x | Edge(s.waiters, d, x) && !Edge(turn.after.waiters, d, x) ensures Reaches(s.waiters, waiter, x) {
      if d == waiter {
        EdgeReaches(s.waiters, waiter, x);
      } else if Reaches(s.waiters, waiter, d) {
        ReachesThenEdge(s.waiters, waiter, d, x);
      }
    }
    forall d <- turn.after.waiters ensures d in s.waiters {
      if d !in s.waiters {
        Readiness.KeysKeepEdges(s, waiter, ports, d);
      }
    }
  }

  // ----- many turns -----

  lemma FewerThrough(g: Graph, mid: Graph, next: Graph)
    requires FewerWait(g, mid) && FewerWait(mid, next)
    ensures FewerWait(g, next)
  {
    hide Edge;
  }

  lemma BetweenThrough(s: State, mid: State, next: State)
    requires Between(s, mid) && Between(mid, next)
    ensures Between(s, next)
  {
    FewerThrough(s.waiters, mid.waiters, next.waiters);
    hide FewerWait;
  }

  lemma StaysBetween(s: State)
    ensures Between(s, s)
  {
  }

  lemma {:induction false} ChainsJoin(s: State, a: seq<Turn>, mid: State, b: seq<Turn>, next: State)
    requires Chained(s, a, mid) && Chained(mid, b, next)
    ensures Chained(s, a + b, next)
    decreases |a|
  {
    hide Between;
    if a == [] {
      assert a + b == b;
      ChainsLater(s, mid, b, next);
    } else {
      assert (a + b)[1..] == a[1..] + b && (a + b)[0] == a[0];
      ChainsJoin(a[0].after, a[1..], mid, b, next);
    }
  }

  lemma ChainsLater(s: State, mid: State, turns: seq<Turn>, next: State)
    requires Between(s, mid) && Chained(mid, turns, next)
    ensures Chained(s, turns, next)
  {
    hide Between;
    if turns == [] {
      BetweenThrough(s, mid, next);
    } else {
      BetweenThrough(s, mid, turns[0].at);
    }
  }

  function ReleasedNames(turns: seq<Turn>): seq<Name> {
    if turns == [] then []
    else (if turns[0].released then [turns[0].name] else []) + ReleasedNames(turns[1..])
  }

  /** From `s` to `next` by these turns: each is done, and an edge is lost only to a failure. */
  ghost predicate Passed(s: State, turns: seq<Turn>, next: State, ports: Ports) {
    && Chained(s, turns, next)
    && (forall turn <- turns :: TurnIsDone(turn, ports))
    && FewerWait(s.waiters, next.waiters) && WaitersKnown(next.records, next.waiters)
    && (forall n :: Has(next.records, n) <==> Has(s.records, n))
    && (forall d, x :: Edge(s.waiters, d, x) && !Edge(next.waiters, d, x) ==> Failed(turns, x, ports))
  }

  lemma PassedNothing(s: State, ports: Ports)
    requires WaitersKnown(s.records, s.waiters)
    ensures Passed(s, [], s, ports)
  {
  }

  lemma PassesOn(s: State, waiter: Name, turns: seq<Turn>, next: State, ports: Ports)
    requires Has(s.records, waiter) && WaitersKnown(s.records, s.waiters) && !StillWaiting(s.waiters, waiter)
    requires Passed(TurnOf(s, waiter, ports).after, turns, next, ports)
    ensures Passed(s, [TurnOf(s, waiter, ports)] + turns, next, ports)
  {
    var turn := TurnOf(s, waiter, ports);
    var all := [turn] + turns;
    TurnIsFewer(s, waiter, ports);
    WaiterPromise(s, waiter, ports);
    StaysBetween(s);
    FewerThrough(s.waiters, turn.after.waiters, next.waiters);
    hide Find, LaunchWaiter, Between, FewerWait, WaiterTried, FailsWith, Edge, StillWaiting, WaitersKnown, Failed;
    assert all[1..] == turns && all[0] == turn;
    DoneFirstAndLater(turn, turns, ports);
    forall d, x | Edge(s.waiters, d, x) && !Edge(next.waiters, d, x) ensures Failed(all, x, ports) {
      FailsFirstOrLater(turn, turns, x, ports);
    }
  }

  lemma DoneFirstAndLater(turn: Turn, turns: seq<Turn>, ports: Ports)
    requires TurnIsDone(turn, ports) && forall t <- turns :: TurnIsDone(t, ports)
    ensures forall t <- [turn] + turns :: TurnIsDone(t, ports)
  {
    hide TurnIsDone;
  }

  lemma FailsFirstOrLater(turn: Turn, turns: seq<Turn>, x: Name, ports: Ports)
    ensures FailsWith(turn, x, ports) || Failed(turns, x, ports) ==> Failed([turn] + turns, x, ports)
  {
    hide FailsWith;
    assert turn in [turn] + turns;
    forall t <- turns ensures t in [turn] + turns {
    }
  }

  lemma FailsInMore(before: seq<Turn>, turns: seq<Turn>, after: seq<Turn>, x: Name, ports: Ports)
    requires Failed(turns, x, ports)
    ensures Failed(before + turns + after, x, ports)
  {
    hide FailsWith;
    var turn :| turn in turns && FailsWith(turn, x, ports);
    assert turn in before + turns + after;
  }

  lemma TriedInMore(before: seq<Turn>, turns: seq<Turn>, after: seq<Turn>, x: Name)
    requires Tried(turns, x)
    ensures Tried(before + turns + after, x)
  {
    var turn :| turn in turns && turn.name == x;
    assert turn in before + turns + after;
  }

  lemma WaitingIsKept(s: State, turns: seq<Turn>, next: State, x: Name, ports: Ports)
    requires Passed(s, turns, next, ports) && StillWaiting(s.waiters, x)
    ensures StillWaiting(next.waiters, x) || Failed(turns, x, ports)
  {
    hide Chained, TurnIsDone, FewerWait, Failed;
    var d :| d in s.waiters && x in s.waiters[d];
    assert Edge(s.waiters, d, x);
    if Edge(next.waiters, d, x) {
      assert d in next.waiters && x in next.waiters[d];
    }
  }

  /** One list: every waiter on it still waits for something else, was tried, or failed. */
  lemma {:induction false} ListPasses(s: State, list: seq<Name>, queue: seq<Name>, ports: Ports)
    requires WaitersKnown(s.records, s.waiters) && AllHave(s.records, list)
    ensures var (next, longer) := LaunchList(s, list, queue, ports);
            var turns := ListTurns(s, list, ports);
            && Passed(s, turns, next, ports) && longer == queue + ReleasedNames(turns)
            && forall x <- list :: StillWaiting(next.waiters, x) || Tried(turns, x) || Failed(turns, x, ports)
    decreases |list|
  {
    hide LaunchWaiter, StillWaiting, Passed, Failed, Find, WaitersKnown;
    if list == [] {
      PassedNothing(s, ports);
      assert queue + [] == queue;
    } else {
      var x, rest := list[0], list[1..];
      assert x in list && AllHave(s.records, rest);
      if StillWaiting(s.waiters, x) {
        ListPasses(s, rest, queue, ports);
        WaitingIsKept(s, ListTurns(s, rest, ports), LaunchList(s, rest, queue, ports).0, x, ports);
      } else {
        HeadPasses(s, list, queue, ports);
      }
    }
  }

  lemma HeadPasses(s: State, list: seq<Name>, queue: seq<Name>, ports: Ports)
    requires WaitersKnown(s.records, s.waiters) && AllHave(s.records, list) && list != [] && !StillWaiting(s.waiters, list[0])
    ensures var (next, longer) := LaunchList(s, list, queue, ports);
            var turns := ListTurns(s, list, ports);
            && Passed(s, turns, next, ports) && longer == queue + ReleasedNames(turns)
            && forall x <- list :: StillWaiting(next.waiters, x) || Tried(turns, x) || Failed(turns, x, ports)
    decreases |list|, 0
  {
    hide LaunchWaiter, StillWaiting, Passed, Failed, Find, WaitersKnown, LaunchList, ListTurns;
    var x, rest := list[0], list[1..];
    assert x in list;
    var turn := TurnOf(s, x, ports);
    TurnIsFewer(s, x, ports);
    var longer := if turn.released then queue + [x] else queue;
    HeadUnfolds(s, list, queue, ports);
    assert AllHave(turn.after.records, rest);
    ListPasses(turn.after, rest, longer, ports);
    var turns := ListTurns(turn.after, rest, ports);
    var next := LaunchList(turn.after, rest, longer, ports).0;
    PassesOn(s, x, turns, next, ports);
    assert ([turn] + turns)[1..] == turns;
    forall y <- list ensures StillWaiting(next.waiters, y) || Tried([turn] + turns, y) || Failed([turn] + turns, y, ports) {
      if y == x {
        assert turn in [turn] + turns;
      } else {
        MoreTurns(turn, turns, next, y, ports);
      }
    }
    assert queue + ReleasedNames([turn] + turns) == longer + ReleasedNames(turns);
  }

  lemma MoreTurns(turn: Turn, turns: seq<Turn>, next: State, y: Name, ports: Ports)
    requires StillWaiting(next.waiters, y) || Tried(turns, y) || Failed(turns, y, ports)
    ensures StillWaiting(next.waiters, y) || Tried([turn] + turns, y) || Failed([turn] + turns, y, ports)
  {
    hide Failed, Tried, StillWaiting;
    assert [turn] + turns + [] == [turn] + turns;
    if Tried(turns, y) {
      TriedInMore([turn], turns, [], y);
    } else if Failed(turns, y, ports) {
      FailsInMore([turn], turns, [], y, ports);
    }
  }

  lemma HeadUnfolds(s: State, list: seq<Name>, queue: seq<Name>, ports: Ports)
    requires list != [] && !StillWaiting(s.waiters, list[0])
    ensures var turn := TurnOf(s, list[0], ports);
            && LaunchList(s, list, queue, ports)
               == LaunchList(turn.after, list[1..], if turn.released then queue + [list[0]] else queue, ports)
            && ListTurns(s, list, ports) == [turn] + ListTurns(turn.after, list[1..], ports)
  {
    hide LaunchWaiter, StillWaiting;
  }

  // ----- a whole pass -----

  /** `d` has been opened: it is one of the roots, or a waiter that released its own. */
  predicate Opened(roots: seq<Name>, turns: seq<Turn>, d: Name) { d in roots || IsReleased(turns, d) }

  /**
   * A pass in full. Its turns follow one another from `s` to `next`, each on a service that waits for
   * nothing any more, and nothing happens between them. Whatever is opened has nobody left waiting for
   * it. A service stops waiting for another only when that one is opened, or fails with it. Nobody is
   * left out: whoever waited waits for something else, was tried, or failed.
   */
  ghost predicate Completed(s: State, roots: seq<Name>, turns: seq<Turn>, next: State, ports: Ports) {
    && Chained(s, turns, next)
    && (forall turn <- turns :: TurnIsDone(turn, ports))
    && FewerWait(s.waiters, next.waiters)
    && (forall d :: Opened(roots, turns, d) ==> d !in next.waiters)
    && (forall d, x :: Edge(s.waiters, d, x) && !Edge(next.waiters, d, x) ==> Opened(roots, turns, d) || Failed(turns, x, ports))
    && (forall x :: StillWaiting(s.waiters, x) ==> StillWaiting(next.waiters, x) || Tried(turns, x) || Failed(turns, x, ports))
  }

  lemma {:induction false} QueueCompletes(s: State, queue: seq<Name>, ports: Ports)
    requires WaitersKnown(s.records, s.waiters)
    ensures Completed(s, queue, QueueTurns(s, queue, ports), LaunchQueue(s, queue, ports), ports)
    decreases |s.waiters|, |queue|
  {
    hide LaunchList, ListTurns, Completed, Passed, WaitersKnown, StillWaiting;
    if queue == [] {
      EmptyCompletes(s, ports);
    } else {
      var ready, left := queue[|queue| - 1], queue[..|queue| - 1];
      if ready !in s.waiters {
        QueueCompletes(s, left, ports);
        AbsentCompletes(s, queue, QueueTurns(s, left, ports), LaunchQueue(s, left, ports), ports);
      } else {
        var taken, list := s.(waiters := s.waiters - {ready}), s.waiters[ready];
        ForgetShrinks(s.waiters, ready);
        LaunchListShrinks(taken, list, left, ports);
        var (mid, longer) := LaunchList(taken, list, left, ports);
        TakenIsKnown(s, ready);
        ListPasses(taken, list, left, ports);
        PassedMeans(taken, ListTurns(taken, list, ports), mid, ports);
        QueueCompletes(mid, longer, ports);
        OpeningCompletes(s, queue, ListTurns(taken, list, ports), mid, longer, QueueTurns(mid, longer, ports), LaunchQueue(mid, longer, ports), ports);
      }
    }
  }

  lemma PassedMeans(s: State, turns: seq<Turn>, next: State, ports: Ports)
    requires Passed(s, turns, next, ports)
    ensures WaitersKnown(next.records, next.waiters)
  {
  }

  lemma TakenIsKnown(s: State, ready: Name)
    requires WaitersKnown(s.records, s.waiters) && ready in s.waiters
    ensures WaitersKnown(s.records, s.waiters - {ready}) && AllHave(s.records, s.waiters[ready])
  {
  }

  lemma EmptyCompletes(s: State, ports: Ports)
    ensures Completed(s, [], [], s, ports)
  {
  }

  /** A name nobody waits for opens nothing. */
  lemma AbsentCompletes(s: State, queue: seq<Name>, turns: seq<Turn>, next: State, ports: Ports)
    requires queue != [] && queue[|queue| - 1] !in s.waiters && Completed(s, queue[..|queue| - 1], turns, next, ports)
    ensures Completed(s, queue, turns, next, ports)
  {
    hide Chained, TurnIsDone, Failed, IsReleased, StillWaiting, Tried;
    assert queue == queue[..|queue| - 1] + [queue[|queue| - 1]];
    forall d | Opened(queue, turns, d) ensures d !in next.waiters {
      if !Opened(queue[..|queue| - 1], turns, d) {
        assert d == queue[|queue| - 1];
      }
    }
  }

  lemma {:induction false} ReleasedAreNamed(turns: seq<Turn>, x: Name)
    ensures x in ReleasedNames(turns) <==> IsReleased(turns, x)
  {
    if turns != [] {
      ReleasedAreNamed(turns[1..], x);
      assert turns == [turns[0]] + turns[1..];
    }
  }

  lemma ReleasedJoin(a: seq<Turn>, b: seq<Turn>, x: Name)
    ensures IsReleased(a + b, x) <==> IsReleased(a, x) || IsReleased(b, x)
    ensures Tried(a + b, x) <==> Tried(a, x) || Tried(b, x)
  {
    forall turn | turn in a || turn in b ensures turn in a + b {
    }
  }

  lemma FailedJoin(a: seq<Turn>, b: seq<Turn>, x: Name, ports: Ports)
    ensures Failed(a + b, x, ports) <==> Failed(a, x, ports) || Failed(b, x, ports)
  {
    hide FailsWith;
    forall turn | turn in a || turn in b ensures turn in a + b {
    }
  }

  /** Opening the last name: its list passes, and the rest of the pass follows. */
  lemma OpeningCompletes(s: State, queue: seq<Name>, first: seq<Turn>, mid: State, longer: seq<Name>, rest: seq<Turn>, next: State,
                         ports: Ports)
    requires queue != [] && queue[|queue| - 1] in s.waiters
    requires var ready := queue[|queue| - 1];
             && Passed(s.(waiters := s.waiters - {ready}), first, mid, ports)
             && longer == queue[..|queue| - 1] + ReleasedNames(first)
             && forall x <- s.waiters[ready] :: StillWaiting(mid.waiters, x) || Tried(first, x) || Failed(first, x, ports)
    requires Completed(mid, longer, rest, next, ports)
    ensures Completed(s, queue, first + rest, next, ports)
  {
    var ready := queue[|queue| - 1];
    var taken := s.(waiters := s.waiters - {ready});
    var turns := first + rest;
    OpenedJoin(queue, first, longer, rest);
    hide TurnIsDone, Failed, IsReleased, Tried, FailsWith;
    assert Between(s, taken);
    ChainsJoin(taken, first, mid, rest, next);
    ChainsLater(s, taken, turns, next);
    hide Chained, Opened;
    FewerThrough(s.waiters, taken.waiters, mid.waiters);
    FewerThrough(s.waiters, mid.waiters, next.waiters);
    forall d | Opened(queue, turns, d) ensures d !in next.waiters {
    }
    forall d, x | Edge(s.waiters, d, x) && !Edge(next.waiters, d, x) ensures Opened(queue, turns, d) || Failed(turns, x, ports) {
      FailedJoin(first, rest, x, ports);
      LostEdge(s, queue, d, x);
    }
    forall x | StillWaiting(s.waiters, x) ensures StillWaiting(next.waiters, x) || Tried(turns, x) || Failed(turns, x, ports) {
      FailedJoin(first, rest, x, ports);
      ReleasedJoin(first, rest, x);
      WaitsOrListed(s, ready, x);
      if StillWaiting(taken.waiters, x) {
        WaitingIsKept(taken, first, mid, x, ports);
      }
    }
  }

  lemma LostEdge(s: State, queue: seq<Name>, d: Name, x: Name)
    requires queue != [] && Edge(s.waiters, d, x)
    ensures d == queue[|queue| - 1] || Edge(s.waiters - {queue[|queue| - 1]}, d, x)
  {
  }

  lemma WaitsOrListed(s: State, ready: Name, x: Name)
    requires StillWaiting(s.waiters, x) && ready in s.waiters
    ensures StillWaiting(s.waiters - {ready}, x) || x in s.waiters[ready]
  {
    var d :| d in s.waiters && x in s.waiters[d];
    if d != ready {
      assert d in s.waiters - {ready} && x in (s.waiters - {ready})[d];
    }
  }

  lemma OpenedJoin(queue: seq<Name>, first: seq<Turn>, longer: seq<Name>, rest: seq<Turn>)
    requires queue != [] && longer == queue[..|queue| - 1] + ReleasedNames(first)
    ensures forall d :: Opened(queue, first + rest, d) <==> d == queue[|queue| - 1] || Opened(longer, rest, d)
  {
    hide IsReleased, ReleasedNames;
    assert queue == queue[..|queue| - 1] + [queue[|queue| - 1]];
    forall d ensures Opened(queue, first + rest, d) <==> d == queue[|queue| - 1] || Opened(longer, rest, d) {
      ReleasedAreNamed(first, d);
      ReleasedJoin(first, rest, d);
    }
  }

  /**
   * Readiness that is stale changes nothing; otherwise the service is online, and a whole pass follows,
   * opened by it.
   */
  ghost predicate ReadyAnswered(s: State, next: State, name: Name, generation: nat, ports: Ports) {
    if !IsAwaited(s, name, generation) then next == s
    else
      var record := Find(s.records, name).value;
      exists online: State, turns: seq<Turn> ::
        && LeftAs(s, online, name, Some(Record(record.spec, record.runtime.(status := Online))), 1)
        && Completed(online, [name], turns, next, ports)
  }

  lemma ReadyAnswer(s: State, name: Name, generation: nat, ports: Ports)
    requires WaitersKnown(s.records, s.waiters)
    ensures ReadyAnswered(s, OnReady(s, name, generation, ports), name, generation, ports)
  {
    hide LaunchQueue, QueueTurns, Completed, Find, Put, LeftAs;
    if IsAwaited(s, name, generation) {
      var record := Find(s.records, name).value;
      var left := Record(record.spec, record.runtime.(status := Online));
      var online := s.(records := Put(s.records, name, left), tick := s.tick + 1);
      EditedOnce(s, name, left, 1);
      Edited(s.records, name, left);
      WaitersStayKnown(s.records, online.records, s.waiters);
      QueueCompletes(online, [name], ports);
    }
  }
}
