/**
 * How a service comes to start after its dependency has failed (usecases/src/start.rs,
 * supervisor_ready.rs): three services declared as a triangle, started in one command, and the launch
 * of the middle one refused once the first is ready.
 */
module Refusals {
  import opened Graphs
  import opened Model
  import opened ProcessTable
  import DepGraph
  import opened Handlers
  import opened Coherence
  import opened Daemon
  import opened Readiness
  import opened Judge
  import opened Resurrect
  import opened Orphans

  /** The declarations: `a` depends on `n`, `x` on both, and `n` declares a readiness probe. */
  function Triangle(n: Name, a: Name, x: Name): seq<Spec> {
    [Declared(n, [], Some("ready")), Declared(a, [n], None), Declared(x, [n, a], None)]
  }

  /** The ninth answer of the launcher is a refusal; everything else succeeds. */
  function RefusingPorts(n: Name, a: Name, x: Name): Ports {
    Ports(spec => true,
          (t: nat, name: Name) => Some(Declared(name, if name == a then [n] else if name == x then [n, a] else [],
                                                if name == n then Some("ready") else None)),
          (t: nat) => if t == 8 then None else Some(Spawned(t, t, None)),
          (t: nat) => true, (t: nat) => true, (t: nat) => 0, (t: nat) => None, (t: nat) => map[], (t: nat) => true,
          (t: nat) => [])
  }

  predicate Three(n: Name, a: Name, x: Name) { n != a && n != x && a != x }

  lemma Triple<T>(x: T, y: T, z: T)
    ensures [x, y, z][1..] == [y, z] && [x] + [y, z] == [x, y, z] && [x, y] + [z] == [x, y, z]
    ensures [y, z][1..] == [z] && [z][1..] == [] && [y] + [z] == [y, z] && [z] + [] == [z]
  {
  }

  // ----- the start -----

  function TriangleNodeList(n: Name, a: Name, x: Name): seq<DepGraph.Node> {
    [DepGraph.Node(n, []), DepGraph.Node(a, [n]), DepGraph.Node(x, [n, a])]
  }

  lemma TriangleGraph(n: Name, a: Name, x: Name)
    requires Three(n, a, x)
    ensures var nodes := TriangleNodeList(n, a, x);
            && DepGraph.DistinctNames(nodes)
            && (forall p :: DepGraph.Known(nodes, p) <==> p == n || p == a || p == x)
            && (forall p :: p in DepGraph.GraphOf(nodes) <==> p == n || p == a || p == x)
            && (forall p, q :: Edge(DepGraph.GraphOf(nodes), p, q) <==> (p == a && q == n) || (p == x && (q == n || q == a)))
  {
    var nodes := TriangleNodeList(n, a, x);
    DepGraph.GraphOfNodes(nodes);
    assert nodes[0] in nodes && nodes[1] in nodes && nodes[2] in nodes;
  }

  lemma OrderOfThree(n: Name, a: Name, x: Name)
    requires Three(n, a, x)
    ensures DepGraph.TopoSort(TriangleNodeList(n, a, x)) == DepGraph.Ordered([n, a, x])
  {
    var nodes := TriangleNodeList(n, a, x);
    TriangleGraph(n, a, x);
    RankForbidsCycles(DepGraph.GraphOf(nodes), map[n := 0, a := 1, x := 2]);
    hide TriangleNodeList, DepGraph.TopoSort, DepGraph.GraphOf, DepGraph.Known, DepGraph.DistinctNames, Acyclic, Reaches;
    DepGraph.TopoSortExact(nodes);
    assert DepGraph.TopoSort(nodes).Ordered?;
    OnlyOrder(nodes, DepGraph.TopoSort(nodes).order, n, a, x);
  }

  lemma ThreeNodes(n: Name, a: Name, x: Name)
    ensures |TriangleNodeList(n, a, x)| == 3
  {
  }

  lemma OnlyOrder(nodes: seq<DepGraph.Node>, order: seq<Name>, n: Name, a: Name, x: Name)
    requires Three(n, a, x) && nodes == TriangleNodeList(n, a, x)
    requires DepGraph.ExactAnswer(nodes, DepGraph.Ordered(order))
    ensures order == [n, a, x]
  {
    TriangleGraph(n, a, x);
    ThreeNodes(n, a, x);
    hide TriangleNodeList, DepGraph.GraphOf, DepGraph.Known, Acyclic;
    assert order[0] in order && order[1] in order && order[2] in order;
    assert Edge(DepGraph.GraphOf(nodes), a, n) && Edge(DepGraph.GraphOf(nodes), x, n) && Edge(DepGraph.GraphOf(nodes), x, a);
  }

  lemma TriangleNodes(n: Name, a: Name, x: Name)
    ensures MergedNodes([], Triangle(n, a, x)) == TriangleNodeList(n, a, x)
  {
  }

  lemma TriangleBatch(n: Name, a: Name, x: Name)
    ensures InBatch([n, a, x], Triangle(n, a, x)) == [n, a, x]
  {
    var specs := Triangle(n, a, x);
    assert specs[0] in specs && specs[1] in specs && specs[2] in specs;
    assert NamesInclude(specs, n) && NamesInclude(specs, a) && NamesInclude(specs, x);
    hide NamesInclude, Triangle;
    Triple(n, a, x);
    assert InBatch([x], specs) == [x];
    assert InBatch([a, x], specs) == [a, x];
  }

  lemma TriangleAccepted(n: Name, a: Name, x: Name)
    requires Three(n, a, x)
    ensures AcceptedOrder([], Triangle(n, a, x), RefusingPorts(n, a, x)) == Some([n, a, x])
  {
    OrderOfThree(n, a, x);
    TriangleNodes(n, a, x);
    TriangleBatch(n, a, x);
    hide DepGraph.TopoSort, MergedNodes, InBatch, Triangle;
  }

  predicate Registered(record: Record, spec: Spec) {
    record.spec == spec && record.runtime.name == spec.name && record.runtime.status.Stopped?
  }

  lemma TriangleRegistered(n: Name, a: Name, x: Name) returns (second: Record, third: Record)
    requires Three(n, a, x)
    ensures UpsertAll([], Triangle(n, a, x), 0).0 == [Newcomer(Triangle(n, a, x)[0]), second, third]
    ensures Registered(second, Triangle(n, a, x)[1]) && Registered(third, Triangle(n, a, x)[2])
  {
    var specs := Triangle(n, a, x);
    var first := Newcomer(specs[0]);
    Triple(specs[0], specs[1], specs[2]);
    assert Upsert([], specs[0], 0) == [first];
    assert Find([first], a) == None;
    second := Record(specs[1], NewRuntime(LowestFreePmId([first]), a, 0));
    assert Upsert([first], specs[1], 0) == [first, second];
    Two(first, second);
    assert Find([second], x) == None;
    assert Find([first, second], x) == None;
    third := Record(specs[2], NewRuntime(LowestFreePmId([first, second]), x, 0));
    assert Upsert([first, second], specs[2], 0) == [first, second, third];
    assert UpsertAll([first, second], [specs[2]], 0).0 == [first, second, third];
    assert UpsertAll([first], [specs[1], specs[2]], 0).0 == [first, second, third];
  }

  /** `n` launched at tick 5 and waiting for its probe. */
  function Probed(n: Name): Record {
    Record(Declared(n, [], Some("ready")), NewRuntime(1, n, 0).ArmSchedule().MarkLaunched(5, 5))
  }

  ghost predicate Idle(records: seq<Record>, first: Record, second: Record, third: Record, n: Name, a: Name, x: Name) {
    && Three(n, a, x) && records == [first, second, third] && first.runtime.name == n
    && Registered(second, Triangle(n, a, x)[1]) && Registered(third, Triangle(n, a, x)[2])
  }

  lemma FindInThree(first: Record, second: Record, third: Record, n: Name, a: Name, x: Name)
    requires Three(n, a, x) && first.runtime.name == n && second.runtime.name == a && third.runtime.name == x
    ensures var records := [first, second, third];
            Find(records, n) == Some(first) && Find(records, a) == Some(second) && Find(records, x) == Some(third)
    ensures forall updated :: Put([first, second, third], n, updated) == [updated, second, third]
  {
    Triple(first, second, third);
    assert Find([third], x) == Some(third);
    assert Find([second, third], x) == Some(third) && Find([second, third], a) == Some(second);
  }

  lemma FirstUp(s: State, second: Record, third: Record, n: Name, a: Name, x: Name)
    requires Idle(s.records, Newcomer(Triangle(n, a, x)[0]), second, third, n, a, x) && s.tick == 5
    ensures var (tried, outcome) := LaunchOne(s, n, true, RefusingPorts(n, a, x));
            && tried == s.(records := [Probed(n), second, third], tick := 6,
                           launched := s.launched + [Launch.Launch(n, 5)])
            && outcome == Some(StartOutcome(1, n, Some(5), Fresh)) && AwaitsReady(tried.records, n)
  {
    FindInThree(Newcomer(Triangle(n, a, x)[0]), second, third, n, a, x);
    FindInThree(Probed(n), second, third, n, a, x);
    hide Find, Put;
  }

  function DeferredOutcome(record: Record): StartOutcome {
    StartOutcome(record.runtime.pmId, record.runtime.name, None, Deferred)
  }

  lemma TriangleNeeds(n: Name, a: Name, x: Name)
    requires Three(n, a, x)
    ensures DependsOnOf(Triangle(n, a, x), n) == []
    ensures DependsOnOf(Triangle(n, a, x), a) == [n] && DependsOnOf(Triangle(n, a, x), x) == [n, a]
    ensures WaitingDependencies([], {}) == []
    ensures WaitingDependencies([n], {n}) == [n] && WaitingDependencies([n, a], {n, a}) == [n, a]
  {
    var specs := Triangle(n, a, x);
    assert specs[..2] == [specs[0], specs[1]] && specs[..2][..1] == [specs[0]];
    assert DependsOnOf([specs[0]], n) == [];
    assert DependsOnOf(specs[..2], n) == [];
    assert [n, a][1..] == [a] && [n][1..] == [] && [a][1..] == [];
    assert WaitingDependencies([a], {n, a}) == [a];
  }

  lemma OthersDeferred(s: State, first: Record, second: Record, third: Record, n: Name, a: Name, x: Name)
    requires Idle(s.records, first, second, third, n, a, x)
    ensures LaunchBatch(s, [a, x], Triangle(n, a, x), {n}, RefusingPorts(n, a, x))
            == (s, StartReport([DeferredOutcome(second), DeferredOutcome(third)], false,
                               [DeferredStart(a, [n]), DeferredStart(x, [n, a])]))
  {
    var specs, ports := Triangle(n, a, x), RefusingPorts(n, a, x);
    FindInThree(first, second, third, n, a, x);
    TriangleNeeds(n, a, x);
    hide Find, DependsOnOf, WaitingDependencies, RefusingPorts, LaunchOne;
    Triple(n, a, x);
    assert {n} + {a} == {n, a};
    assert LaunchBatch(s, [], specs, {n, a} + {x}, ports) == (s, StartReport([], false, []));
    assert [DeferredOutcome(third)] + [] == [DeferredOutcome(third)];
    assert [DeferredStart(x, [n, a])] + [] == [DeferredStart(x, [n, a])];
    assert LaunchBatch(s, [x], specs, {n, a}, ports)
        == (s, StartReport([DeferredOutcome(third)], false, [DeferredStart(x, [n, a])]));
    Two(DeferredOutcome(second), DeferredOutcome(third));
    Two(DeferredStart(a, [n]), DeferredStart(x, [n, a]));
  }

  function TriangleOutcomes(second: Record, third: Record, n: Name): seq<StartOutcome> {
    [StartOutcome(1, n, Some(5), Fresh), DeferredOutcome(second), DeferredOutcome(third)]
  }

  lemma TriangleLaunched(s: State, second: Record, third: Record, n: Name, a: Name, x: Name)
    requires Idle(s.records, Newcomer(Triangle(n, a, x)[0]), second, third, n, a, x) && s.tick == 5
    ensures LaunchBatch(s, [n, a, x], Triangle(n, a, x), {}, RefusingPorts(n, a, x))
            == (s.(records := [Probed(n), second, third], tick := 6, launched := s.launched + [Launch.Launch(n, 5)]),
                StartReport(TriangleOutcomes(second, third, n), false, [DeferredStart(a, [n]), DeferredStart(x, [n, a])]))
  {
    var specs, ports := Triangle(n, a, x), RefusingPorts(n, a, x);
    FirstUp(s, second, third, n, a, x);
    var (tried, outcome) := LaunchOne(s, n, true, ports);
    assert Probed(n).runtime.name == n;
    OthersDeferred(tried, Probed(n), second, third, n, a, x);
    TriangleNeeds(n, a, x);
    Triple(n, a, x);
    assert {} + {n} == {n};
    Triple(outcome.value, DeferredOutcome(second), DeferredOutcome(third));
    hide LaunchOne, RefusingPorts, Probed, AwaitsReady, DependsOnOf, WaitingDependencies, Triangle;
  }

  /** The state after the start: `a` and `x` wait as their declarations say. */
  lemma TriangleStarted(n: Name, a: Name, x: Name) returns (second: Record, third: Record)
    requires Three(n, a, x)
    ensures Idle([Probed(n), second, third], Probed(n), second, third, n, a, x)
    ensures var s := NEW_SUPERVISOR.(tick := 4);
            StartApps(s, Triangle(n, a, x), RefusingPorts(n, a, x))
            == (s.(records := [Probed(n), second, third], tick := 7, launched := [Launch.Launch(n, 5)]),
                StartReport(TriangleOutcomes(second, third, n), false, [DeferredStart(a, [n]), DeferredStart(x, [n, a])]))
  {
    TriangleAccepted(n, a, x);
    second, third := TriangleRegistered(n, a, x);
    var listed := NEW_SUPERVISOR.(tick := 5, records := [Newcomer(Triangle(n, a, x)[0]), second, third]);
    TriangleLaunched(listed, second, third, n, a, x);
    hide AcceptedOrder, UpsertAll, LaunchBatch;
    assert NEW_SUPERVISOR.launched + [Launch.Launch(n, 5)] == [Launch.Launch(n, 5)];
  }

  lemma TrianglePrepared(s: State, n: Name, a: Name, x: Name)
    requires Three(n, a, x) && s.tick == 1
    ensures PrepareAll(s, [n, a, x], RefusingPorts(n, a, x)) == (s.(tick := 4), Some(Triangle(n, a, x)))
  {
    var ports, specs := RefusingPorts(n, a, x), Triangle(n, a, x);
    Triple(n, a, x);
    Triple(specs[0], specs[1], specs[2]);
    var second, third, last := Tick(s), Tick(Tick(s)), Tick(Tick(Tick(s)));
    assert Prepare(s, n, ports) == Some(specs[0]) && Prepare(second, a, ports) == Some(specs[1])
        && Prepare(third, x, ports) == Some(specs[2]);
    hide Prepare;
    assert PrepareAll(last, [], ports) == (last, Some([]));
    assert PrepareAll(third, [x], ports) == (last, Some([specs[2]]));
    assert PrepareAll(second, [a, x], ports) == (last, Some([specs[1], specs[2]]));
  }

  lemma TriangleWaits(n: Name, a: Name, x: Name)
    requires Three(n, a, x)
    ensures AddPending(map[], [DeferredStart(a, [n]), DeferredStart(x, [n, a])]) == map[n := [a, x], a := [x]]
  {
    var one, both, all := map[n := [a]], map[n := [a, x]], map[n := [a, x], a := [x]];
    Two(DeferredStart(a, [n]), DeferredStart(x, [n, a]));
    One(DeferredStart(x, [n, a]));
    One(n);
    One(a);
    Two(n, a);
    Two(a, x);
    assert [] + [a] == [a] && [] + [x] == [x];
    assert AddWaiter(map[], n, a) == one && AddWaiter(one, n, x) == both && AddWaiter(both, a, x) == all;
    hide AddWaiter;
    assert AddWaits(one, a, []) == one && AddWaits(all, x, []) == all;
    assert AddWaits(map[], a, [n]) == one;
    assert AddWaits(both, x, [a]) == all;
    assert AddWaits(one, x, [n, a]) == all;
    assert AddPending(one, [DeferredStart(x, [n, a])]) == AddPending(all, []) == all;
  }

  /** Only `n` is watched, under the first generation. */
  lemma TriangleWatched(s: State, second: Record, third: Record, n: Name, a: Name, x: Name)
    requires Idle(s.records, Probed(n), second, third, n, a, x) && s.timers == EMPTY_TIMERS && s.waiters == map[]
    ensures var os := TriangleOutcomes(second, third, n);
            var watched := WatchAll(s, os);
            && watched.waiters == map[]
            && forall waiters ::
                 var next := SettleStarted(watched.(waiters := waiters), os, RefusingPorts(n, a, x));
                 && next.records == s.records && next.waiters == waiters && next.tick == s.tick
                 && next.launched == s.launched && next.timers.IsCurrent(n, 1)
  {
    var os := TriangleOutcomes(second, third, n);
    Triple(os[0], os[1], os[2]);
    FindInThree(Probed(n), second, third, n, a, x);
    var watched := Watch(s, os[0]);
    WatchLogsNothing(s, os[0]);
    assert watched.timers.IsCurrent(n, 1);
    assert WatchAll(watched, [os[1], os[2]]) == WatchAll(watched, [os[2]]) == WatchAll(watched, []) == watched;
    forall waiters
      ensures var next := SettleStarted(watched.(waiters := waiters), os, RefusingPorts(n, a, x));
              && next.records == s.records && next.waiters == waiters && next.tick == s.tick
              && next.launched == s.launched && next.timers.IsCurrent(n, 1) {
      hide Watch, Idle, TriangleOutcomes, SettleStarted;
      Settled(watched.(waiters := waiters), second, third, n, a, x);
    }
  }

  lemma Settled(s: State, second: Record, third: Record, n: Name, a: Name, x: Name)
    requires Idle(s.records, Probed(n), second, third, n, a, x)
    ensures var next := SettleStarted(s, TriangleOutcomes(second, third, n), RefusingPorts(n, a, x));
            && next.records == s.records && next.timers.generations == s.timers.generations
            && next.waiters == s.waiters && next.tick == s.tick && next.launched == s.launched
  {
    var os, ports := TriangleOutcomes(second, third, n), RefusingPorts(n, a, x);
    Triple(os[0], os[1], os[2]);
    FindInThree(Probed(n), second, third, n, a, x);
    var cancelled := CancelQueuedRestart(s, n);
    Unarmed(cancelled, n, ports);
    var armed := ArmTimerFor(cancelled, n, ports);
    hide ArmTimerFor, Find;
    var later := CancelQueuedRestart(armed, os[1].name);
    var last := CancelQueuedRestart(later, os[2].name);
    assert SettleStarted(last, [], ports) == last;
    assert SettleStarted(later, [os[2]], ports) == last;
    assert SettleStarted(armed, [os[1], os[2]], ports) == last;
  }

  lemma Unarmed(s: State, n: Name, ports: Ports)
    requires Find(s.records, n) == Some(Probed(n))
    ensures var next := ArmTimerFor(s, n, ports);
            && next.records == s.records && next.timers.generations == s.timers.generations
            && next.waiters == s.waiters && next.tick == s.tick && next.launched == s.launched
  {
    hide Find, WatchesIn;
  }

  lemma TriangleStart(n: Name, a: Name, x: Name) returns (second: Record, third: Record)
    requires Three(n, a, x)
    ensures var next := Start(NEW_SUPERVISOR.(tick := 1), [n, a, x], RefusingPorts(n, a, x));
            && Idle(next.records, Probed(n), second, third, n, a, x)
            && next.waiters == map[n := [a, x], a := [x]] && next.tick == 7 && next.timers.IsCurrent(n, 1)
  {
    TrianglePrepared(NEW_SUPERVISOR.(tick := 1), n, a, x);
    second, third := TriangleStarted(n, a, x);
    TriangleWaits(n, a, x);
    hide StartApps, PrepareAll, WatchAll, SettleStarted, AddPending, Triangle, TriangleOutcomes;
    var (started, report) := StartApps(NEW_SUPERVISOR.(tick := 4), Triangle(n, a, x), RefusingPorts(n, a, x));
    TriangleWatched(started, second, third, n, a, x);
  }

  // ----- the pass -----

  /** What the run reaches: `x` was started by the pass in which `a`, which it waited for, failed. */
  ghost predicate StartedRegardless(before: State, after: State, a: Name, x: Name) {
    && Edge(before.waiters, a, x)
    && (exists i :: |before.launched| <= i < |after.launched| && after.launched[i].name == x)
    && Find(after.records, a).Some? && Find(after.records, a).value.runtime.status.Errored?
  }

  lemma ReadyBreaks(s: State, second: Record, third: Record, n: Name, a: Name, x: Name)
    requires Idle(s.records, Probed(n), second, third, n, a, x) && s.tick == 7 && s.timers.IsCurrent(n, 1)
    requires s.waiters == map[n := [a, x], a := [x]]
    ensures StartedRegardless(s, OnReady(s, n, 1, RefusingPorts(n, a, x)), a, x)
  {
    var ports := RefusingPorts(n, a, x);
    FindInThree(Probed(n), second, third, n, a, x);
    var online := Probed(n).With(Probed(n).runtime.MarkOnline());
    FindInThree(online, second, third, n, a, x);
    hide Find, Put;
    var ready := Tick(SetRecord(s, n, online));
    assert OnReady(s, n, 1, ports) == LaunchWaiters(ready, n, ports);
    RefusedDependencyStillStarts(ready, n, a, x, ports);
    hide LaunchWaiters;
  }

  function TriangleEvents(n: Name, a: Name, x: Name): seq<Event> {
    [StartServices([n, a, x]), BecameReady(n, 1)]
  }

  lemma HandleReady(s: State, n: Name, generation: nat, ports: Ports)
    ensures Handle(s, BecameReady(n, generation), ports) == OnReady(s, n, generation, ports)
  {
    hide OnReady;
  }

  /**
   * Refusals break the order: booted on an empty store, a daemon that is told to start such a triangle
   * and is refused the launch of `a` once `n` is ready spawns `x` in the same pass, `a` being errored.
   */
  lemma RefusalsHappen(trust: Trust, host: Host, n: Name, a: Name, x: Name)
    requires Three(n, a, x)
    ensures var ports := RefusingPorts(n, a, x);
            var w := FirstWorld(trust, host, ports);
            && Inv(w) && EnabledRun(w, TriangleEvents(n, a, x), ports)
            && StartedRegardless(Step(w, StartServices([n, a, x]), ports).sup,
                                 Run(w, TriangleEvents(n, a, x), ports).sup, a, x)
  {
    var ports := RefusingPorts(n, a, x);
    var w := FirstWorld(trust, host, ports);
    FirstWorldIs(trust, host, ports);
    hide FirstWorld, Inv, StartedRegardless, RefusingPorts, Start, OnReady, Handle, WatchesIn;
    var second, third := TriangleStart(n, a, x);
    HandleStart(Begun(w), [n, a, x], ports);
    var started := Step(w, StartServices([n, a, x]), ports);
    ReadyBreaks(Begun(started), second, third, n, a, x);
    HandleReady(Begun(started), n, 1, ports);
    BegunAlike(started, Handle(Begun(started), BecameReady(n, 1), ports), a, x);
    TwoSteps(w, StartServices([n, a, x]), BecameReady(n, 1), ports);
  }

  lemma BegunAlike(w: World, after: State, a: Name, x: Name)
    requires StartedRegardless(Begun(w), after, a, x)
    ensures StartedRegardless(w.sup, after, a, x)
  {
  }
}
