/**
 * How an exit watch comes to outlive its service (usecases/src/delete.rs, start.rs): a service deleted
 * while its process drains and declared again behind a dependency that awaits its probe has a settled
 * record, and the watch of its old process is current for it.
 */
module Orphans {
  import opened Graphs
  import opened Model
  import opened ProcessTable
  import DepGraph
  import opened Handlers
  import opened Coherence
  import opened Daemon
  import opened StickyStop
  import opened Resurrect
  import opened Judge

  const OPEN_SANDBOX := SandboxPolicy(DangerFullAccess, Full, true, [], [], [], [], [])

  function Declared(name: Name, dependsOn: seq<Name>, probe: Option<string>): Spec {
    Spec(name, "run", [], "/", [], true, 1000, 10, 100, 1000, None, dependsOn, None, probe, None, [], OPEN_SANDBOX)
  }

  /** A world where everything succeeds; from its third answer on `n` is declared as depending on `d`. */
  function ScenePorts(n: Name, d: Name): Ports {
    Ports(spec => true,
          (t: nat, name: Name) =>
            Some(if name == d then Declared(d, [], Some("ready"))
                 else if t < 3 then Declared(name, [], None) else Declared(name, [d], None)),
          (t: nat) => Some(Spawned(t, t, None)),
          (t: nat) => true, (t: nat) => true, (t: nat) => 0, (t: nat) => None, (t: nat) => map[], (t: nat) => true,
          (t: nat) => [])
  }

  function SceneEvents(n: Name, d: Name): seq<Event> {
    [StartServices([n]), DeleteService(ByName(n)), StartServices([d, n])]
  }

  // ----- the boot of an empty store -----

  lemma EmptyBoot(trust: Trust, host: Host, ports: Ports)
    ensures Boot([], trust, host, ports) == Tick(NEW_SUPERVISOR)
  {
    hide JudgeVerdict;
    var judged := JudgeAll([], trust, host);
    assert ForgetAll([], judged) == [];
    assert DependencyNodes([]) == [];
    DepGraph.TopoSortExact([]);
    assert DependencyOrder([]) == [];
  }

  // ----- short lists -----

  lemma One<T>(x: T)
    ensures [x][1..] == [] && [x][..0] == [] && [x] + [] == [x]
  {
  }

  lemma Two<T>(x: T, y: T)
    ensures [x, y][1..] == [y] && [x, y][..1] == [x] && [x] + [y] == [x, y]
  {
  }

  // ----- the orders -----

  lemma OrderOfOne(n: Name)
    ensures DepGraph.TopoSort([DepGraph.Node(n, [])]) == DepGraph.Ordered([n])
  {
    var nodes := [DepGraph.Node(n, [])];
    DepGraph.TopoSortExact(nodes);
    DepGraph.GraphOfNodes(nodes);
    var g := DepGraph.GraphOf(nodes);
    assert nodes[0] in nodes;
    RankForbidsCycles(g, map[]);
    var order := DepGraph.TopoSort(nodes).order;
    assert order[0] in order;
    assert order == [n];
  }

  lemma OrderOfTwo(n: Name, d: Name)
    requires n != d
    ensures DepGraph.TopoSort([DepGraph.Node(d, []), DepGraph.Node(n, [d])]) == DepGraph.Ordered([d, n])
  {
    var nodes := [DepGraph.Node(d, []), DepGraph.Node(n, [d])];
    DepGraph.TopoSortExact(nodes);
    DepGraph.GraphOfNodes(nodes);
    var g := DepGraph.GraphOf(nodes);
    assert nodes[0] in nodes && nodes[1] in nodes;
    forall a, b ensures Edge(g, a, b) <==> a == n && b == d {
    }
    RankForbidsCycles(g, map[n := 1, d := 0]);
    var order := DepGraph.TopoSort(nodes).order;
    assert order[0] in order && order[1] in order;
    assert Edge(g, n, d);
    assert order == [d, n];
  }

  // ----- the first start -----

  function Up(n: Name): Runtime {
    NewRuntime(1, n, 0).ArmSchedule().MarkLaunched(3, 3).MarkOnline()
  }

  function FirstRecord(n: Name): Record { Record(Declared(n, [], None), Up(n)) }

  function Newcomer(spec: Spec): Record { Record(spec, NewRuntime(1, spec.name, 0)) }

  lemma FirstRegistered(n: Name)
    ensures UpsertAll([], [Declared(n, [], None)], 0) == ([Newcomer(Declared(n, [], None))], [Prior(n, None)])
  {
    var spec := Declared(n, [], None);
    One(spec);
    One(Prior(n, None));
    assert Upsert([], spec, 0) == [Newcomer(spec)];
    assert UpsertAll([Newcomer(spec)], [], 0) == ([Newcomer(spec)], []);
  }

  lemma FirstAccepted(n: Name, d: Name)
    ensures AcceptedOrder([], [Declared(n, [], None)], ScenePorts(n, d)) == Some([n])
  {
    var spec := Declared(n, [], None);
    OrderOfOne(n);
    hide DepGraph.TopoSort;
    One(n);
    assert spec in [spec];
    assert MergedNodes([], [spec]) == [DepGraph.Node(n, [])];
    assert NamesInclude([spec], n);
    assert InBatch([n], [spec]) == [n];
  }

  lemma FirstLaunched(s: State, n: Name, d: Name)
    requires n != d && s.records == [Newcomer(Declared(n, [], None))] && s.tick == 3
    ensures LaunchBatch(s, [n], [Declared(n, [], None)], {}, ScenePorts(n, d))
            == (s.(records := [FirstRecord(n)], launched := s.launched + [Launch.Launch(n, 3)], tick := 4),
                StartReport([StartOutcome(1, n, Some(3), Fresh)], false, []))
  {
    var spec, ports := Declared(n, [], None), ScenePorts(n, d);
    One(n);
    One(Newcomer(spec));
    assert Put(s.records, n, FirstRecord(n)) == [FirstRecord(n)];
    var (tried, outcome) := LaunchOne(s, n, true, ports);
    assert tried == s.(records := [FirstRecord(n)], launched := s.launched + [Launch.Launch(n, 3)], tick := 4);
    assert outcome == Some(StartOutcome(1, n, Some(3), Fresh));
    assert DependsOnOf([spec], n) == [];
    assert !AwaitsReady(tried.records, n);
    One(outcome.value);
    assert LaunchBatch(tried, [], [spec], {}, ports) == (tried, StartReport([], false, []));
  }

  lemma FirstBatch(n: Name, d: Name)
    requires n != d
    ensures var s := NEW_SUPERVISOR.(tick := 2);
            StartApps(s, [Declared(n, [], None)], ScenePorts(n, d))
            == (s.(records := [FirstRecord(n)], launched := [Launch.Launch(n, 3)], tick := 5),
                StartReport([StartOutcome(1, n, Some(3), Fresh)], false, []))
  {
    FirstAccepted(n, d);
    FirstRegistered(n);
    hide AcceptedOrder, UpsertAll, LaunchBatch;
    assert NEW_SUPERVISOR.launched + [Launch.Launch(n, 3)] == [Launch.Launch(n, 3)];
    FirstLaunched(Tick(NEW_SUPERVISOR.(tick := 2, records := [Newcomer(Declared(n, [], None))])), n, d);
  }

  lemma FirstWatched(s: State, n: Name, d: Name)
    requires s.records == [FirstRecord(n)] && s.timers == EMPTY_TIMERS && s.effects == []
    ensures var o := StartOutcome(1, n, Some(3), Fresh);
            var next := SettleStarted(WatchAll(s, [o]), [o], ScenePorts(n, d));
            && next == s.(timers := Timers(map[], {}, map[n := 1], 1), effects := next.effects)
            && WatchesIn(next.effects) == [ExitWatch(n, 1, 3)]
  {
    var o, ports := StartOutcome(1, n, Some(3), Fresh), ScenePorts(n, d);
    One(o);
    WatchedUp(s, n);
    var watched := Watch(s, o);
    hide Watch;
    assert WatchAll(s, [o]) == WatchAll(watched, []) == watched;
    var cancelled := CancelQueuedRestart(watched, n);
    var armed := ArmTimerFor(cancelled, n, ports);
    Unscheduled(cancelled, n, ports);
    hide ArmTimerFor, WatchesIn, CancelQueuedRestart;
    assert SettleStarted(watched, [o], ports) == SettleStarted(armed, [], ports) == armed;
  }

  lemma WatchedUp(s: State, n: Name)
    requires s.records == [FirstRecord(n)] && s.timers == EMPTY_TIMERS && s.effects == []
    ensures var next := Watch(s, StartOutcome(1, n, Some(3), Fresh));
            && next == s.(timers := Timers(map[], {}, map[n := 1], 1), effects := next.effects)
            && WatchesIn(next.effects) == [ExitWatch(n, 1, 3)]
  {
    assert WatchesIn([]) == [];
    assert Find(s.records, n) == Some(FirstRecord(n));
  }

  lemma Unscheduled(s: State, n: Name, ports: Ports)
    requires s.records == [FirstRecord(n)] && s.timers.fires == map[]
    ensures var next := ArmTimerFor(s, n, ports);
            next == s.(effects := next.effects) && WatchesIn(next.effects) == WatchesIn(s.effects)
  {
    assert Find(s.records, n) == Some(FirstRecord(n));
    assert s.timers.fires - {n} == map[];
  }

  lemma FirstStart(n: Name, d: Name)
    requires n != d
    ensures var next := Start(NEW_SUPERVISOR.(tick := 1), [n], ScenePorts(n, d));
            && next.records == [FirstRecord(n)] && next.waiters == map[] && next.readyFailed == {}
            && next.timers == Timers(map[], {}, map[n := 1], 1) && next.tick == 5
            && WatchesIn(next.effects) == [ExitWatch(n, 1, 3)]
  {
    var s, spec, ports := NEW_SUPERVISOR.(tick := 1), Declared(n, [], None), ScenePorts(n, d);
    FirstBatch(n, d);
    One(n);
    One(spec);
    assert PrepareAll(Tick(s), [], ports) == (Tick(s), Some([]));
    assert PrepareAll(s, [n], ports) == (Tick(s), Some([spec]));
    hide StartApps, PrepareAll, WatchAll, SettleStarted, WatchesIn;
    var (started, report) := StartApps(Tick(s), [spec], ports);
    FirstWatched(started, n, d);
    var o := StartOutcome(1, n, Some(3), Fresh);
    WatchAllLeavesWaiters(started, [o]);
    var watched := WatchAll(started, [o]);
    assert watched.(waiters := AddPending(watched.waiters, [])) == watched;
  }

  lemma {:induction false} WatchAllLeavesWaiters(s: State, outcomes: seq<StartOutcome>)
    ensures WatchAll(s, outcomes).waiters == s.waiters
    decreases |outcomes|
  {
    hide Watch;
    if outcomes != [] {
      WatchAllLeavesWaiters(Watch(s, outcomes[0]), outcomes[1..]);
    }
  }

  // ----- the delete -----

  /** After the first start, its effects handed over. */
  function AfterStart(n: Name, launched: seq<Launch>, panicked: bool): State {
    State([FirstRecord(n)], Timers(map[], {}, map[n := 1], 1), map[], {}, [], launched, 5, panicked)
  }

  lemma DeleteWhileDraining(n: Name, d: Name, launched: seq<Launch>, panicked: bool)
    requires n != d
    ensures var next := Delete(AfterStart(n, launched, panicked), ByName(n), ScenePorts(n, d));
            && next.records == [] && next.waiters == map[] && next.readyFailed == {}
            && next.timers == Timers(map[], {}, map[n := 1], 1) && next.tick == 7
            && WatchesIn(next.effects) == []
  {
    var s, ports := AfterStart(n, launched, panicked), ScenePorts(n, d);
    var record := FirstRecord(n);
    assert FindBy([record], ByName(n)) == Some(record) && Find([record], n) == Some(record);
    var stopping := record.With(record.runtime.MarkStopping());
    assert Put([record], n, stopping) == [stopping];
    var asked := s.(records := [stopping], tick := 6);
    assert RequestStop(s, n, ports) == (asked, Some(StopOutcome(n, Some(3))));
    assert Remove([stopping], n) == [] by { assert [stopping][1..] == []; }
    var removed := s.(records := [], tick := 7);
    assert !HasDependents(s.records, n);
    assert DeleteOne(s, n, ports) == (removed, Some(StopOutcome(n, Some(3))));
    assert DeleteApp(s, ByName(n), ports) == (removed, Some(StopOutcome(n, Some(3))));
    RetireGone(removed, n);
    assert WatchesIn([]) == [];
  }

  lemma RetireGone(s: State, n: Name)
    requires s.waiters == map[] && s.timers.fires == map[] && s.timers.restarts == {} && s.readyFailed == {}
    ensures forall token :: var next := Retire(s, n, Some(3), token);
                            && next == s.(effects := next.effects) && WatchesIn(next.effects) == WatchesIn(s.effects)
  {
    hide WatchesIn;
    var cancelled := CancelQueuedRestart(Disarm(s, n), n);
    assert ForgetWaiter(map[], n) == map[];
    assert FailDead(cancelled, []).0 == cancelled;
    assert cancelled.(waiters := map[] - {n}) == cancelled;
    assert CancelReadyOf(cancelled, n) == Emit(cancelled, CancelReady(n));
  }

  // ----- the second start -----

  /** Nothing on record, and the generation of the deleted service still the last. */
  function AfterDelete(n: Name, launched: seq<Launch>, panicked: bool): State {
    State([], Timers(map[], {}, map[n := 1], 1), map[], {}, [], launched, 7, panicked)
  }

  function Dependency(d: Name): Spec { Declared(d, [], Some("ready")) }

  function Dependent(n: Name, d: Name): Spec { Declared(n, [d], None) }

  function Probing(d: Name): Record {
    Record(Dependency(d), NewRuntime(1, d, 0).ArmSchedule().MarkLaunched(10, 10))
  }

  lemma BothAccepted(n: Name, d: Name)
    requires n != d
    ensures AcceptedOrder([], [Dependency(d), Dependent(n, d)], ScenePorts(n, d)) == Some([d, n])
  {
    var specs := [Dependency(d), Dependent(n, d)];
    OrderOfTwo(n, d);
    hide DepGraph.TopoSort;
    assert specs[0] in specs && specs[1] in specs;
    Two(specs[0], specs[1]);
    One(specs[1]);
    Two(d, n);
    One(n);
    assert SpecNodes(specs) == [DepGraph.Node(d, []), DepGraph.Node(n, [d])];
    assert MergedNodes([], specs) == [DepGraph.Node(d, []), DepGraph.Node(n, [d])];
    assert NamesInclude(specs, d) && NamesInclude(specs, n);
    assert InBatch([n], specs) == [n];
    assert InBatch([d, n], specs) == [d, n];
  }

  lemma BothRegistered(n: Name, d: Name) returns (second: Record)
    requires n != d
    ensures UpsertAll([], [Dependency(d), Dependent(n, d)], 0).0 == [Newcomer(Dependency(d)), second]
    ensures second.spec == Dependent(n, d) && second.runtime.name == n && second.runtime.status.Stopped?
  {
    var specs := [Dependency(d), Dependent(n, d)];
    var first := Record(specs[0], NewRuntime(1, d, 0));
    Two(specs[0], specs[1]);
    One(specs[1]);
    assert Upsert([], specs[0], 0) == [first];
    assert Find([first], n) == None;
    second := Record(specs[1], NewRuntime(LowestFreePmId([first]), n, 0));
    assert Upsert([first], specs[1], 0) == [first, second];
    assert UpsertAll([first], [specs[1]], 0).0 == [first, second];
  }

  /** The batch launches the dependency, which awaits its probe, and defers the service behind it. */
  lemma SecondBatch(n: Name, d: Name, launched: seq<Launch>, panicked: bool) returns (second: Record)
    requires n != d
    ensures second.spec == Dependent(n, d) && second.runtime.name == n && second.runtime.status.Stopped?
    ensures var (started, report) := StartApps(AfterDelete(n, launched, panicked).(tick := 9),
                                               [Dependency(d), Dependent(n, d)], ScenePorts(n, d));
            && started.records == [Probing(d), second] && started.timers == Timers(map[], {}, map[n := 1], 1)
            && started.effects == []
            && report.outcomes == [StartOutcome(1, d, Some(10), Fresh), StartOutcome(second.runtime.pmId, n, None, Deferred)]
  {
    var s, specs, ports := AfterDelete(n, launched, panicked).(tick := 9), [Dependency(d), Dependent(n, d)], ScenePorts(n, d);
    BothAccepted(n, d);
    second := BothRegistered(n, d);
    hide AcceptedOrder, UpsertAll, LaunchBatch;
    var listed := Tick(s.(records := [Newcomer(Dependency(d)), second]));
    BothLaunched(listed, n, d, second);
  }

  lemma BothLaunched(s: State, n: Name, d: Name, second: Record)
    requires n != d && s.records == [Newcomer(Dependency(d)), second] && s.tick == 10 && second.runtime.name == n
    ensures var (tried, report) := LaunchBatch(s, [d, n], [Dependency(d), Dependent(n, d)], {}, ScenePorts(n, d));
            && tried.records == [Probing(d), second] && tried.timers == s.timers && tried.effects == s.effects
            && report == StartReport([StartOutcome(1, d, Some(10), Fresh),
                                      StartOutcome(second.runtime.pmId, n, None, Deferred)], false, [DeferredStart(n, [d])])
  {
    var specs, ports := [Dependency(d), Dependent(n, d)], ScenePorts(n, d);
    LaunchedFirst(s, n, d, second);
    var (tried, outcome) := LaunchOne(s, d, true, ports);
    DeferredSecond(tried, n, d, second);
    Two(d, n);
    Two(specs[0], specs[1]);
    One(specs[0]);
    var late := StartOutcome(second.runtime.pmId, n, None, Deferred);
    Two(outcome.value, late);
    assert DependsOnOf(specs, d) == [];
    hide LaunchOne, ScenePorts, Probing, AwaitsReady, DependsOnOf;
    var (last, report) := LaunchBatch(tried, [n], specs, {} + {d}, ports);
    assert {} + {d} == {d};
    assert WaitingDependencies([], {}) == [];
  }

  lemma LaunchedFirst(s: State, n: Name, d: Name, second: Record)
    requires n != d && s.records == [Newcomer(Dependency(d)), second] && s.tick == 10
    ensures var (tried, outcome) := LaunchOne(s, d, true, ScenePorts(n, d));
            && tried.records == [Probing(d), second] && tried.timers == s.timers && tried.effects == s.effects
            && outcome == Some(StartOutcome(1, d, Some(10), Fresh)) && AwaitsReady(tried.records, d)
  {
    var first := Record(Dependency(d), NewRuntime(1, d, 0));
    Two(first, second);
    Two(Probing(d), second);
    assert Put([first, second], d, Probing(d)) == [Probing(d), second];
  }

  lemma DeferredSecond(s: State, n: Name, d: Name, second: Record)
    requires n != d && s.records == [Probing(d), second] && second.runtime.name == n
    ensures LaunchBatch(s, [n], [Dependency(d), Dependent(n, d)], {d}, ScenePorts(n, d))
            == (s, StartReport([StartOutcome(second.runtime.pmId, n, None, Deferred)], false, [DeferredStart(n, [d])]))
  {
    var specs := [Dependency(d), Dependent(n, d)];
    One(n);
    One(d);
    Two(Probing(d), second);
    assert DependsOnOf(specs, n) == [d];
    assert WaitingDependencies([d], {d}) == [d];
    assert Find([second], n) == Some(second);
    assert Find(s.records, n) == Some(second);
    One(StartOutcome(second.runtime.pmId, n, None, Deferred));
    One(DeferredStart(n, [d]));
    assert LaunchBatch(s, [], specs, {d} + {n}, ScenePorts(n, d)) == (s, StartReport([], false, []));
  }

  /** The dependency is watched under a new generation; the deferred service keeps its old one. */
  lemma SecondWatched(s: State, n: Name, d: Name, second: Record)
    requires n != d && s.records == [Probing(d), second] && s.timers == Timers(map[], {}, map[n := 1], 1) && s.effects == []
    ensures var os := [StartOutcome(1, d, Some(10), Fresh), StartOutcome(second.runtime.pmId, n, None, Deferred)];
            forall waiters ::
              var next := SettleStarted(WatchAll(s, os).(waiters := waiters), os, ScenePorts(n, d));
              next.records == s.records && next.timers.CurrentGeneration(n) == 1
  {
    var first, late := StartOutcome(1, d, Some(10), Fresh), StartOutcome(second.runtime.pmId, n, None, Deferred);
    Two(first, late);
    One(late);
    var watched := Watch(s, first);
    assert watched.timers.CurrentGeneration(n) == 1;
    assert WatchAll(s, [first, late]) == WatchAll(watched, [late]) == WatchAll(watched, []) == watched;
    forall waiters
      ensures var next := SettleStarted(watched.(waiters := waiters), [first, late], ScenePorts(n, d));
              next.records == s.records && next.timers.CurrentGeneration(n) == 1 {
      hide Watch;
      SettlingLeavesGenerations(watched.(waiters := waiters), [first, late], ScenePorts(n, d));
    }
  }

  lemma {:induction false} SettlingLeavesGenerations(s: State, outcomes: seq<StartOutcome>, ports: Ports)
    ensures var next := SettleStarted(s, outcomes, ports);
            next.records == s.records && next.timers.generations == s.timers.generations
    decreases |outcomes|
  {
    if outcomes != [] {
      var cancelled := CancelQueuedRestart(s, outcomes[0].name);
      ArmTimerIsAside(cancelled, outcomes[0].name, ports);
      hide ArmTimerFor;
      SettlingLeavesGenerations(if outcomes[0].kind.Deferred? then cancelled
                                else ArmTimerFor(cancelled, outcomes[0].name, ports), outcomes[1..], ports);
    }
  }

  lemma SecondStart(n: Name, d: Name, launched: seq<Launch>, panicked: bool)
    requires n != d
    ensures var next := Start(AfterDelete(n, launched, panicked), [d, n], ScenePorts(n, d));
            && Has(next.records, n) && Find(next.records, n).value.spec == Dependent(n, d)
            && !Unsettled(next.records, n) && next.timers.CurrentGeneration(n) == 1
  {
    var s, ports := AfterDelete(n, launched, panicked), ScenePorts(n, d);
    var specs := [Dependency(d), Dependent(n, d)];
    BothPrepared(s, n, d);
    var second := SecondBatch(n, d, launched, panicked);
    hide StartApps, PrepareAll, WatchAll, SettleStarted, AddPending;
    var (started, report) := StartApps(s.(tick := 9), specs, ports);
    SecondWatched(started, n, d, second);
    assert Find([second], n) == Some(second);
    Two(Probing(d), second);
    assert Find([Probing(d), second], n) == Some(second);
  }

  lemma BothPrepared(s: State, n: Name, d: Name)
    requires n != d && s.tick == 7
    ensures PrepareAll(s, [d, n], ScenePorts(n, d)) == (s.(tick := 9), Some([Dependency(d), Dependent(n, d)]))
  {
    var ports := ScenePorts(n, d);
    Two(d, n);
    One(n);
    One(Dependent(n, d));
    Two(Dependency(d), Dependent(n, d));
    assert Prepare(s, d, ports) == Some(Dependency(d)) && Prepare(Tick(s), n, ports) == Some(Dependent(n, d));
    assert PrepareAll(Tick(Tick(s)), [], ports) == (Tick(Tick(s)), Some([]));
    assert PrepareAll(Tick(s), [n], ports) == (Tick(Tick(s)), Some([Dependent(n, d)]));
  }

  // ----- the run -----

  /** The world in which everything begins: nothing stored, nothing running. */
  function FirstWorld(trust: Trust, host: Host, ports: Ports): World {
    BootWorld(Boot([], trust, host, ports))
  }

  lemma FirstWorldIs(trust: Trust, host: Host, ports: Ports)
    ensures FirstWorld(trust, host, ports) == World(Tick(NEW_SUPERVISOR), {}) && Inv(FirstWorld(trust, host, ports))
  {
    EmptyBoot(trust, host, ports);
    assert StoredOk([]);
    BootIsSound([], trust, host, ports);
    assert Elems(WatchesIn([])) == {};
  }

  lemma FirstStep(w: World, n: Name, d: Name)
    requires n != d && w == World(Tick(NEW_SUPERVISOR), {})
    ensures var next := Step(w, StartServices([n]), ScenePorts(n, d));
            && Enabled(w, StartServices([n]))
            && Begun(next) == AfterStart(n, next.sup.launched, next.sup.panicked)
            && next.outstanding == {ExitWatch(n, 1, 3)}
  {
    FirstStart(n, d);
    assert Begun(w) == NEW_SUPERVISOR.(tick := 1);
    HandleStart(Begun(w), [n], ScenePorts(n, d));
    hide Handle, Start, WatchesIn;
    assert Elems([ExitWatch(n, 1, 3)]) == {ExitWatch(n, 1, 3)};
  }

  lemma SecondStep(w: World, n: Name, d: Name)
    requires n != d && Begun(w) == AfterStart(n, w.sup.launched, w.sup.panicked) && w.outstanding == {ExitWatch(n, 1, 3)}
    ensures var next := Step(w, DeleteService(ByName(n)), ScenePorts(n, d));
            && Begun(next) == AfterDelete(n, next.sup.launched, next.sup.panicked)
            && next.outstanding == {ExitWatch(n, 1, 3)}
  {
    DeleteWhileDraining(n, d, w.sup.launched, w.sup.panicked);
    HandleDelete(Begun(w), ByName(n), ScenePorts(n, d));
    hide Handle, Delete, WatchesIn;
    assert Elems<ExitWatch>([]) == {};
  }

  lemma ThirdStep(w: World, n: Name, d: Name)
    requires n != d && Begun(w) == AfterDelete(n, w.sup.launched, w.sup.panicked) && w.outstanding == {ExitWatch(n, 1, 3)}
    ensures Enabled(w, StartServices([d, n])) && Orphaned(Step(w, StartServices([d, n]), ScenePorts(n, d)), n)
  {
    SecondStart(n, d, w.sup.launched, w.sup.panicked);
    HandleStart(Begun(w), [d, n], ScenePorts(n, d));
    hide Handle, Start, WatchesIn;
    var next := Step(w, StartServices([d, n]), ScenePorts(n, d));
    assert ExitWatch(n, 1, 3) in next.outstanding;
  }

  /**
   * Orphans happen: booted on an empty store, a daemon that is told to start a service, to delete it
   * while its process drains, and to start it again behind a dependency that awaits its probe, holds a
   * settled record of it for which the watch of the old process is current.
   */
  lemma OrphansHappen(trust: Trust, host: Host, n: Name, d: Name)
    requires n != d
    ensures var w := FirstWorld(trust, host, ScenePorts(n, d));
            && Inv(w) && EnabledRun(w, SceneEvents(n, d), ScenePorts(n, d))
            && Orphaned(Run(w, SceneEvents(n, d), ScenePorts(n, d)), n)
  {
    var ports := ScenePorts(n, d);
    var w := FirstWorld(trust, host, ports);
    FirstWorldIs(trust, host, ports);
    hide FirstWorld, Inv, Step, Orphaned, ScenePorts;
    FirstStep(w, n, d);
    var a := Step(w, StartServices([n]), ports);
    SecondStep(a, n, d);
    var b := Step(a, DeleteService(ByName(n)), ports);
    ThirdStep(b, n, d);
    ThreeSteps(w, StartServices([n]), DeleteService(ByName(n)), StartServices([d, n]), ports);
  }
}
