/**
 * The daemon as a transition system (frameworks/src/daemon/actor.rs and timers.rs): one event at a
 * time, with the exit watches still outstanding. Timer, readiness and force-kill events are
 * not tracked on the board: any of them, however stale, may arrive at any moment.
 */
module Daemon {
  import opened Graphs
  import opened Model
  import opened ProcessTable
  import opened Handlers
  import opened Coherence
  import opened CommandCoherence
  import Waiting

  datatype Event =
    | StartServices(services: seq<Name>)
    | StopService(selector: Selector)
    | StopEverything
    | RestartService(selector: Selector)
    | DeleteService(selector: Selector)
    | ResetService(selector: Selector)
    | Exited(watch: ExitWatch, outcome: ExitOutcome)
    | RestartDue(name: Name)
    | FireDue(name: Name, at: nat)
    | BecameReady(name: Name, generation: nat)
    | ReadyTimedOut(name: Name, generation: nat)
    | SampleMemory
    | SampleLiveness(threshold: nat)
    | Shutdown

  datatype World = World(sup: State, outstanding: set<ExitWatch>)

  function Handle(s: State, event: Event, ports: Ports): State {
    match event
    case StartServices(services) => Start(s, services, ports)
    case StopService(selector) => Stop(s, selector, ports).0
    case StopEverything => StopAll(s, ports)
    case RestartService(selector) => RestartCommand(s, selector, ports)
    case DeleteService(selector) => Delete(s, selector, ports)
    case ResetService(selector) => Reset(s, selector)
    case Exited(watch, outcome) => OnExit(s, watch.name, watch.generation, outcome, ports)
    case RestartDue(name) => OnRestart(s, name, ports)
    case FireDue(name, at) => OnFire(s, name, at, ports)
    case BecameReady(name, generation) => OnReady(s, name, generation, ports)
    case ReadyTimedOut(name, generation) => OnReadyTimeout(s, name, generation, ports)
    case SampleMemory => OnMemorySample(s, ports)
    case SampleLiveness(threshold) => OnLivenessSample(s, threshold, ports)
    case Shutdown => PrepareShutdown(s)
  }

  function Begun(w: World): State { w.sup.(effects := []) }

  function Answered(event: Event): set<ExitWatch> {
    if event.Exited? then {event.watch} else {}
  }

  /** One turn of the actor: handle the event, then hand its effects to the board. */
  function Step(w: World, event: Event, ports: Ports): World {
    var done := Handle(Begun(w), event, ports);
    World(done, (w.outstanding - Answered(event)) + Elems(WatchesIn(done.effects)))
  }

  /** An exit arrives only from an outstanding watch, and the table has room for the batch. */
  predicate Enabled(w: World, event: Event) {
    match event
    case Exited(watch, _) => watch in w.outstanding
    case StartServices(services) => RoomFor(w.sup, |services|)
    case _ => true
  }

  function Run(w: World, events: seq<Event>, ports: Ports): World
    decreases |events|
  {
    if events == [] then w else Run(Step(w, events[0], ports), events[1..], ports)
  }

  predicate EnabledRun(w: World, events: seq<Event>, ports: Ports)
    decreases |events|
  {
    events != [] ==> Enabled(w, events[0]) && EnabledRun(Step(w, events[0], ports), events[1..], ports)
  }

  ghost predicate Inv(w: World) {
    Coherent(Begun(w), w.outstanding, |w.sup.launched|, [])
  }

  // ----- what the invariant says -----

  /** Exactly one outstanding watch of `name` is current, and it waits for the record's own process. */
  ghost predicate WatchedOnce(w: World, name: Name)
    requires Has(w.sup.records, name)
  {
    exists watch <- w.outstanding ::
      && watch.name == name
      && w.sup.timers.IsCurrent(name, watch.generation)
      && Find(w.sup.records, name).value.runtime.pid == Some(watch.pid)
      && forall other <- w.outstanding ::
           other.name == name && w.sup.timers.IsCurrent(name, other.generation) ==> other == watch
  }

  ghost predicate FewLaunches(w: World) { |w.sup.launched| < U64_MAX }

  /** No lookup the source guards with `expect` ever fails, names and ids stay distinct. */
  ghost predicate Sound(w: World) {
    && !w.sup.panicked
    && NoDup(NamesOf(w.sup.records))
    && NoDup(IdsOf(w.sup.records))
    && (forall n :: Unsettled(w.sup.records, n) ==> Find(w.sup.records, n).value.runtime.pid.Some?)
    && (forall key <- w.sup.waiters, n <- w.sup.waiters[key] :: Has(w.sup.records, n))
  }

  lemma InvMeans(w: World)
    requires Inv(w)
    ensures Sound(w)
    ensures FewLaunches(w) ==> forall n :: Unsettled(w.sup.records, n) ==> WatchedOnce(w, n)
  {
    var s := Begun(w);
    assert LiveWatches(s, w.outstanding) == w.outstanding;
    forall key <- w.sup.waiters, n <- w.sup.waiters[key] ensures Has(w.sup.records, n) {
      assert AllHave(s.records, s.waiters[key]);
    }
    if FewLaunches(w) {
      forall n | Unsettled(w.sup.records, n) ensures WatchedOnce(w, n) {
        assert Watched(s, w.outstanding, n);
        var pid := Find(s.records, n).value.runtime.pid.value;
        assert ExitWatch(n, s.timers.CurrentGeneration(n), pid) in w.outstanding;
      }
    }
  }

  // ----- one step keeps it -----

  lemma HandleKeeps(w: World, event: Event, ports: Ports)
    requires Inv(w) && Enabled(w, event)
    ensures Coherent(Handle(Begun(w), event, ports), w.outstanding, |w.sup.launched|, [])
  {
    hide Coherent, Start, Stop, StopAll, RestartCommand, Delete, Reset, OnExit, OnRestart, RestartNow, OnReady, OnReadyTimeout,
      OnMemorySample, OnLivenessSample, PrepareShutdown;
    var s, before, from := Begun(w), w.outstanding, |w.sup.launched|;
    match event
    case StartServices(services) => StartKeeps(s, services, ports, before, from);
    case StopService(selector) => StopCommandKeeps(s, selector, ports, before, from);
    case StopEverything => StopAllKeeps(s, ports, before, from);
    case RestartService(selector) => RestartCommandKeeps(s, selector, ports, before, from);
    case DeleteService(selector) => DeleteKeeps(s, selector, ports, before, from);
    case ResetService(selector) => ResetKeeps(s, selector, before, from);
    case Exited(watch, outcome) => OnExitKeeps(s, watch.name, watch.generation, outcome, ports, before, from);
    case RestartDue(name) => OnRestartKeeps(s, name, ports, before, from);
    case FireDue(name, at) => RestartNowKeeps(s, name, ports, before, from);
    case BecameReady(name, generation) => OnReadyKeeps(s, name, generation, ports, before, from);
    case ReadyTimedOut(name, generation) => OnReadyTimeoutKeeps(s, name, generation, ports, before, from);
    case SampleMemory => OnMemoryKeeps(s, ports, before, from);
    case SampleLiveness(threshold) => OnLivenessKeeps(s, threshold, ports, before, from);
    case Shutdown => ShutdownKeeps(s, before, from);
  }

  /** What an answered watch leaves behind: its own name settled, or the watch stale. */
  lemma ExitKeepsCurrent(w: World, watch: ExitWatch, outcome: ExitOutcome, ports: Ports)
    requires Inv(w) && watch in w.outstanding
    ensures var done := Handle(Begun(w), Exited(watch, outcome), ports);
            && (Unsettled(done.records, watch.name) ==> !done.timers.IsCurrent(watch.name, watch.generation))
  {
    OnExitKeeps(Begun(w), watch.name, watch.generation, outcome, ports, w.outstanding, |w.sup.launched|);
  }

  /** Handing the effects over: watches already answered may go when nobody needs them. */
  lemma BoundaryKeeps(done: State, before: set<ExitWatch>, from: nat, left: set<ExitWatch>)
    requires Coherent(done, before, from, []) && left <= before
    requires forall w <- before - left :: Unsettled(done.records, w.name) ==> !done.timers.IsCurrent(w.name, w.generation)
    ensures Coherent(done.(effects := []), left + Elems(WatchesIn(done.effects)), |done.launched|, [])
    ensures from <= |done.launched|
  {
    var s := done.(effects := []);
    var live := left + Elems(WatchesIn(done.effects));
    assert LiveWatches(s, live) == live by { NoEffects(s); }
    assert Balanced(s, |done.launched|, []) by { NoEffects(s); }
    hide TableOk, WaitersKnown, Balanced, WatchesIn, WatchesOk;
    if s.timers.nextGeneration < U64_MAX {
      BoundaryWatches(done, s, LiveWatches(done, before), live);
    }
  }

  lemma NoEffects(s: State)
    requires s.effects == []
    ensures WatchesIn(s.effects) == [] && LaunchesOf(WatchesIn(s.effects)) == [] && s.launched[|s.launched|..] == []
    ensures OwedLaunches([]) == []
    ensures forall live :: LiveWatches(s, live) == live
  {
    forall live ensures LiveWatches(s, live) == live {
    }
  }

  lemma BoundaryWatches(done: State, s: State, all: set<ExitWatch>, live: set<ExitWatch>)
    requires s == done.(effects := []) && live <= all && WatchesOk(done, all, [])
    requires forall w <- all - live :: Unsettled(done.records, w.name) ==> !done.timers.IsCurrent(w.name, w.generation)
    ensures WatchesOk(s, live, [])
  {
    hide Find, Unsettled;
    forall n | Unsettled(s.records, n) ensures Watched(s, live, n) {
      assert Watched(done, all, n) || MustWatchName([], n);
    }
  }

  lemma StepKeeps(w: World, event: Event, ports: Ports)
    requires Inv(w) && Enabled(w, event)
    ensures Inv(Step(w, event, ports))
    ensures |w.sup.launched| <= |Step(w, event, ports).sup.launched|
  {
    HandleKeeps(w, event, ports);
    if event.Exited? {
      ExitKeepsCurrent(w, event.watch, event.outcome, ports);
    }
    hide Handle, Coherent;
    BoundaryKeeps(Handle(Begun(w), event, ports), w.outstanding, |w.sup.launched|, w.outstanding - Answered(event));
  }

  /**
   * Every run from a sound world stays sound: no internal error, distinct names and ids, waiters that
   * have records, and (below 2^64 - 1 launches) one current exit watch, with the right pid, for every
   * process that is not settled.
   */
  lemma {:induction false} RunKeeps(w: World, events: seq<Event>, ports: Ports)
    requires Inv(w) && EnabledRun(w, events, ports)
    ensures Inv(Run(w, events, ports))
    ensures |w.sup.launched| <= |Run(w, events, ports).sup.launched|
    decreases |events|
  {
    if events != [] {
      StepKeeps(w, events[0], ports);
      RunKeeps(Step(w, events[0], ports), events[1..], ports);
    }
  }

  lemma EveryRunIsSound(w: World, events: seq<Event>, ports: Ports)
    requires Inv(w) && EnabledRun(w, events, ports)
    ensures var last := Run(w, events, ports);
            && Sound(last)
            && (FewLaunches(last) ==>
                  forall n :: Unsettled(last.sup.records, n) ==> WatchedOnce(last, n))
  {
    RunKeeps(w, events, ports);
    InvMeans(Run(w, events, ports));
  }

  /** In one step the watches started are, in order, exactly the processes taken charge of. */
  lemma EveryLaunchIsWatched(w: World, event: Event, ports: Ports)
    requires Inv(w) && Enabled(w, event)
    ensures var done := Step(w, event, ports).sup;
            && |w.sup.launched| <= |done.launched|
            && done.launched[|w.sup.launched|..] == LaunchesOf(WatchesIn(done.effects))
  {
    HandleKeeps(w, event, ports);
    assert OwedLaunches([]) == [];
  }

  /** What the answer to a current exit comes to, whatever the state of the record. */
  lemma ExitAnswers(s: State, n: Name, generation: nat, outcome: ExitOutcome, ports: Ports)
    requires s.timers.IsCurrent(n, generation) && Has(s.records, n)
    ensures var next := OnExit(s, n, generation, outcome, ports);
            var action := ClassifyExit(Find(s.records, n).value, outcome, ports.now(s.tick)).1;
            && next.launched == s.launched
            && (n in next.timers.restarts <==> n in s.timers.restarts || (n !in s.readyFailed && action.RestartAfter?))
            && (forall m :: m != n && Unsettled(s.records, m) ==> Find(next.records, m) == Find(s.records, m))
  {
    hide WatchesIn, FailDead, Put;
    var record := Find(s.records, n).value;
    ClassifyIsHonest(record, outcome, ports.now(s.tick));
    hide ClassifyExit;
    var (settled, action) := ClassifyExit(record, outcome, ports.now(s.tick));
    var saved := Tick(SetRecord(Emit(s, CancelForceKill(n)), n, settled));
    var cut, dead := saved.(waiters := saved.waiters - {n}), WaitersOf(saved.waiters, n);
    Waiting.FailDeadIsLocal(cut, dead);
    forall m | m != n && Unsettled(s.records, m)
      ensures Find(FailDead(cut, dead).0.records, m) == Find(s.records, m) {
      Waiting.FailDeadMarks(cut, dead, m);
    }
  }

  /**
   * What an exit event comes to. A stale generation and a deleted name change nothing in the table. An
   * unsettled record reached by a current watch has that watch's pid. A current watch leaves its record
   * settled under its declaration, even when it found it settled and so waited for an older process; it
   * launches nothing, touches no other process, and queues a restart exactly when the policy answers so.
   */
  lemma ExitSettlesItsProcess(w: World, watch: ExitWatch, outcome: ExitOutcome, ports: Ports)
    requires Inv(w) && watch in w.outstanding && FewLaunches(w)
    ensures var n, done := watch.name, Step(w, Exited(watch, outcome), ports).sup;
            && (!w.sup.timers.IsCurrent(n, watch.generation) || !Has(w.sup.records, n) ==> done.records == w.sup.records)
            && (w.sup.timers.IsCurrent(n, watch.generation) && Unsettled(w.sup.records, n) ==>
                  Find(w.sup.records, n).value.runtime.pid == Some(watch.pid))
            && (w.sup.timers.IsCurrent(n, watch.generation) && Has(w.sup.records, n) ==>
                  var action := ClassifyExit(Find(w.sup.records, n).value, outcome, ports.now(w.sup.tick)).1;
                  && Has(done.records, n) && !Unsettled(done.records, n)
                  && done.launched == w.sup.launched
                  && (n in done.timers.restarts <==>
                        n in w.sup.timers.restarts || (n !in w.sup.readyFailed && action.RestartAfter?))
                  && forall m :: m != n && Unsettled(w.sup.records, m) ==> Find(done.records, m) == Find(w.sup.records, m))
  {
    var s, n := Begun(w), watch.name;
    OnExitKeeps(s, n, watch.generation, outcome, ports, w.outstanding, |w.sup.launched|);
    InvMeans(w);
    var done := OnExit(s, n, watch.generation, outcome, ports);
    SameNamesHave(s, done);
    if Unsettled(w.sup.records, n) {
      assert WatchedOnce(w, n);
    }
    hide ClassifyExit, Coherent, WatchesIn;
    if w.sup.timers.IsCurrent(n, watch.generation) && Has(w.sup.records, n) {
      ExitAnswers(s, n, watch.generation, outcome, ports);
    }
    hide OnExit;
  }

  // ----- single events -----

  lemma HandleStart(s: State, services: seq<Name>, ports: Ports)
    ensures Handle(s, StartServices(services), ports) == Start(s, services, ports)
  {
    hide Start;
  }

  lemma HandleDelete(s: State, selector: Selector, ports: Ports)
    ensures Handle(s, DeleteService(selector), ports) == Delete(s, selector, ports)
  {
    hide Delete;
  }

  // ----- short runs -----

  lemma TwoSteps(w: World, first: Event, second: Event, ports: Ports)
    ensures var next := Step(w, first, ports);
            && Run(w, [first, second], ports) == Step(next, second, ports)
            && (Enabled(w, first) && Enabled(next, second) ==> EnabledRun(w, [first, second], ports))
  {
    hide Step, Enabled;
    var next := Step(w, first, ports);
    assert [first, second][1..] == [second] && [second][1..] == [];
    assert Run(next, [second], ports) == Step(next, second, ports);
    assert EnabledRun(next, [second], ports) == Enabled(next, second);
  }

  lemma ThreeSteps(w: World, first: Event, second: Event, third: Event, ports: Ports)
    ensures var a := Step(w, first, ports);
            var b := Step(a, second, ports);
            && Run(w, [first, second, third], ports) == Step(b, third, ports)
            && (Enabled(w, first) && Enabled(a, second) && Enabled(b, third) ==>
                  EnabledRun(w, [first, second, third], ports))
  {
    hide Step, Enabled;
    var a := Step(w, first, ports);
    var b := Step(a, second, ports);
    assert [first, second, third][1..] == [second, third] && [second, third][1..] == [third] && [third][1..] == [];
    assert Run(b, [third], ports) == Step(b, third, ports);
    assert Run(a, [second, third], ports) == Run(b, [third], ports);
    assert EnabledRun(b, [third], ports) == Enabled(b, third);
  }
}
