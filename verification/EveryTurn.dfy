/**
 * Every event of every run of the daemon (usecases/src/supervisor.rs, frameworks/src/daemon/actor.rs) is
 * answered as its operation promises: the results on single operations, put together.
 */
module EveryTurn {
  import opened Graphs
  import opened Model
  import opened ProcessTable
  import opened Handlers
  import opened Coherence
  import opened Promises
  import opened Samples
  import opened Replies
  import opened Releases
  import opened Batches
  import opened Daemon

  /** Nothing is armed or queued any more, and nothing else changes. */
  ghost predicate Quieted(s: State, next: State) {
    && next.timers == s.timers.(fires := map[], restarts := {})
    && next == s.(timers := next.timers, effects := next.effects, tick := next.tick)
  }

  /** What each event does, from the state it meets to the state it leaves. */
  ghost predicate AnsweredInFull(s: State, next: State, event: Event, ports: Ports)
    requires TableOk(s.records)
  {
    match event
    case StartServices(services) => NoDup(services) ==> StartedServices(s, next, services, ports)
    case StopEverything => StoppedEverything(s, next, ports)
    case StopService(selector) =>
      if selector.All? then StoppedEverything(s, next, ports)
      else exists replied :: StopAnswered(s, next, selector, replied, ports)
    case RestartService(selector) =>
      if selector.All? then forall n :: Has(s.records, n) ==> RestartedInTurn(s, next, n, ports)
      else RestartedOne(s, next, selector, ports)
    case DeleteService(selector) =>
      if selector.All? then DeletedAll(s, next, ports) else DeletedOne(s, next, selector, ports)
    case ResetService(selector) => ResetAnswered(s, next, selector)
    case Exited(watch, outcome) => ExitTaken(s, next, watch.name, watch.generation, outcome, ports)
    case RestartDue(name) => ClaimedOnce(s, next, name, ports)
    case FireDue(name, at) => FiredOnce(s, next, name, at, ports)
    case BecameReady(name, generation) => ReadyAnswered(s, next, name, generation, ports)
    case ReadyTimedOut(name, generation) => TimedOut(s, next, name, generation)
    case SampleMemory => ScheduleMemorySample in next.effects && forall n :: MemorySampled(s, next, n, ports)
    case SampleLiveness(threshold) =>
      ScheduleLivenessSample in next.effects && forall n :: Has(s.records, n) ==> Sampled(s, next, n, threshold, ports)
    case Shutdown => Quieted(s, next)
  }

  lemma CommandIsAnswered(s: State, event: Event, ports: Ports)
    requires TableOk(s.records) && WaitersKnown(s.records, s.waiters)
    requires event.StartServices? ==> CommandCoherence.RoomFor(s, |event.services|)
    requires event.StartServices? || event.StopService? || event.StopEverything? || event.RestartService?
             || event.DeleteService? || event.ResetService?
    ensures AnsweredInFull(s, Handle(s, event, ports), event, ports)
  {
    hide StartedServices, StoppedEverything, StopAnswered, RestartedInTurn, RestartedOne, DeletedAll, DeletedOne, ResetAnswered,
         Start, Stop, StopAll, RestartCommand, Delete, Reset, TableOk, NoDup;
    match event
    case StartServices(services) =>
      if NoDup(services) {
        StartPromise(s, services, ports);
      }
    case StopEverything => StopAllAnswer(s, ports);
    case StopService(selector) =>
      if selector.All? {
        StopAllAnswer(s, ports);
        StopIsStopAll(s, selector, ports);
      } else {
        StopAnswer(s, selector, ports);
      }
    case RestartService(selector) =>
      if selector.All? {
        forall n | Has(s.records, n) ensures RestartedInTurn(s, RestartCommand(s, selector, ports), n, ports) {
          RestartAllAnswer(s, n, ports);
        }
      } else {
        RestartAnswer(s, selector, ports);
      }
    case DeleteService(selector) =>
      if selector.All? {
        DeleteAllAnswer(s, ports);
      } else {
        DeleteAnswer(s, selector, ports);
      }
    case ResetService(selector) => ResetAnswer(s, selector);
  }

  lemma StopIsStopAll(s: State, selector: Selector, ports: Ports)
    requires selector.All?
    ensures Stop(s, selector, ports).0 == StopAll(s, ports)
  {
  }

  lemma ReportIsAnswered(s: State, event: Event, ports: Ports)
    requires TableOk(s.records) && WaitersKnown(s.records, s.waiters)
    requires !(event.StartServices? || event.StopService? || event.StopEverything? || event.RestartService?
               || event.DeleteService? || event.ResetService?)
    ensures AnsweredInFull(s, Handle(s, event, ports), event, ports)
  {
    hide ExitTaken, ClaimedOnce, FiredOnce, ReadyAnswered, TimedOut, MemorySampled, Sampled, TableOk, WaitersKnown,
         OnExit, OnRestart, OnFire, OnReady, OnReadyTimeout, OnMemorySample, OnLivenessSample, WatchesIn;
    match event
    case Exited(watch, outcome) => OnExitPromise(s, watch.name, watch.generation, outcome, ports);
    case RestartDue(name) => OnRestartPromise(s, name, ports);
    case FireDue(name, at) => OnFirePromise(s, name, at, ports);
    case BecameReady(name, generation) => ReadyAnswer(s, name, generation, ports);
    case ReadyTimedOut(name, generation) => OnReadyTimeoutPromise(s, name, generation, ports);
    case SampleMemory =>
      TableNamed(s.records);
      MemoryIsSampledAgain(s, ports);
      forall n ensures MemorySampled(s, OnMemorySample(s, ports), n, ports) {
        MemoryPromise(s, n, ports);
      }
    case SampleLiveness(threshold) =>
      TableNamed(s.records);
      LivenessIsSampledAgain(s, threshold, ports);
      forall n | Has(s.records, n) ensures Sampled(s, OnLivenessSample(s, threshold, ports), n, threshold, ports) {
        SamplePromise(s, n, threshold, ports);
      }
    case Shutdown =>
  }

  /** Every event that can come in a reachable world is answered as its operation promises. */
  lemma EveryEventIsAnswered(w: World, event: Event, ports: Ports)
    requires Inv(w) && Enabled(w, event)
    ensures TableOk(w.sup.records) && AnsweredInFull(Begun(w), Step(w, event, ports).sup, event, ports)
  {
    InvKnows(w);
    hide Inv, Handle, AnsweredInFull, TableOk, WaitersKnown;
    if event.StartServices? || event.StopService? || event.StopEverything? || event.RestartService?
       || event.DeleteService? || event.ResetService? {
      CommandIsAnswered(Begun(w), event, ports);
    } else {
      ReportIsAnswered(Begun(w), event, ports);
    }
  }

  lemma InvKnows(w: World)
    requires Inv(w)
    ensures TableOk(w.sup.records) && WaitersKnown(w.sup.records, w.sup.waiters)
  {
  }

  /** If the event can come in a reachable world, the next world is the answer to it. */
  ghost predicate IsAnswered(w: World, next: World, event: Event, ports: Ports) {
    Inv(w) && Enabled(w, event) ==> TableOk(w.sup.records) && AnsweredInFull(Begun(w), next.sup, event, ports)
  }

  lemma TurnIsAnswered(w: World, event: Event, ports: Ports)
    ensures IsAnswered(w, Step(w, event, ports), event, ports)
  {
    if Inv(w) && Enabled(w, event) {
      EveryEventIsAnswered(w, event, ports);
    }
    hide Step, AnsweredInFull, Inv, Enabled, TableOk;
  }

  /** Whatever the order of events and the answers of the outside, every event of a run is. */
  lemma {:induction false} EveryRunIsAnswered(w: World, events: seq<Event>, i: nat, ports: Ports)
    requires Inv(w) && EnabledRun(w, events, ports) && i < |events|
    ensures var before := Run(w, events[..i], ports);
            && TableOk(before.sup.records)
            && AnsweredInFull(Begun(before), Run(w, events[..i + 1], ports).sup, events[i], ports)
    decreases |events|
  {
    hide Inv, Step, AnsweredInFull, TableOk, Enabled;
    var next := Step(w, events[0], ports);
    if i == 0 {
      EveryEventIsAnswered(w, events[0], ports);
      assert events[..1][1..] == [] && events[..0] == [];
    } else {
      StepKeeps(w, events[0], ports);
      EveryRunIsAnswered(next, events[1..], i - 1, ports);
      assert events[..i][1..] == events[1..][..i - 1] && events[..i + 1][1..] == events[1..][..i];
    }
  }
}
