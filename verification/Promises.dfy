/**
 * What the operations of the supervisor promise a caller, on the state before and the state after
 * (usecases/src/supervisor.rs, supervisor_ready.rs, supervisor_handlers.rs, start.rs, stop.rs, restart.rs,
 * supervise.rs). The methods of `Supervision` carry these promises on the mutable object.
 */
module Promises {
  import opened Graphs
  import opened Model
  import opened ProcessTable
  import opened Restart
  import opened Handlers
  import opened TimerBook
  import opened Coherence
  import CommandCoherence
  import Waiting
  import Daemon
  import Sticky
  import StickyStop
  import Requests
  import TaskBoards
  import Commands
  import BatchGraph
  import Readiness

  /** Every record but that of `name` is as before. */
  ghost predicate OthersStand(s: State, next: State, name: Name) {
    forall m :: m != name ==> Find(next.records, m) == Find(s.records, m)
  }

  /** No live process but that of `name` is touched. */
  ghost predicate LiveOthersStand(s: State, next: State, name: Name) {
    forall m :: m != name && Unsettled(s.records, m) ==> Find(next.records, m) == Find(s.records, m)
  }

  function PidOf(records: seq<Record>, name: Name): Option<nat> {
    if Has(records, name) then Find(records, name).value.runtime.pid else None
  }

  // ----- launching -----

  /** Exactly one process of `name` was taken charge of, and the record claims it. */
  predicate SpawnedOne(s: State, next: State, name: Name) {
    && Unsettled(next.records, name) && PidOf(next.records, name).Some?
    && next.launched == s.launched + [Launch(name, PidOf(next.records, name).value)]
  }

  /**
   * A launch never spawns over a live process: it leaves one as it is, with its pid; otherwise it spawns
   * one process and reports it to be watched, or spawns none. A refusal leaves the table as it was.
   */
  ghost predicate SpawnsAtMostOnce(s: State, next: State, name: Name, outcome: Option<StartOutcome>) {
    && OthersStand(s, next, name)
    && (Unsettled(s.records, name) ==>
          && next.launched == s.launched
          && Unsettled(next.records, name) && PidOf(next.records, name) == PidOf(s.records, name))
    && (if outcome.Some? && outcome.value.kind.NeedsWatching()
        then SpawnedOne(s, next, name) && outcome.value.name == name && outcome.value.pid == PidOf(next.records, name)
        else next.launched == s.launched)
    && (outcome.None? ==> next.records == s.records)
  }

  /** The record of a process just spawned, for the declaration it had. */
  function UpAs(record: Record, spawned: Spawned): Runtime {
    record.runtime.(
      status := if record.spec.readyProbe.Some? then Launching else Online,
      pid := Some(spawned.pid), startedAtMs := Some(spawned.nowMs), identity := spawned.identity,
      livenessFailures := 0, scheduleArmed := true)
  }

  /** What a launch leaves and reports: the runtime, the pid, and what was done, if it was not refused. */
  datatype Left = Left(runtime: Runtime, pid: Option<nat>, kind: StartKind)

  /**
   * How a launch answers: a live process is left running and, on its way out, asked to come back; a
   * scheduled task is only registered; anything else is refused exactly when the launcher refuses, and else
   * waits for its probe if it declares one and is online at once if not.
   */
  function LaunchLeaves(record: Record, register: bool, spawned: Option<Spawned>): Option<Left> {
    var runtime := record.runtime;
    var armed := runtime.(scheduleArmed := true);
    if !runtime.status.IsSettled() then
      Some(Left(armed.(pendingRestart := runtime.pendingRestart || runtime.status.Stopping?), runtime.pid, AlreadyRunning))
    else if register && !record.spec.autorestart && record.spec.schedule.Some? then Some(Left(armed, None, Scheduled))
    else if spawned.Some? then Some(Left(UpAs(record, spawned.value), Some(spawned.value.pid), Fresh))
    else None
  }

  /** The answer, and the record it leaves: its declaration as before, its runtime as the answer says. */
  ghost predicate LaunchAnswers(s: State, next: State, name: Name, register: bool, outcome: Option<StartOutcome>, ports: Ports)
    requires Has(s.records, name)
  {
    var before := Find(s.records, name).value;
    var left := LaunchLeaves(before, register, ports.spawn(s.tick));
    && outcome == (if left.None? then None
                   else Some(StartOutcome(before.runtime.pmId, name, left.value.pid, left.value.kind)))
    && Find(next.records, name) == (if left.None? then Some(before) else Some(Record(before.spec, left.value.runtime)))
    && next.panicked == s.panicked
  }

  lemma LaunchAnswer(s: State, name: Name, register: bool, ports: Ports)
    requires Has(s.records, name)
    ensures var (next, outcome) := LaunchOne(s, name, register, ports); LaunchAnswers(s, next, name, register, outcome, ports)
  {
    hide LaunchOne, LaunchAnswers, Find;
    var record := Find(s.records, name).value;
    if !record.runtime.status.IsSettled() {
      LiveAnswer(s, name, register, ports);
    } else if register && record.spec.IsScheduledTask() {
      ScheduledAnswer(s, name, ports);
    } else {
      SpawnAnswer(s, name, register, ports);
    }
  }

  lemma LiveAnswer(s: State, name: Name, register: bool, ports: Ports)
    requires Unsettled(s.records, name)
    ensures var (next, outcome) := LaunchOne(s, name, register, ports); LaunchAnswers(s, next, name, register, outcome, ports)
  {
    hide Find, Put;
    var record := Find(s.records, name).value;
    var armed := record.runtime.ArmSchedule();
    Edited(s.records, name, record.With(if record.runtime.status.IsShuttingDown() then armed.RequestRestart() else armed));
  }

  lemma ScheduledAnswer(s: State, name: Name, ports: Ports)
    requires Has(s.records, name) && !Unsettled(s.records, name) && Find(s.records, name).value.spec.IsScheduledTask()
    ensures var (next, outcome) := LaunchOne(s, name, true, ports); LaunchAnswers(s, next, name, true, outcome, ports)
  {
    hide Find, Put;
    var record := Find(s.records, name).value;
    Edited(s.records, name, record.With(record.runtime.ArmSchedule()));
  }

  lemma SpawnAnswer(s: State, name: Name, register: bool, ports: Ports)
    requires Has(s.records, name) && !Unsettled(s.records, name)
    requires !(register && Find(s.records, name).value.spec.IsScheduledTask())
    ensures var (next, outcome) := LaunchOne(s, name, register, ports); LaunchAnswers(s, next, name, register, outcome, ports)
  {
    hide Find, Put;
    var record := Find(s.records, name).value;
    var spawned := ports.spawn(s.tick);
    if spawned.Some? {
      Edited(s.records, name, record.With(UpAs(record, spawned.value)));
    }
  }

  lemma LaunchPromise(s: State, name: Name, register: bool, ports: Ports)
    ensures var (next, outcome) := LaunchOne(s, name, register, ports); SpawnsAtMostOnce(s, next, name, outcome)
  {
    hide Find, Put;
    if Has(s.records, name) {
      var record := Find(s.records, name).value;
      var armed := record.runtime.ArmSchedule();
      Edited(s.records, name, record.With(if record.runtime.status.IsShuttingDown() then armed.RequestRestart() else armed));
      Edited(s.records, name, record.With(armed));
      var spawned := ports.spawn(s.tick);
      if spawned.Some? {
        var launching := armed.MarkLaunched(spawned.value.pid, spawned.value.nowMs);
        var online := if record.spec.readyProbe.None? then launching.MarkOnline() else launching;
        Edited(s.records, name, record.With(online.RecordIdentity(spawned.value.identity)));
      }
    }
  }

  lemma Edited(records: seq<Record>, name: Name, updated: Record)
    requires Has(records, name) && updated.runtime.name == name
    ensures Find(Put(records, name, updated), name) == Some(updated)
    ensures forall m :: m != name ==> Find(Put(records, name, updated), m) == Find(records, m)
  {
  }

  // ----- asking to stop -----

  /**
   * A stop request that succeeds leaves a live process stopping under its own pid, which is the one to be
   * killed later, and settles a record that has none; it is refused exactly when a live process cannot be
   * signalled, and then leaves the table as it was.
   */
  ghost predicate AsksToStop(s: State, next: State, name: Name, outcome: Option<StopOutcome>, ports: Ports)
    requires Has(s.records, name)
  {
    var record := Find(s.records, name).value;
    var live := if record.runtime.status.IsSettled() then None else record.runtime.pid;
    && OthersStand(s, next, name) && next.launched == s.launched && next.timers == s.timers
    && next.waiters == s.waiters && next.effects == s.effects && next.readyFailed == s.readyFailed
    && (outcome.None? <==> live.Some? && !ports.terminate(s.tick))
    && (outcome.None? ==> next.records == s.records)
    && (outcome.Some? ==>
          && outcome.value == StopOutcome(name, live)
          && Find(next.records, name) == Some(Record(record.spec,
               if live.Some? then record.runtime.(status := Stopping)
               else record.runtime.(status := Stopped, pid := None, startedAtMs := None, identity := None))))
  }

  lemma StopRequestPromise(s: State, name: Name, ports: Ports)
    requires Has(s.records, name)
    ensures var (next, outcome) := RequestStop(s, name, ports); AsksToStop(s, next, name, outcome, ports)
  {
    hide Find, Put;
    var record := Find(s.records, name).value;
    Edited(s.records, name, record.With(record.runtime.MarkExited(Stopped)));
    Edited(s.records, name, record.With(record.runtime.MarkStopping()));
  }

  // ----- restarting -----

  /** Whether a restart cannot be done: nobody to signal it to, or nobody to spawn it. */
  predicate CannotRestart(s: State, name: Name, ports: Ports) {
    !Has(s.records, name)
    || if Unsettled(s.records, name) then PidOf(s.records, name).Some? && !ports.terminate(s.tick)
       else ports.spawn(s.tick).None?
  }

  /**
   * A restart spawns a settled service once, and asks a live one to leave and remembers on its record to
   * start it again; it never spawns over a live process, and one that cannot be done changes nothing.
   */
  ghost predicate Restarted(s: State, next: State, name: Name, ports: Ports) {
    && OthersStand(s, next, name)
    && (if CannotRestart(s, name, ports) then next.records == s.records && next.launched == s.launched
        else
          var record := Find(s.records, name).value;
          if Unsettled(s.records, name) then
            && next.launched == s.launched
            && Has(next.records, name) && Find(next.records, name).value.spec == record.spec
            && Find(next.records, name).value.runtime.pendingRestart
            && (record.runtime.pid.Some? ==>
                  Find(next.records, name) == Some(Record(record.spec, record.runtime.(status := Stopping, pendingRestart := true))))
          else
            && SpawnedOne(s, next, name)
            && Find(next.records, name) == Some(Record(record.spec, UpAs(record, ports.spawn(s.tick).value))))
  }

  lemma RestartAppPromise(s: State, selector: Selector, ports: Ports)
    requires FindBy(s.records, selector).Some? ==>
               Find(s.records, FindBy(s.records, selector).value.runtime.name) == FindBy(s.records, selector)
    ensures var (next, outcome) := RestartApp(s, selector, ports);
            match FindBy(s.records, selector)
            case None => outcome.Refused? && next == s
            case Some(record) =>
              && Restarted(s, next, record.runtime.name, ports)
              && RestartReported(s, record.runtime.name, outcome, ports)
  {
    var found := FindBy(s.records, selector);
    if found.Some? {
      var name := found.value.runtime.name;
      hide LaunchOne, RequestStop, RequestRestartOf, FindBy, Restarted, RestartReported, Find;
      if found.value.runtime.status.IsSettled() {
        RestartSpawns(s, name, ports);
      } else {
        RestartAsks(s, name, ports);
      }
    }
  }

  /** A restart reports what it did: the process it spawned, or the one it waits for. */
  predicate RestartReported(s: State, name: Name, outcome: RestartOutcome, ports: Ports) {
    if CannotRestart(s, name, ports) then outcome.Refused?
    else
      var runtime := Find(s.records, name).value.runtime;
      outcome == if Unsettled(s.records, name) then AwaitingExit(StopOutcome(name, runtime.pid))
                 else Started(StartOutcome(runtime.pmId, name, Some(ports.spawn(s.tick).value.pid), Fresh))
  }

  lemma RestartSpawns(s: State, name: Name, ports: Ports)
    requires Has(s.records, name) && !Unsettled(s.records, name)
    ensures var (launched, outcome) := LaunchOne(s, name, false, ports);
            && Restarted(s, if outcome.None? then launched else Tick(launched), name, ports)
            && RestartReported(s, name, if outcome.None? then Refused else Started(outcome.value), ports)
  {
    LaunchPromise(s, name, false, ports);
    LaunchAnswer(s, name, false, ports);
    hide LaunchOne, Find;
  }

  lemma RestartAsks(s: State, name: Name, ports: Ports)
    requires Unsettled(s.records, name)
    ensures var (asked, outcome) := RequestStop(s, name, ports);
            && Restarted(s, if outcome.None? then asked else Tick(RequestRestartOf(asked, name)), name, ports)
            && RestartReported(s, name, if outcome.None? then Refused else AwaitingExit(outcome.value), ports)
  {
    StopRequestPromise(s, name, ports);
    RequestPromise(RequestStop(s, name, ports).0, name);
    hide RequestStop, RequestRestartOf, Find;
  }

  lemma RequestPromise(s: State, name: Name)
    requires Has(s.records, name)
    ensures var next := RequestRestartOf(s, name);
            && OthersStand(s, next, name) && next.launched == s.launched && Has(next.records, name)
            && Find(next.records, name).value.spec == Find(s.records, name).value.spec
            && Find(next.records, name).value.runtime == Find(s.records, name).value.runtime.(pendingRestart := true)
  {
  }

  /**
   * A restart by a timer: tried once, and no queued restart of the name is left. A process it spawned is
   * watched, one it asked to leave will be killed, and a schedule is armed again.
   */
  ghost predicate RestartTried(s: State, next: State, name: Name, ports: Ports) {
    && next.timers.restarts == s.timers.restarts - {name}
    && next.timers.fires - {name} == s.timers.fires - {name}
    && next.waiters == s.waiters && next.readyFailed == s.readyFailed
    && Restarted(s, next, name, ports)
    && RestartFollowed(s, next, name, ports)
    && Rescheduled(s, next, name, ports)
  }

  /** What follows a restart that was done: one watch for what it spawned, one kill for what it asked to leave. */
  ghost predicate RestartFollowed(s: State, next: State, name: Name, ports: Ports) {
    if CannotRestart(s, name, ports) then WatchesIn(next.effects) == WatchesIn(s.effects)
    else if Unsettled(s.records, name) then
      && WatchesIn(next.effects) == WatchesIn(s.effects)
      && var runtime := Find(s.records, name).value.runtime;
         runtime.pid.Some? ==>
           ScheduleForceKill(name, s.timers.CurrentGeneration(name), runtime.pid.value, runtime.Token()) in next.effects
    else
      WatchesIn(next.effects) == WatchesIn(s.effects)
                                 + [ExitWatch(name, next.timers.CurrentGeneration(name), ports.spawn(s.tick).value.pid)]
  }

  /** Armed only with a schedule, and then whenever the scheduler knows a next fire. */
  ghost predicate Rescheduled(s: State, next: State, name: Name, ports: Ports) {
    var scheduled := Has(s.records, name) && Find(s.records, name).value.spec.schedule.Some?;
    && (name in next.timers.fires ==> scheduled && exists t :: ports.nextFire(t) == Some(next.timers.fires[name]))
    && (scheduled && (forall t :: ports.nextFire(t).Some?) ==> name in next.timers.fires)
  }

  lemma RestartAppAside(s: State, selector: Selector, ports: Ports)
    ensures var next := RestartApp(s, selector, ports).0;
            && next.timers == s.timers && next.effects == s.effects
            && next.waiters == s.waiters && next.readyFailed == s.readyFailed
  {
    hide FindBy, Find, Put, LaunchOne, RequestStop, RequestRestartOf;
    var found := FindBy(s.records, selector);
    if found.Some? {
      var name := found.value.runtime.name;
      LaunchAside(s, name, false, ports);
      StopAside(s, name, ports);
      AskAside(RequestStop(s, name, ports).0, name);
    }
  }

  lemma LaunchAside(s: State, name: Name, register: bool, ports: Ports)
    ensures LaunchOne(s, name, register, ports).0.readyFailed == s.readyFailed
  {
    hide Find, Put;
  }

  lemma StopAside(s: State, name: Name, ports: Ports)
    ensures var next := RequestStop(s, name, ports).0;
            && next.timers == s.timers && next.effects == s.effects
            && next.waiters == s.waiters && next.readyFailed == s.readyFailed
  {
    hide Find, Put;
  }

  lemma AskAside(s: State, name: Name)
    ensures var next := RequestRestartOf(s, name);
            && next.timers == s.timers && next.effects == s.effects
            && next.waiters == s.waiters && next.readyFailed == s.readyFailed
  {
    hide Find, Put;
  }

  /** From the attempt to its task: the process is watched, or its kill is scheduled. */
  lemma DispatchPromise(s: State, name: Name, ports: Ports)
    ensures var (tried, outcome) := RestartApp(s, ByName(name), ports);
            Restarted(s, tried, name, ports) && (outcome.Refused? <==> CannotRestart(s, name, ports))
    ensures var (tried, outcome) := RestartApp(s, ByName(name), ports);
            !outcome.Refused? ==>
              var (next, restarted) := DispatchRestart(tried, outcome);
              && restarted == name && next.records == tried.records && next.launched == tried.launched
              && next.waiters == s.waiters && next.readyFailed == s.readyFailed
              && next.timers.fires == s.timers.fires && next.timers.restarts == s.timers.restarts
              && RestartFollowed(s, next, name, ports)
  {
    StickyStop.FindByNameIsFind(s.records, name);
    RestartAppPromise(s, ByName(name), ports);
    RestartAppAside(s, ByName(name), ports);
    hide RestartApp, Restarted, Find, FindBy, WatchesIn, Watch, RestartFollowed;
    var (tried, outcome) := RestartApp(s, ByName(name), ports);
    if outcome.Started? {
      StartedIsWatched(s, tried, outcome.started, name, ports);
    } else if outcome.AwaitingExit? {
      AskedIsKilled(s, tried, name, ports);
    }
  }

  lemma StartedIsWatched(s: State, tried: State, started: StartOutcome, name: Name, ports: Ports)
    requires RestartReported(s, name, Started(started), ports) && tried.timers == s.timers && tried.effects == s.effects
    requires tried.waiters == s.waiters && tried.readyFailed == s.readyFailed
    ensures var next := Watch(tried, started);
            && started.name == name && next.records == tried.records && next.launched == tried.launched
            && next.waiters == s.waiters && next.readyFailed == s.readyFailed
            && next.timers.fires == s.timers.fires && next.timers.restarts == s.timers.restarts
            && RestartFollowed(s, next, name, ports)
  {
    WatchPromise(tried, started);
    WatchIsAside(tried, started);
    hide Watch, Find, WatchesIn;
  }

  lemma WatchIsAside(s: State, o: StartOutcome)
    ensures var next := Watch(s, o);
            && next.records == s.records && next.launched == s.launched && next.waiters == s.waiters
            && next.readyFailed == s.readyFailed
            && next.timers.fires == s.timers.fires && next.timers.restarts == s.timers.restarts
  {
    hide Find, WatchesIn;
  }

  lemma AskedIsKilled(s: State, tried: State, name: Name, ports: Ports)
    requires Restarted(s, tried, name, ports) && !CannotRestart(s, name, ports) && Unsettled(s.records, name)
    requires tried.timers == s.timers && tried.effects == s.effects
    ensures var runtime := Find(s.records, name).value.runtime;
            var next := ScheduleForceKillOf(tried, name, runtime.pid, IdentityToken(tried, name));
            && WatchesIn(next.effects) == WatchesIn(s.effects)
            && (runtime.pid.Some? ==>
                  ScheduleForceKill(name, s.timers.CurrentGeneration(name), runtime.pid.value, runtime.Token()) in next.effects)
  {
    hide Find, WatchesIn;
  }

  lemma RestartNowPromise(s: State, name: Name, ports: Ports)
    ensures RestartTried(s, RestartNow(s, name, ports), name, ports)
  {
    var cancelled := CancelQueuedRestart(s, name);
    DispatchPromise(cancelled, name, ports);
    RestartAppAside(cancelled, ByName(name), ports);
    var (tried, outcome) := RestartApp(cancelled, ByName(name), ports);
    hide RestartApp, DispatchRestart, Restarted, RestartFollowed, Find, WatchesIn;
    var done := if outcome.Refused? then tried else DispatchRestart(tried, outcome).0;
    RestartedAlike(cancelled, tried, done, name, ports);
    TriedIsArmed(s, cancelled, done, name, ports);
  }

  lemma RestartedAlike(s: State, next: State, done: State, name: Name, ports: Ports)
    requires Restarted(s, next, name, ports) && done.records == next.records && done.launched == next.launched
    ensures Restarted(s, done, name, ports)
  {
    hide Find;
  }

  /** Arming the schedule of a restarted service is the last thing done. */
  lemma TriedIsArmed(s: State, cancelled: State, done: State, name: Name, ports: Ports)
    requires cancelled == CancelQueuedRestart(s, name)
    requires Restarted(cancelled, done, name, ports)
    requires done.timers.fires == s.timers.fires && done.timers.restarts == s.timers.restarts - {name}
    requires done.waiters == s.waiters && done.readyFailed == s.readyFailed
    requires if CannotRestart(cancelled, name, ports) then done.effects == cancelled.effects && done.timers == cancelled.timers
             else RestartFollowed(cancelled, done, name, ports)
    ensures RestartTried(s, ArmTimerFor(done, name, ports), name, ports)
  {
    ArmPromise(done, name, ports);
    ArmTimerIsAside(done, name, ports);
    ArmLeavesWaiters(done, name, ports);
    SameSpec(cancelled, done, name, ports);
    hide ArmTimerFor, Find, WatchesIn, Restarted, RestartFollowed, Rescheduled;
    var next := ArmTimerFor(done, name, ports);
    RestartedFrom(s, cancelled, done, next, name, ports);
    FollowedFrom(s, cancelled, done, next, name, ports);
    RescheduledFrom(s, done, next, name, ports);
  }

  lemma RestartedFrom(s: State, cancelled: State, done: State, next: State, name: Name, ports: Ports)
    requires cancelled == CancelQueuedRestart(s, name) && Restarted(cancelled, done, name, ports)
    requires next.records == done.records && next.launched == done.launched
    ensures Restarted(s, next, name, ports)
  {
    hide Find, WatchesIn;
  }

  lemma FollowedFrom(s: State, cancelled: State, done: State, next: State, name: Name, ports: Ports)
    requires cancelled.records == s.records && cancelled.tick == s.tick
    requires cancelled.timers.generations == s.timers.generations && WatchesIn(cancelled.effects) == WatchesIn(s.effects)
    requires if CannotRestart(cancelled, name, ports) then done.effects == cancelled.effects
             else RestartFollowed(cancelled, done, name, ports)
    requires WatchesIn(next.effects) == WatchesIn(done.effects) && (forall e <- done.effects :: e in next.effects)
    requires next.timers.generations == done.timers.generations
    ensures RestartFollowed(s, next, name, ports)
  {
    hide Find, WatchesIn;
  }

  lemma RescheduledFrom(s: State, done: State, next: State, name: Name, ports: Ports)
    requires Armed(done, next, name, ports)
    requires Has(s.records, name) <==> Has(done.records, name)
    requires Has(s.records, name) ==> Find(done.records, name).value.spec == Find(s.records, name).value.spec
    ensures Rescheduled(s, next, name, ports)
  {
    hide Find, WatchesIn, TaskBoards.InSync;
  }

  lemma SameSpec(s: State, next: State, name: Name, ports: Ports)
    requires Restarted(s, next, name, ports)
    ensures Has(s.records, name) <==> Has(next.records, name)
    ensures Has(s.records, name) ==> Find(next.records, name).value.spec == Find(s.records, name).value.spec
  {
    hide Find;
  }

  lemma ArmLeavesWaiters(s: State, name: Name, ports: Ports)
    ensures var next := ArmTimerFor(s, name, ports); next.waiters == s.waiters && next.readyFailed == s.readyFailed
  {
  }

  // ----- timers -----

  /**
   * Arming a name leaves it armed exactly when it has a schedule and the scheduler knows its next fire,
   * and then for that instant, with a task that sleeps until it; no other timer changes, and every board
   * that agreed still agrees.
   */
  ghost predicate Armed(s: State, next: State, name: Name, ports: Ports) {
    && next.records == s.records && next.launched == s.launched && next.timers.restarts == s.timers.restarts
    && next.timers.fires - {name} == s.timers.fires - {name}
    && (name in next.timers.fires <==>
          Has(s.records, name) && Find(s.records, name).value.spec.schedule.Some? && ports.nextFire(s.tick).Some?)
    && (name in next.timers.fires ==> ports.nextFire(s.tick) == Some(next.timers.fires[name]))
    && next.timers.generations == s.timers.generations && next.timers.nextGeneration == s.timers.nextGeneration
    && next.effects == s.effects + [DisarmTimer(name)]
                       + (if name !in next.timers.fires then []
                          else [ArmTimer(name, next.timers.fires[name], Until(next.timers.fires[name], ports.now(s.tick)))])
    && forall b :: TaskBoards.InSync(s, b) ==> TaskBoards.InSync(next, b)
  }

  /** The time left until an instant, none once it has passed. */
  function Until(at: nat, nowMs: nat): nat { if nowMs <= at then at - nowMs else 0 }

  lemma ArmPromise(s: State, name: Name, ports: Ports)
    ensures Armed(s, ArmTimerFor(s, name, ports), name, ports)
  {
    var next := ArmTimerFor(s, name, ports);
    assert s.timers.fires - {name} - {name} == s.timers.fires - {name};
    ArmFires(s, name, ports);
    forall b | TaskBoards.InSync(s, b) ensures TaskBoards.InSync(next, b) {
      TaskBoards.ArmSync(s, name, ports, b);
    }
  }

  lemma ArmFires(s: State, name: Name, ports: Ports)
    ensures var next := ArmTimerFor(s, name, ports);
            && next.records == s.records && next.launched == s.launched && next.timers.restarts == s.timers.restarts
            && next.timers.fires - {name} == s.timers.fires - {name}
            && (name in next.timers.fires <==>
                  Has(s.records, name) && Find(s.records, name).value.spec.schedule.Some? && ports.nextFire(s.tick).Some?)
            && (name in next.timers.fires ==> ports.nextFire(s.tick) == Some(next.timers.fires[name]))
            && next.timers.generations == s.timers.generations && next.timers.nextGeneration == s.timers.nextGeneration
            && next.effects == s.effects + [DisarmTimer(name)]
                               + (if name !in next.timers.fires then []
                                  else [ArmTimer(name, next.timers.fires[name],
                                                 Until(next.timers.fires[name], ports.now(s.tick)))])
  {
    hide Find, WatchesIn;
    var disarmed := Disarm(s, name);
    assert disarmed.tick == s.tick && name !in disarmed.timers.fires;
    var next := ArmTimerFor(s, name, ports);
    assert next.timers.fires - {name} == s.timers.fires - {name};
  }

  // ----- watching -----

  /**
   * Watching a process starts one exit watch for its pid under a generation that, below the end of the
   * counter, no earlier event of the name carries; a probing service is awaited under the same one.
   */
  ghost predicate WatchStarted(s: State, next: State, o: StartOutcome) {
    if !(MustWatch(o) && o.pid.Some?) then next == s
    else
      var generation := next.timers.CurrentGeneration(o.name);
      && next.records == s.records && next.launched == s.launched
      && WatchesIn(next.effects) == WatchesIn(s.effects) + [ExitWatch(o.name, generation, o.pid.value)]
      && (forall other :: other != o.name ==> next.timers.CurrentGeneration(other) == s.timers.CurrentGeneration(other))
      && (Issued(s.timers) && s.timers.nextGeneration < U64_MAX ==>
            Issued(next.timers)
            && forall older: nat :: older <= s.timers.nextGeneration ==> !next.timers.IsCurrent(o.name, older))
      && (Has(s.records, o.name) ==>
            next.effects == s.effects
                            + [WatchExit(o.name, generation, o.pid.value, Find(s.records, o.name).value.runtime.Token())]
                            + AwaitedProbe(Find(s.records, o.name).value, o.name, generation))
  }

  /** Whether a process is awaited: it declares a probe and has only been launched. */
  function AwaitedProbe(record: Record, name: Name, generation: nat): seq<Effect> {
    if record.spec.readyProbe.Some? && record.runtime.status == Launching
    then [AwaitReady(name, generation, record.spec.readyProbe.value)] else []
  }

  lemma WatchPromise(s: State, o: StartOutcome)
    ensures WatchStarted(s, Watch(s, o), o)
  {
    if MustWatch(o) && o.pid.Some? {
      var w := WatchEffect(s, o);
      AwaitPromise(s, o);
      BumpPromise(s.timers, o.name);
      hide WatchesIn, Watch, Find, Issued, Timers.Bump;
    }
  }

  lemma BumpPromise(timers: Timers, name: Name)
    ensures var bumped := timers.Bump(name);
            && bumped.CurrentGeneration(name) == bumped.nextGeneration
            && (forall other :: other != name ==> bumped.CurrentGeneration(other) == timers.CurrentGeneration(other))
            && (Issued(timers) && timers.nextGeneration < U64_MAX ==>
                  Issued(bumped) && forall older: nat :: older <= timers.nextGeneration ==> !bumped.IsCurrent(name, older))
  {
    if Issued(timers) && timers.nextGeneration < U64_MAX {
      BumpOutdates(timers, name, name, 0);
    }
  }

  lemma AwaitPromise(s: State, o: StartOutcome)
    requires MustWatch(o) && o.pid.Some?
    ensures Has(s.records, o.name) ==>
              var generation := s.timers.Bump(o.name).nextGeneration;
              Watch(s, o).effects ==
                s.effects + [WatchExit(o.name, generation, o.pid.value, Find(s.records, o.name).value.runtime.Token())]
                + AwaitedProbe(Find(s.records, o.name).value, o.name, generation)
  {
    hide WatchesIn;
  }

  // ----- exits -----

  /** The exits in a row, this one included, that came before the minimum uptime. */
  function UnstableTally(record: Record, nowMs: nat): nat {
    var runtime := record.runtime;
    var quick := !runtime.status.IsSettled() && runtime.startedAtMs.Some? && runtime.startedAtMs.value <= nowMs
                 && nowMs - runtime.startedAtMs.value < record.spec.minUptimeMs;
    if !quick then 0 else if runtime.unstableRestarts < U32_MAX then runtime.unstableRestarts + 1 else U32_MAX
  }

  /** Nothing was asked, and the service was being stopped or ended with one of its stop codes. */
  predicate EndsHere(record: Record, outcome: ExitOutcome) {
    !record.runtime.pendingRestart
    && (record.runtime.status.Stopping? || (outcome.Code? && outcome.code in record.spec.stopExitCodes))
  }

  /** The breaker lets the service come back. */
  predicate ComesBack(record: Record, nowMs: nat) {
    record.spec.autorestart && (record.spec.maxRestarts == 0 || UnstableTally(record, nowMs) < record.spec.maxRestarts)
  }

  /**
   * How an exit is answered: a restart by hand comes at once and uncounted; a stop or a stop code ends the
   * service; otherwise it comes back after the doubled delay of its tally as long as the tally is below the
   * limit, and ends as errored or stopped by its code when it is not. The record is settled, nothing is
   * asked of it any more, and only a restart by the breaker is counted.
   */
  predicate ExitSettled(record: Record, left: Record, action: ExitAction, outcome: ExitOutcome, nowMs: nat) {
    var runtime, tally := record.runtime, UnstableTally(record, nowMs);
    var byHand, ended := runtime.pendingRestart && !runtime.supervisedRestart, EndsHere(record, outcome);
    var again := !byHand && !ended && ComesBack(record, nowMs);
    && action == (if byHand then RestartAfter(0)
                  else if ended then Settled(Stopped)
                  else if again then RestartAfter(IdealDelay(record.spec.restartDelayMs, record.spec.maxRestartDelayMs, tally))
                  else Settled(if outcome == Code(0) || outcome == Unobserved then Stopped else Errored))
    && left.spec == record.spec
    && left.runtime == runtime.(
         status := if action.Settled? then action.status else Stopped,
         pid := None, startedAtMs := None, identity := None, pendingRestart := false, supervisedRestart := false,
         restartTime := if !again then runtime.restartTime
                        else if runtime.restartTime < U32_MAX then runtime.restartTime + 1 else U32_MAX,
         unstableRestarts := if byHand || ended || !record.spec.autorestart then runtime.unstableRestarts else tally)
  }

  lemma ExitPromise(record: Record, outcome: ExitOutcome, nowMs: nat)
    requires record.spec.maxRestartDelayMs <= U64_MAX
    ensures ExitSettled(record, ClassifyExit(record, outcome, nowMs).0, ClassifyExit(record, outcome, nowMs).1, outcome, nowMs)
  {
    hide BackoffDelay, IdealDelay;
    var spec := record.spec;
    BackoffIsIdeal(spec.restartDelayMs, spec.maxRestartDelayMs, UnstableTally(record, nowMs));
    BackoffIsIdeal(spec.restartDelayMs, spec.maxRestartDelayMs, 0);
  }

  /** A failed service takes everything that waits for it down, and nothing else. */
  ghost predicate DownstreamFailed(s: State, next: State, name: Name) {
    && name !in next.waiters
    && (forall x :: Reaches(s.waiters, name, x) ==> !StillWaiting(next.waiters, x))
    && (forall a, b :: Edge(next.waiters, a, b) <==>
          Edge(s.waiters, a, b) && a != name && !Reaches(s.waiters, name, a) && !Reaches(s.waiters, name, b))
    && (forall m :: m != name ==>
          Find(next.records, m) == if Reaches(s.waiters, name, m) then Waiting.Fallen(s.records, m) else Find(s.records, m))
  }

  /** The record of a process that has left after its probe failed; what was asked of it stands. */
  function GivenUp(record: Record): Record {
    Record(record.spec, record.runtime.(status := Errored, pid := None, startedAtMs := None, identity := None))
  }

  /** What the supervisor does next about the service: nothing after a failed probe, else what its exit says. */
  function AnswerOf(s: State, name: Name, outcome: ExitOutcome, ports: Ports): ExitAction
    requires Has(s.records, name)
  {
    if name in s.readyFailed then Settled(Errored) else ClassifyExit(Find(s.records, name).value, outcome, ports.now(s.tick)).1
  }

  /**
   * An exit under a stale generation changes nothing, and one of a deleted service only stops its pending
   * kill. A current one leaves its record settled, launches nothing and touches no other live process. It
   * queues a restart exactly when the answer is one, with its delay; when the answer ends the service and
   * its probe had not failed, whatever waits for it fails, and otherwise nobody who waits is touched.
   */
  ghost predicate ExitTaken(s: State, next: State, name: Name, generation: nat, outcome: ExitOutcome, ports: Ports) {
    if !s.timers.IsCurrent(name, generation) then next == s
    else if !Has(s.records, name) then next == s.(effects := s.effects + [CancelForceKill(name)])
    else
      var action := AnswerOf(s, name, outcome, ports);
      && next.launched == s.launched && next.readyFailed == s.readyFailed - {name}
      && Has(next.records, name) && !Unsettled(next.records, name) && LiveOthersStand(s, next, name)
      && (name in s.readyFailed ==> Find(next.records, name) == Some(GivenUp(Find(s.records, name).value)))
      && next.timers == s.timers.(restarts := s.timers.restarts + if action.RestartAfter? then {name} else {})
      && next.effects == s.effects + [CancelForceKill(name)]
                         + (if action.RestartAfter? then [ScheduleRestart(name, action.delayMs)] else [])
      && (if name !in s.readyFailed && action.Settled? then DownstreamFailed(s, next, name)
          else next.waiters == s.waiters && OthersStand(s, next, name))
      && (name !in s.readyFailed && (action.Settled? ==> !Reaches(s.waiters, name, name)) ==>
            Find(next.records, name) == Some(ClassifyExit(Find(s.records, name).value, outcome, ports.now(s.tick)).0))
  }

  lemma OnExitPromise(s: State, name: Name, generation: nat, outcome: ExitOutcome, ports: Ports)
    ensures ExitTaken(s, OnExit(s, name, generation, outcome, ports), name, generation, outcome, ports)
  {
    hide ClassifyExit, WatchesIn, FailDownstream, Put, Find, Reaches, DownstreamFailed, OnExit, ExitTaken;
    if !s.timers.IsCurrent(name, generation) || !Has(s.records, name) {
      UnknownExit(s, name, generation, outcome, ports);
    } else if name in s.readyFailed {
      GivenUpExit(s, name, generation, outcome, ports);
    } else if AnswerOf(s, name, outcome, ports).RestartAfter? {
      RestartExit(s, name, generation, outcome, ports);
    } else {
      SettlingExit(s, name, generation, outcome, ports);
    }
  }

  lemma UnknownExit(s: State, name: Name, generation: nat, outcome: ExitOutcome, ports: Ports)
    requires !s.timers.IsCurrent(name, generation) || !Has(s.records, name)
    ensures ExitTaken(s, OnExit(s, name, generation, outcome, ports), name, generation, outcome, ports)
  {
    hide Find, WatchesIn;
  }

  lemma GivenUpExit(s: State, name: Name, generation: nat, outcome: ExitOutcome, ports: Ports)
    requires s.timers.IsCurrent(name, generation) && Has(s.records, name) && name in s.readyFailed
    ensures ExitTaken(s, OnExit(s, name, generation, outcome, ports), name, generation, outcome, ports)
  {
    hide ClassifyExit, WatchesIn, FailDownstream, Put, Find, Reaches, DownstreamFailed;
    var record := Find(s.records, name).value;
    Edited(s.records, name, record.With(record.runtime.MarkExited(Errored)));
  }

  lemma RestartExit(s: State, name: Name, generation: nat, outcome: ExitOutcome, ports: Ports)
    requires s.timers.IsCurrent(name, generation) && Has(s.records, name) && name !in s.readyFailed
    requires AnswerOf(s, name, outcome, ports).RestartAfter?
    ensures ExitTaken(s, OnExit(s, name, generation, outcome, ports), name, generation, outcome, ports)
  {
    hide ClassifyExit, WatchesIn, FailDownstream, Put, Find, Reaches, DownstreamFailed;
    var record := Find(s.records, name).value;
    ClassifyIsHonest(record, outcome, ports.now(s.tick));
    Edited(s.records, name, ClassifyExit(record, outcome, ports.now(s.tick)).0);
  }

  lemma SettlingExit(s: State, name: Name, generation: nat, outcome: ExitOutcome, ports: Ports)
    requires s.timers.IsCurrent(name, generation) && Has(s.records, name) && name !in s.readyFailed
    requires AnswerOf(s, name, outcome, ports).Settled?
    ensures ExitTaken(s, OnExit(s, name, generation, outcome, ports), name, generation, outcome, ports)
  {
    hide ClassifyExit, WatchesIn, FailDownstream, Put, Find, Reaches, DownstreamFailed;
    var record := Find(s.records, name).value;
    ClassifyIsHonest(record, outcome, ports.now(s.tick));
    var settled := ClassifyExit(record, outcome, ports.now(s.tick)).0;
    Edited(s.records, name, settled);
    var saved := Tick(SetRecord(Emit(s, CancelForceKill(name)), name, settled));
    FailPromise(saved, name);
    FailedFrom(s, saved, FailDownstream(saved, name).0, FailDownstream(saved, name).0, name);
  }

  lemma FailedFrom(s: State, saved: State, failed: State, next: State, name: Name)
    requires saved.waiters == s.waiters && OthersStand(s, saved, name) && DownstreamFailed(saved, failed, name)
    requires next.records == failed.records && next.waiters == failed.waiters
    ensures DownstreamFailed(s, next, name)
  {
    hide Reaches, StillWaiting, Find;
  }

  lemma {:induction false} FailedStaysSettled(s: State, dead: seq<Name>, name: Name)
    requires Has(s.records, name) && !Unsettled(s.records, name)
    ensures var next := FailDead(s, dead).0; Has(next.records, name) && !Unsettled(next.records, name)
    decreases |s.waiters|, |dead|
  {
    hide ForgetWaiter;
    if dead != [] {
      DeadStepShrinks(s, dead);
      var (next, left) := DeadStep(s, dead);
      Waiting.ErrorMarks(s.(waiters := ForgetWaiter(s.waiters, dead[|dead| - 1])), dead[|dead| - 1], name);
      ErrorKeepsName(s.(waiters := ForgetWaiter(s.waiters, dead[|dead| - 1])), dead[|dead| - 1], name);
      FailedStaysSettled(next, left, name);
    }
  }

  lemma ErrorKeepsName(s: State, doomed: Name, name: Name)
    ensures Has(MarkErroredIfSettled(s, doomed).records, name) <==> Has(s.records, name)
  {
  }

  // ----- timers firing -----

  /** A restart that was not queued, or no longer, does nothing; a queued one is claimed and tried once. */
  ghost predicate ClaimedOnce(s: State, next: State, name: Name, ports: Ports) {
    if name !in s.timers.restarts then next == s else RestartTried(s, next, name, ports)
  }

  lemma OnRestartPromise(s: State, name: Name, ports: Ports)
    ensures ClaimedOnce(s, OnRestart(s, name, ports), name, ports)
  {
    hide RestartNow;
    if name in s.timers.restarts {
      RestartNowPromise(s.(timers := s.timers.(restarts := s.timers.restarts - {name})), name, ports);
    }
  }

  /** A fire that is not the one armed does nothing; a due one tries a restart once. */
  ghost predicate FiredOnce(s: State, next: State, name: Name, at: nat, ports: Ports) {
    if name !in s.timers.fires || s.timers.fires[name] != at then next == s else RestartTried(s, next, name, ports)
  }

  lemma OnFirePromise(s: State, name: Name, at: nat, ports: Ports)
    ensures FiredOnce(s, OnFire(s, name, at, ports), name, at, ports)
  {
    hide RestartNow;
    if s.timers.FireIsDue(name, at) {
      RestartNowPromise(s, name, ports);
    }
  }

  // ----- readiness -----

  /** The service was launched under this generation and its probe has not answered yet. */
  predicate IsAwaited(s: State, name: Name, generation: nat) {
    && s.timers.CurrentGeneration(name) == generation
    && Has(s.records, name) && Find(s.records, name).value.runtime.status == Launching
  }

  /**
   * Readiness that is stale changes nothing. Otherwise the service is online, and the processes started
   * are those of services that waited for it, directly or not.
   */
  ghost predicate Readied(s: State, next: State, name: Name, generation: nat) {
    if !IsAwaited(s, name, generation) then next == s
    else
      && s.launched <= next.launched
      && (forall i :: |s.launched| <= i < |next.launched| ==> Reaches(s.waiters, name, next.launched[i].name))
      && Has(next.records, name) && Find(next.records, name).value.runtime.status.Online?
  }

  lemma OnReadyPromise(s: State, name: Name, generation: nat, ports: Ports)
    ensures Readied(s, OnReady(s, name, generation, ports), name, generation)
  {
    if AwaitsReadyAt(s, name, generation) {
      var record := Find(s.records, name).value;
      var online := Tick(SetRecord(s, name, record.With(record.runtime.MarkOnline())));
      Readiness.OnlyWaitersAreLaunched(online, name, ports);
      Readiness.OnlineStays(online, [name], ports, name);
      hide LaunchQueue, Reaches, Find;
    }
  }

  /**
   * A probe that times out under a stale generation changes nothing. Otherwise the service is on its way
   * out under its own pid, whose kill is scheduled, and everything that waits for it fails.
   */
  ghost predicate TimedOut(s: State, next: State, name: Name, generation: nat) {
    if !IsAwaited(s, name, generation) then next == s
    else
      var record := Find(s.records, name).value;
      record.runtime.pid.Some? ==>
        && Find(next.records, name) == Some(Record(record.spec, record.runtime.(status := Stopping)))
        && next.readyFailed == s.readyFailed + {name}
        && next.launched == s.launched && next.timers == s.timers
        && next.effects == s.effects + [KillOf(s, name, record.runtime.pid.value, record.runtime.Token())]
        && DownstreamFailed(s, next, name)
  }

  /** The task that kills what is left of a process, if it is still the one under its token. */
  function KillOf(s: State, name: Name, pid: nat, token: Option<string>): Effect {
    ScheduleForceKill(name, s.timers.CurrentGeneration(name), pid, token)
  }

  lemma OnReadyTimeoutPromise(s: State, name: Name, generation: nat, ports: Ports)
    ensures TimedOut(s, OnReadyTimeout(s, name, generation, ports), name, generation)
  {
    hide Find, Put, FailDownstream, Reaches, WatchesIn, DownstreamFailed;
    if AwaitsReadyAt(s, name, generation) && Find(s.records, name).value.runtime.pid.Some? {
      var record := Find(s.records, name).value;
      Edited(s.records, name, record.With(record.runtime.MarkStopping()));
      var marked := Tick(SetRecord(s.(readyFailed := s.readyFailed + {name}), name, record.With(record.runtime.MarkStopping())));
      var asked := ScheduleForceKillOf(marked, name, record.runtime.pid, record.runtime.Token());
      FailPromise(asked, name);
      FailedFrom(s, asked, FailDownstream(asked, name).0, OnReadyTimeout(s, name, generation, ports), name);
    }
  }

  lemma FailPromise(s: State, name: Name)
    ensures var next := FailDownstream(s, name).0;
            && next.launched == s.launched && next.timers == s.timers
            && next.effects == s.effects && next.readyFailed == s.readyFailed && next.tick == s.tick
            && DownstreamFailed(s, next, name)
            && (Find(next.records, name) == Find(s.records, name)
                || (Has(next.records, name) && Reaches(s.waiters, name, name) && !Unsettled(s.records, name)))
            && (forall m :: Unsettled(s.records, m) ==> Find(next.records, m) == Find(s.records, m))
            && (forall m :: !Unsettled(s.records, m) ==> !Unsettled(next.records, m))
  {
    Waiting.FailDownstreamExact(s, name);
    hide Reaches, Waiting.Fallen, FailDead;
    var (next, failed) := FailDownstream(s, name);
    var dead, cut := WaitersOf(s.waiters, name), s.(waiters := s.waiters - {name});
    Waiting.FailDeadIsLocal(cut, dead);
    forall m | !Unsettled(s.records, m) ensures !Unsettled(next.records, m) && (Has(s.records, m) ==> Has(next.records, m)) {
      if Has(s.records, m) {
        FailedStaysSettled(cut, dead, m);
      } else {
        FailDeadAddsNobody(cut, dead, m);
      }
    }
    forall x | Reaches(s.waiters, name, x) ensures !StillWaiting(next.waiters, x) {
      forall key <- next.waiters ensures x !in next.waiters[key] {
        assert Edge(next.waiters, key, x) <==> x in next.waiters[key];
      }
    }
  }

  lemma {:induction false} FailDeadAddsNobody(s: State, dead: seq<Name>, name: Name)
    requires !Has(s.records, name)
    ensures !Has(FailDead(s, dead).0.records, name)
    decreases |s.waiters|, |dead|
  {
    hide ForgetWaiter, Find;
    if dead != [] {
      DeadStepShrinks(s, dead);
      var (next, left) := DeadStep(s, dead);
      ErrorKeepsName(s.(waiters := ForgetWaiter(s.waiters, dead[|dead| - 1])), dead[|dead| - 1], name);
      FailDeadAddsNobody(next, left, name);
    }
  }

  /** The service waits for nobody, nobody waits for it, and what did, directly or not, has failed. */
  ghost predicate WaitsEnded(s: State, next: State, name: Name) {
    && !StillWaiting(next.waiters, name) && name !in next.waiters
    && (forall x :: Reaches(s.waiters, name, x) ==> !StillWaiting(next.waiters, x))
    && (forall a, b :: Edge(next.waiters, a, b) <==>
          && Edge(s.waiters, a, b) && a != name && b != name
          && !Reaches(s.waiters, name, a) && !Reaches(s.waiters, name, b))
    && (forall m :: Find(next.records, m) ==
          if m != name && Reaches(s.waiters, name, m) then Waiting.Fallen(s.records, m) else Find(s.records, m))
  }

  /** Cancelled readiness: the service is failing no probe, awaited by no task, and its waits are ended. */
  ghost predicate ReadyCancelled(s: State, next: State, name: Name) {
    && next.readyFailed == s.readyFailed - {name} && next.effects == s.effects + [CancelReady(name)]
    && next.launched == s.launched && next.timers == s.timers && next.tick == s.tick
    && WaitsEnded(s, next, name)
  }

  lemma CancelReadyPromise(s: State, name: Name)
    ensures ReadyCancelled(s, CancelReadyOf(s, name), name)
  {
    var forgotten := s.(readyFailed := s.readyFailed - {name}, waiters := ForgetWaiter(s.waiters, name));
    FailPromise(forgotten, name);
    StickyStop.CancelReadyFrees(s, name, name);
    hide FailDownstream, StillWaiting, Find, Reaches, Waiting.Fallen, ForgetWaiter;
    ForgottenReaches(s.waiters, name);
  }

  /** Taking a name off every list changes nothing of what it reaches, itself aside. */
  lemma ForgottenReaches(g: Graph, name: Name)
    ensures var forgotten := ForgetWaiter(g, name);
            && (forall a, b :: Edge(forgotten, a, b) <==> Edge(g, a, b) && b != name)
            && (forall x :: Reaches(forgotten, name, x) <==> x != name && Reaches(g, name, x))
  {
    var forgotten := ForgetWaiter(g, name);
    forall a, b ensures Edge(forgotten, a, b) <==> Edge(g, a, b) && b != name {
      if Edge(g, a, b) && b != name {
        assert b in Without(g[a], name);
      }
    }
    hide Reaches, ForgetWaiter, Edge;
    forall x ensures Reaches(forgotten, name, x) <==> x != name && Reaches(g, name, x) {
      ForgottenReachesOne(g, forgotten, name, x);
    }
  }

  lemma ForgottenReachesOne(g: Graph, forgotten: Graph, name: Name, x: Name)
    requires forall a, b :: Edge(forgotten, a, b) <==> Edge(g, a, b) && b != name
    ensures Reaches(forgotten, name, x) <==> x != name && Reaches(g, name, x)
  {
    hide Edge;
    if Reaches(forgotten, name, x) {
      var d := Readiness.LastEdge(forgotten, name, x);
      Readiness.ReachesInLarger(forgotten, g, name, x);
    }
    hide Reaches;
    if x != name && Reaches(g, name, x) {
      var held := iset y | y == name || Reaches(forgotten, name, y);
      forall a, b | a in held && Edge(g, a, b) ensures b in held {
        if b != name {
          if a == name {
            EdgeReaches(forgotten, name, b);
          } else {
            ReachesThenEdge(forgotten, name, a, b);
          }
        }
      }
      ClosedSetHolds(g, held, name, x);
    }
  }

  // ----- stopping and deleting -----

  /** A retired service has nothing armed or queued, its waits are ended, and its process will be killed. */
  ghost predicate Retired(s: State, next: State, name: Name, pid: Option<nat>, token: Option<string>) {
    && next.timers == s.timers.(fires := s.timers.fires - {name}, restarts := s.timers.restarts - {name})
    && next.readyFailed == s.readyFailed - {name} && next.launched == s.launched && next.tick == s.tick
    && next.effects == s.effects + [DisarmTimer(name), CancelRestart(name), CancelReady(name)]
                       + (if pid.Some? then [KillOf(s, name, pid.value, token)] else [])
    && WaitsEnded(s, next, name)
  }

  lemma RetirePromise(s: State, name: Name, pid: Option<nat>, token: Option<string>)
    ensures Retired(s, Retire(s, name, pid, token), name, pid, token)
  {
    hide CancelReadyOf, WaitsEnded, WatchesIn;
    var cancelled := CancelQueuedRestart(Disarm(s, name), name);
    CancelReadyPromise(cancelled, name);
    assert WaitsEnded(s, Retire(s, name, pid, token), name) by {
      EndedFrom(s, cancelled, CancelReadyOf(cancelled, name), Retire(s, name, pid, token), name);
    }
    assert s.effects + [DisarmTimer(name)] + [CancelRestart(name)] + [CancelReady(name)]
        == s.effects + [DisarmTimer(name), CancelRestart(name), CancelReady(name)];
  }

  lemma EndedFrom(s: State, before: State, after: State, next: State, name: Name)
    requires WaitsEnded(before, after, name) && before.waiters == s.waiters && before.records == s.records
    requires next.waiters == after.waiters && next.records == after.records
    ensures WaitsEnded(s, next, name)
  {
    hide Find, Reaches, StillWaiting, Waiting.Fallen;
  }

  /**
   * A stop that replied with success leaves the service dormant: not running, with nothing asked, armed
   * or queued, waiting for nobody; its live process will be killed, and nothing was launched.
   */
  ghost predicate StoppedForGood(s: State, next: State, selector: Selector, replied: bool) {
    !selector.All? && replied && FindBy(s.records, selector).Some? ==>
      var name, live := FindBy(s.records, selector).value.runtime.name, FindBy(s.records, selector).value.runtime.LivePid();
      && Sticky.Dormant(next, name) && name !in next.readyFailed && next.launched == s.launched
      && Has(next.records, name)
      && (live.Some? ==> Commands.IsCovered(next.effects, live.value))
  }

  lemma StopPromise(s: State, selector: Selector, ports: Ports)
    requires TableOk(s.records)
    ensures var (next, replied) := Stop(s, selector, ports); StoppedForGood(s, next, selector, replied)
  {
    hide Stop, Sticky.Dormant, Commands.IsCovered, TableOk;
    var (next, replied) := Stop(s, selector, ports);
    if !selector.All? && replied && FindBy(s.records, selector).Some? {
      var name := FindBy(s.records, selector).value.runtime.name;
      FindByIsFind(s.records, selector);
      Commands.StopCoversItsProcess(s, selector, ports);
      hide FindBy;
      var tried, pid, token := StickyStop.StopIsRetirement(s, selector, ports, name);
      StickyStop.RetireMakesDormant(tried, name, pid, token);
      StickyStop.RetireLaunchesNothing(tried, name, pid, token);
    }
  }

  /** A delete removes exactly its service once saved, and otherwise keeps its declaration and its id. */
  ghost predicate DeletedOrKept(s: State, next: State, name: Name, outcome: Option<StopOutcome>) {
    Has(s.records, name) ==>
      && OthersStand(s, next, name)
      && (if outcome.Some? then !Has(next.records, name)
          else Has(next.records, name)
               && Find(next.records, name).value.spec == Find(s.records, name).value.spec
               && Find(next.records, name).value.runtime.pmId == Find(s.records, name).value.runtime.pmId)
  }

  lemma DeletePromise(s: State, name: Name, ports: Ports)
    requires TableOk(s.records)
    ensures var (next, outcome) := DeleteOne(s, name, ports); DeletedOrKept(s, next, name, outcome)
  {
    if Has(s.records, name) {
      Commands.DeleteIsAllOrNothing(s, name, ports);
    }
    hide DeleteOne;
  }

  // ----- batches -----

  /**
   * A batch keeps the dependency graph closed and acyclic, and owes exactly the watches of the processes
   * it launched, whether it was refused, completed or rolled back.
   */
  ghost predicate BatchKept(s: State, next: State, specs: seq<Spec>, report: StartReport) {
    && (TableOk(s.records) && BatchGraph.DistinctSpecs(specs) && BatchGraph.SoundGraph(s.records) ==>
          BatchGraph.SoundGraph(next.records))
    && (forall before, from :: Coherent(s, before, from, []) ==> Coherent(next, before, from, report.outcomes))
  }

  lemma StartAppsPromise(s: State, specs: seq<Spec>, ports: Ports)
    requires CommandCoherence.RoomFor(s, |specs|)
    ensures var (next, report) := StartApps(s, specs, ports); BatchKept(s, next, specs, report)
  {
    hide StartApps, Coherent, BatchGraph.SoundGraph;
    var (next, report) := StartApps(s, specs, ports);
    if TableOk(s.records) && BatchGraph.DistinctSpecs(specs) && BatchGraph.SoundGraph(s.records) {
      BatchGraph.StartAppsKeepsGraph(s, specs, ports);
    }
    forall before, from | Coherent(s, before, from, [])
      ensures Coherent(next, before, from, report.outcomes) {
      CommandCoherence.StartAppsKeeps(s, specs, ports, before, from);
    }
  }
}
