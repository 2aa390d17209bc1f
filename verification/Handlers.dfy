/**
 * The supervisor as functions from state to state: what each handler of usecases/src/supervisor.rs,
 * supervisor_handlers.rs, supervisor_ready.rs, supervisor_liveness.rs and the table operations they
 * call do to the state, and which effects they emit. A lookup the source guards with `expect` sets
 * `panicked` when it fails, so that its absence can be proved.
 */
module Handlers {
  import opened Graphs
  import opened Model
  import opened ProcessTable
  import DepGraph
  import opened Restart

  /** `TimerState`: armed fires, queued restarts, and the generation of each name's latest watch. */
  datatype Timers = Timers(
    fires: map<Name, nat>, restarts: set<Name>, generations: map<Name, nat>, nextGeneration: nat)
  {
    function CurrentGeneration(name: Name): nat {
      if name in generations then generations[name] else 0
    }

    predicate IsCurrent(name: Name, generation: nat) { CurrentGeneration(name) == generation }

    predicate FireIsDue(name: Name, at: nat) { name in fires && fires[name] == at }

    function Bump(name: Name): Timers {
      var next := SaturatingInc(nextGeneration, U64_MAX);
      this.(nextGeneration := next, generations := generations[name := next])
    }
  }

  datatype Effect =
    | ScheduleMemorySample
    | ScheduleLivenessSample
    | ArmTimer(name: Name, at: nat, delayMs: nat)
    | DisarmTimer(name: Name)
    | DisarmTimers(names: set<Name>)
    | ScheduleRestart(name: Name, delayMs: nat)
    | CancelRestart(name: Name)
    | CancelRestarts(names: set<Name>)
    | ScheduleForceKill(name: Name, generation: nat, pid: nat, token: Option<string>)
    | CancelForceKill(name: Name)
    | WatchExit(name: Name, generation: nat, pid: nat, token: Option<string>)
    | AwaitReady(name: Name, generation: nat, probe: string)
    | CancelReady(name: Name)

  /** A process the supervisor took charge of, by spawning it or adopting it. */
  datatype Launch = Launch(name: Name, pid: nat)

  datatype State = State(
    records: seq<Record>,
    timers: Timers,
    waiters: Graph,
    readyFailed: set<Name>,
    effects: seq<Effect>,
    launched: seq<Launch>,
    tick: nat,
    panicked: bool)

  datatype StartKind = Fresh | AlreadyRunning | Adopted | Scheduled | Deferred {
    predicate NeedsWatching() { Fresh? || Adopted? }
  }

  datatype StartOutcome = StartOutcome(pmId: nat, name: Name, pid: Option<nat>, kind: StartKind)

  datatype StopOutcome = StopOutcome(name: Name, forceKillPid: Option<nat>)

  datatype DeferredStart = DeferredStart(name: Name, waitingOn: seq<Name>)

  datatype StartReport = StartReport(outcomes: seq<StartOutcome>, failed: bool, pending: seq<DeferredStart>)

  datatype RestartOutcome = Refused | Started(started: StartOutcome) | AwaitingExit(stopped: StopOutcome)

  datatype ExitAction = RestartAfter(delayMs: nat) | Settled(status: Status)

  // ----- small steps -----

  function Panic(s: State): State { s.(panicked := true) }

  function Tick(s: State): State { s.(tick := s.tick + 1) }

  /** An outstanding wait for a process to leave, as `WatchExit` starts it. */
  datatype ExitWatch = ExitWatch(name: Name, generation: nat, pid: nat)

  function WatchOf(e: Effect): seq<ExitWatch> {
    if e.WatchExit? then [ExitWatch(e.name, e.generation, e.pid)] else []
  }

  /** The exit watches an effect list starts, in order. */
  function WatchesIn(effects: seq<Effect>): seq<ExitWatch> {
    if effects == [] then [] else WatchesIn(effects[..|effects| - 1]) + WatchOf(effects[|effects| - 1])
  }

  function Emit(s: State, e: Effect): (next: State)
    ensures WatchesIn(next.effects) == WatchesIn(s.effects) + WatchOf(e)
  {
    assert (s.effects + [e])[..|s.effects + [e]| - 1] == s.effects;
    s.(effects := s.effects + [e])
  }

  function SetRecord(s: State, name: Name, updated: Record): State {
    s.(records := Put(s.records, name, updated))
  }

  function Disarm(s: State, name: Name): State {
    Emit(s.(timers := s.timers.(fires := s.timers.fires - {name})), DisarmTimer(name))
  }

  function CancelQueuedRestart(s: State, name: Name): State {
    Emit(s.(timers := s.timers.(restarts := s.timers.restarts - {name})), CancelRestart(name))
  }

  function QueueRestart(s: State, name: Name, delayMs: nat): State {
    Emit(s.(timers := s.timers.(restarts := s.timers.restarts + {name})), ScheduleRestart(name, delayMs))
  }

  function ArmTimerFor(s: State, name: Name, ports: Ports): (next: State)
    ensures next.waiters == s.waiters && next.records == s.records
  {
    var disarmed := Disarm(s, name);
    var record := Find(s.records, name);
    if record.None? || record.value.spec.schedule.None? then disarmed
    else
      var asked := Tick(disarmed);
      match ports.nextFire(disarmed.tick)
      case None => asked
      case Some(at) =>
        var nowMs := ports.now(disarmed.tick);
        Emit(asked.(timers := asked.timers.(fires := asked.timers.fires[name := at])),
             ArmTimer(name, at, if at >= nowMs then at - nowMs else 0))
  }

  function IdentityToken(s: State, name: Name): Option<string> {
    var record := Find(s.records, name);
    if record.None? then None else record.value.runtime.Token()
  }

  function ScheduleForceKillOf(s: State, name: Name, pid: Option<nat>, token: Option<string>): State {
    if pid.None? then s
    else Emit(s, ScheduleForceKill(name, s.timers.CurrentGeneration(name), pid.value, token))
  }

  function AwaitReadyIfProbing(s: State, name: Name, generation: nat): State {
    match Find(s.records, name)
    case None => Panic(s)
    case Some(record) =>
      if record.spec.readyProbe.None? || !record.runtime.status.Launching? then s
      else Emit(s, AwaitReady(name, generation, record.spec.readyProbe.value))
  }

  function Watch(s: State, started: StartOutcome): (next: State)
    ensures next.waiters == s.waiters && next.records == s.records
  {
    if started.pid.None? || !started.kind.NeedsWatching() then s
    else
      var bumped := s.(timers := s.timers.Bump(started.name));
      var generation := bumped.timers.nextGeneration;
      var watched := Emit(bumped,
        WatchExit(started.name, generation, started.pid.value, IdentityToken(s, started.name)));
      AwaitReadyIfProbing(watched, started.name, generation)
  }

  function WatchAll(s: State, outcomes: seq<StartOutcome>): State
    decreases |outcomes|
  {
    if outcomes == [] then s else WatchAll(Watch(s, outcomes[0]), outcomes[1..])
  }

  // ----- launching and stopping one service -----

  /** `launch`: the single-spawn guard, the registration of a scheduled task, and the spawn. */
  function LaunchOne(s: State, name: Name, register: bool, ports: Ports): (r: (State, Option<StartOutcome>))
    ensures r.0.waiters == s.waiters && r.0.timers == s.timers && r.0.effects == s.effects
  {
    match Find(s.records, name)
    case None => (Panic(s), None)
    case Some(record) =>
      var runtime := record.runtime;
      if !runtime.status.IsSettled() then
        var armed := runtime.ArmSchedule();
        var kept := if runtime.status.IsShuttingDown() then armed.RequestRestart() else armed;
        (SetRecord(s, name, record.With(kept)),
         Some(StartOutcome(runtime.pmId, name, runtime.pid, AlreadyRunning)))
      else if register && record.spec.IsScheduledTask() then
        (SetRecord(s, name, record.With(runtime.ArmSchedule())),
         Some(StartOutcome(runtime.pmId, name, None, Scheduled)))
      else
        match ports.spawn(s.tick)
        case None => (Tick(s), None)
        case Some(spawned) =>
          var launching := runtime.ArmSchedule().MarkLaunched(spawned.pid, spawned.nowMs);
          var online := if record.spec.readyProbe.None? then launching.MarkOnline() else launching;
          var up := SetRecord(Tick(s), name, record.With(online.RecordIdentity(spawned.identity)));
          (up.(launched := up.launched + [Launch(name, spawned.pid)]),
           Some(StartOutcome(runtime.pmId, name, Some(spawned.pid), Fresh)))
  }

  /** `request_stop`: asks a live process to leave, or settles a record that has none. */
  function RequestStop(s: State, name: Name, ports: Ports): (State, Option<StopOutcome>) {
    match Find(s.records, name)
    case None => (Panic(s), None)
    case Some(record) =>
      var live := record.runtime.LivePid();
      if live.None? then
        (SetRecord(s, name, record.With(record.runtime.MarkExited(Stopped))), Some(StopOutcome(name, None)))
      else if !ports.terminate(s.tick) then (Tick(s), None)
      else
        (SetRecord(Tick(s), name, record.With(record.runtime.MarkStopping())),
         Some(StopOutcome(name, Some(live.value))))
  }

  function RequestRestartOf(s: State, name: Name): State {
    match Find(s.records, name)
    case None => Panic(s)
    case Some(record) => SetRecord(s, name, record.With(record.runtime.RequestRestart()))
  }

  function RestartApp(s: State, selector: Selector, ports: Ports): (State, RestartOutcome) {
    match FindBy(s.records, selector)
    case None => (s, Refused)
    case Some(record) =>
      var name := record.runtime.name;
      if record.runtime.status.IsSettled() then
        var (launched, outcome) := LaunchOne(s, name, false, ports);
        if outcome.None? then (launched, Refused) else (Tick(launched), Started(outcome.value))
      else
        var (asked, outcome) := RequestStop(s, name, ports);
        if outcome.None? then (asked, Refused)
        else (Tick(RequestRestartOf(asked, name)), AwaitingExit(outcome.value))
  }

  function DispatchRestart(s: State, outcome: RestartOutcome): (State, Name)
    requires !outcome.Refused?
  {
    match outcome
    case Started(started) => (Watch(s, started), started.name)
    case AwaitingExit(stopped) =>
      (ScheduleForceKillOf(s, stopped.name, stopped.forceKillPid, IdentityToken(s, stopped.name)), stopped.name)
  }

  function RestartNow(s: State, name: Name, ports: Ports): State {
    var (tried, outcome) := RestartApp(CancelQueuedRestart(s, name), ByName(name), ports);
    if outcome.Refused? then ArmTimerFor(tried, name, ports)
    else
      var (dispatched, restarted) := DispatchRestart(tried, outcome);
      ArmTimerFor(dispatched, restarted, ports)
  }

  // ----- readiness -----

  function Without(list: seq<Name>, name: Name): (kept: seq<Name>)
    ensures forall x :: x in kept <==> x in list && x != name
  {
    if list == [] then []
    else if list[0] == name then Without(list[1..], name)
    else [list[0]] + Without(list[1..], name)
  }

  /** `forget_waiter`: drops `name` from every list and every list left empty. */
  function ForgetWaiter(waiters: Graph, name: Name): Graph {
    map key | key in waiters && Without(waiters[key], name) != [] :: Without(waiters[key], name)
  }

  function MarkErroredIfSettled(s: State, name: Name): (next: State)
    ensures next.waiters == s.waiters && next.timers == s.timers && next.effects == s.effects
  {
    match Find(s.records, name)
    case None => Panic(s)
    case Some(record) =>
      if !record.runtime.status.IsSettled() then s
      else SetRecord(s, name, record.With(record.runtime.MarkExited(Errored)))
  }

  function WaitersOf(waiters: Graph, name: Name): seq<Name> {
    if name in waiters then waiters[name] else []
  }

  lemma ForgetShrinks(waiters: Graph, name: Name)
    ensures |ForgetWaiter(waiters, name)| <= |waiters|
    ensures |waiters - {name}| <= |waiters| - if name in waiters then 1 else 0
  {
    KeySetsCount(ForgetWaiter(waiters, name), waiters);
    KeySetsCount(waiters - {name}, waiters);
    if name in waiters {
      assert (waiters - {name}).Keys == waiters.Keys - {name};
    }
  }

  lemma KeySetsCount(small: Graph, large: Graph)
    requires small.Keys <= large.Keys
    ensures |small| <= |large|
  {
    SubsetCount(small.Keys, large.Keys);
  }

  lemma SubsetCount(small: set<Name>, large: set<Name>)
    requires small <= large
    ensures |small| <= |large|
  {
    assert large == small + (large - small);
  }

  /** One doomed name: forgotten, marked, and its own waiters doomed in turn. */
  function DeadStep(s: State, dead: seq<Name>): (State, seq<Name>)
    requires dead != []
  {
    var doomed, left := dead[|dead| - 1], dead[..|dead| - 1];
    var forgotten := ForgetWaiter(s.waiters, doomed);
    (MarkErroredIfSettled(s.(waiters := forgotten), doomed).(waiters := forgotten - {doomed}),
     left + WaitersOf(forgotten, doomed))
  }

  lemma DeadStepShrinks(s: State, dead: seq<Name>)
    requires dead != []
    ensures var (next, left) := DeadStep(s, dead);
            && |next.waiters| <= |s.waiters|
            && (|next.waiters| == |s.waiters| ==> |left| < |dead|)
  {
    hide MarkErroredIfSettled, ForgetWaiter;
    var doomed := dead[|dead| - 1];
    ForgetShrinks(s.waiters, doomed);
    ForgetShrinks(ForgetWaiter(s.waiters, doomed), doomed);
  }

  /** The loop of `fail_downstream` over the doomed names, popping from the back. */
  function FailDead(s: State, dead: seq<Name>): (State, seq<Name>)
    decreases |s.waiters|, |dead|
  {
    if dead == [] then (s, [])
    else
      var (next, left) := DeadStep(s, dead);
      DeadStepShrinks(s, dead);
      var (last, failed) := FailDead(next, left);
      (last, [dead[|dead| - 1]] + failed)
  }

  function FailDownstream(s: State, name: Name): (State, seq<Name>) {
    FailDead(s.(waiters := s.waiters - {name}), WaitersOf(s.waiters, name))
  }

  function CancelReadyOf(s: State, name: Name): State {
    var forgotten := s.(readyFailed := s.readyFailed - {name}, waiters := ForgetWaiter(s.waiters, name));
    Emit(FailDownstream(forgotten, name).0, CancelReady(name))
  }

  predicate StillWaiting(waiters: Graph, name: Name) {
    exists key <- waiters :: name in waiters[key]
  }

  /** `launch_waiter`: registers one released waiter; the flag says whether it releases its own. */
  function LaunchWaiter(s: State, waiter: Name, ports: Ports): (State, bool) {
    var (tried, outcome) := LaunchOne(s, waiter, true, ports);
    if outcome.None? then
      (Tick(FailDownstream(MarkErroredIfSettled(tried, waiter), waiter).0), false)
    else
      var armed := ArmTimerFor(Watch(tried, outcome.value), waiter, ports);
      var record := Find(armed.records, waiter);
      var released := outcome.value.kind.Scheduled? || (record.Some? && record.value.runtime.status.Online?);
      (Tick(armed), released)
  }

  /** One list of `launch_waiters`: every waiter no other list still holds is launched. */
  function LaunchList(s: State, list: seq<Name>, queue: seq<Name>, ports: Ports): (State, seq<Name>)
    decreases |list|
  {
    if list == [] then (s, queue)
    else if StillWaiting(s.waiters, list[0]) then LaunchList(s, list[1..], queue, ports)
    else
      var (next, released) := LaunchWaiter(s, list[0], ports);
      LaunchList(next, list[1..], if released then queue + [list[0]] else queue, ports)
  }

  lemma FailDeadShrinks(s: State, dead: seq<Name>)
    ensures |FailDead(s, dead).0.waiters| <= |s.waiters|
    decreases |s.waiters|, |dead|
  {
    if dead != [] {
      var doomed := dead[|dead| - 1];
      var forgotten := ForgetWaiter(s.waiters, doomed);
      var marked := MarkErroredIfSettled(s.(waiters := forgotten), doomed);
      ForgetShrinks(s.waiters, doomed);
      ForgetShrinks(forgotten, doomed);
      FailDeadShrinks(marked.(waiters := forgotten - {doomed}),
                      dead[..|dead| - 1] + WaitersOf(forgotten, doomed));
    }
  }

  lemma LaunchWaiterShrinks(s: State, waiter: Name, ports: Ports)
    ensures |LaunchWaiter(s, waiter, ports).0.waiters| <= |s.waiters|
  {
    var (tried, outcome) := LaunchOne(s, waiter, true, ports);
    if outcome.None? {
      var marked := MarkErroredIfSettled(tried, waiter);
      ForgetShrinks(marked.waiters, waiter);
      FailDeadShrinks(marked.(waiters := marked.waiters - {waiter}), WaitersOf(marked.waiters, waiter));
    }
  }

  lemma LaunchListShrinks(s: State, list: seq<Name>, queue: seq<Name>, ports: Ports)
    ensures |LaunchList(s, list, queue, ports).0.waiters| <= |s.waiters|
    decreases |list|
  {
    if list != [] && !StillWaiting(s.waiters, list[0]) {
      LaunchWaiterShrinks(s, list[0], ports);
    }
  }

  /** The queue of `launch_waiters`, popping from the back. */
  function LaunchQueue(s: State, queue: seq<Name>, ports: Ports): State
    decreases |s.waiters|, |queue|
  {
    if queue == [] then s
    else
      var ready := queue[|queue| - 1];
      var left := queue[..|queue| - 1];
      if ready !in s.waiters then LaunchQueue(s, left, ports)
      else
        var taken := s.(waiters := s.waiters - {ready});
        ForgetShrinks(s.waiters, ready);
        LaunchListShrinks(taken, s.waiters[ready], left, ports);
        var (next, longer) := LaunchList(taken, s.waiters[ready], left, ports);
        LaunchQueue(next, longer, ports)
  }

  function LaunchWaiters(s: State, name: Name, ports: Ports): State {
    LaunchQueue(s, [name], ports)
  }

  predicate AwaitsReadyAt(s: State, name: Name, generation: nat) {
    && s.timers.IsCurrent(name, generation)
    && Has(s.records, name)
    && Find(s.records, name).value.runtime.status.Launching?
  }

  function OnReady(s: State, name: Name, generation: nat, ports: Ports): State {
    if !AwaitsReadyAt(s, name, generation) then s
    else
      var record := Find(s.records, name).value;
      LaunchWaiters(Tick(SetRecord(s, name, record.With(record.runtime.MarkOnline()))), name, ports)
  }

  function OnReadyTimeout(s: State, name: Name, generation: nat, ports: Ports): State {
    if !AwaitsReadyAt(s, name, generation) then s
    else
      var record := Find(s.records, name).value;
      var stopping := SetRecord(s.(readyFailed := s.readyFailed + {name}), name,
                                record.With(record.runtime.MarkStopping()));
      match record.runtime.pid
      case None => Panic(stopping)
      case Some(pid) =>
        var asked := ScheduleForceKillOf(Tick(stopping), name, Some(pid), record.runtime.Token());
        Tick(FailDownstream(asked, name).0)
  }

  // ----- exits, restarts and fires -----

  function StopsOnThisCode(record: Record, outcome: ExitOutcome): bool {
    outcome.Code? && outcome.code in record.spec.stopExitCodes
  }

  /** `classify_exit`: the settled record and what the supervisor does next. */
  function ClassifyExit(record: Record, outcome: ExitOutcome, nowMs: nat): (Record, ExitAction) {
    var runtime := record.runtime;
    var taken := runtime.CancelRestart();
    if runtime.pendingRestart && !runtime.TakesTheBreaker() then
      (record.With(taken.MarkExited(Stopped)), RestartAfter(0))
    else if !runtime.pendingRestart && (runtime.status.IsShuttingDown() || StopsOnThisCode(record, outcome)) then
      (record.With(taken.MarkExited(Stopped)), Settled(Stopped))
    else
      match DecideRestart(PolicyOf(record.spec), taken.ElapsedSinceLaunchMs(nowMs), taken.unstableRestarts)
      case Again(delayMs, unstable) =>
        (record.With(taken.MarkExited(Stopped).CountRestart(unstable)), RestartAfter(delayMs))
      case GiveUp(unstable) =>
        var status := if outcome.Failed() then Errored else Stopped;
        (record.With(taken.MarkExited(status).(unstableRestarts := unstable)), Settled(status))
  }

  function OnExit(s: State, name: Name, generation: nat, outcome: ExitOutcome, ports: Ports): State {
    if !s.timers.IsCurrent(name, generation) then s
    else
      var cancelled := Emit(s, CancelForceKill(name));
      match Find(s.records, name)
      case None => cancelled
      case Some(record) =>
        if name in s.readyFailed then
          Tick(SetRecord(cancelled.(readyFailed := s.readyFailed - {name}), name,
                         record.With(record.runtime.MarkExited(Errored))))
        else
          var (settled, action) := ClassifyExit(record, outcome, ports.now(s.tick));
          var saved := Tick(SetRecord(cancelled, name, settled));
          match action
          case RestartAfter(delayMs) => QueueRestart(saved, name, delayMs)
          case Settled(_) => FailDownstream(saved, name).0
  }

  function OnRestart(s: State, name: Name, ports: Ports): State {
    if name !in s.timers.restarts then s
    else RestartNow(s.(timers := s.timers.(restarts := s.timers.restarts - {name})), name, ports)
  }

  function OnFire(s: State, name: Name, at: nat, ports: Ports): State {
    if !s.timers.FireIsDue(name, at) then s else RestartNow(s, name, ports)
  }

  // ----- memory and liveness -----

  function HandToTheBreaker(s: State, name: Name): State {
    match Find(s.records, name)
    case None => Panic(s)
    case Some(record) =>
      if !record.runtime.pendingRestart then s
      else SetRecord(s, name, record.With(record.runtime.RequestSupervisedRestart()))
  }

  function BreachesOf(records: seq<Record>, sampled: map<nat, nat>): (names: seq<Name>)
    ensures forall n :: n in names ==> exists r <- records :: r.runtime.name == n && r.runtime.status.IsRunning()
  {
    if records == [] then []
    else
      var rest := BreachesOf(records[1..], sampled);
      var record := records[0];
      if record.runtime.status.IsRunning() && record.runtime.pid.Some? && record.spec.maxMemoryKib.Some?
         && record.runtime.pid.value in sampled
         && sampled[record.runtime.pid.value] > record.spec.maxMemoryKib.value then
        assert record in records;
        [record.runtime.name] + rest
      else rest
  }

  function KillBreaches(s: State, names: seq<Name>, ports: Ports): State
    decreases |names|
  {
    if names == [] then s
    else KillBreaches(HandToTheBreaker(RestartNow(s, names[0], ports), names[0]), names[1..], ports)
  }

  function OnMemorySample(s: State, ports: Ports): State {
    KillBreaches(Tick(Emit(s, ScheduleMemorySample)), BreachesOf(s.records, ports.residentMemory(s.tick)), ports)
  }

  function LivenessWatchList(records: seq<Record>): (names: seq<Name>)
    ensures forall n :: n in names ==> exists r <- records :: r.runtime.name == n && r.runtime.status.Online?
  {
    if records == [] then []
    else
      var rest := LivenessWatchList(records[1..]);
      var record := records[0];
      if record.runtime.status.Online? && record.spec.autorestart && record.spec.livenessProbe.Some? then
        assert record in records;
        [record.runtime.name] + rest
      else rest
  }

  /** One watched service: `record_liveness`, then a restart once the threshold is reached. */
  function CheckStep(s: State, name: Name, threshold: nat, ports: Ports): State {
    match Find(s.records, name)
    case None => Panic(s)
    case Some(record) =>
      if ports.isReady(s.tick) then SetRecord(Tick(s), name, record.With(record.runtime.PassLiveness()))
      else
        var failing := record.runtime.FailLiveness();
        var noted := SetRecord(Tick(s), name, record.With(failing));
        if failing.livenessFailures >= threshold then HandToTheBreaker(RestartNow(noted, name, ports), name)
        else noted
  }

  function CheckLiveness(s: State, names: seq<Name>, threshold: nat, ports: Ports): State
    decreases |names|
  {
    if names == [] then s else CheckLiveness(CheckStep(s, names[0], threshold, ports), names[1..], threshold, ports)
  }

  predicate StabilityIsSettled(record: Record, nowMs: nat) {
    var elapsed := record.runtime.ElapsedSinceLaunchMs(nowMs);
    record.runtime.unstableRestarts != 0 && elapsed.Some? && elapsed.value >= record.spec.minUptimeMs
  }

  function SettleStability(records: seq<Record>, nowMs: nat): (after: seq<Record>)
    ensures |after| == |records|
    ensures NamesOf(after) == NamesOf(records) && IdsOf(after) == IdsOf(records)
    ensures forall name {:trigger Find(after, name)} :: Find(after, name) ==
              match Find(records, name)
              case None => None
              case Some(r) => Some(if StabilityIsSettled(r, nowMs) then r.With(r.runtime.SettleStability()) else r)
  {
    if records == [] then []
    else
      var record := records[0];
      [if StabilityIsSettled(record, nowMs) then record.With(record.runtime.SettleStability()) else record]
      + SettleStability(records[1..], nowMs)
  }

  function OnLivenessSample(s: State, threshold: nat, ports: Ports): State {
    var checked := CheckLiveness(Emit(s, ScheduleLivenessSample), LivenessWatchList(s.records), threshold, ports);
    Tick(checked.(records := SettleStability(checked.records, ports.now(checked.tick))))
  }

  // ----- start -----

  predicate NamesInclude(specs: seq<Spec>, name: Name) {
    exists spec <- specs :: spec.name == name
  }

  function SpecNodes(specs: seq<Spec>): (nodes: seq<DepGraph.Node>)
    ensures |nodes| == |specs|
    ensures forall i :: 0 <= i < |specs| ==> nodes[i] == specs[i].DependencyNode()
  {
    if specs == [] then [] else [specs[0].DependencyNode()] + SpecNodes(specs[1..])
  }

  function OtherNodes(known: seq<DepGraph.Node>, specs: seq<Spec>): (nodes: seq<DepGraph.Node>)
    ensures forall node :: node in nodes <==> node in known && !NamesInclude(specs, node.name)
  {
    if known == [] then []
    else
      var rest := OtherNodes(known[1..], specs);
      if NamesInclude(specs, known[0].name) then rest else [known[0]] + rest
  }

  /** The nodes the batch is sorted with: the new declarations, then the records they do not replace. */
  function MergedNodes(records: seq<Record>, specs: seq<Spec>): seq<DepGraph.Node> {
    SpecNodes(specs) + OtherNodes(DependencyNodes(records), specs)
  }

  function InBatch(order: seq<Name>, specs: seq<Spec>): (names: seq<Name>)
    ensures forall n :: n in names <==> n in order && NamesInclude(specs, n)
  {
    if order == [] then []
    else
      var rest := InBatch(order[1..], specs);
      if NamesInclude(specs, order[0]) then [order[0]] + rest else rest
  }

  /** `accepted_order`: every declaration is valid and the merged graph can be ordered. */
  function AcceptedOrder(records: seq<Record>, specs: seq<Spec>, ports: Ports): Option<seq<Name>> {
    if exists spec <- specs :: !ports.accepts(spec) then None
    else
      match DepGraph.TopoSort(MergedNodes(records, specs))
      case Ordered(order) => Some(InBatch(order, specs))
      case _ => None
  }

  datatype Prior = Prior(name: Name, spec: Option<Spec>)

  function PriorOf(records: seq<Record>, name: Name): Prior {
    match Find(records, name)
    case None => Prior(name, None)
    case Some(record) => Prior(name, Some(record.spec))
  }

  /** Registers the whole batch, remembering what each name held before. */
  function UpsertAll(records: seq<Record>, specs: seq<Spec>, nowMs: nat): (seq<Record>, seq<Prior>)
    decreases |specs|
  {
    if specs == [] then (records, [])
    else
      var prior := PriorOf(records, specs[0].name);
      var (after, previous) := UpsertAll(Upsert(records, specs[0], nowMs), specs[1..], nowMs);
      (after, [prior] + previous)
  }

  /** The declaration a name maps to; a later duplicate wins, as in the map the source collects. */
  function DependsOnOf(specs: seq<Spec>, name: Name): seq<Name> {
    if specs == [] then []
    else if specs[|specs| - 1].name == name then specs[|specs| - 1].dependsOn
    else DependsOnOf(specs[..|specs| - 1], name)
  }

  function WaitingDependencies(dependsOn: seq<Name>, waiting: set<Name>): (found: seq<Name>)
    ensures forall x :: x in found <==> x in dependsOn && x in waiting
  {
    if dependsOn == [] then []
    else
      var rest := WaitingDependencies(dependsOn[1..], waiting);
      if dependsOn[0] in waiting then [dependsOn[0]] + rest else rest
  }

  predicate AwaitsReady(records: seq<Record>, name: Name) {
    Has(records, name) && Find(records, name).value.AwaitsReady()
  }

  /** The launching loop of `start_apps`, stopping at the first refusal. */
  function LaunchBatch(s: State, order: seq<Name>, specs: seq<Spec>, waiting: set<Name>, ports: Ports)
    : (State, StartReport)
    decreases |order|
  {
    if order == [] then (s, StartReport([], false, []))
    else
      var name := order[0];
      var waitingOn := WaitingDependencies(DependsOnOf(specs, name), waiting);
      if waitingOn != [] then
        match Find(s.records, name)
        case None => (Panic(s), StartReport([], false, []))
        case Some(record) =>
          var (last, report) := LaunchBatch(s, order[1..], specs, waiting + {name}, ports);
          (last, StartReport([StartOutcome(record.runtime.pmId, name, None, Deferred)] + report.outcomes,
                             report.failed, [DeferredStart(name, waitingOn)] + report.pending))
      else
        var (tried, outcome) := LaunchOne(s, name, true, ports);
        if outcome.None? then (tried, StartReport([], true, []))
        else
          var waits := if AwaitsReady(tried.records, name) then waiting + {name} else waiting;
          var (last, report) := LaunchBatch(tried, order[1..], specs, waits, ports);
          (last, report.(outcomes := [outcome.value] + report.outcomes))
  }

  predicate Outcome(outcomes: seq<StartOutcome>, name: Name) {
    exists o <- outcomes :: o.name == name
  }

  /** Puts back what each name without an outcome held before the batch. */
  function ForgetUnlaunched(records: seq<Record>, previous: seq<Prior>, outcomes: seq<StartOutcome>, nowMs: nat)
    : seq<Record>
    decreases |previous|
  {
    if previous == [] then records
    else
      var prior := previous[0];
      var undone :=
        if Outcome(outcomes, prior.name) then records
        else if prior.spec.Some? then Upsert(records, prior.spec.value, nowMs)
        else Remove(records, prior.name);
      ForgetUnlaunched(undone, previous[1..], outcomes, nowMs)
  }

  /** `start_apps`. */
  function StartApps(s: State, specs: seq<Spec>, ports: Ports): (State, StartReport) {
    match AcceptedOrder(s.records, specs, ports)
    case None => (s, StartReport([], true, []))
    case Some(order) =>
      var nowMs := ports.now(s.tick);
      var (registered, previous) := UpsertAll(s.records, specs, nowMs);
      var (tried, report) := LaunchBatch(Tick(s.(records := registered)), order, specs, {}, ports);
      var kept :=
        if report.failed
        then tried.(records := ForgetUnlaunched(tried.records, previous, report.outcomes, nowMs))
        else tried;
      (Tick(kept), report)
  }

  function AddWaiter(waiters: Graph, dependency: Name, waiter: Name): Graph {
    waiters[dependency := WaitersOf(waiters, dependency) + [waiter]]
  }

  function AddWaits(waiters: Graph, deferred: Name, waitingOn: seq<Name>): Graph
    decreases |waitingOn|
  {
    if waitingOn == [] then waiters
    else AddWaits(AddWaiter(waiters, waitingOn[0], deferred), deferred, waitingOn[1..])
  }

  function AddPending(waiters: Graph, pending: seq<DeferredStart>): Graph
    decreases |pending|
  {
    if pending == [] then waiters
    else AddPending(AddWaits(waiters, pending[0].name, pending[0].waitingOn), pending[1..])
  }

  function SettleStarted(s: State, outcomes: seq<StartOutcome>, ports: Ports): State
    decreases |outcomes|
  {
    if outcomes == [] then s
    else
      var cancelled := CancelQueuedRestart(s, outcomes[0].name);
      SettleStarted(if outcomes[0].kind.Deferred? then cancelled else ArmTimerFor(cancelled, outcomes[0].name, ports),
                    outcomes[1..], ports)
  }

  /** A declaration is read from the file of its own name, so it carries that name. */
  function Prepare(s: State, name: Name, ports: Ports): Option<Spec> {
    match ports.prepare(s.tick, name)
    case None => None
    case Some(spec) => Some(spec.(name := name))
  }

  function PrepareAll(s: State, services: seq<Name>, ports: Ports): (State, Option<seq<Spec>>)
    decreases |services|
  {
    if services == [] then (s, Some([]))
    else
      match Prepare(s, services[0], ports)
      case None => (Tick(s), None)
      case Some(spec) =>
        var (last, rest) := PrepareAll(Tick(s), services[1..], ports);
        (last, if rest.None? then None else Some([spec] + rest.value))
  }

  function Start(s: State, services: seq<Name>, ports: Ports): State {
    var (asked, specs) := PrepareAll(s, services, ports);
    if specs.None? then asked
    else
      var (started, report) := StartApps(asked, specs.value, ports);
      var watched := WatchAll(started, report.outcomes);
      SettleStarted(watched.(waiters := AddPending(watched.waiters, report.pending)), report.outcomes, ports)
  }

  // ----- stop and delete -----

  function Retire(s: State, name: Name, forceKillPid: Option<nat>, token: Option<string>): State {
    ScheduleForceKillOf(CancelReadyOf(CancelQueuedRestart(Disarm(s, name), name), name), name, forceKillPid, token)
  }

  function CoverDraining(s: State, selector: Selector): State {
    match FindBy(s.records, selector)
    case None => s
    case Some(record) =>
      if !record.runtime.status.IsShuttingDown() then s
      else if record.runtime.pid.None? then Panic(s)
      else Retire(s, record.runtime.name, record.runtime.pid, record.runtime.Token())
  }

  /** `stop_app`, `None` when the signal or the save is refused. */
  function StopApp(s: State, selector: Selector, ports: Ports): (State, Option<StopOutcome>) {
    match FindBy(s.records, selector)
    case None => (s, None)
    case Some(record) =>
      var name := record.runtime.name;
      var idle := SetRecord(s, name, record.With(record.runtime.DisarmSchedule().CancelRestart()));
      var (asked, outcome) := RequestStop(idle, name, ports);
      if outcome.None? then (asked, None)
      else (Tick(asked), if ports.save(asked.tick) then outcome else None)
  }

  function CancelAll(s: State, names: seq<Name>): State
    decreases |names|
  {
    if names == [] then s else CancelAll(CancelReadyOf(s, names[0]), names[1..])
  }

  function DisarmEverything(s: State): State {
    Emit(Emit(s.(timers := s.timers.(fires := map[], restarts := {})), DisarmTimers(s.timers.fires.Keys)),
         CancelRestarts(s.timers.restarts))
  }

  /** The loop of `stop_all_apps`, dependents first. */
  function StopEach(s: State, order: seq<Name>, ports: Ports): (State, seq<StopOutcome>)
    decreases |order|
  {
    if order == [] then (s, [])
    else
      var name := order[|order| - 1];
      var rest := order[..|order| - 1];
      match Find(s.records, name)
      case None => (Panic(s), [])
      case Some(record) =>
        var runtime := record.runtime.DisarmSchedule().CancelRestart();
        var idle := SetRecord(s, name, record.With(runtime));
        if runtime.status.IsSettled() then StopEach(idle, rest, ports)
        else
          var (asked, outcome) := RequestStop(idle, name, ports);
          if outcome.None? then
            StopEach(SetRecord(asked, name, record.With(runtime.MarkStopping())), rest, ports)
          else
            var (last, stopped) := StopEach(asked, rest, ports);
            (last, [outcome.value] + stopped)
  }

  function ForceKillStopped(s: State, stopped: seq<StopOutcome>): State
    decreases |stopped|
  {
    if stopped == [] then s
    else
      var one := stopped[0];
      ForceKillStopped(ScheduleForceKillOf(s, one.name, one.forceKillPid, IdentityToken(s, one.name)), stopped[1..])
  }

  predicate Covered(stopped: seq<StopOutcome>, pid: nat) {
    exists one <- stopped :: one.forceKillPid == Some(pid)
  }

  function OwnerOf(records: seq<Record>, pid: nat): (Name, Option<string>) {
    if records == [] then ("stray", None)
    else if records[0].runtime.pid == Some(pid) then (records[0].runtime.name, records[0].runtime.Token())
    else OwnerOf(records[1..], pid)
  }

  function ForceKillUnswept(s: State, tracked: seq<nat>, stopped: seq<StopOutcome>): State
    decreases |tracked|
  {
    if tracked == [] then s
    else if Covered(stopped, tracked[0]) then ForceKillUnswept(s, tracked[1..], stopped)
    else
      var (name, token) := OwnerOf(s.records, tracked[0]);
      ForceKillUnswept(ScheduleForceKillOf(s, name, Some(tracked[0]), token), tracked[1..], stopped)
  }

  function StopAll(s: State, ports: Ports): State {
    var disarmed := DisarmEverything(s);
    var (asked, stopped) := StopEach(disarmed, DependencyOrder(disarmed.records), ports);
    var scheduled := ForceKillStopped(Tick(asked), stopped);
    var cancelled := CancelAll(scheduled, NamesOf(scheduled.records));
    ForceKillUnswept(Tick(cancelled), ports.trackedPids(cancelled.tick), stopped)
  }

  /** The stop command; the flag is whether it replied with success. */
  function Stop(s: State, selector: Selector, ports: Ports): (State, bool) {
    if selector.All? then (StopAll(s, ports), true)
    else
      var (tried, outcome) := StopApp(s, selector, ports);
      if outcome.None? then (CoverDraining(tried, selector), false)
      else
        var name := outcome.value.name;
        (Retire(tried, name, outcome.value.forceKillPid, IdentityToken(tried, name)), true)
  }

  predicate HasDependents(records: seq<Record>, name: Name) {
    exists r <- records :: name in r.spec.dependsOn
  }

  function DeleteOne(s: State, name: Name, ports: Ports): (State, Option<StopOutcome>) {
    var (asked, outcome) := RequestStop(s, name, ports);
    if outcome.None? then (asked, None)
    else
      match Find(asked.records, name)
      case None => (Panic(asked), None)
      case Some(record) =>
        var without := Remove(asked.records, name);
        if ports.save(asked.tick) then (Tick(asked.(records := without)), outcome)
        else (Tick(asked.(records := without + [record])), None)
  }

  function DeleteApp(s: State, selector: Selector, ports: Ports): (State, Option<StopOutcome>) {
    match FindBy(s.records, selector)
    case None => (s, None)
    case Some(record) =>
      if HasDependents(s.records, record.runtime.name) then (s, None)
      else DeleteOne(s, record.runtime.name, ports)
  }

  /** One turn of `delete_all`. */
  function DeleteStep(s: State, name: Name, ports: Ports): State {
    var token := IdentityToken(s, name);
    var (tried, outcome) := DeleteOne(s, name, ports);
    if outcome.None? then CoverDraining(tried, ByName(name))
    else Retire(tried, outcome.value.name, outcome.value.forceKillPid, token)
  }

  function DeleteEach(s: State, order: seq<Name>, ports: Ports): State
    decreases |order|
  {
    if order == [] then s
    else DeleteEach(DeleteStep(s, order[|order| - 1], ports), order[..|order| - 1], ports)
  }

  function TokenBy(s: State, selector: Selector): Option<string> {
    var record := FindBy(s.records, selector);
    if record.None? then None else record.value.runtime.Token()
  }

  function Delete(s: State, selector: Selector, ports: Ports): State {
    if selector.All? then DeleteEach(s, DependencyOrder(s.records), ports)
    else
      var token := TokenBy(s, selector);
      var (tried, outcome) := DeleteApp(s, selector, ports);
      if outcome.None? then CoverDraining(tried, selector)
      else Retire(tried, outcome.value.name, outcome.value.forceKillPid, token)
  }

  // ----- restart and reset commands -----

  function RestartOne(s: State, selector: Selector, ports: Ports): State {
    var (tried, outcome) := RestartApp(s, selector, ports);
    if outcome.Refused? then tried
    else
      var (dispatched, name) := DispatchRestart(tried, outcome);
      ArmTimerFor(CancelQueuedRestart(dispatched, name), name, ports)
  }

  function RestartEach(s: State, names: seq<Name>, ports: Ports): State
    decreases |names|
  {
    if names == [] then s
    else
      var name := names[0];
      match Prepare(s, name, ports)
      case None => RestartEach(Tick(s), names[1..], ports)
      case Some(spec) =>
        match Find(s.records, name)
        case None => Panic(s)
        case Some(record) =>
          var reloaded := SetRecord(Tick(s), name, record.(spec := spec));
          var (tried, outcome) := RestartApp(reloaded, ByName(name), ports);
          var settled :=
            if outcome.Refused? then ArmTimerFor(tried, name, ports)
            else
              var (dispatched, restarted) := DispatchRestart(tried, outcome);
              ArmTimerFor(CancelQueuedRestart(dispatched, restarted), restarted, ports);
          RestartEach(settled, names[1..], ports)
  }

  function RestartCommand(s: State, selector: Selector, ports: Ports): State {
    if selector.All? then RestartEach(s, NamesOf(s.records), ports)
    else
      match FindBy(s.records, selector)
      case None => s
      case Some(record) =>
        var name := record.runtime.name;
        match Prepare(s, name, ports)
        case None => Tick(s)
        case Some(spec) => RestartOne(SetRecord(Tick(s), name, record.(spec := spec)), selector, ports)
  }

  function ResetOne(s: State, name: Name): State {
    match Find(s.records, name)
    case None => Panic(s)
    case Some(record) => Tick(SetRecord(s, name, record.With(record.runtime.ResetRestarts())))
  }

  function ResetEach(s: State, names: seq<Name>): State
    decreases |names|
  {
    if names == [] then s else ResetEach(ResetOne(s, names[0]), names[1..])
  }

  function Reset(s: State, selector: Selector): State {
    if selector.All? then ResetEach(s, NamesOf(s.records))
    else
      match FindBy(s.records, selector)
      case None => s
      case Some(record) => ResetOne(s, record.runtime.name)
  }

  function PrepareShutdown(s: State): State {
    Tick(DisarmEverything(s))
  }
}
