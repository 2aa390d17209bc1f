/**
 * The board of delayed tasks the daemon's effects are applied to (frameworks/src/daemon/timers.rs): a
 * slot per name holds the latest task, a new task replaces it, a cancellation empties it. The board and
 * the supervisor's own timers are kept apart; here it is proved that they never disagree.
 */
module TaskBoards {
  import opened Graphs
  import opened Model
  import opened ProcessTable
  import opened Handlers
  import Daemon

  datatype KillTask = KillTask(generation: nat, pid: nat, token: Option<string>)

  datatype ReadyTask = ReadyTask(generation: nat, probe: string)

  datatype Board = Board(
    fires: map<Name, nat>, restarts: set<Name>, forceKills: map<Name, KillTask>, ready: map<Name, ReadyTask>,
    memorySample: bool, livenessSample: bool)

  const EMPTY_BOARD := Board(map[], {}, map[], map[], false, false)

  /** `TaskBoard::apply`. Exit watches run detached, outside the slots. */
  function Accept(b: Board, e: Effect): Board {
    match e
    case ScheduleMemorySample => b.(memorySample := true)
    case ScheduleLivenessSample => b.(livenessSample := true)
    case ArmTimer(name, at, _) => b.(fires := b.fires[name := at])
    case DisarmTimer(name) => b.(fires := b.fires - {name})
    case DisarmTimers(names) => b.(fires := b.fires - names)
    case ScheduleRestart(name, _) => b.(restarts := b.restarts + {name})
    case CancelRestart(name) => b.(restarts := b.restarts - {name})
    case CancelRestarts(names) => b.(restarts := b.restarts - names)
    case ScheduleForceKill(name, generation, pid, token) =>
      b.(forceKills := b.forceKills[name := KillTask(generation, pid, token)])
    case CancelForceKill(name) => b.(forceKills := b.forceKills - {name})
    case WatchExit(_, _, _, _) => b
    case AwaitReady(name, generation, probe) => b.(ready := b.ready[name := ReadyTask(generation, probe)])
    case CancelReady(name) => b.(ready := b.ready - {name})
  }

  function ApplyAll(b: Board, effects: seq<Effect>): Board {
    if effects == [] then b else Accept(ApplyAll(b, effects[..|effects| - 1]), effects[|effects| - 1])
  }

  class TaskBoard {
    var fires: map<Name, nat>
    var restarts: set<Name>
    var forceKills: map<Name, KillTask>
    var ready: map<Name, ReadyTask>
    var memorySample: bool
    var livenessSample: bool

    function Value(): Board
      reads this
    {
      Board(fires, restarts, forceKills, ready, memorySample, livenessSample)
    }

    constructor ()
      ensures Value() == EMPTY_BOARD
    {
      fires, restarts, forceKills, ready := map[], {}, map[], map[];
      memorySample, livenessSample := false, false;
    }

    method Apply(e: Effect)
      modifies this
      ensures Value() == Accept(old(Value()), e)
    {
      match e
      case ScheduleMemorySample => memorySample := true;
      case ScheduleLivenessSample => livenessSample := true;
      case ArmTimer(name, at, _) => fires := fires[name := at];
      case DisarmTimer(name) => fires := fires - {name};
      case DisarmTimers(names) => fires := fires - names;
      case ScheduleRestart(name, _) => restarts := restarts + {name};
      case CancelRestart(name) => restarts := restarts - {name};
      case CancelRestarts(names) => restarts := restarts - names;
      case ScheduleForceKill(name, generation, pid, token) =>
        forceKills := forceKills[name := KillTask(generation, pid, token)];
      case CancelForceKill(name) => forceKills := forceKills - {name};
      case WatchExit(_, _, _, _) =>
      case AwaitReady(name, generation, probe) => ready := ready[name := ReadyTask(generation, probe)];
      case CancelReady(name) => ready := ready - {name};
    }

    /** `Daemon::run`: the effects of a turn, in order. */
    method ApplyEach(effects: seq<Effect>)
      modifies this
      ensures Value() == ApplyAll(old(Value()), effects)
    {
      for i := 0 to |effects|
        invariant Value() == ApplyAll(old(Value()), effects[..i])
      {
        assert effects[..i + 1][..i] == effects[..i];
        Apply(effects[i]);
      }
      assert effects[..|effects|] == effects;
    }

    method ForgetForceKill(name: Name)
      modifies this
      ensures Value() == old(Value()).(forceKills := old(forceKills) - {name})
    {
      forceKills := forceKills - {name};
    }
  }

  // ----- a slot holds the latest task -----

  /** The effects that fill or empty the force-kill slot of a name. */
  predicate AboutKill(e: Effect, name: Name) {
    (e.ScheduleForceKill? || e.CancelForceKill?) && e.name == name
  }

  /** The effects that fill or empty the readiness slot of a name. */
  predicate AboutReady(e: Effect, name: Name) {
    (e.AwaitReady? || e.CancelReady?) && e.name == name
  }

  function KillSlot(b: Board, name: Name): Option<KillTask> {
    if name in b.forceKills then Some(b.forceKills[name]) else None
  }

  function ReadySlot(b: Board, name: Name): Option<ReadyTask> {
    if name in b.ready then Some(b.ready[name]) else None
  }

  /** `last` is where the latest of the effects with the property stands, if any. */
  ghost predicate IsLatest(effects: seq<Effect>, about: Effect -> bool, last: Option<nat>) {
    match last
    case None => forall k :: 0 <= k < |effects| ==> !about(effects[k])
    case Some(i) => i < |effects| && about(effects[i]) && forall k :: i < k < |effects| ==> !about(effects[k])
  }

  lemma KillStep(b: Board, e: Effect, name: Name)
    ensures KillSlot(Accept(b, e), name) ==
              if !AboutKill(e, name) then KillSlot(b, name)
              else if e.CancelForceKill? then None else Some(KillTask(e.generation, e.pid, e.token))
  {
  }

  lemma ReadyStep(b: Board, e: Effect, name: Name)
    ensures ReadySlot(Accept(b, e), name) ==
              if !AboutReady(e, name) then ReadySlot(b, name)
              else if e.CancelReady? then None else Some(ReadyTask(e.generation, e.probe))
  {
  }

  /**
   * Whatever effects a turn emits, in whatever order: the force kill pending for a service is the one the
   * latest of them schedules, none if the latest cancels it, and the old one if none is about it.
   */
  lemma {:induction false} LatestKillWins(b: Board, effects: seq<Effect>, name: Name, last: Option<nat>)
    requires IsLatest(effects, e => AboutKill(e, name), last)
    ensures KillSlot(ApplyAll(b, effects), name) ==
              if last.None? then KillSlot(b, name)
              else
                var e := effects[last.value];
                if e.CancelForceKill? then None else Some(KillTask(e.generation, e.pid, e.token))
  {
    hide Accept, KillSlot;
    if effects != [] {
      var most, e := effects[..|effects| - 1], effects[|effects| - 1];
      KillStep(ApplyAll(b, most), e, name);
      if !AboutKill(e, name) {
        LatestKillWins(b, most, name, last);
      }
    }
  }

  /** The same holds of the probe a service awaits. */
  lemma {:induction false} LatestReadyWins(b: Board, effects: seq<Effect>, name: Name, last: Option<nat>)
    requires IsLatest(effects, e => AboutReady(e, name), last)
    ensures ReadySlot(ApplyAll(b, effects), name) ==
              if last.None? then ReadySlot(b, name)
              else
                var e := effects[last.value];
                if e.CancelReady? then None else Some(ReadyTask(e.generation, e.probe))
  {
    hide Accept, ReadySlot;
    if effects != [] {
      var most, e := effects[..|effects| - 1], effects[|effects| - 1];
      ReadyStep(ApplyAll(b, most), e, name);
      if !AboutReady(e, name) {
        LatestReadyWins(b, most, name, last);
      }
    }
  }

  /** A sample is due exactly when it was already, or an effect asked for it; none is ever called off. */
  lemma {:induction false} SamplesStayDue(b: Board, effects: seq<Effect>)
    ensures var after := ApplyAll(b, effects);
            && (after.memorySample <==> b.memorySample || ScheduleMemorySample in effects)
            && (after.livenessSample <==> b.livenessSample || ScheduleLivenessSample in effects)
    decreases |effects|
  {
    hide Accept;
    if effects != [] {
      var most, last := effects[..|effects| - 1], effects[|effects| - 1];
      assert effects == most + [last];
      SamplesStayDue(b, most);
      SampleDue(ApplyAll(b, most), last);
    }
  }

  lemma SampleDue(b: Board, e: Effect)
    ensures Accept(b, e).memorySample <==> b.memorySample || e == ScheduleMemorySample
    ensures Accept(b, e).livenessSample <==> b.livenessSample || e == ScheduleLivenessSample
  {
  }

  // ----- the board and the timers agree -----

  /** Applied to `b`, the effects emitted so far leave exactly the fires and restarts the timers hold. */
  predicate InSync(s: State, b: Board) {
    var now := ApplyAll(b, s.effects);
    now.fires == s.timers.fires && now.restarts == s.timers.restarts
  }

  /** A step that changes neither the effects nor what is armed and queued. */
  predicate Quiet(s: State, next: State) {
    next.effects == s.effects && next.timers == s.timers
  }

  lemma Applied(s: State, e: Effect, b: Board)
    ensures ApplyAll(b, Emit(s, e).effects) == Accept(ApplyAll(b, s.effects), e)
  {
    assert (s.effects + [e])[..|s.effects + [e]| - 1] == s.effects;
  }

  lemma DisarmSync(s: State, name: Name, b: Board)
    requires InSync(s, b)
    ensures InSync(Disarm(s, name), b)
  {
    Applied(s.(timers := s.timers.(fires := s.timers.fires - {name})), DisarmTimer(name), b);
  }

  lemma CancelSync(s: State, name: Name, b: Board)
    requires InSync(s, b)
    ensures InSync(CancelQueuedRestart(s, name), b)
  {
    Applied(s.(timers := s.timers.(restarts := s.timers.restarts - {name})), CancelRestart(name), b);
  }

  lemma QueueSync(s: State, name: Name, delayMs: nat, b: Board)
    requires InSync(s, b)
    ensures InSync(QueueRestart(s, name, delayMs), b)
  {
    Applied(s.(timers := s.timers.(restarts := s.timers.restarts + {name})), ScheduleRestart(name, delayMs), b);
  }

  lemma ArmSync(s: State, name: Name, ports: Ports, b: Board)
    requires InSync(s, b)
    ensures InSync(ArmTimerFor(s, name, ports), b)
  {
    hide Disarm, ApplyAll, Find;
    DisarmSync(s, name, b);
    var disarmed := Disarm(s, name);
    var fire := ports.nextFire(disarmed.tick);
    if fire.Some? {
      var nowMs := ports.now(disarmed.tick);
      var armed := Tick(disarmed).(timers := disarmed.timers.(fires := disarmed.timers.fires[name := fire.value]));
      Applied(armed, ArmTimer(name, fire.value, if fire.value >= nowMs then fire.value - nowMs else 0), b);
    }
  }

  lemma KillSync(s: State, name: Name, pid: Option<nat>, token: Option<string>, b: Board)
    requires InSync(s, b)
    ensures InSync(ScheduleForceKillOf(s, name, pid, token), b)
  {
    hide ApplyAll;
    if pid.Some? {
      Applied(s, ScheduleForceKill(name, s.timers.CurrentGeneration(name), pid.value, token), b);
    }
  }

  lemma WatchSync(s: State, o: StartOutcome, b: Board)
    requires InSync(s, b)
    ensures InSync(Watch(s, o), b)
  {
    hide ApplyAll, Find, IdentityToken;
    if o.pid.Some? && o.kind.NeedsWatching() {
      var bumped := s.(timers := s.timers.Bump(o.name));
      var watching := WatchExit(o.name, bumped.timers.nextGeneration, o.pid.value, IdentityToken(s, o.name));
      Applied(bumped, watching, b);
      var watched := Emit(bumped, watching);
      var record := Find(s.records, o.name);
      if record.Some? && record.value.spec.readyProbe.Some? {
        Applied(watched, AwaitReady(o.name, bumped.timers.nextGeneration, record.value.spec.readyProbe.value), b);
      }
    }
  }

  lemma {:induction false} WatchAllSync(s: State, os: seq<StartOutcome>, b: Board)
    requires InSync(s, b)
    ensures InSync(WatchAll(s, os), b)
    decreases |os|
  {
    hide InSync, Watch;
    if os != [] {
      WatchSync(s, os[0], b);
      WatchAllSync(Watch(s, os[0]), os[1..], b);
    }
  }

  lemma RestartAppQuiet(s: State, selector: Selector, ports: Ports)
    ensures Quiet(s, RestartApp(s, selector, ports).0)
  {
    hide FindBy, Find, Put;
  }

  lemma DispatchSync(s: State, outcome: RestartOutcome, b: Board)
    requires !outcome.Refused? && InSync(s, b)
    ensures InSync(DispatchRestart(s, outcome).0, b)
  {
    hide InSync, Watch, ScheduleForceKillOf;
    match outcome
    case Started(started) => WatchSync(s, started, b);
    case AwaitingExit(stopped) => KillSync(s, stopped.name, stopped.forceKillPid, IdentityToken(s, stopped.name), b);
  }

  lemma QuietSync(s: State, next: State, b: Board)
    requires InSync(s, b) && Quiet(s, next)
    ensures InSync(next, b)
  {
    hide ApplyAll;
  }

  lemma RestartNowSync(s: State, name: Name, ports: Ports, b: Board)
    requires InSync(s.(timers := s.timers.(restarts := s.timers.restarts + {name})), b) || InSync(s, b)
    ensures InSync(RestartNow(s, name, ports), b)
  {
    hide ApplyAll, RestartApp, DispatchRestart, ArmTimerFor;
    var cancelled := CancelQueuedRestart(s, name);
    Applied(s.(timers := s.timers.(restarts := s.timers.restarts - {name})), CancelRestart(name), b);
    assert InSync(cancelled, b);
    var (tried, outcome) := RestartApp(cancelled, ByName(name), ports);
    RestartAppQuiet(cancelled, ByName(name), ports);
    QuietSync(cancelled, tried, b);
    if outcome.Refused? {
      ArmSync(tried, name, ports, b);
    } else {
      var (dispatched, restarted) := DispatchRestart(tried, outcome);
      DispatchSync(tried, outcome, b);
      ArmSync(dispatched, restarted, ports, b);
    }
  }

  lemma {:induction false} FailDeadQuiet(s: State, dead: seq<Name>)
    ensures Quiet(s, FailDead(s, dead).0)
    decreases |s.waiters|, |dead|
  {
    hide MarkErroredIfSettled, ForgetWaiter;
    if dead != [] {
      DeadStepShrinks(s, dead);
      var (next, left) := DeadStep(s, dead);
      FailDeadQuiet(next, left);
    }
  }

  lemma FailQuiet(s: State, name: Name)
    ensures Quiet(s, FailDownstream(s, name).0)
  {
    hide FailDead;
    FailDeadQuiet(s.(waiters := s.waiters - {name}), WaitersOf(s.waiters, name));
  }

  lemma CancelReadySync(s: State, name: Name, b: Board)
    requires InSync(s, b)
    ensures InSync(CancelReadyOf(s, name), b)
  {
    hide ApplyAll, FailDownstream, ForgetWaiter;
    var forgotten := s.(readyFailed := s.readyFailed - {name}, waiters := ForgetWaiter(s.waiters, name));
    var failed := FailDownstream(forgotten, name).0;
    FailQuiet(forgotten, name);
    Applied(failed, CancelReady(name), b);
  }

  lemma LaunchWaiterSync(s: State, waiter: Name, ports: Ports, b: Board)
    requires InSync(s, b)
    ensures InSync(LaunchWaiter(s, waiter, ports).0, b)
  {
    hide ApplyAll, LaunchOne, MarkErroredIfSettled, FailDownstream, Watch, ArmTimerFor, Find;
    var (tried, outcome) := LaunchOne(s, waiter, true, ports);
    QuietSync(s, tried, b);
    if outcome.None? {
      var marked := MarkErroredIfSettled(tried, waiter);
      FailQuiet(marked, waiter);
      QuietSync(tried, Tick(FailDownstream(marked, waiter).0), b);
    } else {
      WatchSync(tried, outcome.value, b);
      var watched := Watch(tried, outcome.value);
      ArmSync(watched, waiter, ports, b);
      QuietSync(ArmTimerFor(watched, waiter, ports), Tick(ArmTimerFor(watched, waiter, ports)), b);
    }
  }

  lemma {:induction false} LaunchListSync(s: State, list: seq<Name>, queue: seq<Name>, ports: Ports, b: Board)
    requires InSync(s, b)
    ensures InSync(LaunchList(s, list, queue, ports).0, b)
    decreases |list|
  {
    hide InSync, LaunchWaiter, StillWaiting;
    if list != [] {
      if StillWaiting(s.waiters, list[0]) {
        LaunchListSync(s, list[1..], queue, ports, b);
      } else {
        var (next, released) := LaunchWaiter(s, list[0], ports);
        LaunchWaiterSync(s, list[0], ports, b);
        LaunchListSync(next, list[1..], if released then queue + [list[0]] else queue, ports, b);
      }
    }
  }

  lemma {:induction false} LaunchQueueSync(s: State, queue: seq<Name>, ports: Ports, b: Board)
    requires InSync(s, b)
    ensures InSync(LaunchQueue(s, queue, ports), b)
    decreases |s.waiters|, |queue|
  {
    hide InSync, LaunchList;
    if queue != [] {
      var ready, left := queue[|queue| - 1], queue[..|queue| - 1];
      if ready !in s.waiters {
        LaunchQueueSync(s, left, ports, b);
      } else {
        var taken := s.(waiters := s.waiters - {ready});
        ForgetShrinks(s.waiters, ready);
        LaunchListShrinks(taken, s.waiters[ready], left, ports);
        assert InSync(taken, b) by { QuietSync(s, taken, b); }
        LaunchListSync(taken, s.waiters[ready], left, ports, b);
        var (next, longer) := LaunchList(taken, s.waiters[ready], left, ports);
        LaunchQueueSync(next, longer, ports, b);
      }
    }
  }

  lemma OnReadySync(s: State, name: Name, generation: nat, ports: Ports, b: Board)
    requires InSync(s, b)
    ensures InSync(OnReady(s, name, generation, ports), b)
  {
    hide ApplyAll, LaunchQueue, Find, Put;
    if AwaitsReadyAt(s, name, generation) {
      var record := Find(s.records, name).value;
      var online := Tick(SetRecord(s, name, record.With(record.runtime.MarkOnline())));
      QuietSync(s, online, b);
      LaunchQueueSync(online, [name], ports, b);
    }
  }

  lemma OnReadyTimeoutSync(s: State, name: Name, generation: nat, ports: Ports, b: Board)
    requires InSync(s, b)
    ensures InSync(OnReadyTimeout(s, name, generation, ports), b)
  {
    hide ApplyAll, FailDownstream, ScheduleForceKillOf, Find, Put;
    if AwaitsReadyAt(s, name, generation) {
      var record := Find(s.records, name).value;
      var stopping := SetRecord(s.(readyFailed := s.readyFailed + {name}), name,
                                record.With(record.runtime.MarkStopping()));
      QuietSync(s, stopping, b);
      QuietSync(s, Tick(stopping), b);
      QuietSync(s, Panic(stopping), b);
      KillSync(Tick(stopping), name, record.runtime.pid, record.runtime.Token(), b);
      var asked := ScheduleForceKillOf(Tick(stopping), name, record.runtime.pid, record.runtime.Token());
      FailQuiet(asked, name);
      QuietSync(asked, Tick(FailDownstream(asked, name).0), b);
    }
  }

  lemma OnExitSync(s: State, name: Name, generation: nat, outcome: ExitOutcome, ports: Ports, b: Board)
    requires InSync(s, b)
    ensures InSync(OnExit(s, name, generation, outcome, ports), b)
  {
    hide InSync, FailDownstream, Find, Put, ClassifyExit, QueueRestart, WatchesIn;
    var cancelled := Emit(s, CancelForceKill(name));
    CancelKillSync(s, name, b);
    if s.timers.IsCurrent(name, generation) && Find(s.records, name).Some? {
      if name in s.readyFailed {
        QuietSync(cancelled, OnExit(s, name, generation, outcome, ports), b);
      } else {
        var (settled, action) := ClassifyExit(Find(s.records, name).value, outcome, ports.now(s.tick));
        var saved := Tick(SetRecord(cancelled, name, settled));
        QuietSync(cancelled, saved, b);
        match action
        case RestartAfter(delayMs) => QueueSync(saved, name, delayMs, b);
        case Settled(_) =>
          FailQuiet(saved, name);
          QuietSync(saved, FailDownstream(saved, name).0, b);
      }
    }
  }

  lemma CancelKillSync(s: State, name: Name, b: Board)
    requires InSync(s, b)
    ensures InSync(Emit(s, CancelForceKill(name)), b)
  {
    hide ApplyAll;
    Applied(s, CancelForceKill(name), b);
  }

  lemma OnRestartSync(s: State, name: Name, ports: Ports, b: Board)
    requires InSync(s, b)
    ensures InSync(OnRestart(s, name, ports), b)
  {
    hide ApplyAll, RestartNow;
    if name in s.timers.restarts {
      var claimed := s.(timers := s.timers.(restarts := s.timers.restarts - {name}));
      assert claimed.timers.restarts + {name} == s.timers.restarts;
      assert claimed.(timers := claimed.timers.(restarts := claimed.timers.restarts + {name})) == s;
      RestartNowSync(claimed, name, ports, b);
    }
  }

  lemma {:induction false} KillBreachesSync(s: State, names: seq<Name>, ports: Ports, b: Board)
    requires InSync(s, b)
    ensures InSync(KillBreaches(s, names, ports), b)
    decreases |names|
  {
    hide ApplyAll, RestartNow, HandToTheBreaker;
    if names != [] {
      RestartNowSync(s, names[0], ports, b);
      var restarted := RestartNow(s, names[0], ports);
      HandQuiet(restarted, names[0]);
      QuietSync(restarted, HandToTheBreaker(restarted, names[0]), b);
      KillBreachesSync(HandToTheBreaker(restarted, names[0]), names[1..], ports, b);
    }
  }

  lemma HandQuiet(s: State, name: Name)
    ensures Quiet(s, HandToTheBreaker(s, name))
  {
    hide Find, Put;
  }

  lemma OnMemorySync(s: State, ports: Ports, b: Board)
    requires InSync(s, b)
    ensures InSync(OnMemorySample(s, ports), b)
  {
    hide ApplyAll, KillBreaches, BreachesOf;
    Applied(s, ScheduleMemorySample, b);
    KillBreachesSync(Tick(Emit(s, ScheduleMemorySample)), BreachesOf(s.records, ports.residentMemory(s.tick)), ports, b);
  }

  lemma CheckStepSync(s: State, name: Name, threshold: nat, ports: Ports, b: Board)
    requires InSync(s, b)
    ensures InSync(CheckStep(s, name, threshold, ports), b)
  {
    hide ApplyAll, RestartNow, HandToTheBreaker, Find, Put;
    var found := Find(s.records, name);
    if found.Some? && !ports.isReady(s.tick) {
      var noted := SetRecord(Tick(s), name, found.value.With(found.value.runtime.FailLiveness()));
      QuietSync(s, noted, b);
      RestartNowSync(noted, name, ports, b);
      HandQuiet(RestartNow(noted, name, ports), name);
      QuietSync(RestartNow(noted, name, ports), HandToTheBreaker(RestartNow(noted, name, ports), name), b);
    }
  }

  lemma {:induction false} CheckLivenessSync(s: State, names: seq<Name>, threshold: nat, ports: Ports, b: Board)
    requires InSync(s, b)
    ensures InSync(CheckLiveness(s, names, threshold, ports), b)
    decreases |names|
  {
    hide InSync, CheckStep;
    if names != [] {
      CheckStepSync(s, names[0], threshold, ports, b);
      CheckLivenessSync(CheckStep(s, names[0], threshold, ports), names[1..], threshold, ports, b);
    }
  }

  lemma OnLivenessSync(s: State, threshold: nat, ports: Ports, b: Board)
    requires InSync(s, b)
    ensures InSync(OnLivenessSample(s, threshold, ports), b)
  {
    hide ApplyAll, CheckLiveness, LivenessWatchList, SettleStability;
    Applied(s, ScheduleLivenessSample, b);
    var asked := Emit(s, ScheduleLivenessSample);
    CheckLivenessSync(asked, LivenessWatchList(s.records), threshold, ports, b);
    QuietSync(CheckLiveness(asked, LivenessWatchList(s.records), threshold, ports), OnLivenessSample(s, threshold, ports), b);
  }

  // ----- commands -----

  lemma {:induction false} PrepareAllQuiet(s: State, services: seq<Name>, ports: Ports)
    ensures Quiet(s, PrepareAll(s, services, ports).0)
    decreases |services|
  {
    hide Prepare;
    if services != [] {
      PrepareAllQuiet(Tick(s), services[1..], ports);
    }
  }

  lemma {:induction false} LaunchBatchQuiet(s: State, order: seq<Name>, specs: seq<Spec>, waiting: set<Name>, ports: Ports)
    ensures Quiet(s, LaunchBatch(s, order, specs, waiting, ports).0)
    decreases |order|
  {
    hide LaunchOne, Find, DependsOnOf, AwaitsReady;
    if order != [] {
      var name := order[0];
      LaunchBatchQuiet(s, order[1..], specs, waiting + {name}, ports);
      var tried := LaunchOne(s, name, true, ports).0;
      LaunchBatchQuiet(tried, order[1..], specs, waiting, ports);
      LaunchBatchQuiet(tried, order[1..], specs, waiting + {name}, ports);
    }
  }

  lemma StartAppsQuiet(s: State, specs: seq<Spec>, ports: Ports)
    ensures Quiet(s, StartApps(s, specs, ports).0)
  {
    hide AcceptedOrder, UpsertAll, LaunchBatch, ForgetUnlaunched;
    match AcceptedOrder(s.records, specs, ports)
    case None =>
    case Some(order) =>
      var registered := UpsertAll(s.records, specs, ports.now(s.tick)).0;
      LaunchBatchQuiet(Tick(s.(records := registered)), order, specs, {}, ports);
  }

  lemma {:induction false} SettleSync(s: State, outcomes: seq<StartOutcome>, ports: Ports, b: Board)
    requires InSync(s, b)
    ensures InSync(SettleStarted(s, outcomes, ports), b)
    decreases |outcomes|
  {
    hide InSync, CancelQueuedRestart, ArmTimerFor;
    if outcomes != [] {
      CancelSync(s, outcomes[0].name, b);
      var cancelled := CancelQueuedRestart(s, outcomes[0].name);
      ArmSync(cancelled, outcomes[0].name, ports, b);
      SettleSync(if outcomes[0].kind.Deferred? then cancelled else ArmTimerFor(cancelled, outcomes[0].name, ports),
                 outcomes[1..], ports, b);
    }
  }

  lemma StartSync(s: State, services: seq<Name>, ports: Ports, b: Board)
    requires InSync(s, b)
    ensures InSync(Start(s, services, ports), b)
  {
    hide ApplyAll, PrepareAll, StartApps, WatchAll, AddPending, SettleStarted;
    var (asked, specs) := PrepareAll(s, services, ports);
    PrepareAllQuiet(s, services, ports);
    QuietSync(s, asked, b);
    if specs.Some? {
      var (started, report) := StartApps(asked, specs.value, ports);
      StartAppsQuiet(asked, specs.value, ports);
      QuietSync(asked, started, b);
      WatchAllSync(started, report.outcomes, b);
      var watched := WatchAll(started, report.outcomes);
      var waiting := watched.(waiters := AddPending(watched.waiters, report.pending));
      QuietSync(watched, waiting, b);
      SettleSync(waiting, report.outcomes, ports, b);
    }
  }

  lemma RetireSync(s: State, name: Name, pid: Option<nat>, token: Option<string>, b: Board)
    requires InSync(s, b)
    ensures InSync(Retire(s, name, pid, token), b)
  {
    hide InSync, Disarm, CancelQueuedRestart, CancelReadyOf, ScheduleForceKillOf;
    DisarmSync(s, name, b);
    CancelSync(Disarm(s, name), name, b);
    CancelReadySync(CancelQueuedRestart(Disarm(s, name), name), name, b);
    KillSync(CancelReadyOf(CancelQueuedRestart(Disarm(s, name), name), name), name, pid, token, b);
  }

  lemma CoverSync(s: State, selector: Selector, b: Board)
    requires InSync(s, b)
    ensures InSync(CoverDraining(s, selector), b)
  {
    hide ApplyAll, Retire, FindBy;
    var found := FindBy(s.records, selector);
    if found.Some? {
      RetireSync(s, found.value.runtime.name, found.value.runtime.pid, found.value.runtime.Token(), b);
    }
  }

  lemma RequestStopQuiet(s: State, name: Name, ports: Ports)
    ensures Quiet(s, RequestStop(s, name, ports).0)
  {
    hide Find, Put;
  }

  lemma StopAppQuiet(s: State, selector: Selector, ports: Ports)
    ensures Quiet(s, StopApp(s, selector, ports).0)
  {
    hide FindBy, Put, RequestStop;
    var found := FindBy(s.records, selector);
    if found.Some? {
      var name := found.value.runtime.name;
      RequestStopQuiet(SetRecord(s, name, found.value.With(found.value.runtime.DisarmSchedule().CancelRestart())), name, ports);
    }
  }

  lemma {:induction false} StopEachQuiet(s: State, order: seq<Name>, ports: Ports)
    ensures Quiet(s, StopEach(s, order, ports).0)
    decreases |order|
  {
    hide Find, Put, RequestStop;
    if order != [] {
      var name, rest := order[|order| - 1], order[..|order| - 1];
      var found := Find(s.records, name);
      if found.Some? {
        var runtime := found.value.runtime.DisarmSchedule().CancelRestart();
        var idle := SetRecord(s, name, found.value.With(runtime));
        RequestStopQuiet(idle, name, ports);
        var asked := RequestStop(idle, name, ports).0;
        StopEachQuiet(idle, rest, ports);
        StopEachQuiet(asked, rest, ports);
        StopEachQuiet(SetRecord(asked, name, found.value.With(runtime.MarkStopping())), rest, ports);
      }
    }
  }

  lemma DisarmEverythingSync(s: State, b: Board)
    requires InSync(s, b)
    ensures InSync(DisarmEverything(s), b)
  {
    hide ApplyAll;
    var idle := s.(timers := s.timers.(fires := map[], restarts := {}));
    Applied(idle, DisarmTimers(s.timers.fires.Keys), b);
    Applied(Emit(idle, DisarmTimers(s.timers.fires.Keys)), CancelRestarts(s.timers.restarts), b);
    assert s.timers.fires - s.timers.fires.Keys == map[];
  }

  lemma {:induction false} ForceKillStoppedSync(s: State, stopped: seq<StopOutcome>, b: Board)
    requires InSync(s, b)
    ensures InSync(ForceKillStopped(s, stopped), b)
    decreases |stopped|
  {
    hide InSync, ScheduleForceKillOf;
    if stopped != [] {
      var one := stopped[0];
      KillSync(s, one.name, one.forceKillPid, IdentityToken(s, one.name), b);
      ForceKillStoppedSync(ScheduleForceKillOf(s, one.name, one.forceKillPid, IdentityToken(s, one.name)), stopped[1..], b);
    }
  }

  lemma {:induction false} CancelAllSync(s: State, names: seq<Name>, b: Board)
    requires InSync(s, b)
    ensures InSync(CancelAll(s, names), b)
    decreases |names|
  {
    hide InSync, CancelReadyOf;
    if names != [] {
      CancelReadySync(s, names[0], b);
      CancelAllSync(CancelReadyOf(s, names[0]), names[1..], b);
    }
  }

  lemma {:induction false} ForceKillUnsweptSync(s: State, tracked: seq<nat>, stopped: seq<StopOutcome>, b: Board)
    requires InSync(s, b)
    ensures InSync(ForceKillUnswept(s, tracked, stopped), b)
    decreases |tracked|
  {
    hide InSync, ScheduleForceKillOf, OwnerOf, Covered;
    if tracked != [] {
      if Covered(stopped, tracked[0]) {
        ForceKillUnsweptSync(s, tracked[1..], stopped, b);
      } else {
        var (name, token) := OwnerOf(s.records, tracked[0]);
        KillSync(s, name, Some(tracked[0]), token, b);
        ForceKillUnsweptSync(ScheduleForceKillOf(s, name, Some(tracked[0]), token), tracked[1..], stopped, b);
      }
    }
  }

  lemma StopAllSync(s: State, ports: Ports, b: Board)
    requires InSync(s, b)
    ensures InSync(StopAll(s, ports), b)
  {
    hide ApplyAll, DisarmEverything, StopEach, DependencyOrder, ForceKillStopped, CancelAll, ForceKillUnswept, NamesOf;
    var disarmed := DisarmEverything(s);
    DisarmEverythingSync(s, b);
    StopEachQuiet(disarmed, DependencyOrder(disarmed.records), ports);
    var (asked, stopped) := StopEach(disarmed, DependencyOrder(disarmed.records), ports);
    QuietSync(disarmed, Tick(asked), b);
    ForceKillStoppedSync(Tick(asked), stopped, b);
    var scheduled := ForceKillStopped(Tick(asked), stopped);
    CancelAllSync(scheduled, NamesOf(scheduled.records), b);
    var cancelled := CancelAll(scheduled, NamesOf(scheduled.records));
    QuietSync(cancelled, Tick(cancelled), b);
    ForceKillUnsweptSync(Tick(cancelled), ports.trackedPids(cancelled.tick), stopped, b);
  }

  lemma StopSync(s: State, selector: Selector, ports: Ports, b: Board)
    requires InSync(s, b)
    ensures InSync(Stop(s, selector, ports).0, b)
  {
    hide InSync, StopAll, StopApp, CoverDraining, Retire, IdentityToken;
    if selector.All? {
      StopAllSync(s, ports, b);
    } else {
      var (tried, outcome) := StopApp(s, selector, ports);
      StopAppQuiet(s, selector, ports);
      assert InSync(tried, b) by { QuietSync(s, tried, b); }
      if outcome.None? {
        CoverSync(tried, selector, b);
      } else {
        RetireSync(tried, outcome.value.name, outcome.value.forceKillPid, IdentityToken(tried, outcome.value.name), b);
      }
    }
  }

  lemma DeleteOneQuiet(s: State, name: Name, ports: Ports)
    ensures Quiet(s, DeleteOne(s, name, ports).0)
  {
    hide RequestStop, Find, Remove;
    RequestStopQuiet(s, name, ports);
  }

  lemma {:induction false} DeleteEachSync(s: State, order: seq<Name>, ports: Ports, b: Board)
    requires InSync(s, b)
    ensures InSync(DeleteEach(s, order, ports), b)
    decreases |order|
  {
    hide InSync, DeleteOne, CoverDraining, Retire, IdentityToken;
    if order != [] {
      var name := order[|order| - 1];
      var (tried, outcome) := DeleteOne(s, name, ports);
      DeleteOneQuiet(s, name, ports);
      assert InSync(tried, b) by { QuietSync(s, tried, b); }
      if outcome.None? {
        CoverSync(tried, ByName(name), b);
      } else {
        RetireSync(tried, outcome.value.name, outcome.value.forceKillPid, IdentityToken(s, name), b);
      }
      DeleteEachSync(DeleteStep(s, name, ports), order[..|order| - 1], ports, b);
    }
  }

  lemma DeleteSync(s: State, selector: Selector, ports: Ports, b: Board)
    requires InSync(s, b)
    ensures InSync(Delete(s, selector, ports), b)
  {
    hide ApplyAll, DeleteEach, DeleteOne, CoverDraining, Retire, TokenBy, FindBy, HasDependents, DependencyOrder;
    if selector.All? {
      DeleteEachSync(s, DependencyOrder(s.records), ports, b);
    } else {
      var (tried, outcome) := DeleteApp(s, selector, ports);
      var found := FindBy(s.records, selector);
      if found.Some? {
        DeleteOneQuiet(s, found.value.runtime.name, ports);
      }
      QuietSync(s, tried, b);
      if outcome.None? {
        CoverSync(tried, selector, b);
      } else {
        RetireSync(tried, outcome.value.name, outcome.value.forceKillPid, TokenBy(s, selector), b);
      }
    }
  }

  lemma DispatchedSync(s: State, outcome: RestartOutcome, ports: Ports, b: Board)
    requires !outcome.Refused? && InSync(s, b)
    ensures var (dispatched, name) := DispatchRestart(s, outcome);
            InSync(ArmTimerFor(CancelQueuedRestart(dispatched, name), name, ports), b)
  {
    hide InSync, DispatchRestart, CancelQueuedRestart, ArmTimerFor;
    var (dispatched, name) := DispatchRestart(s, outcome);
    DispatchSync(s, outcome, b);
    CancelSync(dispatched, name, b);
    ArmSync(CancelQueuedRestart(dispatched, name), name, ports, b);
  }

  lemma {:induction false} RestartEachSync(s: State, names: seq<Name>, ports: Ports, b: Board)
    requires InSync(s, b)
    ensures InSync(RestartEach(s, names, ports), b)
    decreases |names|
  {
    hide ApplyAll, Prepare, Find, Put, RestartApp, DispatchRestart, CancelQueuedRestart, ArmTimerFor;
    if names != [] {
      var name := names[0];
      var spec, found := Prepare(s, name, ports), Find(s.records, name);
      if spec.None? {
        QuietSync(s, Tick(s), b);
        RestartEachSync(Tick(s), names[1..], ports, b);
      } else if found.Some? {
        var reloaded := SetRecord(Tick(s), name, found.value.(spec := spec.value));
        var (tried, outcome) := RestartApp(reloaded, ByName(name), ports);
        RestartAppQuiet(reloaded, ByName(name), ports);
        QuietSync(s, tried, b);
        if outcome.Refused? {
          ArmSync(tried, name, ports, b);
          RestartEachSync(ArmTimerFor(tried, name, ports), names[1..], ports, b);
        } else {
          DispatchedSync(tried, outcome, ports, b);
          var (dispatched, restarted) := DispatchRestart(tried, outcome);
          RestartEachSync(ArmTimerFor(CancelQueuedRestart(dispatched, restarted), restarted, ports), names[1..], ports, b);
        }
      }
    }
  }

  lemma RestartCommandSync(s: State, selector: Selector, ports: Ports, b: Board)
    requires InSync(s, b)
    ensures InSync(RestartCommand(s, selector, ports), b)
  {
    hide ApplyAll, Prepare, FindBy, Put, RestartApp, DispatchRestart, CancelQueuedRestart, ArmTimerFor, RestartEach, NamesOf;
    if selector.All? {
      RestartEachSync(s, NamesOf(s.records), ports, b);
    } else {
      var found := FindBy(s.records, selector);
      if found.Some? {
        var spec := Prepare(s, found.value.runtime.name, ports);
        QuietSync(s, Tick(s), b);
        if spec.Some? {
          var reloaded := SetRecord(Tick(s), found.value.runtime.name, found.value.(spec := spec.value));
          var (tried, outcome) := RestartApp(reloaded, selector, ports);
          RestartAppQuiet(reloaded, selector, ports);
          QuietSync(s, tried, b);
          if !outcome.Refused? {
            DispatchedSync(tried, outcome, ports, b);
          }
        }
      }
    }
  }

  lemma {:induction false} ResetEachQuiet(s: State, names: seq<Name>)
    ensures Quiet(s, ResetEach(s, names))
    decreases |names|
  {
    hide Find, Put;
    if names != [] {
      ResetEachQuiet(ResetOne(s, names[0]), names[1..]);
    }
  }

  lemma ResetQuiet(s: State, selector: Selector)
    ensures Quiet(s, Reset(s, selector))
  {
    hide Find, FindBy, Put, ResetEach, NamesOf;
    ResetEachQuiet(s, NamesOf(s.records));
  }

  // ----- every run -----

  lemma HandleSync(s: State, event: Daemon.Event, ports: Ports, b: Board)
    requires InSync(s, b)
    ensures InSync(Daemon.Handle(s, event, ports), b)
  {
    hide Start, Stop, StopAll, RestartCommand, Delete, Reset, OnExit, OnRestart, RestartNow, OnReady, OnReadyTimeout,
      OnMemorySample, OnLivenessSample;
    match event
    case StartServices(services) => StartSync(s, services, ports, b);
    case StopService(selector) => StopSync(s, selector, ports, b);
    case StopEverything => StopAllSync(s, ports, b);
    case RestartService(selector) => RestartCommandSync(s, selector, ports, b);
    case DeleteService(selector) => DeleteSync(s, selector, ports, b);
    case ResetService(selector) =>
      ResetQuiet(s, selector);
      QuietSync(s, Reset(s, selector), b);
    case Exited(watch, outcome) => OnExitSync(s, watch.name, watch.generation, outcome, ports, b);
    case RestartDue(name) => OnRestartSync(s, name, ports, b);
    case FireDue(name, at) => RestartNowSync(s, name, ports, b);
    case BecameReady(name, generation) => OnReadySync(s, name, generation, ports, b);
    case ReadyTimedOut(name, generation) => OnReadyTimeoutSync(s, name, generation, ports, b);
    case SampleMemory => OnMemorySync(s, ports, b);
    case SampleLiveness(threshold) => OnLivenessSync(s, threshold, ports, b);
    case Shutdown =>
      DisarmEverythingSync(s, b);
      QuietSync(DisarmEverything(s), PrepareShutdown(s), b);
  }

  /** The board after a whole run: each turn's effects are applied before the next event. */
  function BoardAfter(w: Daemon.World, b: Board, events: seq<Daemon.Event>, ports: Ports): Board
    decreases |events|
  {
    if events == [] then b
    else
      var next := Daemon.Step(w, events[0], ports);
      BoardAfter(next, ApplyAll(b, next.sup.effects), events[1..], ports)
  }

  /** The board holds a task for exactly the fires that are armed and the restarts that are queued. */
  predicate BoardAgrees(w: Daemon.World, b: Board) {
    b.fires == w.sup.timers.fires && b.restarts == w.sup.timers.restarts
  }

  /**
   * Whatever happens, and however stale the events that arrive, the board and the supervisor's timers
   * agree after every turn: no armed fire or queued restart loses its task, and none survives its
   * cancellation.
   */
  lemma {:induction false} BoardNeverDrifts(w: Daemon.World, b: Board, events: seq<Daemon.Event>, ports: Ports)
    requires BoardAgrees(w, b)
    ensures BoardAgrees(Daemon.Run(w, events, ports), BoardAfter(w, b, events, ports))
    decreases |events|
  {
    hide Daemon.Handle;
    if events != [] {
      var next := Daemon.Step(w, events[0], ports);
      assert InSync(Daemon.Begun(w), b);
      HandleSync(Daemon.Begun(w), events[0], ports, b);
      BoardNeverDrifts(next, ApplyAll(b, next.sup.effects), events[1..], ports);
    }
  }
}
