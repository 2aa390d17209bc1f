/**
 * Restart requests around a failed readiness probe (usecases/src/supervisor_ready.rs and supervise.rs):
 * which events leave one on a service that is on its way out, and what it does to the next life.
 */
module Requests {
  import opened Graphs
  import opened Model
  import opened ProcessTable
  import opened Handlers
  import opened Coherence
  import opened CommandCoherence
  import opened Daemon
  import Sticky
  import StickyStop
  import Waiting

  /** `n` is on its way out or gone, and nobody has asked for it to come back. */
  predicate Unrequested(records: seq<Record>, n: Name) {
    Has(records, n) ==>
      !Find(records, n).value.runtime.status.IsRunning() && !Find(records, n).value.runtime.pendingRestart
  }

  /** What is asked of a service when it is last looked at, and whether that is to be followed exactly. */
  datatype Held = Held(pending: bool, supervised: bool, exact: bool)

  predicate SteadyRuntime(runtime: Runtime, failing: bool, held: Held) {
    && !runtime.status.IsRunning() && (runtime.pendingRestart ==> held.pending)
    && (held.exact && failing ==>
          && runtime.status.Stopping? && runtime.pid.Some?
          && runtime.pendingRestart == held.pending && runtime.supervisedRestart == held.supervised)
  }

  predicate Steady(records: seq<Record>, n: Name, failing: bool, held: Held) {
    Has(records, n) ==> SteadyRuntime(Find(records, n).value.runtime, failing, held)
  }

  /**
   * `n` is on its way out or gone, and nobody has asked for more than was asked; as long as it is known to
   * have failed its probe, exactly that is still asked.
   */
  predicate Keeps(s: State, n: Name, held: Held) {
    Steady(s.records, n, n in s.readyFailed, held)
  }

  /** The events that ask for `n`: by name, by a queued restart or a due fire, or by releasing it as a waiter. */
  predicate Asks(s: State, event: Event, n: Name) {
    match event
    case StartServices(services) => n in services
    case RestartService(selector) =>
      selector.All? || (FindBy(s.records, selector).Some? && FindBy(s.records, selector).value.runtime.name == n)
    case RestartDue(name) => name == n && n in s.timers.restarts
    case FireDue(name, at) => name == n && s.timers.FireIsDue(n, at)
    case BecameReady(_, _) => StillWaiting(s.waiters, n)
    case _ => false
  }

  predicate RunAsksNot(w: World, events: seq<Event>, ports: Ports, n: Name)
    decreases |events|
  {
    events != [] ==> !Asks(w.sup, events[0], n) && RunAsksNot(Step(w, events[0], ports), events[1..], ports, n)
  }

  // ----- steps that ask for nothing -----

  lemma EditLeaves(records: seq<Record>, m: Name, updated: Record, n: Name, failing: bool, held: Held)
    requires Steady(records, n, failing, held) && updated.runtime.name == m
    requires m == n ==> SteadyRuntime(updated.runtime, failing, held)
    ensures Steady(Put(records, m, updated), n, failing, held)
  {
  }

  lemma LaunchLeaves(s: State, m: Name, register: bool, ports: Ports, n: Name, held: Held)
    requires Keeps(s, n, held) && m != n
    ensures Keeps(LaunchOne(s, m, register, ports).0, n, held)
    ensures LaunchOne(s, m, register, ports).1.Some? ==> LaunchOne(s, m, register, ports).1.value.name == m
  {
    Sticky.LaunchTouchesOnly(s, m, register, ports, n);
    FoundAlike(s.records, LaunchOne(s, m, register, ports).0.records, n, n in s.readyFailed, held);
    hide Find, Put, Steady;
  }

  lemma StopRequestLeaves(s: State, m: Name, ports: Ports, n: Name, held: Held)
    requires Keeps(s, n, held)
    ensures Keeps(RequestStop(s, m, ports).0, n, held)
  {
    if Has(s.records, m) {
      Sticky.RequestStopEdits(s, m, ports);
      var record := Find(s.records, m).value;
      EditLeaves(s.records, m, record.With(Sticky.AskedToStop(record.runtime)), n, n in s.readyFailed, held);
    }
  }

  lemma RestartAppLeaves(s: State, selector: Selector, ports: Ports, n: Name, held: Held)
    requires Keeps(s, n, held)
    requires FindBy(s.records, selector).Some? ==> FindBy(s.records, selector).value.runtime.name != n
    ensures var (next, outcome) := RestartApp(s, selector, ports); Keeps(next, n, held)
  {
    var found := FindBy(s.records, selector);
    hide LaunchOne, RequestStop, FindBy, RequestRestartOf, Steady, Find;
    if found.Some? {
      var m := found.value.runtime.name;
      LaunchLeaves(s, m, false, ports, n, held);
      StopRequestLeaves(s, m, ports, n, held);
      RequestLeaves(RequestStop(s, m, ports).0, m, n, held);
    }
  }

  lemma RequestLeaves(s: State, m: Name, n: Name, held: Held)
    requires Keeps(s, n, held) && m != n
    ensures Keeps(RequestRestartOf(s, m), n, held)
  {
    if Has(s.records, m) {
      var record := Find(s.records, m).value;
      EditLeaves(s.records, m, record.With(record.runtime.RequestRestart()), n, n in s.readyFailed, held);
    }
  }

  lemma DispatchLeaves(s: State, outcome: RestartOutcome)
    requires !outcome.Refused?
    ensures var next := DispatchRestart(s, outcome).0; next.records == s.records && next.readyFailed == s.readyFailed
  {
    hide Find;
  }

  lemma RestartNowLeaves(s: State, m: Name, ports: Ports, n: Name, held: Held)
    requires Keeps(s, n, held) && m != n
    ensures Keeps(RestartNow(s, m, ports), n, held)
  {
    var cancelled := CancelQueuedRestart(s, m);
    RestartAppLeaves(cancelled, ByName(m), ports, n, held);
    var (tried, outcome) := RestartApp(cancelled, ByName(m), ports);
    hide RestartApp, DispatchRestart, ArmTimerFor, Steady;
    if outcome.Refused? {
      ArmLeavesProbes(tried, m, ports);
    } else {
      DispatchLeaves(tried, outcome);
      var (dispatched, name) := DispatchRestart(tried, outcome);
      ArmLeavesProbes(dispatched, name, ports);
    }
  }

  lemma ErrorLeaves(s: State, m: Name, n: Name, held: Held)
    requires Keeps(s, n, held)
    ensures Keeps(MarkErroredIfSettled(s, m), n, held)
  {
    if Has(s.records, m) && !Unsettled(s.records, m) {
      var record := Find(s.records, m).value;
      EditLeaves(s.records, m, record.With(record.runtime.MarkExited(Errored)), n, n in s.readyFailed, held);
    }
  }

  lemma {:induction false} FailDeadLeaves(s: State, dead: seq<Name>, n: Name, held: Held)
    requires Keeps(s, n, held)
    ensures Keeps(FailDead(s, dead).0, n, held)
    ensures !StillWaiting(s.waiters, n) ==> !StillWaiting(FailDead(s, dead).0.waiters, n)
    decreases |s.waiters|, |dead|
  {
    if dead != [] {
      var doomed := dead[|dead| - 1];
      var forgotten := ForgetWaiter(s.waiters, doomed);
      DeadStepShrinks(s, dead);
      var (next, left) := DeadStep(s, dead);
      ErrorLeaves(s.(waiters := forgotten), doomed, n, held);
      if !StillWaiting(s.waiters, n) {
        Sticky.ForgetIsQuiet(s.waiters, doomed, n);
        Sticky.ForgetIsQuiet(forgotten, doomed, n);
      }
      hide StillWaiting, Steady;
      FailDeadLeaves(next, left, n, held);
    }
  }

  lemma FailLeaves(s: State, m: Name, n: Name, held: Held)
    requires Keeps(s, n, held)
    ensures var next := FailDownstream(s, m).0;
            && Keeps(next, n, held)
            && (!StillWaiting(s.waiters, n) ==> !StillWaiting(next.waiters, n))
  {
    hide FailDead;
    FailDeadLeaves(s.(waiters := s.waiters - {m}), WaitersOf(s.waiters, m), n, held);
  }

  lemma Fewer(records: seq<Record>, n: Name, held: Held)
    ensures Steady(records, n, true, held) ==> Steady(records, n, false, held)
  {
  }

  lemma CancelReadyLeaves(s: State, m: Name, n: Name, held: Held)
    requires Keeps(s, n, held)
    ensures Keeps(CancelReadyOf(s, m), n, held)
  {
    hide FailDownstream;
    Fewer(s.records, n, held);
    FailLeaves(s.(readyFailed := s.readyFailed - {m}, waiters := ForgetWaiter(s.waiters, m)), m, n, held);
  }

  // ----- readiness -----

  lemma WatchLeavesProbes(s: State, o: StartOutcome)
    ensures Watch(s, o).readyFailed == s.readyFailed
  {
    hide Find;
  }

  lemma LaunchWaiterLeaves(s: State, m: Name, ports: Ports, n: Name, held: Held)
    requires Keeps(s, n, held) && m != n && !StillWaiting(s.waiters, n)
    ensures var next := LaunchWaiter(s, m, ports).0; Keeps(next, n, held) && !StillWaiting(next.waiters, n)
  {
    LaunchLeaves(s, m, true, ports, n, held);
    var (tried, outcome) := LaunchOne(s, m, true, ports);
    hide LaunchOne, Steady, StillWaiting, Watch, ArmTimerFor, FailDownstream;
    if outcome.None? {
      ErrorLeaves(tried, m, n, held);
      FailLeaves(MarkErroredIfSettled(tried, m), m, n, held);
    } else {
      WatchLeavesProbes(tried, outcome.value);
      ArmLeavesProbes(Watch(tried, outcome.value), m, ports);
    }
  }

  lemma {:induction false} LaunchListLeaves(s: State, list: seq<Name>, queue: seq<Name>, ports: Ports, n: Name, held: Held)
    requires Keeps(s, n, held) && n !in list && !StillWaiting(s.waiters, n)
    ensures var next := LaunchList(s, list, queue, ports).0; Keeps(next, n, held) && !StillWaiting(next.waiters, n)
    decreases |list|
  {
    hide LaunchWaiter, Steady;
    if list != [] {
      if StillWaiting(s.waiters, list[0]) {
        LaunchListLeaves(s, list[1..], queue, ports, n, held);
      } else {
        LaunchWaiterLeaves(s, list[0], ports, n, held);
        hide StillWaiting;
        var (next, released) := LaunchWaiter(s, list[0], ports);
        LaunchListLeaves(next, list[1..], if released then queue + [list[0]] else queue, ports, n, held);
      }
    }
  }

  lemma {:induction false} LaunchQueueLeaves(s: State, queue: seq<Name>, ports: Ports, n: Name, held: Held)
    requires Keeps(s, n, held) && !StillWaiting(s.waiters, n)
    ensures Keeps(LaunchQueue(s, queue, ports), n, held)
    decreases |s.waiters|, |queue|
  {
    hide LaunchList, Steady;
    if queue != [] {
      var ready, left := queue[|queue| - 1], queue[..|queue| - 1];
      if ready !in s.waiters {
        LaunchQueueLeaves(s, left, ports, n, held);
      } else {
        var taken := s.(waiters := s.waiters - {ready});
        Sticky.ForgetIsQuiet(s.waiters, ready, n);
        ForgetShrinks(s.waiters, ready);
        LaunchListShrinks(taken, s.waiters[ready], left, ports);
        LaunchListLeaves(taken, s.waiters[ready], left, ports, n, held);
        var (next, longer) := LaunchList(taken, s.waiters[ready], left, ports);
        LaunchQueueLeaves(next, longer, ports, n, held);
      }
    }
  }

  lemma OnReadyLeaves(s: State, m: Name, generation: nat, ports: Ports, n: Name, held: Held)
    requires Keeps(s, n, held) && !StillWaiting(s.waiters, n)
    ensures Keeps(OnReady(s, m, generation, ports), n, held)
  {
    if AwaitsReadyAt(s, m, generation) {
      var record := Find(s.records, m).value;
      var online := record.With(record.runtime.MarkOnline());
      EditLeaves(s.records, m, online, n, n in s.readyFailed, held);
      hide Steady, LaunchQueue, StillWaiting;
      LaunchQueueLeaves(Tick(SetRecord(s, m, online)), [m], ports, n, held);
    }
  }

  lemma OnReadyTimeoutLeaves(s: State, m: Name, generation: nat, ports: Ports, n: Name, held: Held)
    requires Keeps(s, n, held)
    ensures Keeps(OnReadyTimeout(s, m, generation, ports), n, held)
  {
    if AwaitsReadyAt(s, m, generation) {
      var record := Find(s.records, m).value;
      var stopping := record.With(record.runtime.MarkStopping());
      EditLeaves(s.records, m, stopping, n, n in s.readyFailed, held);
      if record.runtime.pid.Some? {
        hide FailDownstream, Steady;
        var marked := Tick(SetRecord(s.(readyFailed := s.readyFailed + {m}), m, stopping));
        FailLeaves(ScheduleForceKillOf(marked, m, record.runtime.pid, record.runtime.Token()), m, n, held);
      }
    }
  }

  // ----- exits and samples -----

  lemma ExitCancels(record: Record, outcome: ExitOutcome, nowMs: nat)
    ensures var settled := ClassifyExit(record, outcome, nowMs).0;
            settled.runtime.status.IsSettled() && !settled.runtime.pendingRestart
            && settled.runtime.name == record.runtime.name
  {
  }

  lemma OnExitLeaves(s: State, m: Name, generation: nat, outcome: ExitOutcome, ports: Ports, n: Name, held: Held)
    requires Keeps(s, n, held)
    ensures Keeps(OnExit(s, m, generation, outcome, ports), n, held)
  {
    hide ClassifyExit, FailDownstream, Steady, Find, Put, WatchesIn;
    if s.timers.IsCurrent(m, generation) && Has(s.records, m) {
      if m in s.readyFailed {
        FailedExitLeaves(s, m, n, held);
      } else {
        SettlingLeaves(s, m, outcome, ports.now(s.tick), n, held);
        var (settled, action) := ClassifyExit(Find(s.records, m).value, outcome, ports.now(s.tick));
        FailLeaves(Tick(SetRecord(Emit(s, CancelForceKill(m)), m, settled)), m, n, held);
      }
    }
  }

  lemma FailedExitLeaves(s: State, m: Name, n: Name, held: Held)
    requires Keeps(s, n, held) && Has(s.records, m) && m in s.readyFailed
    ensures var record := Find(s.records, m).value;
            Keeps(SetRecord(s.(readyFailed := s.readyFailed - {m}), m, record.With(record.runtime.MarkExited(Errored))), n, held)
  {
    var record := Find(s.records, m).value;
    Fewer(s.records, n, held);
    if m == n {
      SteadyMeans(s.records, n, true, held);
    }
    hide Steady, Find, Put;
    EditLeaves(s.records, m, record.With(record.runtime.MarkExited(Errored)), n, n != m && n in s.readyFailed, held);
  }

  lemma SettlingLeaves(s: State, m: Name, outcome: ExitOutcome, nowMs: nat, n: Name, held: Held)
    requires Keeps(s, n, held) && Has(s.records, m) && m !in s.readyFailed
    ensures Steady(Put(s.records, m, ClassifyExit(Find(s.records, m).value, outcome, nowMs).0), n, n in s.readyFailed, held)
  {
    hide ClassifyExit, Steady, Find, Put;
    var record := Find(s.records, m).value;
    ExitCancels(record, outcome, nowMs);
    EditLeaves(s.records, m, ClassifyExit(record, outcome, nowMs).0, n, n in s.readyFailed, held);
  }

  lemma SteadyMeans(records: seq<Record>, n: Name, failing: bool, held: Held)
    requires Has(records, n)
    ensures Steady(records, n, failing, held) <==> SteadyRuntime(Find(records, n).value.runtime, failing, held)
  {
  }

  lemma HandLeaves(s: State, m: Name, n: Name, held: Held)
    requires Keeps(s, n, held) && m != n
    ensures Keeps(HandToTheBreaker(s, m), n, held)
  {
  }

  lemma {:induction false} KillBreachesLeaves(s: State, names: seq<Name>, ports: Ports, n: Name, held: Held)
    requires Keeps(s, n, held) && n !in names
    ensures Keeps(KillBreaches(s, names, ports), n, held)
    decreases |names|
  {
    hide RestartNow, Steady;
    if names != [] {
      RestartNowLeaves(s, names[0], ports, n, held);
      HandLeaves(RestartNow(s, names[0], ports), names[0], n, held);
      KillBreachesLeaves(HandToTheBreaker(RestartNow(s, names[0], ports), names[0]), names[1..], ports, n, held);
    }
  }

  lemma NotRunning(records: seq<Record>, n: Name, failing: bool, held: Held)
    requires TableOk(records) && Steady(records, n, failing, held)
    ensures forall r <- records :: r.runtime.name == n ==> !r.runtime.status.IsRunning()
  {
    forall r <- records | r.runtime.name == n ensures !r.runtime.status.IsRunning() {
      FindIsUnique(records, r);
    }
  }

  lemma CheckLeaves(s: State, m: Name, threshold: nat, ports: Ports, n: Name, held: Held)
    requires Keeps(s, n, held) && m != n
    ensures Keeps(CheckStep(s, m, threshold, ports), n, held)
  {
    if Has(s.records, m) {
      CheckCases(s, m, threshold, ports);
      var record := Find(s.records, m).value;
      EditLeaves(s.records, m, record.With(record.runtime.PassLiveness()), n, n in s.readyFailed, held);
      EditLeaves(s.records, m, record.With(record.runtime.FailLiveness()), n, n in s.readyFailed, held);
      hide Steady, RestartNow, CheckStep, HandToTheBreaker, Find, Put;
      RestartNowLeaves(Noted(s, m), m, ports, n, held);
      HandLeaves(RestartNow(Noted(s, m), m, ports), m, n, held);
    }
  }

  lemma {:induction false} CheckLivenessLeaves(s: State, names: seq<Name>, threshold: nat, ports: Ports, n: Name, held: Held)
    requires Keeps(s, n, held) && n !in names
    ensures Keeps(CheckLiveness(s, names, threshold, ports), n, held)
    decreases |names|
  {
    hide CheckStep, Steady;
    if names != [] {
      CheckLeaves(s, names[0], threshold, ports, n, held);
      CheckLivenessLeaves(CheckStep(s, names[0], threshold, ports), names[1..], threshold, ports, n, held);
    }
  }

  lemma SamplesLeave(s: State, threshold: nat, ports: Ports, n: Name, held: Held)
    requires Keeps(s, n, held) && TableOk(s.records)
    ensures Keeps(OnMemorySample(s, ports), n, held)
    ensures Keeps(OnLivenessSample(s, threshold, ports), n, held)
  {
    NotRunning(s.records, n, n in s.readyFailed, held);
    KillBreachesLeaves(Tick(Emit(s, ScheduleMemorySample)), BreachesOf(s.records, ports.residentMemory(s.tick)), ports, n, held);
    CheckLivenessLeaves(Emit(s, ScheduleLivenessSample), LivenessWatchList(s.records), threshold, ports, n, held);
    hide KillBreaches, CheckLiveness;
  }

  // ----- start -----

  lemma {:induction false} LaunchBatchLeaves(s: State, order: seq<Name>, specs: seq<Spec>, waiting: set<Name>,
                                             ports: Ports, n: Name, held: Held)
    requires Keeps(s, n, held) && n !in order
    ensures Keeps(LaunchBatch(s, order, specs, waiting, ports).0, n, held)
    decreases |order|
  {
    hide LaunchOne, Steady, DependsOnOf, WaitingDependencies, AwaitsReady;
    if order != [] {
      var m := order[0];
      if WaitingDependencies(DependsOnOf(specs, m), waiting) != [] {
        LaunchBatchLeaves(s, order[1..], specs, waiting + {m}, ports, n, held);
      } else {
        LaunchLeaves(s, m, true, ports, n, held);
        var (tried, outcome) := LaunchOne(s, m, true, ports);
        LaunchBatchLeaves(tried, order[1..], specs, if AwaitsReady(tried.records, m) then waiting + {m} else waiting,
                          ports, n, held);
      }
    }
  }

  lemma FoundAlike(records: seq<Record>, next: seq<Record>, n: Name, failing: bool, held: Held)
    requires Steady(records, n, failing, held) && Find(next, n) == Find(records, n)
    ensures Steady(next, n, failing, held)
  {
  }

  lemma StartAppsLeaves(s: State, specs: seq<Spec>, ports: Ports, before: set<ExitWatch>, from: nat, n: Name, held: Held)
    requires Coherent(s, before, from, []) && RoomFor(s, |specs|) && !NamesInclude(specs, n)
    requires Keeps(s, n, held)
    ensures Keeps(StartApps(s, specs, ports).0, n, held)
  {
    var accepted := AcceptedOrder(s.records, specs, ports);
    if accepted.Some? {
      var order := accepted.value;
      var nowMs := ports.now(s.tick);
      UpsertAllKeeps(s, specs, nowMs, s.records, before, from);
      StickyStop.UpsertAllFindsOthers(s.records, specs, nowMs, n);
      var (registered, previous) := UpsertAll(s.records, specs, nowMs);
      FoundAlike(s.records, registered, n, n in s.readyFailed, held);
      hide AcceptedOrder, UpsertAll, Steady, Coherent, LaunchBatch, ForgetUnlaunched, NamesInclude, Find;
      var listed := Tick(s.(records := registered));
      LaunchBatchLeaves(listed, order, specs, {}, ports, n, held);
      var (tried, report) := LaunchBatch(listed, order, specs, {}, ports);
      StickyStop.ForgetFindsOthers(tried.records, previous, report.outcomes, nowMs, n);
      FoundAlike(tried.records, ForgetUnlaunched(tried.records, previous, report.outcomes, nowMs), n, n in tried.readyFailed, held);
    }
  }

  lemma {:induction false} WatchAllLeaves(s: State, outcomes: seq<StartOutcome>)
    ensures WatchAll(s, outcomes).records == s.records && WatchAll(s, outcomes).readyFailed == s.readyFailed
    decreases |outcomes|
  {
    hide Watch;
    if outcomes != [] {
      WatchLeavesProbes(s, outcomes[0]);
      WatchAllLeaves(Watch(s, outcomes[0]), outcomes[1..]);
    }
  }

  lemma {:induction false} SettleStartedLeaves(s: State, outcomes: seq<StartOutcome>, ports: Ports)
    ensures var next := SettleStarted(s, outcomes, ports); next.records == s.records && next.readyFailed == s.readyFailed
    decreases |outcomes|
  {
    hide ArmTimerFor;
    if outcomes != [] {
      var cancelled := CancelQueuedRestart(s, outcomes[0].name);
      ArmLeavesProbes(cancelled, outcomes[0].name, ports);
      SettleStartedLeaves(if outcomes[0].kind.Deferred? then cancelled else ArmTimerFor(cancelled, outcomes[0].name, ports),
                          outcomes[1..], ports);
    }
  }

  lemma StartLeaves(s: State, services: seq<Name>, ports: Ports, before: set<ExitWatch>, from: nat, n: Name, held: Held)
    requires Coherent(s, before, from, []) && RoomFor(s, |services|) && n !in services && Keeps(s, n, held)
    ensures Keeps(Start(s, services, ports), n, held)
  {
    PrepareAllKeeps(s, services, ports, before, from);
    var (asked, specs) := PrepareAll(s, services, ports);
    if specs.Some? {
      StartAppsLeaves(asked, specs.value, ports, before, from, n, held);
      hide PrepareAll, StartApps, Steady, Coherent, WatchAll, AddPending, SettleStarted;
      var (started, report) := StartApps(asked, specs.value, ports);
      WatchAllLeaves(started, report.outcomes);
      var watched := WatchAll(started, report.outcomes);
      SettleStartedLeaves(watched.(waiters := AddPending(watched.waiters, report.pending)), report.outcomes, ports);
    }
  }

  // ----- stop and delete -----

  lemma RetireLeaves(s: State, m: Name, pid: Option<nat>, token: Option<string>, n: Name, held: Held)
    requires Keeps(s, n, held)
    ensures Keeps(Retire(s, m, pid, token), n, held)
  {
    hide CancelReadyOf;
    CancelReadyLeaves(CancelQueuedRestart(Disarm(s, m), m), m, n, held);
  }

  lemma CoverLeaves(s: State, selector: Selector, n: Name, held: Held)
    requires Keeps(s, n, held)
    ensures Keeps(CoverDraining(s, selector), n, held)
  {
    hide Retire, Steady;
    var found := FindBy(s.records, selector);
    if found.Some? {
      RetireLeaves(s, found.value.runtime.name, found.value.runtime.pid, found.value.runtime.Token(), n, held);
    }
  }

  lemma StopAppLeaves(s: State, selector: Selector, ports: Ports, n: Name, held: Held)
    requires Keeps(s, n, held) && TableOk(s.records)
    requires held.exact && n in s.readyFailed ==>
               FindBy(s.records, selector).Some? ==> FindBy(s.records, selector).value.runtime.name != n
    ensures Keeps(StopApp(s, selector, ports).0, n, held)
  {
    var found := FindBy(s.records, selector);
    if found.Some? {
      FindByIsFind(s.records, selector);
      var record := found.value;
      var m := record.runtime.name;
      var updated := record.With(record.runtime.DisarmSchedule().CancelRestart());
      EditLeaves(s.records, m, updated, n, n in s.readyFailed, held);
      hide Steady, TableOk, FindBy, RequestStop;
      StopRequestLeaves(SetRecord(s, m, updated), m, ports, n, held);
      StopRequestLeavesProbes(SetRecord(s, m, updated), m, ports);
    }
  }

  lemma StopRequestLeavesProbes(s: State, m: Name, ports: Ports)
    ensures RequestStop(s, m, ports).0.readyFailed == s.readyFailed
  {
    hide Find, Put;
  }

  lemma {:induction false} StopEachLeaves(s: State, order: seq<Name>, ports: Ports, n: Name, held: Held)
    requires Keeps(s, n, held) && !held.exact
    ensures Keeps(StopEach(s, order, ports).0, n, held)
    decreases |order|
  {
    hide Find;
    if order != [] && Has(s.records, order[|order| - 1]) {
      var m, rest := order[|order| - 1], order[..|order| - 1];
      var record := Find(s.records, m).value;
      var runtime := record.runtime.DisarmSchedule().CancelRestart();
      EditLeaves(s.records, m, record.With(runtime), n, n in s.readyFailed, held);
      var idle := SetRecord(s, m, record.With(runtime));
      if runtime.status.IsSettled() {
        StopEachLeaves(idle, rest, ports, n, held);
      } else {
        StopRequestLeaves(idle, m, ports, n, held);
        var (asked, outcome) := RequestStop(idle, m, ports);
        EditLeaves(asked.records, m, record.With(runtime.MarkStopping()), n, n in asked.readyFailed, held);
        hide Steady, RequestStop;
        StopEachLeaves(if outcome.None? then SetRecord(asked, m, record.With(runtime.MarkStopping())) else asked,
                       rest, ports, n, held);
      }
    }
  }

  lemma {:induction false} CancelAllLeaves(s: State, names: seq<Name>, n: Name, held: Held)
    requires Keeps(s, n, held)
    ensures Keeps(CancelAll(s, names), n, held)
    decreases |names|
  {
    hide CancelReadyOf, Steady;
    if names != [] {
      CancelReadyLeaves(s, names[0], n, held);
      CancelAllLeaves(CancelReadyOf(s, names[0]), names[1..], n, held);
    }
  }

  lemma {:induction false} UnsweptLeaves(s: State, tracked: seq<nat>, stopped: seq<StopOutcome>)
    ensures var next := ForceKillUnswept(s, tracked, stopped); next.records == s.records && next.readyFailed == s.readyFailed
    decreases |tracked|
  {
    hide OwnerOf, Covered;
    if tracked != [] {
      var (name, token) := OwnerOf(s.records, tracked[0]);
      UnsweptLeaves(if Covered(stopped, tracked[0]) then s else ScheduleForceKillOf(s, name, Some(tracked[0]), token),
                    tracked[1..], stopped);
    }
  }

  /** What may be said of `n` when its requests were cancelled. */
  function Loosely(held: Held): Held { held.(exact := false) }

  lemma Loosened(s: State, n: Name, held: Held)
    ensures Keeps(s, n, held) ==> Keeps(s, n, Loosely(held))
    ensures n !in s.readyFailed && Keeps(s, n, Loosely(held)) ==> Keeps(s, n, held)
    ensures !Has(s.records, n) ==> Keeps(s, n, held)
  {
  }

  lemma StopAllLeaves(s: State, ports: Ports, n: Name, held: Held)
    requires Keeps(s, n, held) && TableOk(s.records)
    ensures Keeps(StopAll(s, ports), n, held)
  {
    Loosened(s, n, held);
    StopAllLoosely(s, ports, n, Loosely(held));
    StickyStop.StopAllStands(s, ports, n);
    StickyStop.StandsMeans(s.records, StopAll(s, ports).records, n);
    hide StopAll, Keeps, Loosely;
    Loosened(StopAll(s, ports), n, held);
  }

  lemma StopAllLoosely(s: State, ports: Ports, n: Name, held: Held)
    requires Keeps(s, n, held) && !held.exact
    ensures Keeps(StopAll(s, ports), n, held)
  {
    hide StopEach, ForceKillStopped, CancelAll, ForceKillUnswept, DependencyOrder, Steady, NamesOf;
    var disarmed := DisarmEverything(s);
    StopEachLeaves(disarmed, DependencyOrder(disarmed.records), ports, n, held);
    var (asked, stopped) := StopEach(disarmed, DependencyOrder(disarmed.records), ports);
    StickyStop.ForceKillsAreAside(Tick(asked), stopped);
    var scheduled := ForceKillStopped(Tick(asked), stopped);
    CancelAllLeaves(scheduled, NamesOf(scheduled.records), n, held);
    var cancelled := CancelAll(scheduled, NamesOf(scheduled.records));
    UnsweptLeaves(Tick(cancelled), ports.trackedPids(cancelled.tick), stopped);
  }

  lemma StopOneLeaves(s: State, selector: Selector, ports: Ports, n: Name, held: Held)
    requires Keeps(s, n, held) && TableOk(s.records) && !selector.All?
    requires held.exact && n in s.readyFailed ==>
               FindBy(s.records, selector).Some? ==> FindBy(s.records, selector).value.runtime.name != n
    ensures Keeps(Stop(s, selector, ports).0, n, held)
  {
    hide StopApp, StopAll, Retire, CoverDraining, Steady, TableOk;
    StopAppLeaves(s, selector, ports, n, held);
    var (tried, outcome) := StopApp(s, selector, ports);
    CoverLeaves(tried, selector, n, held);
    if outcome.Some? {
      RetireLeaves(tried, outcome.value.name, outcome.value.forceKillPid, IdentityToken(tried, outcome.value.name), n, held);
    }
  }

  /** Retiring a service forgets that it failed its probe. */
  lemma RetireFrees(s: State, n: Name, pid: Option<nat>, token: Option<string>)
    ensures n !in Retire(s, n, pid, token).readyFailed
  {
    hide FailDead;
    var cancelled := CancelQueuedRestart(Disarm(s, n), n);
    var forgotten := cancelled.(readyFailed := cancelled.readyFailed - {n}, waiters := ForgetWaiter(cancelled.waiters, n));
    Waiting.FailDeadIsLocal(forgotten.(waiters := forgotten.waiters - {n}), WaitersOf(forgotten.waiters, n));
  }

  /** Asked to stop, a record that is on its way out under its own pid is still what the selector finds. */
  lemma StopRequestFinds(s: State, selector: Selector, ports: Ports, record: Record)
    requires NoDup(NamesOf(s.records)) && FindBy(s.records, selector) == Some(record)
    requires Find(s.records, record.runtime.name) == Some(record)
    requires record.runtime.status.Stopping? && record.runtime.pid.Some?
    ensures var (next, outcome) := RequestStop(s, record.runtime.name, ports);
            && (outcome.Some? ==> outcome.value.name == record.runtime.name)
            && FindBy(next.records, selector) == Some(record)
  {
    hide FindBy, Find, Put;
    StickyStop.FindByAfterPut(s.records, selector, record);
  }

  /** A stop asks the record it found, its schedule and requests cancelled. */
  lemma StopsIdle(s: State, selector: Selector, ports: Ports, n: Name)
    requires FindBy(s.records, selector).Some? && FindBy(s.records, selector).value.runtime.name == n
    ensures var record := FindBy(s.records, selector).value;
            var (asked, asking) := RequestStop(SetRecord(s, n, record.With(record.runtime.DisarmSchedule().CancelRestart())), n, ports);
            var (tried, outcome) := StopApp(s, selector, ports);
            tried.records == asked.records && (outcome.Some? ==> outcome == asking)
  {
    hide FindBy, Find, Put, RequestStop;
  }

  /** A stop that is refused has still found the service, on its way out under its own pid. */
  lemma RefusedStopFinds(s: State, selector: Selector, ports: Ports, n: Name)
    requires TableOk(s.records) && FindBy(s.records, selector).Some? && FindBy(s.records, selector).value.runtime.name == n
    requires Has(s.records, n)
    requires Find(s.records, n).value.runtime.status.Stopping? && Find(s.records, n).value.runtime.pid.Some?
    ensures var (tried, outcome) := StopApp(s, selector, ports);
            var found := FindBy(tried.records, selector);
            && (outcome.Some? ==> outcome.value.name == n)
            && found.Some? && found.value.runtime.name == n
            && found.value.runtime.status.Stopping? && found.value.runtime.pid.Some?
  {
    FindByIsFind(s.records, selector);
    assert NoDup(NamesOf(s.records));
    hide FindBy, Find, Put, TableOk, RequestStop, NoDup, NamesOf, StopApp;
    var record := FindBy(s.records, selector).value;
    var idle := record.With(record.runtime.DisarmSchedule().CancelRestart());
    StickyStop.FindByAfterPut(s.records, selector, idle);
    StopRequestFinds(SetRecord(s, n, idle), selector, ports, idle);
    StopsIdle(s, selector, ports, n);
  }

  lemma StopAnswers(s: State, selector: Selector, ports: Ports)
    requires !selector.All?
    ensures var (tried, outcome) := StopApp(s, selector, ports);
            var found := FindBy(tried.records, selector);
            Stop(s, selector, ports).0 ==
              if outcome.Some?
              then Retire(tried, outcome.value.name, outcome.value.forceKillPid, IdentityToken(tried, outcome.value.name))
              else if found.Some? && found.value.runtime.status.Stopping? && found.value.runtime.pid.Some?
              then Retire(tried, found.value.runtime.name, found.value.runtime.pid, found.value.runtime.Token())
              else CoverDraining(tried, selector)
  {
    hide StopApp, StopAll, Retire, FindBy, IdentityToken;
    var (tried, outcome) := StopApp(s, selector, ports);
    if outcome.Some? {
      assert Stop(s, selector, ports).0 == Retire(tried, outcome.value.name, outcome.value.forceKillPid, IdentityToken(tried, outcome.value.name));
    } else {
      assert Stop(s, selector, ports).0 == CoverDraining(tried, selector);
    }
  }

  /** Whether it succeeds or not, a stop of a service that failed its probe retires it. */
  lemma StopFrees(s: State, selector: Selector, ports: Ports, n: Name)
    requires TableOk(s.records) && !selector.All?
    requires FindBy(s.records, selector).Some? && FindBy(s.records, selector).value.runtime.name == n && Has(s.records, n)
    requires Find(s.records, n).value.runtime.status.Stopping? && Find(s.records, n).value.runtime.pid.Some?
    ensures n !in Stop(s, selector, ports).0.readyFailed
  {
    RefusedStopFinds(s, selector, ports, n);
    hide StopApp, StopAll, Retire, FindBy, Find, TableOk, IdentityToken;
    var (tried, outcome) := StopApp(s, selector, ports);
    StopAnswers(s, selector, ports);
    hide Stop;
    if outcome.Some? {
      RetireFrees(tried, n, outcome.value.forceKillPid, IdentityToken(tried, n));
    } else {
      var record := FindBy(tried.records, selector).value;
      RetireFrees(tried, n, record.runtime.pid, record.runtime.Token());
    }
  }

  lemma StopLeaves(s: State, selector: Selector, ports: Ports, n: Name, held: Held)
    requires Keeps(s, n, held) && TableOk(s.records)
    ensures Keeps(Stop(s, selector, ports).0, n, held)
  {
    hide StopAll, StopApp, Steady, TableOk, Find, Retire, CoverDraining;
    if selector.All? {
      StopAllLeaves(s, ports, n, held);
    } else if held.exact && n in s.readyFailed && FindBy(s.records, selector).Some?
              && FindBy(s.records, selector).value.runtime.name == n {
      FindByIsFind(s.records, selector);
      SteadyMeans(s.records, n, true, held);
      StopFrees(s, selector, ports, n);
      Loosened(s, n, held);
      StopOneLeaves(s, selector, ports, n, Loosely(held));
      Loosened(Stop(s, selector, ports).0, n, held);
    } else {
      StopOneLeaves(s, selector, ports, n, held);
    }
  }

  lemma DeleteOneLeaves(s: State, m: Name, ports: Ports, before: set<ExitWatch>, from: nat, n: Name, held: Held)
    requires Keeps(s, n, held) && Coherent(s, before, from, []) && Has(s.records, m)
    ensures Keeps(DeleteOne(s, m, ports).0, n, held)
  {
    hide RequestStop, Coherent, Find, Remove;
    StopKeeps(s, m, ports, before, from);
    StopRequestLeaves(s, m, ports, n, held);
    var (asked, outcome) := RequestStop(s, m, ports);
    SameNamesHave(s, asked);
    RemoveKeepsTable(asked.records, m);
    RestoreKeeps(asked, m, before, from);
    Gone(asked.records, m, n, n in asked.readyFailed, held);
  }

  lemma Gone(records: seq<Record>, m: Name, n: Name, failing: bool, held: Held)
    requires Steady(records, n, failing, held) && !Has(Remove(records, m), m)
    ensures Steady(Remove(records, m), n, failing, held)
  {
  }

  lemma DeleteStepLeaves(s: State, m: Name, ports: Ports, before: set<ExitWatch>, from: nat, n: Name, held: Held)
    requires Keeps(s, n, held) && Coherent(s, before, from, []) && Has(s.records, m)
    ensures Keeps(DeleteStep(s, m, ports), n, held)
  {
    DeleteOneLeaves(s, m, ports, before, from, n, held);
    hide DeleteOne, Retire, CoverDraining, Coherent, Steady;
    var (tried, outcome) := DeleteOne(s, m, ports);
    CoverLeaves(tried, ByName(m), n, held);
    if outcome.Some? {
      RetireLeaves(tried, outcome.value.name, outcome.value.forceKillPid, IdentityToken(s, m), n, held);
    }
  }

  lemma {:induction false} DeleteEachLeaves(s: State, order: seq<Name>, ports: Ports,
                                            before: set<ExitWatch>, from: nat, n: Name, held: Held)
    requires Coherent(s, before, from, []) && AllHave(s.records, order) && NoDup(order) && Keeps(s, n, held)
    ensures Keeps(DeleteEach(s, order, ports), n, held)
    decreases |order|
  {
    hide Coherent, DeleteStep, Steady;
    if order != [] {
      var m, rest := order[|order| - 1], order[..|order| - 1];
      assert m in order;
      DeleteStepKeeps(s, m, ports, before, from);
      DeleteStepLeaves(s, m, ports, before, from, n, held);
      var settled := DeleteStep(s, m, ports);
      forall x <- rest ensures Has(settled.records, x) {
        assert x in order && x != m;
      }
      DeleteEachLeaves(settled, rest, ports, before, from, n, held);
    }
  }

  lemma DeleteLeaves(s: State, selector: Selector, ports: Ports, before: set<ExitWatch>, from: nat, n: Name, held: Held)
    requires Coherent(s, before, from, []) && Keeps(s, n, held)
    ensures Keeps(Delete(s, selector, ports), n, held)
  {
    hide Steady, DeleteEach, DeleteOne, Retire, CoverDraining;
    if selector.All? {
      OrderNamesRecords(s.records);
      DeleteEachLeaves(s, DependencyOrder(s.records), ports, before, from, n, held);
    } else {
      var found := FindBy(s.records, selector);
      if found.Some? {
        FindByIsFind(s.records, selector);
        DeleteOneLeaves(s, found.value.runtime.name, ports, before, from, n, held);
      }
      var (tried, outcome) := DeleteApp(s, selector, ports);
      CoverLeaves(tried, selector, n, held);
      if outcome.Some? {
        RetireLeaves(tried, outcome.value.name, outcome.value.forceKillPid, TokenBy(s, selector), n, held);
      }
    }
  }

  // ----- restart and reset -----

  lemma RestartOneLeaves(s: State, selector: Selector, ports: Ports, n: Name, held: Held)
    requires Keeps(s, n, held)
    requires FindBy(s.records, selector).Some? ==> FindBy(s.records, selector).value.runtime.name != n
    ensures Keeps(RestartOne(s, selector, ports), n, held)
  {
    RestartAppLeaves(s, selector, ports, n, held);
    hide RestartApp, DispatchRestart, ArmTimerFor, Steady;
    var (tried, outcome) := RestartApp(s, selector, ports);
    if !outcome.Refused? {
      DispatchLeaves(tried, outcome);
      var (dispatched, name) := DispatchRestart(tried, outcome);
      ArmLeavesProbes(CancelQueuedRestart(dispatched, name), name, ports);
    }
  }

  lemma RestartCommandLeaves(s: State, selector: Selector, ports: Ports, n: Name, held: Held)
    requires Keeps(s, n, held) && TableOk(s.records) && !selector.All?
    requires FindBy(s.records, selector).Some? ==> FindBy(s.records, selector).value.runtime.name != n
    ensures Keeps(RestartCommand(s, selector, ports), n, held)
  {
    hide RestartOne, Prepare;
    var found := FindBy(s.records, selector);
    if found.Some? {
      var m := found.value.runtime.name;
      var prepared := Prepare(s, m, ports);
      if prepared.Some? {
        var updated := found.value.(spec := prepared.value);
        EditLeaves(s.records, m, updated, n, n in s.readyFailed, held);
        StickyStop.FindByAfterPut(s.records, selector, updated);
        hide Steady;
        RestartOneLeaves(SetRecord(Tick(s), m, updated), selector, ports, n, held);
      }
    }
  }

  lemma {:induction false} ResetEachLeaves(s: State, names: seq<Name>, n: Name, held: Held)
    requires Keeps(s, n, held)
    ensures Keeps(ResetEach(s, names), n, held)
    decreases |names|
  {
    if names != [] {
      ResetOneLeaves(s, names[0], n, held);
      hide ResetOne, Steady;
      ResetEachLeaves(ResetOne(s, names[0]), names[1..], n, held);
    }
  }

  lemma ResetOneLeaves(s: State, m: Name, n: Name, held: Held)
    requires Keeps(s, n, held)
    ensures Keeps(ResetOne(s, m), n, held)
  {
    if Has(s.records, m) {
      var record := Find(s.records, m).value;
      EditLeaves(s.records, m, record.With(record.runtime.ResetRestarts()), n, n in s.readyFailed, held);
    }
  }

  lemma ResetLeaves(s: State, selector: Selector, n: Name, held: Held)
    requires Keeps(s, n, held)
    ensures Keeps(Reset(s, selector), n, held)
  {
    hide ResetOne, Steady, ResetEach;
    if selector.All? {
      ResetEachLeaves(s, NamesOf(s.records), n, held);
    } else if FindBy(s.records, selector).Some? {
      ResetOneLeaves(s, FindBy(s.records, selector).value.runtime.name, n, held);
    }
  }

  // ----- runs -----

  lemma HandleLeaves(w: World, event: Event, ports: Ports, n: Name, held: Held)
    requires Inv(w) && Enabled(w, event) && !Asks(w.sup, event, n) && Keeps(w.sup, n, held)
    ensures Keeps(Handle(Begun(w), event, ports), n, held)
  {
    hide Steady, Start, Stop, StopAll, RestartCommand, Delete, Reset, OnExit, RestartNow, OnReady, OnReadyTimeout,
      OnMemorySample, OnLivenessSample;
    var s, before, from := Begun(w), w.outstanding, |w.sup.launched|;
    match event
    case StartServices(services) => StartLeaves(s, services, ports, before, from, n, held);
    case StopService(selector) => StopLeaves(s, selector, ports, n, held);
    case StopEverything => StopAllLeaves(s, ports, n, held);
    case RestartService(selector) => RestartCommandLeaves(s, selector, ports, n, held);
    case DeleteService(selector) => DeleteLeaves(s, selector, ports, before, from, n, held);
    case ResetService(selector) => ResetLeaves(s, selector, n, held);
    case Exited(watch, outcome) => OnExitLeaves(s, watch.name, watch.generation, outcome, ports, n, held);
    case RestartDue(name) =>
      if name in s.timers.restarts {
        RestartNowLeaves(s.(timers := s.timers.(restarts := s.timers.restarts - {name})), name, ports, n, held);
      }
    case FireDue(name, at) =>
      if s.timers.FireIsDue(name, at) {
        RestartNowLeaves(s, name, ports, n, held);
      }
    case BecameReady(name, generation) => OnReadyLeaves(s, name, generation, ports, n, held);
    case ReadyTimedOut(name, generation) => OnReadyTimeoutLeaves(s, name, generation, ports, n, held);
    case SampleMemory => SamplesLeave(s, 0, ports, n, held);
    case SampleLiveness(threshold) => SamplesLeave(s, threshold, ports, n, held);
    case Shutdown =>
  }

  lemma {:induction false} RunKeepsHeld(w: World, events: seq<Event>, ports: Ports, n: Name, held: Held)
    requires Inv(w) && EnabledRun(w, events, ports) && RunAsksNot(w, events, ports, n) && Keeps(w.sup, n, held)
    ensures Keeps(Run(w, events, ports).sup, n, held)
    decreases |events|
  {
    hide Keeps, Inv, Handle;
    if events != [] {
      HandleLeaves(w, events[0], ports, n, held);
      StepKeeps(w, events[0], ports);
      RunKeepsHeld(Step(w, events[0], ports), events[1..], ports, n, held);
    }
  }

  /** A run that asks for nothing leaves a service that is on its way out without a restart request. */
  lemma RunLeaves(w: World, events: seq<Event>, ports: Ports, n: Name)
    requires Inv(w) && EnabledRun(w, events, ports) && RunAsksNot(w, events, ports, n) && Unrequested(w.sup.records, n)
    ensures Unrequested(Run(w, events, ports).sup.records, n)
  {
    RunKeepsHeld(w, events, ports, n, Held(false, false, false));
    hide Run, EnabledRun, RunAsksNot, Inv;
  }

  // ----- what a leftover request does -----

  /** The exit is answered with a restart at once that the breaker does not count. */
  predicate RestartedByHand(record: Record, outcome: ExitOutcome, nowMs: nat) {
    var (left, action) := ClassifyExit(record, outcome, nowMs);
    action == RestartAfter(0) && left.runtime.restartTime == record.runtime.restartTime
  }

  predicate AskedByHand(runtime: Runtime) {
    runtime.pendingRestart && !runtime.supervisedRestart
  }

  lemma ByHandExactly(record: Record, outcome: ExitOutcome, nowMs: nat)
    requires record.runtime.restartTime < U32_MAX && !record.runtime.status.IsShuttingDown()
    ensures RestartedByHand(record, outcome, nowMs) <==> AskedByHand(record.runtime)
  {
  }

  /** The next life of a service: the settled record, launched. */
  lemma NextLife(s: State, n: Name, register: bool, ports: Ports)
    requires Has(s.records, n) && !Unsettled(s.records, n) && ports.spawn(s.tick).Some?
    requires !(register && Find(s.records, n).value.spec.IsScheduledTask())
    ensures var up, runtime := LaunchOne(s, n, register, ports).0, Find(s.records, n).value.runtime;
            && Has(up.records, n) && Find(up.records, n).value.runtime.status.IsRunning()
            && AskedByHand(Find(up.records, n).value.runtime) == AskedByHand(runtime)
            && Find(up.records, n).value.runtime.restartTime == runtime.restartTime
            && Find(up.records, n).value.AwaitsReady() == Find(s.records, n).value.spec.readyProbe.Some?
  {
    hide Find, Put;
  }

  lemma FailedProbeSettles(s: State, n: Name, generation: nat, outcome: ExitOutcome, ports: Ports)
    requires s.timers.IsCurrent(n, generation) && Has(s.records, n) && n in s.readyFailed
    ensures var next := OnExit(s, n, generation, outcome, ports);
            && Find(next.records, n) == Some(Find(s.records, n).value.With(Find(s.records, n).value.runtime.MarkExited(Errored)))
            && next.tick == s.tick + 1 && next.timers == s.timers && n !in next.readyFailed && next.launched == s.launched
  {
    hide WatchesIn;
  }

  /**
   * What a failed probe leaves behind, exactly: its exit settles the service as errored, and the exit of
   * the next life is restarted at once and uncounted, whatever its code, if a restart asked for by hand
   * was standing when the failed process left; otherwise no exit of that life is. The request outlives
   the launch, so a next life that fails its probe too leaves it behind again.
   */
  lemma LeftoverRequestIsExact(s: State, n: Name, generation: nat, outcome: ExitOutcome, register: bool, ports: Ports)
    requires s.timers.IsCurrent(n, generation) && Has(s.records, n) && n in s.readyFailed
    requires ports.spawn(s.tick + 1).Some? && !(register && Find(s.records, n).value.spec.IsScheduledTask())
    requires Find(s.records, n).value.runtime.restartTime < U32_MAX
    ensures var next := OnExit(s, n, generation, outcome, ports);
            var up := LaunchOne(next, n, register, ports).0;
            && Has(next.records, n) && Find(next.records, n).value.runtime.status.Errored?
            && next.timers.restarts == s.timers.restarts
            && Has(up.records, n) && Unsettled(up.records, n)
            && Find(up.records, n).value.AwaitsReady() == Find(s.records, n).value.spec.readyProbe.Some?
            && AskedByHand(Find(up.records, n).value.runtime) == AskedByHand(Find(s.records, n).value.runtime)
            && forall later, nowMs :: RestartedByHand(Find(up.records, n).value, later, nowMs)
                                      <==> AskedByHand(Find(s.records, n).value.runtime)
  {
    FailedProbeSettles(s, n, generation, outcome, ports);
    hide OnExit;
    var next := OnExit(s, n, generation, outcome, ports);
    NextLife(next, n, register, ports);
    hide LaunchOne;
    var up := Find(LaunchOne(next, n, register, ports).0.records, n).value;
    forall later, nowMs ensures RestartedByHand(up, later, nowMs) <==> AskedByHand(up.runtime) {
      ByHandExactly(up, later, nowMs);
    }
  }

  // ----- from the timeout to the exit -----

  /** What stands on `n` when its probe is given up on. */
  function HeldBy(runtime: Runtime): Held { Held(runtime.pendingRestart, runtime.supervisedRestart, true) }

  lemma StoppingHolds(records: seq<Record>, n: Name, runtime: Runtime)
    requires Has(records, n) && Find(records, n).value.runtime == runtime.MarkStopping() && runtime.pid.Some?
    ensures Steady(records, n, true, HeldBy(runtime))
  {
  }

  /** Giving up on a probe leaves the requests on the service as they are. */
  lemma TimeoutHolds(w: World, n: Name, generation: nat, ports: Ports)
    requires Inv(w) && AwaitsReadyAt(w.sup, n, generation)
    ensures Keeps(Step(w, ReadyTimedOut(n, generation), ports).sup, n, HeldBy(Find(w.sup.records, n).value.runtime))
  {
    KeepsPid(w, n);
    hide Handle, Inv, OnReadyTimeout, Find, WatchesIn, Steady, HeldBy;
    TimeoutStops(Begun(w), n, generation, ports);
    HandleReadiness(Begun(w), n, generation, ports);
    StoppingHolds(Handle(Begun(w), ReadyTimedOut(n, generation), ports).records, n, Find(w.sup.records, n).value.runtime);
  }

  lemma HeldMeans(s: State, n: Name, held: Held)
    requires Has(s.records, n) && n in s.readyFailed && held.exact && Keeps(s, n, held)
    ensures Find(s.records, n).value.runtime.pendingRestart == held.pending
    ensures Find(s.records, n).value.runtime.supervisedRestart == held.supervised
  {
  }

  /**
   * A service whose probe failed stays down: unless some event between the timeout and the exit asks
   * for it, its exit leaves it errored and queues no restart, and a restart request stands on it then
   * if and only if the same request stood on it when its probe was given up on.
   */
  lemma FailedProbeStaysDown(w: World, n: Name, generation: nat, events: seq<Event>, watch: ExitWatch,
                             outcome: ExitOutcome, ports: Ports)
    requires Inv(w) && AwaitsReadyAt(w.sup, n, generation)
    requires var failed := Step(w, ReadyTimedOut(n, generation), ports);
             EnabledRun(failed, events, ports) && RunAsksNot(failed, events, ports, n)
    requires var before := Run(Step(w, ReadyTimedOut(n, generation), ports), events, ports);
             && watch in before.outstanding && watch.name == n && before.sup.timers.IsCurrent(n, watch.generation)
             && n in before.sup.readyFailed && Has(before.sup.records, n)
    ensures var before := Run(Step(w, ReadyTimedOut(n, generation), ports), events, ports);
            var left := Step(before, Exited(watch, outcome), ports).sup;
            var stood := Find(w.sup.records, n).value.runtime;
            && Has(left.records, n) && Find(left.records, n).value.runtime.status.Errored?
            && Find(left.records, n).value.runtime.pendingRestart == stood.pendingRestart
            && Find(left.records, n).value.runtime.supervisedRestart == stood.supervisedRestart
            && left.timers.restarts == before.sup.timers.restarts
  {
    TimeoutHolds(w, n, generation, ports);
    StepKeeps(w, ReadyTimedOut(n, generation), ports);
    hide Handle, Inv, OnReadyTimeout, OnExit, Keeps, Find;
    var held := HeldBy(Find(w.sup.records, n).value.runtime);
    var failed := Step(w, ReadyTimedOut(n, generation), ports);
    RunKeepsHeld(failed, events, ports, n, held);
    var before := Run(failed, events, ports);
    FailedProbeSettles(Begun(before), n, watch.generation, outcome, ports);
    HandleExit(Begun(before), watch, outcome, ports);
    HeldMeans(before.sup, n, held);
  }

  lemma HandleReadiness(s: State, n: Name, generation: nat, ports: Ports)
    ensures Handle(s, ReadyTimedOut(n, generation), ports) == OnReadyTimeout(s, n, generation, ports)
  {
    hide OnReadyTimeout;
  }

  lemma HandleExit(s: State, watch: ExitWatch, outcome: ExitOutcome, ports: Ports)
    ensures Handle(s, Exited(watch, outcome), ports) == OnExit(s, watch.name, watch.generation, outcome, ports)
  {
    hide OnExit;
  }

  lemma HandleRestart(s: State, n: Name, ports: Ports)
    ensures Handle(s, RestartService(ByName(n)), ports) == RestartCommand(s, ByName(n), ports)
  {
    hide RestartCommand;
  }

  // ----- a run that leaves one -----

  /** A restart of a service that is being stopped is remembered on its record. */
  lemma RestartIsRemembered(s: State, n: Name, ports: Ports)
    requires Has(s.records, n) && Find(s.records, n).value.runtime.status.Stopping?
    requires Find(s.records, n).value.runtime.pid.Some? && !Find(s.records, n).value.runtime.supervisedRestart
    requires ports.prepare(s.tick, n).Some? && ports.terminate(s.tick + 1)
    ensures var next := RestartCommand(s, ByName(n), ports);
            && Has(next.records, n) && Find(next.records, n).value.runtime.status.Stopping?
            && AskedByHand(Find(next.records, n).value.runtime)
            && next.readyFailed == s.readyFailed && next.timers.generations == s.timers.generations
            && WatchesIn(next.effects) == WatchesIn(s.effects)
  {
    ReloadsThenRestarts(s, n, ports);
    var reloaded := SetRecord(Tick(s), n, Find(s.records, n).value.(spec := Prepare(s, n, ports).value));
    ReloadKeepsRuntime(s, n, Prepare(s, n, ports).value);
    hide SetRecord, RestartOne, RestartCommand, Prepare, Find, WatchesIn, AskedByHand;
    RestartOneRemembers(reloaded, n, ports);
  }

  lemma ReloadKeepsRuntime(s: State, n: Name, spec: Spec)
    requires Has(s.records, n)
    ensures var reloaded := SetRecord(Tick(s), n, Find(s.records, n).value.(spec := spec));
            && Has(reloaded.records, n) && Find(reloaded.records, n).value.runtime == Find(s.records, n).value.runtime
            && reloaded.tick == s.tick + 1 && reloaded.readyFailed == s.readyFailed && reloaded.timers == s.timers
            && reloaded.effects == s.effects
  {
    hide Find, Put;
  }

  lemma RestartOneRemembers(s: State, n: Name, ports: Ports)
    requires Has(s.records, n) && Find(s.records, n).value.runtime.status.Stopping?
    requires Find(s.records, n).value.runtime.pid.Some? && !Find(s.records, n).value.runtime.supervisedRestart
    requires ports.terminate(s.tick)
    ensures var next := RestartOne(s, ByName(n), ports);
            && Has(next.records, n) && Find(next.records, n).value.runtime.status.Stopping?
            && AskedByHand(Find(next.records, n).value.runtime)
            && next.readyFailed == s.readyFailed && next.timers.generations == s.timers.generations
            && WatchesIn(next.effects) == WatchesIn(s.effects)
  {
    hide RestartApp, RestartOne, Find, WatchesIn, AskedByHand;
    RestartAppRemembers(s, n, ports);
    RestartOneLeavesTable(s, n, ports);
  }

  /** After the restart itself, nothing of the table, the probes, the generations or the watches changes. */
  lemma RestartOneLeavesTable(s: State, n: Name, ports: Ports)
    ensures var (tried, outcome) := RestartApp(s, ByName(n), ports);
            outcome.AwaitingExit? ==>
              var next := RestartOne(s, ByName(n), ports);
              && next.records == tried.records && next.readyFailed == tried.readyFailed
              && next.timers.generations == tried.timers.generations
              && WatchesIn(next.effects) == WatchesIn(tried.effects)
  {
    hide RestartApp, ArmTimerFor, WatchesIn;
    var (tried, outcome) := RestartApp(s, ByName(n), ports);
    if outcome.AwaitingExit? {
      var (dispatched, name) := DispatchRestart(tried, outcome);
      DispatchIsAside(tried, outcome);
      hide DispatchRestart;
      ArmLeavesProbes(CancelQueuedRestart(dispatched, name), name, ports);
      ArmTimerIsAside(CancelQueuedRestart(dispatched, name), name, ports);
    }
  }

  lemma ReloadsThenRestarts(s: State, n: Name, ports: Ports)
    requires Has(s.records, n) && ports.prepare(s.tick, n).Some?
    ensures var reloaded := SetRecord(Tick(s), n, Find(s.records, n).value.(spec := Prepare(s, n, ports).value));
            RestartCommand(s, ByName(n), ports) == RestartOne(reloaded, ByName(n), ports)
  {
    hide RestartOne, FindBy, Put;
    StickyStop.FindByNameIsFind(s.records, n);
  }

  lemma DispatchIsAside(s: State, outcome: RestartOutcome)
    requires outcome.AwaitingExit?
    ensures var next := DispatchRestart(s, outcome).0;
            Aside(s, next) && next.readyFailed == s.readyFailed && next.timers == s.timers
  {
  }

  lemma ArmLeavesProbes(s: State, n: Name, ports: Ports)
    ensures ArmTimerFor(s, n, ports).readyFailed == s.readyFailed
  {
  }

  lemma RestartAppRemembers(s: State, n: Name, ports: Ports)
    requires Has(s.records, n) && Find(s.records, n).value.runtime.status.Stopping?
    requires Find(s.records, n).value.runtime.pid.Some? && !Find(s.records, n).value.runtime.supervisedRestart
    requires ports.terminate(s.tick)
    ensures var (next, outcome) := RestartApp(s, ByName(n), ports);
            && outcome.AwaitingExit? && outcome.stopped.name == n
            && Has(next.records, n) && Find(next.records, n).value.runtime.status.Stopping?
            && AskedByHand(Find(next.records, n).value.runtime)
            && next.readyFailed == s.readyFailed && next.timers == s.timers && next.effects == s.effects
  {
    StickyStop.FindByNameIsFind(s.records, n);
    hide Find, FindBy, Put, WatchesIn;
    var record := Find(s.records, n).value;
    var stopping := record.With(record.runtime.MarkStopping());
    var asked := RequestStop(s, n, ports).0;
    assert asked == SetRecord(Tick(s), n, stopping);
    assert Find(asked.records, n) == Some(stopping);
  }

  /** What giving up on a probe leaves: a stopping process with its failure noted. */
  lemma TimeoutStops(s: State, n: Name, generation: nat, ports: Ports)
    requires AwaitsReadyAt(s, n, generation) && Find(s.records, n).value.runtime.pid.Some?
    ensures var next := OnReadyTimeout(s, n, generation, ports);
            var runtime := Find(s.records, n).value.runtime;
            && Has(next.records, n) && Find(next.records, n).value.runtime == runtime.MarkStopping()
            && n in next.readyFailed && next.timers == s.timers && WatchesIn(next.effects) == WatchesIn(s.effects)
            && next.tick == s.tick + 2
  {
    hide FailDead, WatchesIn, ScheduleForceKillOf;
    var record := Find(s.records, n).value;
    var stopping := record.With(record.runtime.MarkStopping());
    var marked := Tick(SetRecord(s.(readyFailed := s.readyFailed + {n}), n, stopping));
    var asked := ScheduleForceKillOf(marked, n, record.runtime.pid, record.runtime.Token());
    KillIsQuiet(marked, n, record.runtime.pid, record.runtime.Token());
    var cut, dead := asked.(waiters := asked.waiters - {n}), WaitersOf(asked.waiters, n);
    StandsThroughFailures(cut, dead, n);
    StickyStop.FailDeadKeepsRest(cut, dead, n);
    StickyStop.FailDeadLaunchesNothing(cut, dead);
    assert OnReadyTimeout(s, n, generation, ports) == Tick(FailDead(cut, dead).0);
  }

  lemma KillIsQuiet(s: State, name: Name, pid: Option<nat>, token: Option<string>)
    ensures var next := ScheduleForceKillOf(s, name, pid, token);
            next == s.(effects := next.effects) && WatchesIn(next.effects) == WatchesIn(s.effects)
  {
  }

  lemma StandsThroughFailures(s: State, dead: seq<Name>, n: Name)
    requires Unsettled(s.records, n)
    ensures Find(FailDead(s, dead).0.records, n) == Find(s.records, n) && FailDead(s, dead).0.tick == s.tick
  {
    Waiting.FailDeadMarks(s, dead, n);
    Waiting.FailDeadIsLocal(s, dead);
    hide FailDead;
  }

  predicate OnItsWay(runtime: Runtime, asked: bool) {
    runtime.status.Stopping? && runtime.pid.Some? && !runtime.supervisedRestart && (asked ==> AskedByHand(runtime))
  }

  /** A process on its way out after a failed probe, its watch still current. */
  ghost predicate Leaving(w: World, n: Name, watch: ExitWatch, asked: bool) {
    && Inv(w) && Has(w.sup.records, n) && OnItsWay(Find(w.sup.records, n).value.runtime, asked)
    && n in w.sup.readyFailed
    && watch in w.outstanding && watch.name == n && w.sup.timers.IsCurrent(n, watch.generation)
  }

  /** A step that starts no watch leaves the outstanding ones, but for the one it answers. */
  lemma QuietStep(w: World, event: Event, ports: Ports)
    ensures var next := Step(w, event, ports);
            && next.sup == Handle(Begun(w), event, ports)
            && (WatchesIn(next.sup.effects) == [] ==> next.outstanding == w.outstanding - Answered(event))
  {
    hide Handle, WatchesIn;
  }

  lemma NoneYet(w: World)
    ensures WatchesIn(Begun(w).effects) == []
  {
  }

  lemma TimeoutStep(w: World, n: Name, generation: nat, watch: ExitWatch, ports: Ports)
    requires Inv(w) && AwaitsReadyAt(w.sup, n, generation) && !Find(w.sup.records, n).value.runtime.supervisedRestart
    requires watch in w.outstanding && watch.name == n && w.sup.timers.IsCurrent(n, watch.generation)
    ensures var next := Step(w, ReadyTimedOut(n, generation), ports);
            Leaving(next, n, watch, false) && next.sup.tick == w.sup.tick + 2
  {
    KeepsPid(w, n);
    NoneYet(w);
    hide Handle, Inv, OnReadyTimeout, Find, WatchesIn, Step;
    hide OnItsWay;
    TimeoutStops(Begun(w), n, generation, ports);
    HandleReadiness(Begun(w), n, generation, ports);
    StepKeeps(w, ReadyTimedOut(n, generation), ports);
    QuietStep(w, ReadyTimedOut(n, generation), ports);
    StopsOnItsWay(Find(w.sup.records, n).value.runtime);
  }

  lemma StopsOnItsWay(runtime: Runtime)
    requires runtime.pid.Some? && !runtime.supervisedRestart
    ensures OnItsWay(runtime.MarkStopping(), false)
  {
  }

  lemma RestartStep(w: World, n: Name, watch: ExitWatch, ports: Ports)
    requires Leaving(w, n, watch, false) && ports.prepare(w.sup.tick, n).Some? && ports.terminate(w.sup.tick + 1)
    ensures Leaving(Step(w, RestartService(ByName(n)), ports), n, watch, true)
  {
    KeepsPid(w, n);
    NoneYet(w);
    hide Handle, Inv, RestartCommand, Find, WatchesIn, Step;
    RestartIsRemembered(Begun(w), n, ports);
    HandleRestart(Begun(w), n, ports);
    StepKeeps(w, RestartService(ByName(n)), ports);
    QuietStep(w, RestartService(ByName(n)), ports);
    KeepsPid(Step(w, RestartService(ByName(n)), ports), n);
  }

  lemma KeepsPid(w: World, n: Name)
    requires Inv(w)
    ensures Unsettled(w.sup.records, n) ==> Find(w.sup.records, n).value.runtime.pid.Some?
  {
    InvMeans(w);
  }

  lemma ExitStep(w: World, n: Name, watch: ExitWatch, outcome: ExitOutcome, ports: Ports)
    requires Leaving(w, n, watch, true)
    ensures var last := Step(w, Exited(watch, outcome), ports);
            && Inv(last) && Has(last.sup.records, n) && Find(last.sup.records, n).value.runtime.status.Errored?
            && AskedByHand(Find(last.sup.records, n).value.runtime)
  {
    FailedProbeSettles(Begun(w), n, watch.generation, outcome, ports);
    HandleExit(Begun(w), watch, outcome, ports);
    StepKeeps(w, Exited(watch, outcome), ports);
    hide Handle, Inv, OnExit, Find, WatchesIn;
  }

  function LeavingEvents(n: Name, generation: nat, watch: ExitWatch, outcome: ExitOutcome): seq<Event> {
    [ReadyTimedOut(n, generation), RestartService(ByName(n)), Exited(watch, outcome)]
  }

  /**
   * Such a request can be left: in any sound world where a service awaits its probe, the timeout, a
   * restart by name while it is being stopped, and its exit leave it errored with the request standing.
   */
  lemma LeftoverIsReached(w: World, n: Name, generation: nat, watch: ExitWatch, outcome: ExitOutcome, ports: Ports)
    requires Inv(w) && AwaitsReadyAt(w.sup, n, generation) && !Find(w.sup.records, n).value.runtime.supervisedRestart
    requires watch in w.outstanding && watch.name == n && w.sup.timers.IsCurrent(n, watch.generation)
    requires ports.prepare(w.sup.tick + 2, n).Some? && ports.terminate(w.sup.tick + 3)
    ensures var events := LeavingEvents(n, generation, watch, outcome);
            var last := Run(w, events, ports);
            && EnabledRun(w, events, ports) && Inv(last)
            && Has(last.sup.records, n) && Find(last.sup.records, n).value.runtime.status.Errored?
            && AskedByHand(Find(last.sup.records, n).value.runtime)
  {
    TimeoutStep(w, n, generation, watch, ports);
    var failed := Step(w, ReadyTimedOut(n, generation), ports);
    RestartStep(failed, n, watch, ports);
    var asked := Step(failed, RestartService(ByName(n)), ports);
    ExitStep(asked, n, watch, outcome, ports);
    hide Step, Inv, Find;
    ThreeSteps(w, ReadyTimedOut(n, generation), RestartService(ByName(n)), Exited(watch, outcome), ports);
  }
}
