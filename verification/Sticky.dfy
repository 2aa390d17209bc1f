/**
 * A stop sticks: once a service is stopped, nothing but a start or a restart that names it spawns it
 * again, whatever stale events are still queued.
 */
module Sticky {
  import opened Graphs
  import opened Model
  import opened ProcessTable
  import opened Handlers
  import opened Coherence

  predicate DormantRuntime(runtime: Runtime) {
    && !runtime.status.IsRunning()
    && !runtime.pendingRestart
    && (runtime.status.Stopping? ==> runtime.pid.Some?)
  }

  predicate DormantRecord(records: seq<Record>, n: Name) {
    Has(records, n) ==>
      DormantRuntime(Find(records, n).value.runtime)
  }

  /** Nothing is queued for `n`, it waits for nobody, and its record is not running. */
  predicate Dormant(s: State, n: Name) {
    && n !in s.timers.restarts
    && n !in s.timers.fires
    && !StillWaiting(s.waiters, n)
    && DormantRecord(s.records, n)
  }

  predicate NoLaunchOf(launched: seq<Launch>, from: nat, n: Name) {
    forall i :: from <= i < |launched| ==> launched[i].name != n
  }

  /** `n` keeps its declaration and stays settled, or stays unsettled, unless it is deleted. */
  predicate SameStanding(records: seq<Record>, next: seq<Record>, n: Name) {
    Has(next, n) ==>
      && Has(records, n)
      && Find(next, n).value.spec == Find(records, n).value.spec
      && (Unsettled(next, n) <==> Unsettled(records, n))
  }

  predicate Untouched(s: State, next: State, n: Name) {
    && s.launched <= next.launched
    && NoLaunchOf(next.launched, |s.launched|, n)
    && next.timers.CurrentGeneration(n) == s.timers.CurrentGeneration(n)
    && (forall x <- WatchesIn(next.effects) :: x.name == n ==> x in WatchesIn(s.effects))
  }

  /** A step that leaves a dormant `n` dormant, launches it not, and starts no watch for it. */
  predicate Calm(s: State, next: State, n: Name) {
    Dormant(s, n) ==>
      Dormant(next, n) && Untouched(s, next, n) && SameStanding(s.records, next.records, n)
  }

  lemma CalmThen(s: State, mid: State, next: State, n: Name)
    requires Calm(s, mid, n) && Calm(mid, next, n)
    ensures Calm(s, next, n)
  {
    if Dormant(s, n) {
      forall i | |s.launched| <= i < |next.launched| ensures next.launched[i].name != n {
        if i < |mid.launched| {
          assert next.launched[i] == mid.launched[i];
        }
      }
    }
  }

  /** A step beside the table that queues nothing for `n`. */
  lemma AsideIsCalm(s: State, next: State, n: Name)
    requires Aside(s, next)
    requires n in next.timers.restarts ==> n in s.timers.restarts
    requires n in next.timers.fires ==> n in s.timers.fires
    requires StillWaiting(next.waiters, n) ==> StillWaiting(s.waiters, n)
    ensures Calm(s, next, n)
  {
  }

  lemma EditIsCalm(s: State, m: Name, updated: Record, n: Name)
    requires updated.runtime.name == m && m != n
    ensures Calm(s, SetRecord(s, m, updated), n)
  {
  }

  lemma ArmIsCalm(s: State, m: Name, ports: Ports, n: Name)
    requires m != n
    ensures Calm(s, ArmTimerFor(s, m, ports), n)
  {
    ArmTimerIsAside(s, m, ports);
    AsideIsCalm(s, ArmTimerFor(s, m, ports), n);
  }

  lemma WatchIsCalm(s: State, o: StartOutcome, n: Name)
    requires MustWatch(o) ==> o.name != n
    ensures Calm(s, Watch(s, o), n)
  {
    if MustWatch(o) && o.pid.Some? {
      var w := WatchEffect(s, o);
      WatchQueuesNothing(s, o);
    }
  }

  lemma WatchQueuesNothing(s: State, o: StartOutcome)
    ensures var next := Watch(s, o);
            next.timers.fires == s.timers.fires && next.timers.restarts == s.timers.restarts
  {
  }

  lemma LaunchIsCalm(s: State, m: Name, register: bool, ports: Ports, n: Name)
    requires m != n
    ensures Calm(s, LaunchOne(s, m, register, ports).0, n)
  {
    hide WatchesIn, StillWaiting, DormantRecord, SameStanding, Find, Put;
    LaunchTouchesOnly(s, m, register, ports, n);
    var next := LaunchOne(s, m, register, ports).0;
    assert forall i :: |s.launched| <= i < |next.launched| ==> next.launched[i].name == m;
    FoundAlikeStands(s.records, next.records, n);
  }

  lemma LaunchTouchesOnly(s: State, m: Name, register: bool, ports: Ports, n: Name)
    requires m != n
    ensures Find(LaunchOne(s, m, register, ports).0.records, n) == Find(s.records, n)
  {
    hide Find, Put;
  }

  lemma FoundAlikeStands(records: seq<Record>, next: seq<Record>, n: Name)
    requires Find(next, n) == Find(records, n)
    ensures DormantRecord(records, n) ==> DormantRecord(next, n)
    ensures SameStanding(records, next, n)
  {
  }

  /** Editing `n` itself is calm too, when it stays dormant under the same declaration. */
  lemma StandingEditIsCalm(s: State, m: Name, updated: Record, n: Name)
    requires Has(s.records, m) && updated.runtime.name == m
    requires m == n && DormantRecord(s.records, n) ==>
               && updated.spec == Find(s.records, n).value.spec
               && DormantRuntime(updated.runtime)
               && (updated.runtime.status.IsSettled() <==> !Unsettled(s.records, n))
    ensures Calm(s, SetRecord(s, m, updated), n)
  {
    hide WatchesIn, StillWaiting;
  }

  /** The record a stop request leaves. */
  function AskedToStop(runtime: Runtime): Runtime {
    if runtime.LivePid().None? then runtime.MarkExited(Stopped) else runtime.MarkStopping()
  }

  lemma RequestStopEdits(s: State, m: Name, ports: Ports)
    requires Has(s.records, m)
    ensures var (next, outcome) := RequestStop(s, m, ports);
            var record := Find(s.records, m).value;
            && (outcome.None? ==> next == Tick(s))
            && (outcome.Some? ==> next == SetRecord(s.(tick := next.tick), m, record.With(AskedToStop(record.runtime))))
            && (outcome.Some? ==> outcome.value.name == m)
  {
  }

  lemma RequestStopIsCalm(s: State, m: Name, ports: Ports, n: Name)
    ensures Calm(s, RequestStop(s, m, ports).0, n)
  {
    AsideIsCalm(s, s, n);
    hide Calm, Find, Put;
    if Has(s.records, m) {
      RequestStopEdits(s, m, ports);
      var (next, outcome) := RequestStop(s, m, ports);
      var ticked := s.(tick := next.tick);
      AsideIsCalm(s, ticked, n);
      if outcome.Some? {
        var record := Find(s.records, m).value;
        StandingEditIsCalm(ticked, m, record.With(AskedToStop(record.runtime)), n);
        CalmThen(s, ticked, next, n);
      }
    }
  }

  lemma RestartAppIsCalm(s: State, selector: Selector, ports: Ports, n: Name)
    requires FindBy(s.records, selector).Some? ==> FindBy(s.records, selector).value.runtime.name != n
    ensures var (next, outcome) := RestartApp(s, selector, ports);
            && Calm(s, next, n)
            && (outcome.Started? ==> outcome.started.name != n)
            && (outcome.AwaitingExit? ==> outcome.stopped.name != n)
  {
    AsideIsCalm(s, s, n);
    hide Calm, LaunchOne, RequestStop, RequestRestartOf, FindBy;
    var found := FindBy(s.records, selector);
    if found.Some? {
      var m := found.value.runtime.name;
      if found.value.runtime.status.IsSettled() {
        LaunchIsCalm(s, m, false, ports, n);
        LaunchedName(s, m, false, ports);
        var (launched, outcome) := LaunchOne(s, m, false, ports);
        AsideIsCalm(launched, Tick(launched), n);
        CalmThen(s, launched, Tick(launched), n);
      } else {
        RequestStopIsCalm(s, m, ports, n);
        var (asked, outcome) := RequestStop(s, m, ports);
        StoppedName(s, m, ports);
        if outcome.Some? {
          RequestIsCalm(asked, m, n);
          CalmThen(s, asked, RequestRestartOf(asked, m), n);
          AsideIsCalm(RequestRestartOf(asked, m), Tick(RequestRestartOf(asked, m)), n);
          CalmThen(s, RequestRestartOf(asked, m), Tick(RequestRestartOf(asked, m)), n);
        }
      }
    }
  }

  lemma StoppedName(s: State, m: Name, ports: Ports)
    ensures RequestStop(s, m, ports).1.Some? ==> RequestStop(s, m, ports).1.value.name == m
  {
    hide Find, Put;
  }

  lemma RequestIsCalm(s: State, m: Name, n: Name)
    requires m != n
    ensures Calm(s, RequestRestartOf(s, m), n)
  {
    if Has(s.records, m) {
      var record := Find(s.records, m).value;
      EditIsCalm(s, m, record.With(record.runtime.RequestRestart()), n);
    }
  }

  lemma DispatchIsCalm(s: State, outcome: RestartOutcome, n: Name)
    requires !outcome.Refused?
    requires outcome.Started? ==> outcome.started.name != n
    requires outcome.AwaitingExit? ==> outcome.stopped.name != n
    ensures Calm(s, DispatchRestart(s, outcome).0, n) && DispatchRestart(s, outcome).1 != n
  {
    match outcome
    case Started(started) => WatchIsCalm(s, started, n);
    case AwaitingExit(stopped) => AsideIsCalm(s, DispatchRestart(s, outcome).0, n);
  }

  lemma CancelIsCalm(s: State, m: Name, n: Name)
    ensures Calm(s, CancelQueuedRestart(s, m), n) && Calm(s, Disarm(s, m), n)
  {
    AsideIsCalm(s, CancelQueuedRestart(s, m), n);
    AsideIsCalm(s, Disarm(s, m), n);
  }

  lemma RestartNowIsCalm(s: State, m: Name, ports: Ports, n: Name)
    requires m != n
    ensures Calm(s, RestartNow(s, m, ports), n)
  {
    var cancelled := CancelQueuedRestart(s, m);
    CancelIsCalm(s, m, n);
    RestartAppIsCalm(cancelled, ByName(m), ports, n);
    var (tried, outcome) := RestartApp(cancelled, ByName(m), ports);
    CalmThen(s, cancelled, tried, n);
    hide Calm, RestartApp, ArmTimerFor;
    if outcome.Refused? {
      ArmIsCalm(tried, m, ports, n);
      CalmThen(s, tried, ArmTimerFor(tried, m, ports), n);
    } else {
      DispatchIsCalm(tried, outcome, n);
      var (dispatched, restarted) := DispatchRestart(tried, outcome);
      CalmThen(s, tried, dispatched, n);
      ArmIsCalm(dispatched, restarted, ports, n);
      CalmThen(s, dispatched, ArmTimerFor(dispatched, restarted, ports), n);
    }
  }

  // ----- readiness -----

  lemma ForgetIsQuiet(waiters: Graph, m: Name, n: Name)
    requires !StillWaiting(waiters, n)
    ensures !StillWaiting(ForgetWaiter(waiters, m), n) && !StillWaiting(waiters - {m}, n)
    ensures n !in WaitersOf(waiters, m)
  {
  }

  lemma ErrorIsCalm(s: State, m: Name, n: Name)
    requires m != n
    ensures Calm(s, MarkErroredIfSettled(s, m), n)
  {
    hide WatchesIn, StillWaiting;
  }

  lemma {:induction false} FailDeadIsCalm(s: State, dead: seq<Name>, n: Name)
    requires n !in dead
    ensures Calm(s, FailDead(s, dead).0, n)
    decreases |s.waiters|, |dead|
  {
    if dead != [] && Dormant(s, n) {
      var doomed := dead[|dead| - 1];
      assert doomed in dead;
      var left := dead[..|dead| - 1];
      var forgotten := ForgetWaiter(s.waiters, doomed);
      var trimmed := s.(waiters := forgotten);
      ForgetIsQuiet(s.waiters, doomed, n);
      ForgetIsQuiet(forgotten, doomed, n);
      AsideIsCalm(s, trimmed, n);
      ErrorIsCalm(trimmed, doomed, n);
      var marked := MarkErroredIfSettled(trimmed, doomed);
      CalmThen(s, trimmed, marked, n);
      ForgetShrinks(s.waiters, doomed);
      ForgetShrinks(forgotten, doomed);
      var next := marked.(waiters := forgotten - {doomed});
      AsideIsCalm(marked, next, n);
      CalmThen(s, marked, next, n);
      FailDeadIsCalm(next, left + WaitersOf(forgotten, doomed), n);
      CalmThen(s, next, FailDead(s, dead).0, n);
    }
  }

  lemma FailIsCalm(s: State, m: Name, n: Name)
    ensures Calm(s, FailDownstream(s, m).0, n)
  {
    if Dormant(s, n) {
      ForgetIsQuiet(s.waiters, m, n);
      var taken := s.(waiters := s.waiters - {m});
      AsideIsCalm(s, taken, n);
      FailDeadIsCalm(taken, WaitersOf(s.waiters, m), n);
      CalmThen(s, taken, FailDownstream(s, m).0, n);
    }
  }

  lemma CancelReadyIsCalm(s: State, m: Name, n: Name)
    ensures Calm(s, CancelReadyOf(s, m), n)
  {
    if Dormant(s, n) {
      ForgetIsQuiet(s.waiters, m, n);
      var forgotten := s.(readyFailed := s.readyFailed - {m}, waiters := ForgetWaiter(s.waiters, m));
      AsideIsCalm(s, forgotten, n);
      FailIsCalm(forgotten, m, n);
      var failed := FailDownstream(forgotten, m).0;
      CalmThen(s, forgotten, failed, n);
      AsideIsCalm(failed, CancelReadyOf(s, m), n);
      CalmThen(s, failed, CancelReadyOf(s, m), n);
    }
  }

  lemma LaunchedName(s: State, m: Name, register: bool, ports: Ports)
    ensures var (next, outcome) := LaunchOne(s, m, register, ports);
            outcome.Some? ==> outcome.value.name == m
  {
  }

  lemma LaunchWaiterIsCalm(s: State, m: Name, ports: Ports, n: Name)
    requires m != n
    ensures Calm(s, LaunchWaiter(s, m, ports).0, n)
  {
    LaunchIsCalm(s, m, true, ports, n);
    LaunchedName(s, m, true, ports);
    var (tried, outcome) := LaunchOne(s, m, true, ports);
    if outcome.None? {
      ErrorIsCalm(tried, m, n);
      var marked := MarkErroredIfSettled(tried, m);
      CalmThen(s, tried, marked, n);
      FailIsCalm(marked, m, n);
      var failed := FailDownstream(marked, m).0;
      CalmThen(s, marked, failed, n);
      AsideIsCalm(failed, Tick(failed), n);
      CalmThen(s, failed, Tick(failed), n);
    } else {
      WatchIsCalm(tried, outcome.value, n);
      var watched := Watch(tried, outcome.value);
      CalmThen(s, tried, watched, n);
      ArmIsCalm(watched, m, ports, n);
      var armed := ArmTimerFor(watched, m, ports);
      CalmThen(s, watched, armed, n);
      AsideIsCalm(armed, Tick(armed), n);
      CalmThen(s, armed, Tick(armed), n);
    }
  }

  lemma {:induction false} LaunchListIsCalm(s: State, list: seq<Name>, queue: seq<Name>, ports: Ports, n: Name)
    requires n !in list
    ensures Calm(s, LaunchList(s, list, queue, ports).0, n)
    decreases |list|
  {
    if list != [] {
      if StillWaiting(s.waiters, list[0]) {
        LaunchListIsCalm(s, list[1..], queue, ports, n);
      } else {
        LaunchWaiterIsCalm(s, list[0], ports, n);
        var (next, released) := LaunchWaiter(s, list[0], ports);
        var longer := if released then queue + [list[0]] else queue;
        LaunchListIsCalm(next, list[1..], longer, ports, n);
        CalmThen(s, next, LaunchList(next, list[1..], longer, ports).0, n);
      }
    }
  }

  lemma {:induction false} LaunchQueueIsCalm(s: State, queue: seq<Name>, ports: Ports, n: Name)
    ensures Calm(s, LaunchQueue(s, queue, ports), n)
    decreases |s.waiters|, |queue|
  {
    if queue != [] && Dormant(s, n) {
      var ready := queue[|queue| - 1];
      var left := queue[..|queue| - 1];
      if ready !in s.waiters {
        LaunchQueueIsCalm(s, left, ports, n);
      } else {
        ForgetIsQuiet(s.waiters, ready, n);
        var taken := s.(waiters := s.waiters - {ready});
        AsideIsCalm(s, taken, n);
        ForgetShrinks(s.waiters, ready);
        LaunchListShrinks(taken, s.waiters[ready], left, ports);
        LaunchListIsCalm(taken, s.waiters[ready], left, ports, n);
        var (next, longer) := LaunchList(taken, s.waiters[ready], left, ports);
        CalmThen(s, taken, next, n);
        LaunchQueueIsCalm(next, longer, ports, n);
        CalmThen(s, next, LaunchQueue(next, longer, ports), n);
      }
    }
  }

  lemma OnReadyIsCalm(s: State, m: Name, generation: nat, ports: Ports, n: Name)
    ensures Calm(s, OnReady(s, m, generation, ports), n)
  {
    if Dormant(s, n) && AwaitsReadyAt(s, m, generation) {
      assert m != n;
      var record := Find(s.records, m).value;
      var updated := record.With(record.runtime.MarkOnline());
      EditIsCalm(s, m, updated, n);
      var online := SetRecord(s, m, updated);
      AsideIsCalm(online, Tick(online), n);
      CalmThen(s, online, Tick(online), n);
      LaunchQueueIsCalm(Tick(online), [m], ports, n);
      CalmThen(s, Tick(online), LaunchQueue(Tick(online), [m], ports), n);
    }
  }

  lemma OnReadyTimeoutIsCalm(s: State, m: Name, generation: nat, ports: Ports, n: Name)
    ensures Calm(s, OnReadyTimeout(s, m, generation, ports), n)
  {
    if Dormant(s, n) && AwaitsReadyAt(s, m, generation) {
      assert m != n;
      var record := Find(s.records, m).value;
      var marked := s.(readyFailed := s.readyFailed + {m});
      AsideIsCalm(s, marked, n);
      var updated := record.With(record.runtime.MarkStopping());
      EditIsCalm(marked, m, updated, n);
      var stopping := SetRecord(marked, m, updated);
      CalmThen(s, marked, stopping, n);
      if record.runtime.pid.Some? {
        var asked := ScheduleForceKillOf(Tick(stopping), m, record.runtime.pid, record.runtime.Token());
        AsideIsCalm(stopping, asked, n);
        CalmThen(s, stopping, asked, n);
        FailIsCalm(asked, m, n);
        var failed := FailDownstream(asked, m).0;
        CalmThen(s, asked, failed, n);
        AsideIsCalm(failed, Tick(failed), n);
        CalmThen(s, failed, Tick(failed), n);
      }
    }
  }

  // ----- exits of others, restarts, fires, samples -----

  lemma OnExitOfOtherIsCalm(s: State, m: Name, generation: nat, outcome: ExitOutcome, ports: Ports, n: Name)
    requires m != n
    ensures Calm(s, OnExit(s, m, generation, outcome, ports), n)
  {
    if s.timers.IsCurrent(m, generation) {
      var cancelled := Emit(s, CancelForceKill(m));
      AsideIsCalm(s, cancelled, n);
      if Has(s.records, m) {
        var record := Find(s.records, m).value;
        if m in s.readyFailed {
          var taken := cancelled.(readyFailed := s.readyFailed - {m});
          AsideIsCalm(cancelled, taken, n);
          CalmThen(s, cancelled, taken, n);
          SavedEditIsCalm(taken, m, record.With(record.runtime.MarkExited(Errored)), n);
          CalmThen(s, taken, OnExit(s, m, generation, outcome, ports), n);
        } else {
          ClassifyIsHonest(record, outcome, ports.now(s.tick));
          var (settled, action) := ClassifyExit(record, outcome, ports.now(s.tick));
          SavedEditIsCalm(cancelled, m, settled, n);
          var saved := Tick(SetRecord(cancelled, m, settled));
          CalmThen(s, cancelled, saved, n);
          AfterExitIsCalm(saved, m, action, n);
          CalmThen(s, saved, OnExit(s, m, generation, outcome, ports), n);
        }
      }
    }
  }

  lemma SavedEditIsCalm(s: State, m: Name, updated: Record, n: Name)
    requires updated.runtime.name == m && m != n
    ensures Calm(s, Tick(SetRecord(s, m, updated)), n)
  {
    EditIsCalm(s, m, updated, n);
    AsideIsCalm(SetRecord(s, m, updated), Tick(SetRecord(s, m, updated)), n);
    CalmThen(s, SetRecord(s, m, updated), Tick(SetRecord(s, m, updated)), n);
  }

  lemma AfterExitIsCalm(saved: State, m: Name, action: ExitAction, n: Name)
    requires m != n
    ensures var next := match action
              case RestartAfter(delayMs) => QueueRestart(saved, m, delayMs)
              case Settled(_) => FailDownstream(saved, m).0;
            Calm(saved, next, n)
  {
    match action
    case RestartAfter(delayMs) => AsideIsCalm(saved, QueueRestart(saved, m, delayMs), n);
    case Settled(_) => FailIsCalm(saved, m, n);
  }

  lemma HandIsCalm(s: State, m: Name, n: Name)
    requires m != n
    ensures Calm(s, HandToTheBreaker(s, m), n)
  {
    hide WatchesIn, StillWaiting;
  }

  lemma {:induction false} KillBreachesIsCalm(s: State, names: seq<Name>, ports: Ports, n: Name)
    requires n !in names
    ensures Calm(s, KillBreaches(s, names, ports), n)
    decreases |names|
  {
    if names != [] {
      RestartNowIsCalm(s, names[0], ports, n);
      var restarted := RestartNow(s, names[0], ports);
      HandIsCalm(restarted, names[0], n);
      var handed := HandToTheBreaker(restarted, names[0]);
      CalmThen(s, restarted, handed, n);
      KillBreachesIsCalm(handed, names[1..], ports, n);
      CalmThen(s, handed, KillBreaches(handed, names[1..], ports), n);
    }
  }

  lemma DormantIsNotRunning(records: seq<Record>, n: Name)
    requires TableOk(records) && DormantRecord(records, n)
    ensures forall r <- records :: r.runtime.name == n ==> !r.runtime.status.IsRunning()
  {
    forall r <- records | r.runtime.name == n ensures !r.runtime.status.IsRunning() {
      FindIsUnique(records, r);
    }
  }

  lemma OnMemoryIsCalm(s: State, ports: Ports, n: Name)
    requires TableOk(s.records)
    ensures Calm(s, OnMemorySample(s, ports), n)
  {
    if Dormant(s, n) {
      DormantIsNotRunning(s.records, n);
      var asked := Tick(Emit(s, ScheduleMemorySample));
      AsideIsCalm(s, asked, n);
      var names := BreachesOf(s.records, ports.residentMemory(s.tick));
      KillBreachesIsCalm(asked, names, ports, n);
      CalmThen(s, asked, KillBreaches(asked, names, ports), n);
    }
  }

  lemma CheckStepIsCalm(s: State, m: Name, threshold: nat, ports: Ports, n: Name)
    requires m != n
    ensures Calm(s, CheckStep(s, m, threshold, ports), n)
  {
    AsideIsCalm(s, s, n);
    hide Calm, RestartNow, Find, Put, HandToTheBreaker;
    if Has(s.records, m) {
      CheckCases(s, m, threshold, ports);
      var record := Find(s.records, m).value;
      AsideIsCalm(s, Tick(s), n);
      EditIsCalm(Tick(s), m, record.With(record.runtime.PassLiveness()), n);
      EditIsCalm(Tick(s), m, record.With(record.runtime.FailLiveness()), n);
      CalmThen(s, Tick(s), Passed(s, m), n);
      var noted := Noted(s, m);
      CalmThen(s, Tick(s), noted, n);
      hide Passed, Noted, CheckStep;
      RestartNowIsCalm(noted, m, ports, n);
      var restarted := RestartNow(noted, m, ports);
      CalmThen(s, noted, restarted, n);
      HandIsCalm(restarted, m, n);
      CalmThen(s, restarted, HandToTheBreaker(restarted, m), n);
    }
  }

  lemma {:induction false} CheckLivenessIsCalm(s: State, names: seq<Name>, threshold: nat, ports: Ports, n: Name)
    requires n !in names
    ensures Calm(s, CheckLiveness(s, names, threshold, ports), n)
    decreases |names|
  {
    AsideIsCalm(s, s, n);
    hide Calm, CheckStep;
    if names != [] {
      var checked := CheckStep(s, names[0], threshold, ports);
      CheckStepIsCalm(s, names[0], threshold, ports, n);
      CheckLivenessIsCalm(checked, names[1..], threshold, ports, n);
      CalmThen(s, checked, CheckLiveness(checked, names[1..], threshold, ports), n);
    }
  }

  lemma OnLivenessIsCalm(s: State, threshold: nat, ports: Ports, n: Name)
    requires TableOk(s.records)
    ensures Calm(s, OnLivenessSample(s, threshold, ports), n)
  {
    if Dormant(s, n) {
      DormantIsNotRunning(s.records, n);
      var asked := Emit(s, ScheduleLivenessSample);
      AsideIsCalm(s, asked, n);
      var names := LivenessWatchList(s.records);
      CheckLivenessIsCalm(asked, names, threshold, ports, n);
      var checked := CheckLiveness(asked, names, threshold, ports);
      CalmThen(s, asked, checked, n);
      var settled := checked.(records := SettleStability(checked.records, ports.now(checked.tick)));
      assert Calm(checked, settled, n);
      CalmThen(s, checked, settled, n);
      AsideIsCalm(settled, Tick(settled), n);
      CalmThen(s, settled, Tick(settled), n);
    }
  }
}
