/**
 * The supervisor as the object the source mutates: usecases/src/supervisor.rs, supervisor_ready.rs,
 * supervisor_handlers.rs and supervisor_liveness.rs, with the operations those files call on its table
 * (start.rs, stop.rs, restart.rs, delete.rs, supervise.rs, reset.rs and query.rs). Every method is
 * proved to compute the function of the same name in Handlers, about which the whole-run results are.
 */
module Supervision {
  import opened Graphs
  import opened Model
  import opened ProcessTable
  import opened Handlers
  import opened Tables
  import opened TimerBook
  import Breaker = Restart
  import P = Promises
  import Batches
  import BatchGraph
  import Coherence
  import CommandCoherence
  import Releases
  import Replies
  import Samples

  // ----- one turn of each loop -----

  lemma WatchAllTurn(s: State, os: seq<StartOutcome>, i: nat)
    requires i < |os|
    ensures WatchAll(s, os[i..]) == WatchAll(Watch(s, os[i]), os[i + 1..])
  {
    assert os[i..][1..] == os[i + 1..];
  }

  lemma SettleTurn(s: State, os: seq<StartOutcome>, i: nat, ports: Ports)
    requires i < |os|
    ensures var cancelled := CancelQueuedRestart(s, os[i].name);
            SettleStarted(s, os[i..], ports) ==
            SettleStarted(if os[i].kind.Deferred? then cancelled else ArmTimerFor(cancelled, os[i].name, ports), os[i + 1..], ports)
  {
    assert os[i..][1..] == os[i + 1..];
  }

  lemma WaitsTurn(waiters: Graph, name: Name, on: seq<Name>, i: nat)
    requires i < |on|
    ensures AddWaits(waiters, name, on[i..]) == AddWaits(AddWaiter(waiters, on[i], name), name, on[i + 1..])
  {
    assert on[i..][1..] == on[i + 1..];
  }

  lemma PendingTurn(waiters: Graph, pending: seq<DeferredStart>, i: nat)
    requires i < |pending|
    ensures AddPending(waiters, pending[i..]) ==
            AddPending(AddWaits(waiters, pending[i].name, pending[i].waitingOn), pending[i + 1..])
  {
    assert pending[i..][1..] == pending[i + 1..];
  }

  lemma ListTurn(s: State, list: seq<Name>, i: nat, queue: seq<Name>, ports: Ports)
    requires i < |list|
    ensures LaunchList(s, list[i..], queue, ports) ==
              if StillWaiting(s.waiters, list[i]) then LaunchList(s, list[i + 1..], queue, ports)
              else
                var (next, released) := LaunchWaiter(s, list[i], ports);
                LaunchList(next, list[i + 1..], if released then queue + [list[i]] else queue, ports)
  {
    hide LaunchWaiter, StillWaiting;
    assert list[i..][1..] == list[i + 1..];
  }

  lemma QueueTurn(s: State, queue: seq<Name>, ports: Ports)
    requires queue != []
    ensures var ready, left := queue[|queue| - 1], queue[..|queue| - 1];
            LaunchQueue(s, queue, ports) ==
              if ready !in s.waiters then LaunchQueue(s, left, ports)
              else
                var (next, longer) := LaunchList(s.(waiters := s.waiters - {ready}), s.waiters[ready], left, ports);
                LaunchQueue(next, longer, ports)
    ensures queue[|queue| - 1] in s.waiters ==>
              |LaunchList(s.(waiters := s.waiters - {queue[|queue| - 1]}), s.waiters[queue[|queue| - 1]], queue[..|queue| - 1], ports).0.waiters|
              < |s.waiters|
  {
    hide LaunchList;
    var ready, left := queue[|queue| - 1], queue[..|queue| - 1];
    if ready in s.waiters {
      ForgetShrinks(s.waiters, ready);
      LaunchListShrinks(s.(waiters := s.waiters - {ready}), s.waiters[ready], left, ports);
    }
  }

  lemma DeadTurn(s: State, dead: seq<Name>)
    requires dead != []
    ensures var (next, left) := DeadStep(s, dead);
            var (last, failed) := FailDead(next, left);
            && FailDead(s, dead) == (last, [dead[|dead| - 1]] + failed)
            && |next.waiters| <= |s.waiters|
            && (|next.waiters| == |s.waiters| ==> |left| < |dead|)
  {
    hide DeadStep;
    DeadStepShrinks(s, dead);
  }

  lemma BreachTurn(s: State, names: seq<Name>, i: nat, ports: Ports)
    requires i < |names|
    ensures KillBreaches(s, names[i..], ports) ==
            KillBreaches(HandToTheBreaker(RestartNow(s, names[i], ports), names[i]), names[i + 1..], ports)
  {
    assert names[i..][1..] == names[i + 1..];
  }

  lemma ResetTurn(s: State, names: seq<Name>, i: nat)
    requires i < |names|
    ensures ResetEach(s, names[i..]) == ResetEach(ResetOne(s, names[i]), names[i + 1..])
  {
    assert names[i..][1..] == names[i + 1..];
  }

  lemma CancelTurn(s: State, names: seq<Name>, i: nat)
    requires i < |names|
    ensures CancelAll(s, names[i..]) == CancelAll(CancelReadyOf(s, names[i]), names[i + 1..])
  {
    assert names[i..][1..] == names[i + 1..];
  }

  lemma StoppedTurn(s: State, stopped: seq<StopOutcome>, i: nat)
    requires i < |stopped|
    ensures ForceKillStopped(s, stopped[i..]) ==
            ForceKillStopped(ScheduleForceKillOf(s, stopped[i].name, stopped[i].forceKillPid, IdentityToken(s, stopped[i].name)),
                             stopped[i + 1..])
  {
    assert stopped[i..][1..] == stopped[i + 1..];
  }

  lemma UnsweptTurn(s: State, tracked: seq<nat>, i: nat, stopped: seq<StopOutcome>)
    requires i < |tracked|
    ensures var (name, token) := OwnerOf(s.records, tracked[i]);
            ForceKillUnswept(s, tracked[i..], stopped) ==
              if Covered(stopped, tracked[i]) then ForceKillUnswept(s, tracked[i + 1..], stopped)
              else ForceKillUnswept(ScheduleForceKillOf(s, name, Some(tracked[i]), token), tracked[i + 1..], stopped)
  {
    hide OwnerOf, Covered;
    assert tracked[i..][1..] == tracked[i + 1..];
  }

  lemma ForgetTurn(records: seq<Record>, previous: seq<Prior>, i: nat, outcomes: seq<StartOutcome>, nowMs: nat)
    requires i < |previous|
    ensures var prior := previous[i];
            ForgetUnlaunched(records, previous[i..], outcomes, nowMs) ==
            ForgetUnlaunched(if Outcome(outcomes, prior.name) then records
                             else if prior.spec.Some? then Upsert(records, prior.spec.value, nowMs)
                             else Remove(records, prior.name), previous[i + 1..], outcomes, nowMs)
  {
    hide Upsert, Remove, Outcome;
    assert previous[i..][1..] == previous[i + 1..];
  }

  lemma UpsertTurn(records: seq<Record>, specs: seq<Spec>, i: nat, nowMs: nat)
    requires i < |specs|
    ensures var (after, previous) := UpsertAll(Upsert(records, specs[i], nowMs), specs[i + 1..], nowMs);
            UpsertAll(records, specs[i..], nowMs) == (after, [PriorOf(records, specs[i].name)] + previous)
  {
    hide Upsert, PriorOf;
    assert specs[i..][1..] == specs[i + 1..];
  }

  class Supervisor {
    const table: Table
    const timers: TimerState
    var waiters: Graph
    var readyFailed: set<Name>
    var effects: seq<Effect>
    var launched: seq<Launch>
    var tick: nat
    var panicked: bool

    function Value(): State
      reads this, table, timers
    {
      State(table.records, timers.Value(), waiters, readyFailed, effects, launched, tick, panicked)
    }

    constructor ()
      ensures fresh(table) && fresh(timers)
      ensures Value() == State([], Timers(map[], {}, map[], 0), map[], {}, [], [], 0, false)
    {
      table := new Table();
      timers := new TimerState();
      waiters, readyFailed, effects, launched, tick, panicked := map[], {}, [], [], 0, false;
    }

    /** A failed `expect`: the daemon would stop here. */
    method Fail()
      modifies `panicked
      ensures Value() == Panic(old(Value()))
    {
      panicked := true;
    }

    method Push(e: Effect)
      modifies `effects
      ensures Value() == Emit(old(Value()), e)
    {
      effects := effects + [e];
    }

    /** Asks the outside world once more; answers are numbered by `tick`. */
    method Ask() returns (at: nat)
      modifies `tick
      ensures at == old(tick) && Value() == Tick(old(Value()))
    {
      at := tick;
      tick := tick + 1;
    }

    method SetRecord(name: Name, updated: Record)
      modifies table
      ensures Value() == Handlers.SetRecord(old(Value()), name, updated)
    {
      table.Replace(name, updated);
    }

    // ----- timers -----

    method Disarm(name: Name)
      modifies `effects, timers
      ensures Value() == Handlers.Disarm(old(Value()), name)
    {
      timers.Disarm(name);
      Push(DisarmTimer(name));
    }

    method CancelRestart(name: Name)
      modifies `effects, timers
      ensures Value() == CancelQueuedRestart(old(Value()), name)
    {
      var _ := timers.ClaimRestart(name);
      Push(Effect.CancelRestart(name));
    }

    method QueueRestart(name: Name, delayMs: nat)
      modifies `effects, timers
      ensures Value() == Handlers.QueueRestart(old(Value()), name, delayMs)
    {
      timers.QueueRestart(name);
      Push(ScheduleRestart(name, delayMs));
    }

    method ArmTimer(name: Name, ports: Ports)
      modifies this, timers
      ensures Value() == ArmTimerFor(old(Value()), name, ports)
      ensures P.Armed(old(Value()), Value(), name, ports)
    {
      P.ArmPromise(Value(), name, ports);
      hide Find;
      Disarm(name);
      var record := Find(table.records, name);
      if record.None? || record.value.spec.schedule.None? {
        return;
      }
      var at := Ask();
      var nowMs := ports.now(at);
      match ports.nextFire(at)
      case None =>
      case Some(fireAt) =>
        timers.Arm(name, fireAt);
        Push(Effect.ArmTimer(name, fireAt, if fireAt >= nowMs then fireAt - nowMs else 0));
    }

    method ScheduleForceKill(name: Name, pid: Option<nat>, token: Option<string>)
      modifies `effects
      ensures Value() == ScheduleForceKillOf(old(Value()), name, pid, token)
    {
      if pid.Some? {
        Push(Effect.ScheduleForceKill(name, timers.Value().CurrentGeneration(name), pid.value, token));
      }
    }

    method DisarmEverything()
      modifies `effects, timers
      ensures Value() == Handlers.DisarmEverything(old(Value()))
    {
      var fires := timers.DisarmAll();
      Push(DisarmTimers(fires));
      var restarts := timers.CancelAllRestarts();
      Push(CancelRestarts(restarts));
    }

    // ----- watching -----

    method AwaitReadyIfProbing(name: Name, generation: nat)
      modifies `effects, `panicked
      ensures Value() == Handlers.AwaitReadyIfProbing(old(Value()), name, generation)
    {
      match Find(table.records, name)
      case None => Fail();
      case Some(record) =>
        if record.spec.readyProbe.Some? && record.runtime.status.Launching? {
          Push(AwaitReady(name, generation, record.spec.readyProbe.value));
        }
    }

    method Watch(started: StartOutcome)
      modifies this, timers
      ensures Value() == Handlers.Watch(old(Value()), started)
      ensures P.WatchStarted(old(Value()), Value(), started)
    {
      P.WatchPromise(Value(), started);
      hide Find, Handlers.AwaitReadyIfProbing;
      if started.pid.None? || !started.kind.NeedsWatching() {
        return;
      }
      var token := IdentityToken(Value(), started.name);
      var generation := timers.Bump(started.name);
      Push(WatchExit(started.name, generation, started.pid.value, token));
      AwaitReadyIfProbing(started.name, generation);
    }

    method WatchAll(outcomes: seq<StartOutcome>)
      modifies this, timers
      ensures Value() == Handlers.WatchAll(old(Value()), outcomes)
    {
      hide Handlers.Watch;
      assert outcomes[0..] == outcomes;
      for i := 0 to |outcomes|
        invariant Handlers.WatchAll(Value(), outcomes[i..]) == Handlers.WatchAll(old(Value()), outcomes)
      {
        WatchAllTurn(Value(), outcomes, i);
        Watch(outcomes[i]);
      }
    }

    // ----- launching and stopping one service -----

    method LaunchOne(name: Name, register: bool, ports: Ports) returns (outcome: Option<StartOutcome>)
      modifies this, table
      ensures (Value(), outcome) == Handlers.LaunchOne(old(Value()), name, register, ports)
      ensures P.SpawnsAtMostOnce(old(Value()), Value(), name, outcome)
      ensures Has(old(table.records), name) ==> P.LaunchAnswers(old(Value()), Value(), name, register, outcome, ports)
    {
      P.LaunchPromise(Value(), name, register, ports);
      if Has(table.records, name) {
        P.LaunchAnswer(Value(), name, register, ports);
      }
      hide Find, Put, P.LaunchAnswers, P.SpawnsAtMostOnce;
      match Find(table.records, name)
      case None =>
        Fail();
        outcome := None;
      case Some(record) =>
        var runtime := record.runtime;
        if !runtime.status.IsSettled() {
          runtime := runtime.ArmSchedule();
          if runtime.status.IsShuttingDown() {
            runtime := runtime.RequestRestart();
          }
          SetRecord(name, record.With(runtime));
          return Some(StartOutcome(runtime.pmId, name, runtime.pid, AlreadyRunning));
        }
        if register && record.spec.IsScheduledTask() {
          SetRecord(name, record.With(runtime.ArmSchedule()));
          return Some(StartOutcome(runtime.pmId, name, None, Scheduled));
        }
        var at := Ask();
        match ports.spawn(at)
        case None => outcome := None;
        case Some(spawned) =>
          runtime := runtime.ArmSchedule().MarkLaunched(spawned.pid, spawned.nowMs);
          if record.spec.readyProbe.None? {
            runtime := runtime.MarkOnline();
          }
          SetRecord(name, record.With(runtime.RecordIdentity(spawned.identity)));
          launched := launched + [Launch(name, spawned.pid)];
          outcome := Some(StartOutcome(runtime.pmId, name, Some(spawned.pid), Fresh));
    }

    method RequestStop(name: Name, ports: Ports) returns (outcome: Option<StopOutcome>)
      modifies this, table
      ensures (Value(), outcome) == Handlers.RequestStop(old(Value()), name, ports)
      ensures Has(old(table.records), name) ==> P.AsksToStop(old(Value()), Value(), name, outcome, ports)
    {
      if Has(table.records, name) {
        P.StopRequestPromise(Value(), name, ports);
      }
      hide Find, Put;
      match Find(table.records, name)
      case None =>
        Fail();
        outcome := None;
      case Some(record) =>
        var live := record.runtime.LivePid();
        if live.None? {
          SetRecord(name, record.With(record.runtime.MarkExited(Stopped)));
          return Some(StopOutcome(name, None));
        }
        var at := Ask();
        if !ports.terminate(at) {
          return None;
        }
        SetRecord(name, record.With(record.runtime.MarkStopping()));
        outcome := Some(StopOutcome(name, live));
    }

    method RequestRestart(name: Name)
      modifies this, table
      ensures Value() == RequestRestartOf(old(Value()), name)
    {
      hide Find, Put;
      match Find(table.records, name)
      case None => Fail();
      case Some(record) => SetRecord(name, record.With(record.runtime.RequestRestart()));
    }

    method RestartApp(selector: Selector, ports: Ports) returns (outcome: RestartOutcome)
      modifies this, table
      ensures (Value(), outcome) == Handlers.RestartApp(old(Value()), selector, ports)
      ensures match FindBy(old(table.records), selector)
              case None => outcome.Refused? && Value() == old(Value())
              case Some(record) => TableOk(old(table.records)) ==>
                && P.Restarted(old(Value()), Value(), record.runtime.name, ports)
                && P.RestartReported(old(Value()), record.runtime.name, outcome, ports)
    {
      if TableOk(table.records) && FindBy(table.records, selector).Some? {
        Coherence.FindByIsFind(table.records, selector);
        P.RestartAppPromise(Value(), selector, ports);
      }
      hide FindBy, Handlers.LaunchOne, Handlers.RequestStop, RequestRestartOf;
      match FindBy(table.records, selector)
      case None => outcome := Refused;
      case Some(record) =>
        var name := record.runtime.name;
        if record.runtime.status.IsSettled() {
          var started := LaunchOne(name, false, ports);
          if started.None? {
            return Refused;
          }
          var _ := Ask();
          return Started(started.value);
        }
        var stopped := RequestStop(name, ports);
        if stopped.None? {
          return Refused;
        }
        RequestRestart(name);
        var _ := Ask();
        outcome := AwaitingExit(stopped.value);
    }

    method DispatchRestart(outcome: RestartOutcome) returns (name: Name)
      requires !outcome.Refused?
      modifies this, timers
      ensures (Value(), name) == Handlers.DispatchRestart(old(Value()), outcome)
    {
      hide Handlers.Watch, IdentityToken;
      match outcome
      case Started(started) =>
        Watch(started);
        name := started.name;
      case AwaitingExit(stopped) =>
        var token := IdentityToken(Value(), stopped.name);
        ScheduleForceKill(stopped.name, stopped.forceKillPid, token);
        name := stopped.name;
    }

    method RestartNow(name: Name, ports: Ports)
      modifies this, table, timers
      ensures Value() == Handlers.RestartNow(old(Value()), name, ports)
      ensures P.RestartTried(old(Value()), Value(), name, ports)
    {
      P.RestartNowPromise(Value(), name, ports);
      hide Handlers.RestartApp, Handlers.DispatchRestart, ArmTimerFor, CancelQueuedRestart;
      CancelRestart(name);
      var outcome := RestartApp(ByName(name), ports);
      if outcome.Refused? {
        ArmTimer(name, ports);
      } else {
        var restarted := DispatchRestart(outcome);
        ArmTimer(restarted, ports);
      }
    }

    // ----- readiness -----

    /** `retain` on every list, then on the lists left. */
    method ForgetWaiter(name: Name)
      modifies `waiters
      ensures Value() == old(Value()).(waiters := Handlers.ForgetWaiter(old(waiters), name))
    {
      hide Without;
      var keys, kept: Graph := waiters.Keys, map[];
      while keys != {}
        invariant keys <= waiters.Keys
        invariant forall key :: key in kept <==> key in waiters && key !in keys && Without(waiters[key], name) != []
        invariant forall key <- kept :: kept[key] == Without(waiters[key], name)
        decreases |keys|
      {
        var key :| key in keys;
        var list := Without(waiters[key], name);
        if list != [] {
          kept := kept[key := list];
        }
        keys := keys - {key};
      }
      assert kept == Handlers.ForgetWaiter(waiters, name);
      waiters := kept;
    }

    method MarkErroredIfSettled(name: Name)
      modifies this, table
      ensures Value() == Handlers.MarkErroredIfSettled(old(Value()), name)
    {
      hide Find, Put;
      match Find(table.records, name)
      case None => Fail();
      case Some(record) =>
        if record.runtime.status.IsSettled() {
          SetRecord(name, record.With(record.runtime.MarkExited(Errored)));
        }
    }

    /** The body of the loop of `fail_downstream`. */
    method FailOne(dead: seq<Name>) returns (left: seq<Name>)
      requires dead != []
      modifies this, table
      ensures (Value(), left) == DeadStep(old(Value()), dead)
    {
      hide Handlers.ForgetWaiter, Handlers.MarkErroredIfSettled;
      var doomed := dead[|dead| - 1];
      left := dead[..|dead| - 1];
      ForgetWaiter(doomed);
      MarkErroredIfSettled(doomed);
      if doomed in waiters {
        left := left + waiters[doomed];
        waiters := waiters - {doomed};
      } else {
        assert waiters - {doomed} == waiters && left + [] == left;
      }
    }

    /** `fail_downstream`: the worklist, popped from the back, over the graph it rewrites. */
    method FailDownstream(name: Name) returns (failed: seq<Name>)
      modifies this, table
      ensures (Value(), failed) == Handlers.FailDownstream(old(Value()), name)
    {
      hide FailDead, DeadStep;
      var dead := WaitersOf(waiters, name);
      waiters := waiters - {name};
      failed := [];
      ghost var all := FailDead(Value(), dead);
      assert all == Handlers.FailDownstream(old(Value()), name);
      assert [] + all.1 == all.1;
      while dead != []
        invariant all.0 == FailDead(Value(), dead).0
        invariant all.1 == failed + FailDead(Value(), dead).1
        decreases |waiters|, |dead|
      {
        DeadTurn(Value(), dead);
        failed := failed + [dead[|dead| - 1]];
        dead := FailOne(dead);
      }
      NobodyDead(Value());
      assert failed + [] == failed;
    }

    method CancelReady(name: Name)
      modifies this, table
      ensures Value() == CancelReadyOf(old(Value()), name)
      ensures P.ReadyCancelled(old(Value()), Value(), name)
    {
      P.CancelReadyPromise(Value(), name);
      hide Handlers.ForgetWaiter, Handlers.FailDownstream;
      readyFailed := readyFailed - {name};
      ForgetWaiter(name);
      var _ := FailDownstream(name);
      Push(Effect.CancelReady(name));
    }

    method LaunchWaiter(waiter: Name, ports: Ports) returns (released: bool)
      modifies this, table, timers
      ensures (Value(), released) == Handlers.LaunchWaiter(old(Value()), waiter, ports)
      ensures Has(old(table.records), waiter) ==> Releases.WaiterTried(old(Value()), Value(), waiter, released, ports)
    {
      if Has(table.records, waiter) {
        Releases.WaiterPromise(Value(), waiter, ports);
      }
      hide Handlers.LaunchOne, Handlers.Watch, ArmTimerFor, Handlers.MarkErroredIfSettled, Handlers.FailDownstream, Find, Releases.WaiterTried;
      var outcome := LaunchOne(waiter, true, ports);
      if outcome.None? {
        MarkErroredIfSettled(waiter);
        var _ := FailDownstream(waiter);
        released := false;
      } else {
        Watch(outcome.value);
        ArmTimer(waiter, ports);
        var record := Find(table.records, waiter);
        released := outcome.value.kind.Scheduled? || (record.Some? && record.value.runtime.status.Online?);
      }
      var _ := Ask();
    }

    /** `launch_waiters`: a worklist over the graph that launching may rewrite. */
    method LaunchWaiters(name: Name, ports: Ports)
      modifies this, table, timers
      ensures Value() == Handlers.LaunchWaiters(old(Value()), name, ports)
    {
      hide LaunchQueue, LaunchList, Handlers.LaunchWaiter, StillWaiting;
      var queue := [name];
      while queue != []
        invariant LaunchQueue(Value(), queue, ports) == LaunchQueue(old(Value()), [name], ports)
        decreases |waiters|, |queue|
      {
        QueueTurn(Value(), queue, ports);
        var ready := queue[|queue| - 1];
        queue := queue[..|queue| - 1];
        if ready !in waiters {
          continue;
        }
        var list := waiters[ready];
        waiters := waiters - {ready};
        ghost var s, left := Value(), queue;
        assert list[0..] == list;
        for i := 0 to |list|
          invariant LaunchList(Value(), list[i..], queue, ports) == LaunchList(s, list, left, ports)
        {
          ListTurn(Value(), list, i, queue, ports);
          if StillWaiting(waiters, list[i]) {
            continue;
          }
          var released := LaunchWaiter(list[i], ports);
          if released {
            queue := queue + [list[i]];
          }
        }
        NobodyListed(Value(), queue, ports);
        assert list[|list|..] == [];
      }
      NobodyQueued(Value(), ports);
    }

    method OnReady(name: Name, generation: nat, ports: Ports)
      modifies this, table, timers
      ensures Value() == Handlers.OnReady(old(Value()), name, generation, ports)
      ensures P.Readied(old(Value()), Value(), name, generation)
      ensures Coherence.WaitersKnown(old(table.records), old(waiters)) ==>
                Releases.ReadyAnswered(old(Value()), Value(), name, generation, ports)
    {
      P.OnReadyPromise(Value(), name, generation, ports);
      if Coherence.WaitersKnown(table.records, waiters) {
        Releases.ReadyAnswer(Value(), name, generation, ports);
      }
      hide Handlers.LaunchWaiters, Find, Put, Releases.ReadyAnswered, P.Readied, Coherence.WaitersKnown;
      if !AwaitsReadyAt(Value(), name, generation) {
        return;
      }
      var record := Find(table.records, name).value;
      SetRecord(name, record.With(record.runtime.MarkOnline()));
      var _ := Ask();
      LaunchWaiters(name, ports);
    }

    method OnReadyTimeout(name: Name, generation: nat, ports: Ports)
      modifies this, table, timers
      ensures Value() == Handlers.OnReadyTimeout(old(Value()), name, generation, ports)
      ensures P.TimedOut(old(Value()), Value(), name, generation)
    {
      P.OnReadyTimeoutPromise(Value(), name, generation, ports);
      hide Handlers.FailDownstream, ScheduleForceKillOf, Find, Put;
      if !AwaitsReadyAt(Value(), name, generation) {
        return;
      }
      readyFailed := readyFailed + {name};
      var record := Find(table.records, name).value;
      SetRecord(name, record.With(record.runtime.MarkStopping()));
      match record.runtime.pid
      case None => Fail();
      case Some(pid) =>
        var _ := Ask();
        ScheduleForceKill(name, Some(pid), record.runtime.Token());
        var _ := FailDownstream(name);
        var _ := Ask();
    }

    // ----- exits, restarts and fires -----

    /** `handle_child_exit` with `classify_exit`; the save is attempted either way. */
    method HandleChildExit(name: Name, outcome: ExitOutcome, ports: Ports) returns (action: ExitAction)
      requires Has(table.records, name)
      modifies this, table
      ensures var (settled, expected) := ClassifyExit(Find(old(table.records), name).value, outcome, ports.now(old(tick)));
              action == expected && Value() == Tick(Handlers.SetRecord(old(Value()), name, settled))
      ensures Has(table.records, name)
              && var record := Find(old(table.records), name).value;
                 record.spec.maxRestartDelayMs <= U64_MAX ==>
                   P.ExitSettled(record, Find(table.records, name).value, action, outcome, ports.now(old(tick)))
    {
      if Find(table.records, name).value.spec.maxRestartDelayMs <= U64_MAX {
        P.ExitPromise(Find(table.records, name).value, outcome, ports.now(tick));
      }
      assert Has(Value().records, name);
      hide Find, Put, Breaker.DecideRestart;
      var record := Find(table.records, name).value;
      var nowMs := ports.now(tick);
      var wasStopping, supervised := record.runtime.status.IsShuttingDown(), record.runtime.TakesTheBreaker();
      var requested := record.runtime.pendingRestart;
      var taken := record.runtime.CancelRestart();
      if requested && !supervised {
        taken, action := taken.MarkExited(Stopped), RestartAfter(0);
      } else if !requested && (wasStopping || StopsOnThisCode(record, outcome)) {
        taken, action := taken.MarkExited(Stopped), Settled(Stopped);
      } else {
        var decision := Breaker.DecideRestart(Breaker.PolicyOf(record.spec), taken.ElapsedSinceLaunchMs(nowMs), taken.unstableRestarts);
        match decision
        case Again(delayMs, unstable) =>
          taken, action := taken.MarkExited(Stopped).CountRestart(unstable), RestartAfter(delayMs);
        case GiveUp(unstable) =>
          var status := if outcome.Failed() then Errored else Stopped;
          taken, action := taken.MarkExited(status).(unstableRestarts := unstable), Settled(status);
      }
      SetRecord(name, record.With(taken));
      var _ := Ask();
    }

    method OnExit(name: Name, generation: nat, outcome: ExitOutcome, ports: Ports)
      modifies this, table, timers
      ensures Value() == Handlers.OnExit(old(Value()), name, generation, outcome, ports)
      ensures P.ExitTaken(old(Value()), Value(), name, generation, outcome, ports)
    {
      P.OnExitPromise(Value(), name, generation, outcome, ports);
      hide Find, Put, ClassifyExit, Handlers.FailDownstream;
      if !timers.Value().IsCurrent(name, generation) {
        return;
      }
      Push(CancelForceKill(name));
      match Find(table.records, name)
      case None =>
      case Some(record) =>
        if name in readyFailed {
          readyFailed := readyFailed - {name};
          SetRecord(name, record.With(record.runtime.MarkExited(Errored)));
          var _ := Ask();
          return;
        }
        var action := HandleChildExit(name, outcome, ports);
        match action
        case RestartAfter(delayMs) => QueueRestart(name, delayMs);
        case Settled(_) => var _ := FailDownstream(name);
    }

    method OnRestart(name: Name, ports: Ports)
      modifies this, table, timers
      ensures Value() == Handlers.OnRestart(old(Value()), name, ports)
      ensures P.ClaimedOnce(old(Value()), Value(), name, ports)
    {
      P.OnRestartPromise(Value(), name, ports);
      hide Handlers.RestartNow;
      var claimed := timers.ClaimRestart(name);
      if claimed {
        RestartNow(name, ports);
      } else {
        assert timers.restarts == old(timers.restarts);
      }
    }

    method OnFire(name: Name, at: nat, ports: Ports)
      modifies this, table, timers
      ensures Value() == Handlers.OnFire(old(Value()), name, at, ports)
      ensures P.FiredOnce(old(Value()), Value(), name, at, ports)
    {
      P.OnFirePromise(Value(), name, at, ports);
      hide Handlers.RestartNow;
      if timers.Value().FireIsDue(name, at) {
        RestartNow(name, ports);
      }
    }

    // ----- memory and liveness -----

    method HandToTheBreaker(name: Name)
      modifies this, table
      ensures Value() == Handlers.HandToTheBreaker(old(Value()), name)
    {
      hide Find, Put;
      match Find(table.records, name)
      case None => Fail();
      case Some(record) =>
        if record.runtime.pendingRestart {
          SetRecord(name, record.With(record.runtime.RequestSupervisedRestart()));
        }
    }

    method OnMemorySample(ports: Ports)
      modifies this, table, timers
      ensures Value() == Handlers.OnMemorySample(old(Value()), ports)
      ensures NoDup(NamesOf(old(table.records))) ==> forall n :: Samples.MemorySampled(old(Value()), Value(), n, ports)
    {
      if NoDup(NamesOf(table.records)) {
        forall n ensures Samples.MemorySampled(Value(), Handlers.OnMemorySample(Value(), ports), n, ports) {
          Samples.MemoryPromise(Value(), n, ports);
        }
      }
      hide Samples.MemorySampled, NamesOf, NoDup;
      hide BreachesOf, Handlers.RestartNow, Handlers.HandToTheBreaker;
      Push(ScheduleMemorySample);
      var at := Ask();
      var names := BreachesOf(table.records, ports.residentMemory(at));
      ghost var all := KillBreaches(Value(), names, ports);
      assert names[0..] == names;
      for i := 0 to |names|
        invariant KillBreaches(Value(), names[i..], ports) == all
      {
        BreachTurn(Value(), names, i, ports);
        RestartNow(names[i], ports);
        HandToTheBreaker(names[i]);
      }
    }

    /** The turn of one watched service: `record_liveness`, then a restart once the threshold is reached. */
    method CheckOne(name: Name, threshold: nat, ports: Ports)
      modifies this, table, timers
      ensures Value() == CheckStep(old(Value()), name, threshold, ports)
      ensures Has(old(table.records), name) ==> Samples.Checked(old(Value()), Value(), name, threshold, ports)
    {
      if Has(table.records, name) {
        Samples.CheckPromise(Value(), name, threshold, ports);
      }
      hide Samples.Checked;
      hide Find, Put, Handlers.RestartNow, Handlers.HandToTheBreaker;
      match Find(table.records, name)
      case None => Fail();
      case Some(record) =>
        var at := Ask();
        if ports.isReady(at) {
          SetRecord(name, record.With(record.runtime.PassLiveness()));
          return;
        }
        var failing := record.runtime.FailLiveness();
        SetRecord(name, record.With(failing));
        if failing.livenessFailures >= threshold {
          RestartNow(name, ports);
          HandToTheBreaker(name);
        }
    }

    /** `settle_stability`: a pass over the records in place. */
    method SettleTheStable(nowMs: nat)
      modifies table
      ensures Value() == old(Value()).(records := SettleStability(old(table.records), nowMs))
    {
      hide StabilityIsSettled, SettleStability;
      ghost var before := table.records;
      SettleNone(before, nowMs);
      for i := 0 to |table.records|
        invariant |table.records| == |before|
        invariant table.records == SettleStability(before[..i], nowMs) + before[i..]
      {
        SettleNext(before, nowMs, i);
        var record := table.records[i];
        if StabilityIsSettled(record, nowMs) {
          table.records := table.records[i := record.With(record.runtime.SettleStability())];
        }
      }
      assert before[..|before|] == before && before[|before|..] == [];
    }

    method OnLivenessSample(threshold: nat, ports: Ports)
      modifies this, table, timers
      ensures Value() == Handlers.OnLivenessSample(old(Value()), threshold, ports)
      ensures NoDup(NamesOf(old(table.records))) ==>
                forall n :: Has(old(table.records), n) ==> Samples.Sampled(old(Value()), Value(), n, threshold, ports)
    {
      if NoDup(NamesOf(table.records)) {
        forall n | Has(table.records, n)
          ensures Samples.Sampled(Value(), Handlers.OnLivenessSample(Value(), threshold, ports), n, threshold, ports) {
          Samples.SamplePromise(Value(), n, threshold, ports);
        }
      }
      hide Samples.Sampled, NamesOf, NoDup;
      hide LivenessWatchList, CheckStep, SettleStability;
      Push(ScheduleLivenessSample);
      var names := LivenessWatchList(table.records);
      ghost var all := CheckLiveness(Value(), names, threshold, ports);
      assert names[0..] == names;
      for i := 0 to |names|
        invariant CheckLiveness(Value(), names[i..], threshold, ports) == all
      {
        CheckTurn(Value(), names, i, threshold, ports);
        CheckOne(names[i], threshold, ports);
      }
      NobodyChecked(Value(), threshold, ports);
      SettleTheStable(ports.now(tick));
      var _ := Ask();
    }

    // ----- start -----

    /** Registers the batch, remembering what each name held before. */
    method UpsertAll(specs: seq<Spec>, nowMs: nat) returns (previous: seq<Prior>)
      modifies table
      ensures var (after, earlier) := Handlers.UpsertAll(old(table.records), specs, nowMs);
              previous == earlier && Value() == old(Value()).(records := after)
    {
      hide Upsert, PriorOf;
      previous := [];
      ghost var all := Handlers.UpsertAll(table.records, specs, nowMs);
      assert specs[0..] == specs && [] + all.1 == all.1;
      for i := 0 to |specs|
        invariant var (after, more) := Handlers.UpsertAll(table.records, specs[i..], nowMs); all == (after, previous + more)
      {
        UpsertTurn(table.records, specs, i, nowMs);
        var prior := PriorOf(table.records, specs[i].name);
        ghost var more := Handlers.UpsertAll(Upsert(table.records, specs[i], nowMs), specs[i + 1..], nowMs).1;
        assert previous + ([prior] + more) == (previous + [prior]) + more;
        previous := previous + [prior];
        var _ := table.Upsert(specs[i], nowMs);
      }
      NobodyUpserted(table.records, nowMs);
      assert previous + [] == previous;
    }

    /** One name of the launching loop: deferred behind its dependencies, or launched. */
    method LaunchNext(name: Name, specs: seq<Spec>, waiting: set<Name>, ports: Ports) returns (turn: BatchTurn)
      modifies this, table
      ensures (Value(), turn) == BatchStep(old(Value()), name, specs, waiting, ports)
    {
      hide Find, Handlers.LaunchOne, DependsOnOf, AwaitsReady;
      var waitingOn := WaitingDependencies(DependsOnOf(specs, name), waiting);
      if waitingOn != [] {
        match Find(table.records, name)
        case None =>
          Fail();
          return Halted(false);
        case Some(record) =>
          return Went(StartOutcome(record.runtime.pmId, name, None, Deferred), [DeferredStart(name, waitingOn)],
                      waiting + {name});
      }
      var outcome := LaunchOne(name, true, ports);
      if outcome.None? {
        return Halted(true);
      }
      turn := Went(outcome.value, [], if AwaitsReady(table.records, name) then waiting + {name} else waiting);
    }

    /** The launching loop of `start_apps`, up to the first refusal. */
    method LaunchBatch(order: seq<Name>, specs: seq<Spec>, ports: Ports) returns (report: StartReport)
      modifies this, table
      ensures (Value(), report) == Handlers.LaunchBatch(old(Value()), order, specs, {}, ports)
    {
      hide Handlers.LaunchBatch, BatchStep;
      ghost var all := Handlers.LaunchBatch(Value(), order, specs, {}, ports);
      report := StartReport([], false, []);
      var waiting: set<Name> := {};
      assert order[0..] == order;
      ReportFromNothing(all.1);
      for i := 0 to |order|
        invariant !report.failed
        invariant var (last, rest) := Handlers.LaunchBatch(Value(), order[i..], specs, waiting, ports);
                  all == (last, Joined(report, rest))
      {
        BatchUnfolds(Value(), order, i, specs, waiting, ports);
        ghost var rest := Handlers.LaunchBatch(Value(), order[i..], specs, waiting, ports).1;
        var turn := LaunchNext(order[i], specs, waiting, ports);
        match turn
        case Halted(failed) =>
          report := report.(failed := failed);
          HaltedReport(report, failed);
          return;
        case Went(outcome, deferred, waits) =>
          ghost var more := Handlers.LaunchBatch(Value(), order[i + 1..], specs, waits, ports).1;
          JoinedTurn(report, outcome, deferred, more);
          report := StartReport(report.outcomes + [outcome], false, report.pending + deferred);
          waiting := waits;
      }
      assert order[|order|..] == [];
      NobodyLaunched(Value(), specs, waiting, ports);
      ReportToNothing(report);
    }

    /** `forget_unlaunched`: puts back what each name without an outcome held before. */
    method ForgetUnlaunched(previous: seq<Prior>, outcomes: seq<StartOutcome>, nowMs: nat)
      modifies table
      ensures Value() == old(Value()).(records := Handlers.ForgetUnlaunched(old(table.records), previous, outcomes, nowMs))
    {
      hide Upsert, Remove, Outcome;
      assert previous[0..] == previous;
      for i := 0 to |previous|
        invariant Handlers.ForgetUnlaunched(table.records, previous[i..], outcomes, nowMs) ==
                  Handlers.ForgetUnlaunched(old(table.records), previous, outcomes, nowMs)
      {
        ForgetTurn(table.records, previous, i, outcomes, nowMs);
        var prior := previous[i];
        if Outcome(outcomes, prior.name) {
          continue;
        }
        match prior.spec
        case Some(spec) => var _ := table.Upsert(spec, nowMs);
        case None => var _ := table.Remove(prior.name);
      }
    }

    method StartApps(specs: seq<Spec>, ports: Ports) returns (report: StartReport)
      modifies this, table
      ensures (Value(), report) == Handlers.StartApps(old(Value()), specs, ports)
      ensures CommandCoherence.RoomFor(old(Value()), |specs|) ==> P.BatchKept(old(Value()), Value(), specs, report)
      ensures TableOk(old(table.records)) && CommandCoherence.RoomFor(old(Value()), |specs|) && BatchGraph.DistinctSpecs(specs) ==>
                Batches.BatchStarted(old(Value()), Value(), specs, report, ports)
    {
      if TableOk(table.records) && CommandCoherence.RoomFor(Value(), |specs|) && BatchGraph.DistinctSpecs(specs) {
        Batches.StartAppsStarts(Value(), specs, ports);
      }
      if CommandCoherence.RoomFor(Value(), |specs|) {
        P.StartAppsPromise(Value(), specs, ports);
      }
      hide AcceptedOrder, Handlers.UpsertAll, Handlers.LaunchBatch, Handlers.ForgetUnlaunched;
      hide Batches.BatchStarted, P.BatchKept, TableOk, BatchGraph.DistinctSpecs, CommandCoherence.RoomFor;
      match AcceptedOrder(table.records, specs, ports)
      case None => report := StartReport([], true, []);
      case Some(order) =>
        var nowMs := ports.now(tick);
        var previous := UpsertAll(specs, nowMs);
        var _ := Ask();
        report := LaunchBatch(order, specs, ports);
        if report.failed {
          ForgetUnlaunched(previous, report.outcomes, nowMs);
        }
        var _ := Ask();
    }

    /** Reads the declarations one by one, up to the first that cannot be read. */
    method PrepareAll(services: seq<Name>, ports: Ports) returns (specs: Option<seq<Spec>>)
      modifies `tick
      ensures (Value(), specs) == Handlers.PrepareAll(old(Value()), services, ports)
    {
      hide Prepare;
      var read: seq<Spec> := [];
      ghost var all := Handlers.PrepareAll(Value(), services, ports);
      assert services[0..] == services;
      assert all.1.Some? ==> [] + all.1.value == all.1.value;
      for i := 0 to |services|
        invariant var (last, more) := Handlers.PrepareAll(Value(), services[i..], ports);
                  all == (last, if more.None? then None else Some(read + more.value))
      {
        PrepareTurn(Value(), services, i, ports);
        var spec := Prepare(Value(), services[i], ports);
        var _ := Ask();
        if spec.None? {
          return None;
        }
        ghost var more := Handlers.PrepareAll(Value(), services[i + 1..], ports).1;
        if more.Some? {
          assert read + ([spec.value] + more.value) == (read + [spec.value]) + more.value;
        }
        read := read + [spec.value];
      }
      assert read + [] == read;
      specs := Some(read);
    }

    method RememberPending(pending: seq<DeferredStart>)
      modifies `waiters
      ensures Value() == old(Value()).(waiters := AddPending(old(waiters), pending))
    {
      hide AddWaits, AddWaiter;
      assert pending[0..] == pending;
      for i := 0 to |pending|
        invariant AddPending(waiters, pending[i..]) == AddPending(old(waiters), pending)
      {
        PendingTurn(waiters, pending, i);
        var deferred := pending[i];
        ghost var entered := waiters;
        assert deferred.waitingOn[0..] == deferred.waitingOn;
        for k := 0 to |deferred.waitingOn|
          invariant AddWaits(waiters, deferred.name, deferred.waitingOn[k..]) ==
                    AddWaits(entered, deferred.name, deferred.waitingOn)
        {
          WaitsTurn(waiters, deferred.name, deferred.waitingOn, k);
          waiters := AddWaiter(waiters, deferred.waitingOn[k], deferred.name);
        }
        NobodyWaits(waiters, deferred.name);
        assert deferred.waitingOn[|deferred.waitingOn|..] == [];
      }
    }

    method Start(services: seq<Name>, ports: Ports)
      modifies this, table, timers
      ensures Value() == Handlers.Start(old(Value()), services, ports)
      ensures TableOk(old(table.records)) && CommandCoherence.RoomFor(old(Value()), |services|) && NoDup(services) ==>
                Batches.StartedServices(old(Value()), Value(), services, ports)
    {
      if TableOk(table.records) && CommandCoherence.RoomFor(Value(), |services|) && NoDup(services) {
        Batches.StartPromise(Value(), services, ports);
      }
      hide Batches.StartedServices, Batches.BatchStarted, P.BatchKept, TableOk, CommandCoherence.RoomFor, BatchGraph.DistinctSpecs;
      hide Handlers.PrepareAll, Handlers.StartApps, Handlers.WatchAll, AddPending, CancelQueuedRestart, ArmTimerFor;
      var specs := PrepareAll(services, ports);
      if specs.None? {
        return;
      }
      var report := StartApps(specs.value, ports);
      var outcomes := report.outcomes;
      WatchAll(outcomes);
      RememberPending(report.pending);
      ghost var s := Value();
      assert outcomes[0..] == outcomes;
      for i := 0 to |outcomes|
        invariant SettleStarted(Value(), outcomes[i..], ports) == SettleStarted(s, outcomes, ports)
      {
        SettleTurn(Value(), outcomes, i, ports);
        CancelRestart(outcomes[i].name);
        if !outcomes[i].kind.Deferred? {
          ArmTimer(outcomes[i].name, ports);
        }
      }
    }

    // ----- stop and delete -----

    method Retire(name: Name, forceKillPid: Option<nat>, token: Option<string>)
      modifies this, table, timers
      ensures Value() == Handlers.Retire(old(Value()), name, forceKillPid, token)
      ensures P.Retired(old(Value()), Value(), name, forceKillPid, token)
    {
      P.RetirePromise(Value(), name, forceKillPid, token);
      hide Handlers.Disarm, CancelQueuedRestart, CancelReadyOf, ScheduleForceKillOf;
      Disarm(name);
      CancelRestart(name);
      CancelReady(name);
      ScheduleForceKill(name, forceKillPid, token);
    }

    method CoverDraining(selector: Selector)
      modifies this, table, timers
      ensures Value() == Handlers.CoverDraining(old(Value()), selector)
    {
      hide FindBy, Handlers.Retire;
      match FindBy(table.records, selector)
      case None =>
      case Some(record) =>
        if !record.runtime.status.IsShuttingDown() {
          return;
        }
        match record.runtime.pid
        case None => Fail();
        case Some(pid) => Retire(record.runtime.name, Some(pid), record.runtime.Token());
    }

    method StopApp(selector: Selector, ports: Ports) returns (outcome: Option<StopOutcome>)
      modifies this, table
      ensures (Value(), outcome) == Handlers.StopApp(old(Value()), selector, ports)
    {
      hide FindBy, Put, Handlers.RequestStop;
      match FindBy(table.records, selector)
      case None => outcome := None;
      case Some(record) =>
        var name := record.runtime.name;
        SetRecord(name, record.With(record.runtime.DisarmSchedule().CancelRestart()));
        outcome := RequestStop(name, ports);
        if outcome.Some? {
          var at := Ask();
          if !ports.save(at) {
            outcome := None;
          }
        }
    }

    /** The turn of one service in `stop_all_apps`; a refused stop marks it all the same. */
    method StopOne(name: Name, ports: Ports) returns (turn: StopTurn)
      modifies this, table
      ensures (Value(), turn) == StopStep(old(Value()), name, ports)
    {
      hide Find, Put, Handlers.RequestStop;
      match Find(table.records, name)
      case None =>
        Fail();
        turn := Lost;
      case Some(record) =>
        var runtime := record.runtime.DisarmSchedule().CancelRestart();
        SetRecord(name, record.With(runtime));
        if runtime.status.IsSettled() {
          return Passed([]);
        }
        var outcome := RequestStop(name, ports);
        if outcome.Some? {
          return Passed([outcome.value]);
        }
        SetRecord(name, record.With(runtime.MarkStopping()));
        turn := Passed([]);
    }

    /** `stop_all_apps`: dependents first. */
    method StopEach(order: seq<Name>, ports: Ports) returns (stopped: seq<StopOutcome>)
      modifies this, table
      ensures (Value(), stopped) == Handlers.StopEach(old(Value()), order, ports)
    {
      hide StopStep, Handlers.StopEach;
      ghost var all := Handlers.StopEach(Value(), order, ports);
      stopped := [];
      var left := order;
      assert [] + all.1 == all.1;
      while left != []
        invariant var (last, more) := Handlers.StopEach(Value(), left, ports); all == (last, stopped + more)
        decreases |left|
      {
        StopTurnUnfolds(Value(), left, ports);
        var turn := StopOne(left[|left| - 1], ports);
        left := left[..|left| - 1];
        match turn
        case Lost =>
          assert stopped + [] == stopped;
          return;
        case Passed(outcomes) =>
          ghost var more := Handlers.StopEach(Value(), left, ports).1;
          assert stopped + (outcomes + more) == (stopped + outcomes) + more;
          stopped := stopped + outcomes;
      }
      NobodyStopped(Value(), ports);
      assert stopped + [] == stopped;
    }

    method KillStopped(stopped: seq<StopOutcome>)
      modifies `effects
      ensures Value() == ForceKillStopped(old(Value()), stopped)
    {
      hide ScheduleForceKillOf, IdentityToken;
      ghost var asked := Value();
      assert stopped[0..] == stopped;
      for i := 0 to |stopped|
        invariant ForceKillStopped(Value(), stopped[i..]) == ForceKillStopped(asked, stopped)
      {
        StoppedTurn(Value(), stopped, i);
        ScheduleForceKill(stopped[i].name, stopped[i].forceKillPid, IdentityToken(Value(), stopped[i].name));
      }
    }

    method CancelEach(names: seq<Name>)
      modifies this, table
      ensures Value() == CancelAll(old(Value()), names)
    {
      hide CancelReadyOf, P.ReadyCancelled;
      ghost var scheduled := Value();
      assert names[0..] == names;
      for i := 0 to |names|
        invariant CancelAll(Value(), names[i..]) == CancelAll(scheduled, names)
      {
        CancelTurn(Value(), names, i);
        CancelReady(names[i]);
      }
    }

    /** The kills `unswept_pids` calls for: whatever the launcher still tracks and no stop covers. */
    method KillUnswept(tracked: seq<nat>, stopped: seq<StopOutcome>)
      modifies `effects
      ensures Value() == ForceKillUnswept(old(Value()), tracked, stopped)
    {
      hide ScheduleForceKillOf, OwnerOf, Covered;
      ghost var cancelled := Value();
      assert tracked[0..] == tracked;
      for i := 0 to |tracked|
        invariant ForceKillUnswept(Value(), tracked[i..], stopped) == ForceKillUnswept(cancelled, tracked, stopped)
      {
        UnsweptTurn(Value(), tracked, i, stopped);
        if Covered(stopped, tracked[i]) {
          continue;
        }
        var (name, token) := OwnerOf(table.records, tracked[i]);
        ScheduleForceKill(name, Some(tracked[i]), token);
      }
    }

    method StopAll(ports: Ports)
      modifies this, table, timers
      ensures Value() == Handlers.StopAll(old(Value()), ports)
      ensures TableOk(old(table.records)) ==> Replies.StoppedEverything(old(Value()), Value(), ports)
    {
      if TableOk(table.records) {
        Replies.StopAllAnswer(Value(), ports);
      }
      hide Replies.StoppedEverything, TableOk, Handlers.DisarmEverything, Handlers.StopEach, DependencyOrder, ForceKillStopped,
           CancelAll, NamesOf, ForceKillUnswept;
      DisarmEverything();
      var order := table.DependencyOrder();
      var stopped := StopEach(order, ports);
      var _ := Ask();
      KillStopped(stopped);
      CancelEach(NamesOf(table.records));
      var at := Ask();
      KillUnswept(ports.trackedPids(at), stopped);
    }

    method Stop(selector: Selector, ports: Ports) returns (replied: bool)
      modifies this, table, timers
      ensures (Value(), replied) == Handlers.Stop(old(Value()), selector, ports)
      ensures TableOk(old(table.records)) ==> P.StoppedForGood(old(Value()), Value(), selector, replied)
      ensures TableOk(old(table.records)) && !selector.All? ==> Replies.StopAnswered(old(Value()), Value(), selector, replied, ports)
    {
      if TableOk(table.records) {
        P.StopPromise(Value(), selector, ports);
        if !selector.All? {
          Replies.StopAnswer(Value(), selector, ports);
        }
      }
      hide Replies.StopAnswered, Replies.StoppedEverything, P.StoppedForGood, TableOk;
      hide Handlers.StopAll, Handlers.StopApp, Handlers.CoverDraining, Handlers.Retire, IdentityToken;
      if selector.All? {
        StopAll(ports);
        return true;
      }
      var outcome := StopApp(selector, ports);
      if outcome.None? {
        CoverDraining(selector);
        return false;
      }
      var token := IdentityToken(Value(), outcome.value.name);
      Retire(outcome.value.name, outcome.value.forceKillPid, token);
      replied := true;
    }

    /** `delete_one`: a record whose removal cannot be saved is put back. */
    method DeleteOne(name: Name, ports: Ports) returns (outcome: Option<StopOutcome>)
      modifies this, table
      ensures (Value(), outcome) == Handlers.DeleteOne(old(Value()), name, ports)
      ensures TableOk(old(table.records)) ==> P.DeletedOrKept(old(Value()), Value(), name, outcome)
    {
      hide Find, Remove, Handlers.RequestStop, P.AsksToStop, P.DeletedOrKept;
      outcome := RequestStop(name, ports);
      if outcome.Some? {
        if Find(table.records, name).None? {
          Fail();
          outcome := None;
        } else {
          var removed := table.Remove(name);
          var at := Ask();
          if !ports.save(at) {
            table.Restore(removed.value);
            outcome := None;
          }
        }
      }
      if TableOk(old(table.records)) {
        P.DeletePromise(old(Value()), name, ports);
      }
    }

    method DeleteApp(selector: Selector, ports: Ports) returns (outcome: Option<StopOutcome>)
      modifies this, table
      ensures (Value(), outcome) == Handlers.DeleteApp(old(Value()), selector, ports)
    {
      hide FindBy, HasDependents, Handlers.DeleteOne;
      match FindBy(table.records, selector)
      case None => outcome := None;
      case Some(record) =>
        if HasDependents(table.records, record.runtime.name) {
          return None;
        }
        outcome := DeleteOne(record.runtime.name, ports);
    }

    /** `delete_all`: dependents first, past every failure. */
    method DeleteEach(order: seq<Name>, ports: Ports)
      modifies this, table, timers
      ensures Value() == Handlers.DeleteEach(old(Value()), order, ports)
    {
      hide Handlers.DeleteOne, Handlers.CoverDraining, Handlers.Retire, IdentityToken;
      var left := order;
      while left != []
        invariant Handlers.DeleteEach(Value(), left, ports) == Handlers.DeleteEach(old(Value()), order, ports)
        decreases |left|
      {
        var name := left[|left| - 1];
        var token := IdentityToken(Value(), name);
        var outcome := DeleteOne(name, ports);
        if outcome.None? {
          CoverDraining(ByName(name));
        } else {
          Retire(outcome.value.name, outcome.value.forceKillPid, token);
        }
        left := left[..|left| - 1];
      }
    }

    method Delete(selector: Selector, ports: Ports)
      modifies this, table, timers
      ensures Value() == Handlers.Delete(old(Value()), selector, ports)
      ensures TableOk(old(table.records)) ==>
                if selector.All? then Replies.DeletedAll(old(Value()), Value(), ports)
                else Replies.DeletedOne(old(Value()), Value(), selector, ports)
    {
      if TableOk(table.records) {
        if selector.All? {
          Replies.DeleteAllAnswer(Value(), ports);
        } else {
          Replies.DeleteAnswer(Value(), selector, ports);
        }
      }
      hide Replies.DeletedAll, Replies.DeletedOne, TableOk;
      hide DependencyOrder, Handlers.DeleteEach, Handlers.DeleteApp, Handlers.CoverDraining, Handlers.Retire, TokenBy;
      if selector.All? {
        var order := table.DependencyOrder();
        DeleteEach(order, ports);
        return;
      }
      var token := TokenBy(Value(), selector);
      var outcome := DeleteApp(selector, ports);
      if outcome.None? {
        CoverDraining(selector);
      } else {
        Retire(outcome.value.name, outcome.value.forceKillPid, token);
      }
    }

    // ----- restart, reset and shutdown -----

    /** Whatever a restart came to, queued restarts are dropped on success and the schedule is armed anew. */
    method SettleRestart(name: Name, outcome: RestartOutcome, ports: Ports)
      requires !outcome.Refused?
      modifies this, timers
      ensures var (dispatched, restarted) := Handlers.DispatchRestart(old(Value()), outcome);
              Value() == ArmTimerFor(CancelQueuedRestart(dispatched, restarted), restarted, ports)
    {
      hide Handlers.DispatchRestart, CancelQueuedRestart, ArmTimerFor;
      var restarted := DispatchRestart(outcome);
      CancelRestart(restarted);
      ArmTimer(restarted, ports);
    }

    method RestartAll(names: seq<Name>, ports: Ports)
      modifies this, table, timers
      ensures Value() == RestartEach(old(Value()), names, ports)
    {
      hide Find, Put, Prepare, Handlers.RestartApp, Handlers.DispatchRestart, CancelQueuedRestart, ArmTimerFor;
      assert names[0..] == names;
      for i := 0 to |names|
        invariant RestartEach(Value(), names[i..], ports) == RestartEach(old(Value()), names, ports)
      {
        assert names[i..][1..] == names[i + 1..];
        var spec := Prepare(Value(), names[i], ports);
        if spec.None? {
          var _ := Ask();
          continue;
        }
        var record := Find(table.records, names[i]);
        if record.None? {
          Fail();
          return;
        }
        var _ := Ask();
        SetRecord(names[i], record.value.(spec := spec.value));
        var outcome := RestartApp(ByName(names[i]), ports);
        if outcome.Refused? {
          ArmTimer(names[i], ports);
        } else {
          SettleRestart(names[i], outcome, ports);
        }
      }
    }

    method Restart(selector: Selector, ports: Ports)
      modifies this, table, timers
      ensures Value() == RestartCommand(old(Value()), selector, ports)
      ensures TableOk(old(table.records)) ==>
                if selector.All? then forall n :: Has(old(table.records), n) ==> Replies.RestartedInTurn(old(Value()), Value(), n, ports)
                else Replies.RestartedOne(old(Value()), Value(), selector, ports)
    {
      if TableOk(table.records) {
        if selector.All? {
          forall n | Has(table.records, n) ensures Replies.RestartedInTurn(Value(), RestartCommand(Value(), selector, ports), n, ports) {
            Replies.RestartAllAnswer(Value(), n, ports);
          }
        } else {
          Replies.RestartAnswer(Value(), selector, ports);
        }
      }
      hide Replies.RestartedInTurn, Replies.RestartedOne, TableOk;
      hide FindBy, NamesOf, Put, Prepare, Handlers.RestartApp, RestartEach, Handlers.DispatchRestart, CancelQueuedRestart, ArmTimerFor;
      if selector.All? {
        RestartAll(NamesOf(table.records), ports);
        return;
      }
      match FindBy(table.records, selector)
      case None =>
      case Some(record) =>
        var name := record.runtime.name;
        var spec := Prepare(Value(), name, ports);
        var _ := Ask();
        if spec.None? {
          return;
        }
        SetRecord(name, record.(spec := spec.value));
        var outcome := RestartApp(selector, ports);
        if !outcome.Refused? {
          SettleRestart(name, outcome, ports);
        }
    }

    method ResetOne(name: Name)
      modifies this, table
      ensures Value() == Handlers.ResetOne(old(Value()), name)
    {
      hide Find, Put;
      match Find(table.records, name)
      case None => Fail();
      case Some(record) =>
        SetRecord(name, record.With(record.runtime.ResetRestarts()));
        var _ := Ask();
    }

    method Reset(selector: Selector)
      modifies this, table
      ensures Value() == Handlers.Reset(old(Value()), selector)
      ensures TableOk(old(table.records)) ==> Replies.ResetAnswered(old(Value()), Value(), selector)
    {
      if TableOk(table.records) {
        Replies.ResetAnswer(Value(), selector);
      }
      hide Replies.ResetAnswered, TableOk;
      hide FindBy, NamesOf, Handlers.ResetOne;
      if selector.All? {
        var names := NamesOf(table.records);
        ghost var s := Value();
        assert names[0..] == names;
        for i := 0 to |names|
          invariant ResetEach(Value(), names[i..]) == ResetEach(s, names)
        {
          ResetTurn(Value(), names, i);
          ResetOne(names[i]);
        }
        return;
      }
      match FindBy(table.records, selector)
      case None =>
      case Some(record) => ResetOne(record.runtime.name);
    }

    method PrepareShutdown()
      modifies this, timers
      ensures Value() == Handlers.PrepareShutdown(old(Value()))
      ensures timers.fires == map[] && timers.restarts == {} && table.records == old(table.records)
      ensures effects == old(effects) + [DisarmTimers(old(timers.fires.Keys)), CancelRestarts(old(timers.restarts))]
    {
      DisarmEverything();
      var _ := Ask();
    }
  }

  // ----- the turns of the batch loops -----

  /** What one name of a batch leads to. */
  datatype BatchTurn =
    | Halted(failed: bool)
    | Went(outcome: StartOutcome, deferred: seq<DeferredStart>, waits: set<Name>)

  function BatchStep(s: State, name: Name, specs: seq<Spec>, waiting: set<Name>, ports: Ports): (State, BatchTurn) {
    var waitingOn := WaitingDependencies(DependsOnOf(specs, name), waiting);
    if waitingOn != [] then
      match Find(s.records, name)
      case None => (Panic(s), Halted(false))
      case Some(record) =>
        (s, Went(StartOutcome(record.runtime.pmId, name, None, Deferred), [DeferredStart(name, waitingOn)], waiting + {name}))
    else
      var (tried, outcome) := LaunchOne(s, name, true, ports);
      (tried, if outcome.None? then Halted(true)
              else Went(outcome.value, [], if AwaitsReady(tried.records, name) then waiting + {name} else waiting))
  }

  /** A report, continued by the report on the rest of the batch. */
  function Joined(report: StartReport, rest: StartReport): StartReport {
    StartReport(report.outcomes + rest.outcomes, rest.failed, report.pending + rest.pending)
  }

  lemma BatchUnfolds(s: State, order: seq<Name>, i: nat, specs: seq<Spec>, waiting: set<Name>, ports: Ports)
    requires i < |order|
    ensures var (next, turn) := BatchStep(s, order[i], specs, waiting, ports);
            LaunchBatch(s, order[i..], specs, waiting, ports) ==
              match turn
              case Halted(failed) => (next, StartReport([], failed, []))
              case Went(outcome, deferred, waits) =>
                var (last, rest) := LaunchBatch(next, order[i + 1..], specs, waits, ports);
                (last, StartReport([outcome] + rest.outcomes, rest.failed, deferred + rest.pending))
  {
    hide Find, LaunchOne, DependsOnOf, AwaitsReady;
    assert order[i..][1..] == order[i + 1..];
    assert forall pending: seq<DeferredStart> :: [] + pending == pending;
  }

  lemma ReportFromNothing(rest: StartReport)
    ensures Joined(StartReport([], false, []), rest) == rest
  {
  }

  lemma ReportToNothing(report: StartReport)
    ensures Joined(report, StartReport([], false, [])) == report.(failed := false)
  {
  }

  lemma HaltedReport(report: StartReport, failed: bool)
    requires report.failed == failed
    ensures Joined(report, StartReport([], failed, [])) == report
  {
  }

  lemma JoinedTurn(report: StartReport, outcome: StartOutcome, deferred: seq<DeferredStart>, rest: StartReport)
    ensures Joined(report, StartReport([outcome] + rest.outcomes, rest.failed, deferred + rest.pending)) ==
            Joined(StartReport(report.outcomes + [outcome], false, report.pending + deferred), rest)
  {
    assert report.outcomes + ([outcome] + rest.outcomes) == (report.outcomes + [outcome]) + rest.outcomes;
    assert report.pending + (deferred + rest.pending) == (report.pending + deferred) + rest.pending;
  }

  lemma PrepareTurn(s: State, services: seq<Name>, i: nat, ports: Ports)
    requires i < |services|
    ensures var spec := Prepare(s, services[i], ports);
            PrepareAll(s, services[i..], ports) ==
              if spec.None? then (Tick(s), None)
              else
                var (last, rest) := PrepareAll(Tick(s), services[i + 1..], ports);
                (last, if rest.None? then None else Some([spec.value] + rest.value))
  {
    hide Prepare;
    assert services[i..][1..] == services[i + 1..];
  }

  /** What one service of `stop_all_apps` leads to. */
  datatype StopTurn = Lost | Passed(outcomes: seq<StopOutcome>)

  function StopStep(s: State, name: Name, ports: Ports): (State, StopTurn) {
    match Find(s.records, name)
    case None => (Panic(s), Lost)
    case Some(record) =>
      var runtime := record.runtime.DisarmSchedule().CancelRestart();
      var idle := SetRecord(s, name, record.With(runtime));
      if runtime.status.IsSettled() then (idle, Passed([]))
      else
        var (asked, outcome) := RequestStop(idle, name, ports);
        if outcome.None? then (SetRecord(asked, name, record.With(runtime.MarkStopping())), Passed([]))
        else (asked, Passed([outcome.value]))
  }

  lemma StopTurnUnfolds(s: State, order: seq<Name>, ports: Ports)
    requires order != []
    ensures var (next, turn) := StopStep(s, order[|order| - 1], ports);
            StopEach(s, order, ports) ==
              match turn
              case Lost => (next, [])
              case Passed(outcomes) =>
                var (last, more) := StopEach(next, order[..|order| - 1], ports);
                (last, outcomes + more)
  {
    hide Find, Put, RequestStop;
    assert forall more: seq<StopOutcome> :: [] + more == more;
  }

  lemma NobodyUpserted(records: seq<Record>, nowMs: nat)
    ensures UpsertAll(records, [], nowMs) == (records, [])
  {
  }

  lemma NobodyLaunched(s: State, specs: seq<Spec>, waiting: set<Name>, ports: Ports)
    ensures LaunchBatch(s, [], specs, waiting, ports) == (s, StartReport([], false, []))
  {
  }

  lemma NobodyWaits(waiters: Graph, name: Name)
    ensures AddWaits(waiters, name, []) == waiters
  {
  }

  lemma NobodyStopped(s: State, ports: Ports)
    ensures StopEach(s, [], ports) == (s, [])
  {
  }

  lemma SettleNone(records: seq<Record>, nowMs: nat)
    ensures SettleStability(records[..0], nowMs) + records[0..] == records
  {
  }

  lemma {:induction false} SettleAppend(records: seq<Record>, last: Record, nowMs: nat)
    ensures SettleStability(records + [last], nowMs) ==
            SettleStability(records, nowMs)
            + [if StabilityIsSettled(last, nowMs) then last.With(last.runtime.SettleStability()) else last]
  {
    hide StabilityIsSettled;
    if records != [] {
      assert (records + [last])[1..] == records[1..] + [last];
      SettleAppend(records[1..], last, nowMs);
    }
  }

  /** Settling one more record leaves the settled part, then the rest. */
  lemma SettleNext(records: seq<Record>, nowMs: nat, i: nat)
    requires i < |records|
    ensures var now := SettleStability(records[..i], nowMs) + records[i..];
            var settled := if StabilityIsSettled(records[i], nowMs) then records[i].With(records[i].runtime.SettleStability()) else records[i];
            && |now| == |records| && now[i] == records[i]
            && now[i := settled] == SettleStability(records[..i + 1], nowMs) + records[i + 1..]
            && now[i := records[i]] == now
  {
    hide StabilityIsSettled, SettleStability;
    assert records[..i + 1] == records[..i] + [records[i]];
    SettleAppend(records[..i], records[i], nowMs);
  }

  lemma CheckTurn(s: State, names: seq<Name>, i: nat, threshold: nat, ports: Ports)
    requires i < |names|
    ensures CheckLiveness(s, names[i..], threshold, ports) ==
            CheckLiveness(CheckStep(s, names[i], threshold, ports), names[i + 1..], threshold, ports)
  {
    hide RestartNow, HandToTheBreaker, Find, Put;
    assert names[i..][1..] == names[i + 1..];
  }

  lemma NobodyChecked(s: State, threshold: nat, ports: Ports)
    ensures CheckLiveness(s, [], threshold, ports) == s
  {
  }

  lemma NobodyDead(s: State)
    ensures FailDead(s, []) == (s, [])
  {
  }

  lemma NobodyListed(s: State, queue: seq<Name>, ports: Ports)
    ensures LaunchList(s, [], queue, ports) == (s, queue)
  {
  }

  lemma NobodyQueued(s: State, ports: Ports)
    ensures LaunchQueue(s, [], ports) == s
  {
  }
}
