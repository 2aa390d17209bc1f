/** Every command is calm for a service it does not name, and so a successful stop sticks. */
module StickyStop {
  import opened Graphs
  import opened Model
  import opened ProcessTable
  import opened Handlers
  import opened Coherence
  import opened CommandCoherence
  import opened Daemon
  import opened Sticky

  // ----- start -----

  lemma UpsertFindsOthers(records: seq<Record>, spec: Spec, nowMs: nat, n: Name)
    requires spec.name != n
    ensures Find(Upsert(records, spec, nowMs), n) == Find(records, n)
  {
    if !Has(records, spec.name) {
      FindInAppended(records, Record(spec, NewRuntime(LowestFreePmId(records), spec.name, nowMs)), n);
    }
  }

  /** A step that changes the table only, and there not `n`. */
  lemma TableStepIsCalm(s: State, after: seq<Record>, n: Name)
    requires Find(after, n) == Find(s.records, n)
    ensures Calm(s, s.(records := after), n)
  {
  }

  lemma {:induction false} UpsertAllFindsOthers(records: seq<Record>, specs: seq<Spec>, nowMs: nat, n: Name)
    requires !NamesInclude(specs, n)
    ensures Find(UpsertAll(records, specs, nowMs).0, n) == Find(records, n)
    ensures forall p <- UpsertAll(records, specs, nowMs).1 :: p.name != n
    decreases |specs|
  {
    if specs != [] {
      assert specs[0] in specs;
      UpsertFindsOthers(records, specs[0], nowMs, n);
      UpsertAllFindsOthers(Upsert(records, specs[0], nowMs), specs[1..], nowMs, n);
    }
  }

  lemma {:induction false} ForgetFindsOthers(records: seq<Record>, previous: seq<Prior>, outcomes: seq<StartOutcome>,
                                             nowMs: nat, n: Name)
    requires PriorsNamed(previous) && forall p <- previous :: p.name != n
    ensures Find(ForgetUnlaunched(records, previous, outcomes, nowMs), n) == Find(records, n)
    decreases |previous|
  {
    if previous != [] {
      var prior := previous[0];
      assert previous == [prior] + previous[1..];
      var undone :=
        if Outcome(outcomes, prior.name) then records
        else if prior.spec.Some? then Upsert(records, prior.spec.value, nowMs)
        else Remove(records, prior.name);
      if prior.spec.Some? {
        UpsertFindsOthers(records, prior.spec.value, nowMs, n);
      }
      ForgetFindsOthers(undone, previous[1..], outcomes, nowMs, n);
    }
  }

  predicate ReportAvoids(report: StartReport, n: Name) {
    && (forall o <- report.outcomes :: o.name != n)
    && (forall d <- report.pending :: d.name != n)
  }

  lemma {:induction false} LaunchBatchIsCalm(s: State, order: seq<Name>, specs: seq<Spec>, waiting: set<Name>,
                                             ports: Ports, n: Name)
    requires n !in order
    ensures Calm(s, LaunchBatch(s, order, specs, waiting, ports).0, n)
    ensures ReportAvoids(LaunchBatch(s, order, specs, waiting, ports).1, n)
    decreases |order|
  {
    if order != [] {
      var m := order[0];
      var waitingOn := WaitingDependencies(DependsOnOf(specs, m), waiting);
      if waitingOn != [] {
        LaunchBatchIsCalm(s, order[1..], specs, waiting + {m}, ports, n);
      } else {
        LaunchIsCalm(s, m, true, ports, n);
        LaunchedName(s, m, true, ports);
        var (tried, outcome) := LaunchOne(s, m, true, ports);
        if outcome.Some? {
          var waits := if AwaitsReady(tried.records, m) then waiting + {m} else waiting;
          LaunchBatchIsCalm(tried, order[1..], specs, waits, ports, n);
          CalmThen(s, tried, LaunchBatch(tried, order[1..], specs, waits, ports).0, n);
        }
      }
    }
  }

  lemma {:induction false} WatchAllIsCalm(s: State, outcomes: seq<StartOutcome>, n: Name)
    requires forall o <- outcomes :: o.name != n
    ensures Calm(s, WatchAll(s, outcomes), n)
    decreases |outcomes|
  {
    if outcomes != [] {
      WatchIsCalm(s, outcomes[0], n);
      WatchAllIsCalm(Watch(s, outcomes[0]), outcomes[1..], n);
      CalmThen(s, Watch(s, outcomes[0]), WatchAll(Watch(s, outcomes[0]), outcomes[1..]), n);
    }
  }

  lemma {:induction false} AddWaitsIsQuiet(waiters: Graph, m: Name, waitingOn: seq<Name>, n: Name)
    requires !StillWaiting(waiters, n) && m != n
    ensures !StillWaiting(AddWaits(waiters, m, waitingOn), n)
    decreases |waitingOn|
  {
    if waitingOn != [] {
      AddWaitsIsQuiet(AddWaiter(waiters, waitingOn[0], m), m, waitingOn[1..], n);
    }
  }

  lemma {:induction false} AddPendingIsQuiet(waiters: Graph, pending: seq<DeferredStart>, n: Name)
    requires !StillWaiting(waiters, n) && forall d <- pending :: d.name != n
    ensures !StillWaiting(AddPending(waiters, pending), n)
    decreases |pending|
  {
    if pending != [] {
      AddWaitsIsQuiet(waiters, pending[0].name, pending[0].waitingOn, n);
      AddPendingIsQuiet(AddWaits(waiters, pending[0].name, pending[0].waitingOn), pending[1..], n);
    }
  }

  lemma {:induction false} SettleStartedIsCalm(s: State, outcomes: seq<StartOutcome>, ports: Ports, n: Name)
    requires forall o <- outcomes :: o.name != n
    ensures Calm(s, SettleStarted(s, outcomes, ports), n)
    decreases |outcomes|
  {
    if outcomes != [] {
      var m := outcomes[0].name;
      CancelIsCalm(s, m, n);
      var cancelled := CancelQueuedRestart(s, m);
      ArmIsCalm(cancelled, m, ports, n);
      var next := if outcomes[0].kind.Deferred? then cancelled else ArmTimerFor(cancelled, m, ports);
      CalmThen(s, cancelled, ArmTimerFor(cancelled, m, ports), n);
      SettleStartedIsCalm(next, outcomes[1..], ports, n);
      CalmThen(s, next, SettleStarted(next, outcomes[1..], ports), n);
    }
  }

  lemma StartAppsIsCalm(s: State, specs: seq<Spec>, ports: Ports, before: set<ExitWatch>, from: nat, n: Name)
    requires Coherent(s, before, from, []) && RoomFor(s, |specs|) && !NamesInclude(specs, n)
    ensures Calm(s, StartApps(s, specs, ports).0, n) && ReportAvoids(StartApps(s, specs, ports).1, n)
  {
    var accepted := AcceptedOrder(s.records, specs, ports);
    if accepted.Some? {
      var order := accepted.value;
      var nowMs := ports.now(s.tick);
      UpsertAllKeeps(s, specs, nowMs, s.records, before, from);
      UpsertAllFindsOthers(s.records, specs, nowMs, n);
      var (registered, previous) := UpsertAll(s.records, specs, nowMs);
      var listed := s.(records := registered);
      TableStepIsCalm(s, registered, n);
      AsideIsCalm(listed, Tick(listed), n);
      CalmThen(s, listed, Tick(listed), n);
      LaunchBatchIsCalm(Tick(listed), order, specs, {}, ports, n);
      var (tried, report) := LaunchBatch(Tick(listed), order, specs, {}, ports);
      CalmThen(s, Tick(listed), tried, n);
      var after := if report.failed then ForgetUnlaunched(tried.records, previous, report.outcomes, nowMs) else tried.records;
      ForgetFindsOthers(tried.records, previous, report.outcomes, nowMs, n);
      var kept := tried.(records := after);
      TableStepIsCalm(tried, after, n);
      CalmThen(s, tried, kept, n);
      AsideIsCalm(kept, Tick(kept), n);
      CalmThen(s, kept, Tick(kept), n);
    }
  }

  lemma StartIsCalm(s: State, services: seq<Name>, ports: Ports, before: set<ExitWatch>, from: nat, n: Name)
    requires Coherent(s, before, from, []) && RoomFor(s, |services|) && n !in services
    ensures Calm(s, Start(s, services, ports), n)
  {
    PrepareAllKeeps(s, services, ports, before, from);
    var (asked, specs) := PrepareAll(s, services, ports);
    AsideIsCalm(s, asked, n);
    if specs.Some? {
      StartAppsIsCalm(asked, specs.value, ports, before, from, n);
      var (started, report) := StartApps(asked, specs.value, ports);
      CalmThen(s, asked, started, n);
      WatchAllIsCalm(started, report.outcomes, n);
      var watched := WatchAll(started, report.outcomes);
      CalmThen(s, started, watched, n);
      if Dormant(s, n) {
        AddPendingIsQuiet(watched.waiters, report.pending, n);
        var waiting := watched.(waiters := AddPending(watched.waiters, report.pending));
        AsideIsCalm(watched, waiting, n);
        CalmThen(s, watched, waiting, n);
        SettleStartedIsCalm(waiting, report.outcomes, ports, n);
        CalmThen(s, waiting, SettleStarted(waiting, report.outcomes, ports), n);
      }
    }
  }

  // ----- stop -----

  lemma ScheduleIsCalm(s: State, m: Name, pid: Option<nat>, token: Option<string>, n: Name)
    ensures Calm(s, ScheduleForceKillOf(s, m, pid, token), n)
  {
    hide Calm, Find, WatchesIn, StillWaiting;
    AsideIsCalm(s, ScheduleForceKillOf(s, m, pid, token), n);
  }

  lemma RetireIsCalm(s: State, m: Name, pid: Option<nat>, token: Option<string>, n: Name)
    ensures Calm(s, Retire(s, m, pid, token), n)
  {
    var disarmed := Disarm(s, m);
    CancelIsCalm(s, m, n);
    var cancelled := CancelQueuedRestart(disarmed, m);
    CancelIsCalm(disarmed, m, n);
    CalmThen(s, disarmed, cancelled, n);
    CancelReadyIsCalm(cancelled, m, n);
    var released := CancelReadyOf(cancelled, m);
    CalmThen(s, cancelled, released, n);
    ScheduleIsCalm(released, m, pid, token, n);
    CalmThen(s, released, Retire(s, m, pid, token), n);
  }

  lemma CoverIsCalm(s: State, selector: Selector, n: Name)
    ensures Calm(s, CoverDraining(s, selector), n)
  {
    var found := FindBy(s.records, selector);
    if found.Some? {
      hide Retire;
      RetireIsCalm(s, found.value.runtime.name, found.value.runtime.pid, found.value.runtime.Token(), n);
    }
  }

  lemma IdleIsCalm(s: State, m: Name, n: Name)
    requires Has(s.records, m)
    ensures var record := Find(s.records, m).value;
            Calm(s, SetRecord(s, m, record.With(record.runtime.DisarmSchedule().CancelRestart())), n)
  {
  }

  lemma StopAppIsCalm(s: State, selector: Selector, ports: Ports, n: Name)
    requires TableOk(s.records)
    ensures Calm(s, StopApp(s, selector, ports).0, n)
  {
    var found := FindBy(s.records, selector);
    if found.Some? {
      FindByIsFind(s.records, selector);
      var record := found.value;
      var m := record.runtime.name;
      IdleIsCalm(s, m, n);
      var idle := SetRecord(s, m, record.With(record.runtime.DisarmSchedule().CancelRestart()));
      RequestStopIsCalm(idle, m, ports, n);
      var (asked, outcome) := RequestStop(idle, m, ports);
      CalmThen(s, idle, asked, n);
      AsideIsCalm(asked, Tick(asked), n);
      CalmThen(s, asked, Tick(asked), n);
    }
  }

  /** A refused signal leaves the table alone. */
  lemma RefusedStopIsAside(s: State, m: Name, ports: Ports)
    requires RequestStop(s, m, ports).1.None?
    ensures RequestStop(s, m, ports).0.records == s.records
  {
  }

  lemma {:induction false} StopEachIsCalm(s: State, order: seq<Name>, ports: Ports, n: Name)
    ensures Calm(s, StopEach(s, order, ports).0, n)
    decreases |order|
  {
    if order != [] && Has(s.records, order[|order| - 1]) {
      var m := order[|order| - 1];
      var rest := order[..|order| - 1];
      var record := Find(s.records, m).value;
      var runtime := record.runtime.DisarmSchedule().CancelRestart();
      IdleIsCalm(s, m, n);
      var idle := SetRecord(s, m, record.With(runtime));
      if runtime.status.IsSettled() {
        StopEachIsCalm(idle, rest, ports, n);
        CalmThen(s, idle, StopEach(idle, rest, ports).0, n);
      } else {
        RequestStopIsCalm(idle, m, ports, n);
        var (asked, outcome) := RequestStop(idle, m, ports);
        CalmThen(s, idle, asked, n);
        var marked := SetRecord(asked, m, record.With(runtime.MarkStopping()));
        if outcome.None? {
          RefusedStopIsAside(idle, m, ports);
          assert Calm(s, marked, n) by {
            hide WatchesIn, StillWaiting;
          }
          StopEachIsCalm(marked, rest, ports, n);
          CalmThen(s, marked, StopEach(marked, rest, ports).0, n);
        } else {
          StopEachIsCalm(asked, rest, ports, n);
          CalmThen(s, asked, StopEach(asked, rest, ports).0, n);
        }
      }
    }
  }

  lemma {:induction false} ForceStoppedIsCalm(s: State, stopped: seq<StopOutcome>, n: Name)
    ensures Calm(s, ForceKillStopped(s, stopped), n)
    decreases |stopped|
  {
    if stopped != [] {
      var one := stopped[0];
      var next := ScheduleForceKillOf(s, one.name, one.forceKillPid, IdentityToken(s, one.name));
      ScheduleIsCalm(s, one.name, one.forceKillPid, IdentityToken(s, one.name), n);
      ForceStoppedIsCalm(next, stopped[1..], n);
      CalmThen(s, next, ForceKillStopped(next, stopped[1..]), n);
    }
  }

  lemma {:induction false} ForceUnsweptIsCalm(s: State, tracked: seq<nat>, stopped: seq<StopOutcome>, n: Name)
    ensures Calm(s, ForceKillUnswept(s, tracked, stopped), n)
    decreases |tracked|
  {
    if tracked != [] {
      if Covered(stopped, tracked[0]) {
        ForceUnsweptIsCalm(s, tracked[1..], stopped, n);
      } else {
        var (name, token) := OwnerOf(s.records, tracked[0]);
        var next := ScheduleForceKillOf(s, name, Some(tracked[0]), token);
        ScheduleIsCalm(s, name, Some(tracked[0]), token, n);
        ForceUnsweptIsCalm(next, tracked[1..], stopped, n);
        CalmThen(s, next, ForceKillUnswept(next, tracked[1..], stopped), n);
      }
    }
  }

  lemma {:induction false} CancelAllIsCalm(s: State, names: seq<Name>, n: Name)
    ensures Calm(s, CancelAll(s, names), n)
    decreases |names|
  {
    if names != [] {
      CancelReadyIsCalm(s, names[0], n);
      CancelAllIsCalm(CancelReadyOf(s, names[0]), names[1..], n);
      CalmThen(s, CancelReadyOf(s, names[0]), CancelAll(s, names), n);
    }
  }

  lemma DisarmAllIsCalm(s: State, n: Name)
    ensures Calm(s, DisarmEverything(s), n)
  {
    var cleared := s.(timers := s.timers.(fires := map[], restarts := {}));
    var first := Emit(cleared, DisarmTimers(s.timers.fires.Keys));
    AsideIsCalm(s, first, n);
    AsideIsCalm(first, DisarmEverything(s), n);
    CalmThen(s, first, DisarmEverything(s), n);
  }

  lemma StopAllIsCalm(s: State, ports: Ports, n: Name)
    ensures Calm(s, StopAll(s, ports), n)
  {
    var disarmed := DisarmEverything(s);
    DisarmAllIsCalm(s, n);
    var order := DependencyOrder(disarmed.records);
    StopEachIsCalm(disarmed, order, ports, n);
    var (asked, stopped) := StopEach(disarmed, order, ports);
    CalmThen(s, disarmed, asked, n);
    AfterStopEachIsCalm(s, asked, stopped, ports, n);
  }

  /** The rest of `stop_all` once every record is stopped: force kills and cancellations. */
  lemma AfterStopEachIsCalm(s: State, asked: State, stopped: seq<StopOutcome>, ports: Ports, n: Name)
    requires Calm(s, asked, n)
    ensures var scheduled := ForceKillStopped(Tick(asked), stopped);
            var cancelled := CancelAll(scheduled, NamesOf(scheduled.records));
            Calm(s, ForceKillUnswept(Tick(cancelled), ports.trackedPids(cancelled.tick), stopped), n)
  {
    AsideIsCalm(asked, Tick(asked), n);
    CalmThen(s, asked, Tick(asked), n);
    ForceStoppedIsCalm(Tick(asked), stopped, n);
    var scheduled := ForceKillStopped(Tick(asked), stopped);
    CalmThen(s, Tick(asked), scheduled, n);
    CancelAllIsCalm(scheduled, NamesOf(scheduled.records), n);
    var cancelled := CancelAll(scheduled, NamesOf(scheduled.records));
    CalmThen(s, scheduled, cancelled, n);
    AsideIsCalm(cancelled, Tick(cancelled), n);
    CalmThen(s, cancelled, Tick(cancelled), n);
    ForceUnsweptIsCalm(Tick(cancelled), ports.trackedPids(cancelled.tick), stopped, n);
    CalmThen(s, Tick(cancelled),
             ForceKillUnswept(Tick(cancelled), ports.trackedPids(cancelled.tick), stopped), n);
  }

  lemma StopCommandIsCalm(s: State, selector: Selector, ports: Ports, n: Name)
    requires TableOk(s.records)
    ensures Calm(s, Stop(s, selector, ports).0, n)
  {
    if selector.All? {
      StopAllIsCalm(s, ports, n);
    } else {
      StopAppIsCalm(s, selector, ports, n);
      var (tried, outcome) := StopApp(s, selector, ports);
      hide StopApp, Retire, CoverDraining, Calm, TableOk;
      if outcome.None? {
        CoverIsCalm(tried, selector, n);
        CalmThen(s, tried, CoverDraining(tried, selector), n);
      } else {
        var m := outcome.value.name;
        RetireIsCalm(tried, m, outcome.value.forceKillPid, IdentityToken(tried, m), n);
        CalmThen(s, tried, Retire(tried, m, outcome.value.forceKillPid, IdentityToken(tried, m)), n);
      }
    }
  }

  // ----- delete -----

  lemma DeleteOneIsCalm(s: State, m: Name, ports: Ports, before: set<ExitWatch>, from: nat, n: Name)
    requires Coherent(s, before, from, []) && Has(s.records, m)
    ensures Calm(s, DeleteOne(s, m, ports).0, n)
  {
    StopKeeps(s, m, ports, before, from);
    RequestStopIsCalm(s, m, ports, n);
    var (asked, outcome) := RequestStop(s, m, ports);
    if outcome.Some? {
      SameNamesHave(s, asked);
      var without := Remove(asked.records, m);
      RemoveKeepsTable(asked.records, m);
      if ports.save(asked.tick) {
        var removed := asked.(records := without);
        assert Calm(asked, removed, n);
        CalmThen(s, asked, removed, n);
        AsideIsCalm(removed, Tick(removed), n);
        CalmThen(s, removed, Tick(removed), n);
      } else {
        RestoreKeeps(asked, m, before, from);
        var restored := asked.(records := without + [Find(asked.records, m).value]);
        TableStepIsCalm(asked, restored.records, n);
        CalmThen(s, asked, restored, n);
        AsideIsCalm(restored, Tick(restored), n);
        CalmThen(s, restored, Tick(restored), n);
      }
    }
  }

  lemma DeleteStepIsCalm(s: State, m: Name, ports: Ports, before: set<ExitWatch>, from: nat, n: Name)
    requires Coherent(s, before, from, []) && Has(s.records, m)
    ensures Calm(s, DeleteStep(s, m, ports), n)
  {
    DeleteOneIsCalm(s, m, ports, before, from, n);
    hide DeleteOne, Calm, Retire, CoverDraining, Coherent;
    var (tried, outcome) := DeleteOne(s, m, ports);
    if outcome.None? {
      CoverIsCalm(tried, ByName(m), n);
    } else {
      RetireIsCalm(tried, outcome.value.name, outcome.value.forceKillPid, IdentityToken(s, m), n);
    }
    CalmThen(s, tried, DeleteStep(s, m, ports), n);
  }

  lemma {:induction false} DeleteEachIsCalm(s: State, order: seq<Name>, ports: Ports,
                                            before: set<ExitWatch>, from: nat, n: Name)
    requires Coherent(s, before, from, []) && AllHave(s.records, order) && NoDup(order)
    ensures Calm(s, DeleteEach(s, order, ports), n)
    decreases |order|
  {
    AsideIsCalm(s, s, n);
    if order != [] {
      var m := order[|order| - 1];
      var rest := order[..|order| - 1];
      assert m in order;
      DeleteStepKeeps(s, m, ports, before, from);
      DeleteStepIsCalm(s, m, ports, before, from, n);
      hide Calm, DeleteStep, Coherent;
      var settled := DeleteStep(s, m, ports);
      forall x <- rest ensures Has(settled.records, x) {
        assert x in order && x != m;
      }
      DeleteEachIsCalm(settled, rest, ports, before, from, n);
      CalmThen(s, settled, DeleteEach(settled, rest, ports), n);
    }
  }

  lemma DeleteIsCalm(s: State, selector: Selector, ports: Ports, before: set<ExitWatch>, from: nat, n: Name)
    requires Coherent(s, before, from, [])
    ensures Calm(s, Delete(s, selector, ports), n)
  {
    if selector.All? {
      OrderNamesRecords(s.records);
      DeleteEachIsCalm(s, DependencyOrder(s.records), ports, before, from, n);
    } else {
      var found := FindBy(s.records, selector);
      var (tried, outcome) := DeleteApp(s, selector, ports);
      if found.Some? && !HasDependents(s.records, found.value.runtime.name) {
        FindByIsFind(s.records, selector);
        DeleteOneIsCalm(s, found.value.runtime.name, ports, before, from, n);
      } else {
        AsideIsCalm(s, s, n);
      }
      hide DeleteApp, Calm, Retire, CoverDraining, Coherent;
      if outcome.None? {
        CoverIsCalm(tried, selector, n);
        CalmThen(s, tried, CoverDraining(tried, selector), n);
      } else {
        var m, pid, token := outcome.value.name, outcome.value.forceKillPid, TokenBy(s, selector);
        RetireIsCalm(tried, m, pid, token, n);
        CalmThen(s, tried, Retire(tried, m, pid, token), n);
      }
    }
  }

  // ----- restart and reset -----

  lemma RestartOneIsCalm(s: State, selector: Selector, ports: Ports, n: Name)
    requires FindBy(s.records, selector).Some? ==> FindBy(s.records, selector).value.runtime.name != n
    ensures Calm(s, RestartOne(s, selector, ports), n)
  {
    RestartAppIsCalm(s, selector, ports, n);
    var (tried, outcome) := RestartApp(s, selector, ports);
    hide Calm, RestartApp, ArmTimerFor;
    if !outcome.Refused? {
      DispatchIsCalm(tried, outcome, n);
      var (dispatched, m) := DispatchRestart(tried, outcome);
      CalmThen(s, tried, dispatched, n);
      var cancelled := CancelQueuedRestart(dispatched, m);
      CancelIsCalm(dispatched, m, n);
      CalmThen(s, dispatched, cancelled, n);
      ArmIsCalm(cancelled, m, ports, n);
      CalmThen(s, cancelled, ArmTimerFor(cancelled, m, ports), n);
    }
  }

  lemma RestartCommandIsCalm(s: State, selector: Selector, ports: Ports, n: Name)
    requires TableOk(s.records) && !selector.All?
    requires FindBy(s.records, selector).Some? ==> FindBy(s.records, selector).value.runtime.name != n
    ensures Calm(s, RestartCommand(s, selector, ports), n)
  {
    var found := FindBy(s.records, selector);
    AsideIsCalm(s, s, n);
    AsideIsCalm(s, Tick(s), n);
    if found.Some? {
      var m := found.value.runtime.name;
      var prepared := Prepare(s, m, ports);
      if prepared.Some? {
        var updated := found.value.(spec := prepared.value);
        var reloaded := SetRecord(Tick(s), m, updated);
        EditIsCalm(Tick(s), m, updated, n);
        CalmThen(s, Tick(s), reloaded, n);
        FindByAfterPut(s.records, selector, updated);
        RestartOneIsCalm(reloaded, selector, ports, n);
        CalmThen(s, reloaded, RestartOne(reloaded, selector, ports), n);
      }
    }
  }

  /** A change in place that keeps name and id leaves the selector pointing at the same record. */
  lemma {:induction false} FindByAfterPut(records: seq<Record>, selector: Selector, updated: Record)
    requires NoDup(NamesOf(records)) && FindBy(records, selector).Some?
    requires updated.runtime.name == FindBy(records, selector).value.runtime.name
    requires updated.runtime.pmId == FindBy(records, selector).value.runtime.pmId
    ensures FindBy(Put(records, updated.runtime.name, updated), selector) == Some(updated)
  {
    var m := updated.runtime.name;
    if Matches(selector, records[0]) {
      assert Put(records, m, updated) == [updated] + records[1..];
    } else {
      NamesSplit(records);
      FindByAfterPut(records[1..], selector, updated);
      assert Put(records, m, updated)[1..] == Put(records[1..], m, updated);
    }
  }

  lemma ResetOneIsCalm(s: State, m: Name, n: Name)
    ensures Calm(s, ResetOne(s, m), n)
  {
    hide WatchesIn, StillWaiting;
  }

  lemma {:induction false} ResetEachIsCalm(s: State, names: seq<Name>, n: Name)
    ensures Calm(s, ResetEach(s, names), n)
    decreases |names|
  {
    if names != [] {
      ResetOneIsCalm(s, names[0], n);
      ResetEachIsCalm(ResetOne(s, names[0]), names[1..], n);
      CalmThen(s, ResetOne(s, names[0]), ResetEach(s, names), n);
    }
  }

  lemma ResetIsCalm(s: State, selector: Selector, n: Name)
    ensures Calm(s, Reset(s, selector), n)
  {
    AsideIsCalm(s, s, n);
    if selector.All? {
      ResetEachIsCalm(s, NamesOf(s.records), n);
    } else if FindBy(s.records, selector).Some? {
      ResetOneIsCalm(s, FindBy(s.records, selector).value.runtime.name, n);
    }
  }

  // ----- whole runs -----

  /** The commands that may spawn `n` again: a start or a restart that names it. */
  predicate Names(s: State, event: Event, n: Name) {
    match event
    case StartServices(services) => n in services
    case RestartService(selector) =>
      selector.All? || (FindBy(s.records, selector).Some? && FindBy(s.records, selector).value.runtime.name == n)
    case _ => false
  }

  predicate RunAvoids(w: World, events: seq<Event>, ports: Ports, n: Name)
    decreases |events|
  {
    events != [] ==>
      !Names(w.sup, events[0], n) && RunAvoids(Step(w, events[0], ports), events[1..], ports, n)
  }

  lemma HandleIsCalm(w: World, event: Event, ports: Ports, n: Name)
    requires Inv(w) && Enabled(w, event) && !Names(w.sup, event, n)
    requires event.Exited? ==> event.watch.name != n
    ensures Calm(Begun(w), Handle(Begun(w), event, ports), n)
  {
    hide Calm, Start, Stop, StopAll, RestartCommand, Delete, Reset, OnExit, RestartNow, OnReady, OnReadyTimeout,
      OnMemorySample, OnLivenessSample, OnRestart, OnFire;
    var s, before, from := Begun(w), w.outstanding, |w.sup.launched|;
    AsideIsCalm(s, s, n);
    match event
    case StartServices(services) => StartIsCalm(s, services, ports, before, from, n);
    case StopService(selector) => StopCommandIsCalm(s, selector, ports, n);
    case StopEverything => StopAllIsCalm(s, ports, n);
    case RestartService(selector) => RestartCommandIsCalm(s, selector, ports, n);
    case DeleteService(selector) => DeleteIsCalm(s, selector, ports, before, from, n);
    case ResetService(selector) => ResetIsCalm(s, selector, n);
    case Exited(watch, outcome) => OnExitOfOtherIsCalm(s, watch.name, watch.generation, outcome, ports, n);
    case RestartDue(name) => OnRestartIsCalm(s, name, ports, n);
    case FireDue(name, at) => OnFireIsCalm(s, name, at, ports, n);
    case BecameReady(name, generation) => OnReadyIsCalm(s, name, generation, ports, n);
    case ReadyTimedOut(name, generation) => OnReadyTimeoutIsCalm(s, name, generation, ports, n);
    case SampleMemory => OnMemoryIsCalm(s, ports, n);
    case SampleLiveness(threshold) => OnLivenessIsCalm(s, threshold, ports, n);
    case Shutdown =>
      DisarmAllIsCalm(s, n);
      AsideIsCalm(DisarmEverything(s), PrepareShutdown(s), n);
      CalmThen(s, DisarmEverything(s), PrepareShutdown(s), n);
  }

  lemma OnRestartIsCalm(s: State, m: Name, ports: Ports, n: Name)
    ensures Calm(s, OnRestart(s, m, ports), n)
  {
    AsideIsCalm(s, s, n);
    if Dormant(s, n) && m in s.timers.restarts {
      var claimed := s.(timers := s.timers.(restarts := s.timers.restarts - {m}));
      AsideIsCalm(s, claimed, n);
      RestartNowIsCalm(claimed, m, ports, n);
      CalmThen(s, claimed, RestartNow(claimed, m, ports), n);
    }
  }

  lemma OnFireIsCalm(s: State, m: Name, at: nat, ports: Ports, n: Name)
    ensures Calm(s, OnFire(s, m, at, ports), n)
  {
    AsideIsCalm(s, s, n);
    if Dormant(s, n) && s.timers.FireIsDue(m, at) {
      RestartNowIsCalm(s, m, ports, n);
    }
  }

  /** An exit watch that outlived the deletion of its record and is current for the new one. */
  ghost predicate Orphaned(w: World, n: Name) {
    && Has(w.sup.records, n)
    && !Unsettled(w.sup.records, n)
    && Find(w.sup.records, n).value.spec.autorestart
    && exists watch <- w.outstanding :: watch.name == n && w.sup.timers.IsCurrent(n, watch.generation)
  }

  /** Settling a dormant record whose watch answers: it is never restarted unless it was orphaned. */
  lemma ClassifyDormant(record: Record, outcome: ExitOutcome, nowMs: nat)
    requires !record.runtime.pendingRestart
    requires record.runtime.status.Stopping? || (record.runtime.status.IsSettled() && !record.spec.autorestart)
    ensures ClassifyExit(record, outcome, nowMs).1.Settled?
    ensures !ClassifyExit(record, outcome, nowMs).0.runtime.pendingRestart
  {
  }

  lemma ExitOfDormant(s: State, n: Name, generation: nat, outcome: ExitOutcome, ports: Ports)
    requires Dormant(s, n) && s.timers.IsCurrent(n, generation)
    requires Has(s.records, n) ==> Unsettled(s.records, n) || !Find(s.records, n).value.spec.autorestart
    ensures var next := OnExit(s, n, generation, outcome, ports);
            Dormant(next, n) && Untouched(s, next, n)
  {
    if Has(s.records, n) {
      var cancelled := Emit(s, CancelForceKill(n));
      AsideIsCalm(s, cancelled, n);
      var record := Find(s.records, n).value;
      if n in s.readyFailed {
        var updated := record.With(record.runtime.MarkExited(Errored));
        SettledStaysDormant(cancelled.(readyFailed := s.readyFailed - {n}), n, updated);
      } else {
        ClassifyIsHonest(record, outcome, ports.now(s.tick));
        ClassifyDormant(record, outcome, ports.now(s.tick));
        var (settled, action) := ClassifyExit(record, outcome, ports.now(s.tick));
        SettledStaysDormant(cancelled, n, settled);
        FailIsCalm(Tick(SetRecord(cancelled, n, settled)), n, n);
      }
    }
  }

  lemma SettledStaysDormant(s: State, n: Name, updated: Record)
    requires Dormant(s, n) && Has(s.records, n) && updated.runtime.name == n
    requires updated.runtime.status.IsSettled() && !updated.runtime.pendingRestart
    ensures Dormant(Tick(SetRecord(s, n, updated)), n) && Untouched(s, Tick(SetRecord(s, n, updated)), n)
  {
  }

  lemma HandleCases(s: State, ports: Ports)
    ensures forall selector :: Handle(s, StopService(selector), ports) == Stop(s, selector, ports).0
    ensures forall watch, outcome ::
              Handle(s, Exited(watch, outcome), ports) == OnExit(s, watch.name, watch.generation, outcome, ports)
    ensures forall name :: Handle(s, RestartDue(name), ports) == OnRestart(s, name, ports)
  {
    hide Stop, Start, StopAll, RestartCommand, Delete, Reset, OnExit, OnRestart, OnFire, OnReady, OnReadyTimeout,
      OnMemorySample, OnLivenessSample, PrepareShutdown;
  }

  lemma StepStaysDormant(w: World, event: Event, ports: Ports, n: Name)
    requires Inv(w) && Enabled(w, event) && FewLaunches(w) && !Names(w.sup, event, n)
    requires Dormant(w.sup, n) && !Orphaned(w, n)
    ensures var next := Step(w, event, ports);
            && Dormant(next.sup, n) && !Orphaned(next, n)
            && w.sup.launched <= next.sup.launched && NoLaunchOf(next.sup.launched, |w.sup.launched|, n)
  {
    var s := Begun(w);
    assert Dormant(s, n);
    assert LiveWatches(s, w.outstanding) == w.outstanding;
    assert GenerationsOk(s.timers, w.outstanding);
    if event.Exited? && event.watch.name == n {
      HandleCases(s, ports);
      hide Handle, Coherent;
      var watch := event.watch;
      if s.timers.IsCurrent(n, watch.generation) {
        ExitOfDormant(s, n, watch.generation, event.outcome, ports);
      } else {
        StaleExitIsIgnored(s, watch, event.outcome, ports);
      }
    } else {
      HandleIsCalm(w, event, ports, n);
      hide Handle, Coherent;
      CalmStepKeepsOrphans(w, event, ports, n);
    }
  }

  lemma StaleExitIsIgnored(s: State, watch: ExitWatch, outcome: ExitOutcome, ports: Ports)
    requires !s.timers.IsCurrent(watch.name, watch.generation)
    ensures OnExit(s, watch.name, watch.generation, outcome, ports) == s
  {
  }

  lemma CalmStepKeepsOrphans(w: World, event: Event, ports: Ports, n: Name)
    requires Calm(Begun(w), Handle(Begun(w), event, ports), n) && Dormant(w.sup, n) && !Orphaned(w, n)
    ensures var next := Step(w, event, ports);
            && Dormant(next.sup, n) && !Orphaned(next, n)
            && w.sup.launched <= next.sup.launched && NoLaunchOf(next.sup.launched, |w.sup.launched|, n)
  {
    hide Handle;
    assert Dormant(Begun(w), n);
  }

  lemma {:induction false} RunStaysDormant(w: World, events: seq<Event>, ports: Ports, n: Name)
    requires Inv(w) && EnabledRun(w, events, ports) && RunAvoids(w, events, ports, n)
    requires FewLaunches(Run(w, events, ports))
    requires Dormant(w.sup, n) && !Orphaned(w, n)
    ensures w.sup.launched <= Run(w, events, ports).sup.launched
    ensures NoLaunchOf(Run(w, events, ports).sup.launched, |w.sup.launched|, n)
    decreases |events|
  {
    if events != [] {
      RunKeeps(w, events, ports);
      var next := Step(w, events[0], ports);
      StepKeeps(w, events[0], ports);
      RunKeeps(next, events[1..], ports);
      StepStaysDormant(w, events[0], ports, n);
      RunStaysDormant(next, events[1..], ports, n);
      var last := Run(next, events[1..], ports).sup.launched;
      forall i | |w.sup.launched| <= i < |last| ensures last[i].name != n {
        if i < |next.sup.launched| {
          assert last[i] == next.sup.launched[i];
        }
      }
    }
  }

  // ----- a successful stop makes the service dormant -----

  /** Retiring clears every queue of `n` and takes it off every waiting list. */
  lemma RetireMakesDormant(s: State, n: Name, pid: Option<nat>, token: Option<string>)
    requires DormantRecord(s.records, n)
    ensures Dormant(Retire(s, n, pid, token), n)
    ensures n !in Retire(s, n, pid, token).readyFailed
    ensures SameStanding(s.records, Retire(s, n, pid, token).records, n)
    ensures Untouched(s, Retire(s, n, pid, token), n)
    ensures Has(s.records, n) ==> Has(Retire(s, n, pid, token).records, n)
  {
    var cancelled := CancelQueuedRestart(Disarm(s, n), n);
    var forgotten := cancelled.(readyFailed := s.readyFailed - {n}, waiters := ForgetWaiter(s.waiters, n));
    assert Dormant(forgotten, n);
    assert Untouched(s, forgotten, n);
    FailIsCalm(forgotten, n, n);
    FailKeepsNames(forgotten, n);
    FailKeepsFailed(forgotten, n);
    var failed := FailDownstream(forgotten, n).0;
    assert Calm(forgotten, failed, n);
    var released := Emit(failed, CancelReady(n));
    AsideIsCalm(failed, released, n);
    CalmThen(forgotten, failed, released, n);
    ScheduleIsCalm(released, n, pid, token, n);
    CalmThen(forgotten, released, Retire(s, n, pid, token), n);
  }

  lemma ErrorKeepsRest(s: State, m: Name, n: Name)
    ensures Has(MarkErroredIfSettled(s, m).records, n) <==> Has(s.records, n)
    ensures MarkErroredIfSettled(s, m).readyFailed == s.readyFailed
  {
    hide Find, Put;
  }

  lemma {:induction false} FailDeadKeepsRest(s: State, dead: seq<Name>, n: Name)
    ensures Has(FailDead(s, dead).0.records, n) <==> Has(s.records, n)
    ensures FailDead(s, dead).0.readyFailed == s.readyFailed
    decreases |s.waiters|, |dead|
  {
    hide ForgetWaiter, MarkErroredIfSettled;
    if dead != [] {
      var doomed := dead[|dead| - 1];
      var forgotten := ForgetWaiter(s.waiters, doomed);
      var marked := MarkErroredIfSettled(s.(waiters := forgotten), doomed);
      ErrorKeepsRest(s.(waiters := forgotten), doomed, n);
      ForgetShrinks(s.waiters, doomed);
      ForgetShrinks(forgotten, doomed);
      FailDeadKeepsRest(marked.(waiters := forgotten - {doomed}), dead[..|dead| - 1] + WaitersOf(forgotten, doomed), n);
    }
  }

  lemma FailKeepsNames(s: State, n: Name)
    ensures Has(FailDownstream(s, n).0.records, n) <==> Has(s.records, n)
  {
    FailDeadKeepsRest(s.(waiters := s.waiters - {n}), WaitersOf(s.waiters, n), n);
  }

  lemma FailKeepsFailed(s: State, n: Name)
    ensures FailDownstream(s, n).0.readyFailed == s.readyFailed
  {
    FailDeadKeepsRest(s.(waiters := s.waiters - {n}), WaitersOf(s.waiters, n), n);
  }

  /** What a stop leaves before it retires the service: the same standing, and nothing requested. */
  ghost predicate StoppedButQueued(s: State, tried: State, n: Name) {
    && Has(s.records, n) && Has(tried.records, n) && DormantRecord(tried.records, n)
    && Find(tried.records, n).value.spec == Find(s.records, n).value.spec
    && (Unsettled(tried.records, n) <==> Unsettled(s.records, n))
    && tried.timers == s.timers && tried.launched == s.launched && tried.effects == s.effects
  }

  lemma StopsOne(s: State, idle: State, record: Record, still: Record, n: Name, ports: Ports)
    requires Find(s.records, n) == Some(record) && RecordOk(record) && record.runtime.name == n
    requires still == record.With(record.runtime.DisarmSchedule().CancelRestart())
    requires idle == SetRecord(s, n, still) && RequestStop(idle, n, ports).1.Some?
    ensures StoppedButQueued(s, Tick(RequestStop(idle, n, ports).0), n)
    ensures RequestStop(idle, n, ports).1.value.name == n
  {
    hide Find, Put, RequestStop;
    assert Find(idle.records, n) == Some(still);
    RequestStopEdits(idle, n, ports);
    var asked := RequestStop(idle, n, ports).0;
    assert Find(asked.records, n) == Some(still.With(AskedToStop(still.runtime)));
  }

  lemma StopAppStops(s: State, selector: Selector, ports: Ports, n: Name)
    requires TableOk(s.records) && StopApp(s, selector, ports).1.Some?
    requires FindBy(s.records, selector).Some? && FindBy(s.records, selector).value.runtime.name == n
    ensures StoppedButQueued(s, StopApp(s, selector, ports).0, n) && StopApp(s, selector, ports).1.value.name == n
  {
    FindByIsFind(s.records, selector);
    var record := FindBy(s.records, selector).value;
    assert Has(s.records, n) && RecordOk(record);
    hide TableOk, FindBy, RequestStop, StoppedButQueued, SetRecord, Find;
    var still := record.With(record.runtime.DisarmSchedule().CancelRestart());
    StopsOne(s, SetRecord(s, n, still), record, still, n, ports);
  }

  /** A successful stop is a request to one record, a save, and a retirement. */
  lemma StopIsRetirement(s: State, selector: Selector, ports: Ports, n: Name)
    returns (tried: State, pid: Option<nat>, token: Option<string>)
    requires TableOk(s.records) && !selector.All? && Stop(s, selector, ports).1
    requires FindBy(s.records, selector).Some? && FindBy(s.records, selector).value.runtime.name == n
    ensures Stop(s, selector, ports).0 == Retire(tried, n, pid, token)
    ensures StoppedButQueued(s, tried, n)
  {
    hide StopApp, Retire, CoverDraining, StopAll, StoppedButQueued;
    StopAppStops(s, selector, ports, n);
    var (stopped, outcome) := StopApp(s, selector, ports);
    tried, pid, token := stopped, outcome.value.forceKillPid, IdentityToken(stopped, n);
  }

  /** What a successful stop of one service leaves: dormant, and orphaned exactly when it was before. */
  lemma StopMakesDormant(w: World, selector: Selector, ports: Ports, n: Name)
    requires Inv(w) && !selector.All? && Stop(Begun(w), selector, ports).1
    requires FindBy(w.sup.records, selector).Some? && FindBy(w.sup.records, selector).value.runtime.name == n
    ensures var next := Step(w, StopService(selector), ports);
            && Dormant(next.sup, n)
            && n !in next.sup.readyFailed
            && (Orphaned(next, n) <==> Orphaned(w, n))
            && next.sup.launched == w.sup.launched
  {
    hide Handle, Stop;
    var s := Begun(w);
    HandleCases(s, ports);
    var tried, pid, token := StopIsRetirement(s, selector, ports, n);
    RetireMakesDormant(tried, n, pid, token);
    RetireLaunchesNothing(tried, n, pid, token);
    var done := Handle(s, StopService(selector), ports);
    assert done == Retire(tried, n, pid, token);
    hide Retire, Coherent, Dormant, DormantRecord;
    assert WatchesIn(done.effects) == [];
    var next := Step(w, StopService(selector), ports);
    assert next.outstanding == w.outstanding;
    OrphanCarries(w, next, n);
  }

  lemma OrphanCarries(w: World, next: World, n: Name)
    requires next.outstanding == w.outstanding
    requires next.sup.timers.CurrentGeneration(n) == w.sup.timers.CurrentGeneration(n)
    requires Has(w.sup.records, n) && Has(next.sup.records, n)
    requires Find(next.sup.records, n).value.spec == Find(w.sup.records, n).value.spec
    requires Unsettled(next.sup.records, n) <==> Unsettled(w.sup.records, n)
    ensures Orphaned(next, n) <==> Orphaned(w, n)
  {
  }

  lemma {:induction false} FailDeadLaunchesNothing(s: State, dead: seq<Name>)
    ensures FailDead(s, dead).0.launched == s.launched && FailDead(s, dead).0.timers == s.timers
    ensures FailDead(s, dead).0.effects == s.effects
    decreases |s.waiters|, |dead|
  {
    hide Find, WatchesIn, ForgetWaiter;
    if dead != [] {
      DeadStepShrinks(s, dead);
      var (next, left) := DeadStep(s, dead);
      FailDeadLaunchesNothing(next, left);
    }
  }

  lemma RetireLaunchesNothing(s: State, n: Name, pid: Option<nat>, token: Option<string>)
    ensures Retire(s, n, pid, token).launched == s.launched
    ensures WatchesIn(Retire(s, n, pid, token).effects) == WatchesIn(s.effects)
  {
    var cancelled := CancelQueuedRestart(Disarm(s, n), n);
    var forgotten := cancelled.(readyFailed := s.readyFailed - {n}, waiters := ForgetWaiter(s.waiters, n));
    FailDeadLaunchesNothing(forgotten.(waiters := forgotten.waiters - {n}), WaitersOf(forgotten.waiters, n));
  }

  /**
   * Stop is sticky: after a stop that replied with success, no event sequence that neither starts nor
   * restarts `n` by name spawns it, provided no exit watch outlived a deletion of `n`.
   */
  lemma StopIsSticky(w: World, selector: Selector, events: seq<Event>, ports: Ports, n: Name)
    requires Inv(w) && !selector.All? && Stop(Begun(w), selector, ports).1
    requires FindBy(w.sup.records, selector).Some? && FindBy(w.sup.records, selector).value.runtime.name == n
    requires !Orphaned(w, n)
    requires var next := Step(w, StopService(selector), ports);
             EnabledRun(next, events, ports) && RunAvoids(next, events, ports, n) && FewLaunches(Run(next, events, ports))
    ensures var next := Step(w, StopService(selector), ports);
            NoLaunchOf(Run(next, events, ports).sup.launched, |w.sup.launched|, n)
  {
    StopMakesDormant(w, selector, ports, n);
    StepKeeps(w, StopService(selector), ports);
    RunStaysDormant(Step(w, StopService(selector), ports), events, ports, n);
  }

  /** The orphan's answer and the restart it queues. */
  function OrphanRun(watch: ExitWatch, n: Name): seq<Event> {
    [Exited(watch, Signalled), RestartDue(n)]
  }

  /** Answering an orphan queues a restart. */
  lemma OrphanAnswers(s: State, n: Name, generation: nat, ports: Ports)
    requires Dormant(s, n) && n !in s.readyFailed && s.timers.IsCurrent(n, generation)
    requires Has(s.records, n) && !Unsettled(s.records, n) && Find(s.records, n).value.spec.autorestart
    ensures var next := OnExit(s, n, generation, Signalled, ports);
            && n in next.timers.restarts
            && next.launched == s.launched
            && Has(next.records, n) && !Unsettled(next.records, n)
  {
    var record := Find(s.records, n).value;
    ClassifyIsHonest(record, Signalled, ports.now(s.tick));
    assert ClassifyExit(record, Signalled, ports.now(s.tick)).1.RestartAfter?;
  }

  lemma OrphanIsRevived(w: World, watch: ExitWatch, ports: Ports, n: Name)
    requires Dormant(w.sup, n) && n !in w.sup.readyFailed && watch in w.outstanding && watch.name == n
    requires Has(w.sup.records, n) && !Unsettled(w.sup.records, n) && Find(w.sup.records, n).value.spec.autorestart
    requires w.sup.timers.IsCurrent(n, watch.generation)
    requires forall t :: ports.spawn(t).Some?
    ensures var events := OrphanRun(watch, n);
            && EnabledRun(w, events, ports) && RunAvoids(w, events, ports, n)
            && |Run(w, events, ports).sup.launched| == |w.sup.launched| + 1
            && !NoLaunchOf(Run(w, events, ports).sup.launched, |w.sup.launched|, n)
  {
    var first := Step(w, Exited(watch, Signalled), ports);
    OrphanStep(w, watch, ports, n);
    RevivalStep(first, ports, n);
    hide Step, Dormant, Enabled, Names, NoLaunchOf;
    TwoSteps(w, Exited(watch, Signalled), RestartDue(n), ports);
    AvoidsTwo(w, Exited(watch, Signalled), RestartDue(n), ports, n);
    LaunchedOnce(w.sup.launched, Step(first, RestartDue(n), ports).sup.launched, n);
  }

  lemma SettledSpawns(s: State, n: Name, ports: Ports)
    requires Has(s.records, n) && !Unsettled(s.records, n) && ports.spawn(s.tick).Some?
    ensures var (next, outcome) := LaunchOne(s, n, false, ports);
            && next.launched == s.launched + [Launch(n, ports.spawn(s.tick).value.pid)]
            && outcome.Some? && outcome.value.name == n && MustWatch(outcome.value) && outcome.value.pid.Some?
  {
  }

  lemma OrphanStep(w: World, watch: ExitWatch, ports: Ports, n: Name)
    requires Dormant(w.sup, n) && n !in w.sup.readyFailed && watch in w.outstanding && watch.name == n
    requires Has(w.sup.records, n) && !Unsettled(w.sup.records, n) && Find(w.sup.records, n).value.spec.autorestart
    requires w.sup.timers.IsCurrent(n, watch.generation)
    ensures var next := Step(w, Exited(watch, Signalled), ports).sup;
            && n in next.timers.restarts && next.launched == w.sup.launched
            && Has(next.records, n) && !Unsettled(next.records, n)
  {
    HandleCases(Begun(w), ports);
    OrphanAnswers(Begun(w), n, watch.generation, ports);
    hide Handle, OnExit, Find, WatchesIn;
  }

  lemma RevivalStep(w: World, ports: Ports, n: Name)
    requires Has(w.sup.records, n) && !Unsettled(w.sup.records, n) && n in w.sup.timers.restarts
    requires forall t :: ports.spawn(t).Some?
    ensures exists pid :: Step(w, RestartDue(n), ports).sup.launched == w.sup.launched + [Launch(n, pid)]
  {
    var claimed := Begun(w).(timers := w.sup.timers.(restarts := w.sup.timers.restarts - {n}));
    RestartSpawns(claimed, n, ports);
    HandleCases(Begun(w), ports);
    hide Handle, RestartNow, Find, WatchesIn;
    assert Step(w, RestartDue(n), ports).sup == RestartNow(claimed, n, ports);
  }

  lemma AvoidsTwo(w: World, first: Event, second: Event, ports: Ports, n: Name)
    requires !Names(w.sup, first, n) && !Names(Step(w, first, ports).sup, second, n)
    ensures RunAvoids(w, [first, second], ports, n)
  {
    hide Step, Names;
    var next := Step(w, first, ports);
    assert [first, second][1..] == [second] && [second][1..] == [];
    assert RunAvoids(Step(next, second, ports), [], ports, n);
    assert RunAvoids(next, [second], ports, n);
  }

  lemma LaunchedOnce(before: seq<Launch>, after: seq<Launch>, n: Name)
    requires exists pid :: after == before + [Launch(n, pid)]
    ensures |after| == |before| + 1 && !NoLaunchOf(after, |before|, n)
  {
    assert after[|before|].name == n;
  }

  lemma RestartSpawns(s: State, n: Name, ports: Ports)
    requires Has(s.records, n) && !Unsettled(s.records, n) && forall t :: ports.spawn(t).Some?
    ensures RestartNow(s, n, ports).launched == s.launched + [Launch(n, ports.spawn(s.tick).value.pid)]
  {
    var cancelled := CancelQueuedRestart(s, n);
    FindByNameIsFind(s.records, n);
    SettledSpawns(cancelled, n, ports);
    var (launched, started) := LaunchOne(cancelled, n, false, ports);
    hide LaunchOne, ArmTimerFor, Watch, WatchesIn;
    var tried := Tick(launched);
    assert RestartApp(cancelled, ByName(n), ports) == (tried, Started(started.value));
    var w := WatchEffect(tried, started.value);
    ArmTimerIsAside(Watch(tried, started.value), n, ports);
  }

  lemma {:induction false} FindByNameIsFind(records: seq<Record>, n: Name)
    ensures FindBy(records, ByName(n)) == Find(records, n)
  {
    if records != [] {
      FindByNameIsFind(records[1..], n);
    }
  }

  /** Some run that neither starts nor restarts `n` by name launches it all the same. */
  ghost predicate Revivable(w: World, ports: Ports, n: Name) {
    exists events :: EnabledRun(w, events, ports) && RunAvoids(w, events, ports, n)
                     && FewLaunches(Run(w, events, ports))
                     && !NoLaunchOf(Run(w, events, ports).sup.launched, |w.sup.launched|, n)
  }

  /**
   * Exactly when a stop sticks: with a launcher that never refuses, a stopped service can come back
   * unasked if and only if, before the stop, it was settled, restarts automatically, and an exit watch
   * from before its deletion was still current for it.
   */
  lemma StopSticksUnlessOrphaned(w: World, selector: Selector, ports: Ports, n: Name)
    requires Inv(w) && !selector.All? && Stop(Begun(w), selector, ports).1
    requires FindBy(w.sup.records, selector).Some? && FindBy(w.sup.records, selector).value.runtime.name == n
    requires |w.sup.launched| + 1 < U64_MAX && forall t :: ports.spawn(t).Some?
    ensures Revivable(Step(w, StopService(selector), ports), ports, n) <==> Orphaned(w, n)
  {
    var next := Step(w, StopService(selector), ports);
    StopMakesDormant(w, selector, ports, n);
    if Orphaned(w, n) {
      var watch :| watch in next.outstanding && watch.name == n && next.sup.timers.IsCurrent(n, watch.generation);
      OrphanIsRevived(next, watch, ports, n);
    } else {
      forall events | EnabledRun(next, events, ports) && RunAvoids(next, events, ports, n)
                      && FewLaunches(Run(next, events, ports))
        ensures NoLaunchOf(Run(next, events, ports).sup.launched, |next.sup.launched|, n) {
        StopIsSticky(w, selector, events, ports, n);
      }
    }
  }

  // ----- stop all -----

  lemma DormantEdit(records: seq<Record>, m: Name, updated: Record, n: Name)
    requires Has(records, m) && updated.runtime.name == m
    requires if m == n then DormantRuntime(updated.runtime) else DormantRecord(records, n)
    ensures DormantRecord(Put(records, m, updated), n)
  {
  }

  lemma {:induction false} StopEachMakesDormant(s: State, order: seq<Name>, ports: Ports, n: Name)
    requires AllHave(s.records, order) && TableOk(s.records)
    requires n in order || DormantRecord(s.records, n)
    ensures DormantRecord(StopEach(s, order, ports).0.records, n)
    decreases |order|
  {
    hide TableOk, Find, Put, DormantRecord;
    if order != [] {
      var m, rest := order[|order| - 1], order[..|order| - 1];
      assert order == rest + [m];
      assert m in order;
      var record := Find(s.records, m).value;
      var runtime := record.runtime.DisarmSchedule().CancelRestart();
      var idle := SetRecord(s, m, record.With(runtime));
      HasPid(s.records, m);
      PutKeepsTable(s.records, m, record.With(runtime));
      SameNamesHave(s, idle);
      if runtime.status.IsSettled() {
        if n !in rest {
          DormantEdit(s.records, m, record.With(runtime), n);
        }
        StopEachMakesDormant(idle, rest, ports, n);
      } else {
        assert Find(idle.records, m) == Some(record.With(runtime));
        RequestStopEdits(idle, m, ports);
        var stopping := record.With(runtime.MarkStopping());
        var (asked, outcome) := RequestStop(idle, m, ports);
        var marked := if outcome.Some? then asked else SetRecord(asked, m, stopping);
        assert marked.records == Put(idle.records, m, stopping);
        PutKeepsTable(idle.records, m, stopping);
        SameNamesHave(idle, marked);
        if n !in rest {
          if n != m {
            DormantEdit(s.records, m, record.With(runtime), n);
          }
          DormantEdit(idle.records, m, stopping, n);
        }
        StopEachMakesDormant(marked, rest, ports, n);
      }
    }
  }

  lemma {:induction false} CancelAllEmpties(s: State, names: seq<Name>, n: Name)
    requires n in names || !StillWaiting(s.waiters, n)
    ensures !StillWaiting(CancelAll(s, names).waiters, n)
    decreases |names|
  {
    if names != [] {
      var m := names[0];
      if n != m && n !in names[1..] {
        assert n !in names;
      }
      if n == m || !StillWaiting(s.waiters, n) {
        CancelReadyFrees(s, m, n);
      }
      CancelAllEmpties(CancelReadyOf(s, m), names[1..], n);
    }
  }

  lemma CancelReadyFrees(s: State, m: Name, n: Name)
    requires n == m || !StillWaiting(s.waiters, n)
    ensures !StillWaiting(CancelReadyOf(s, m).waiters, n)
  {
    var forgotten := ForgetWaiter(s.waiters, m);
    assert !StillWaiting(forgotten, n);
    FailDeadFrees(s.(readyFailed := s.readyFailed - {m}, waiters := forgotten - {m}), WaitersOf(forgotten, m), n);
  }

  lemma {:induction false} FailDeadFrees(s: State, dead: seq<Name>, n: Name)
    requires !StillWaiting(s.waiters, n)
    ensures !StillWaiting(FailDead(s, dead).0.waiters, n)
    decreases |s.waiters|, |dead|
  {
    if dead != [] {
      var doomed := dead[|dead| - 1];
      var forgotten := ForgetWaiter(s.waiters, doomed);
      var marked := MarkErroredIfSettled(s.(waiters := forgotten), doomed);
      ForgetShrinks(s.waiters, doomed);
      ForgetShrinks(forgotten, doomed);
      ForgetIsQuiet(s.waiters, doomed, n);
      ForgetIsQuiet(forgotten, doomed, n);
      FailDeadFrees(marked.(waiters := forgotten - {doomed}), dead[..|dead| - 1] + WaitersOf(forgotten, doomed), n);
    }
  }

  /** After `stop_all` every service is dormant. */
  lemma StopAllMakesDormant(w: World, ports: Ports, n: Name)
    requires Inv(w)
    ensures Dormant(StopAll(Begun(w), ports), n)
  {
    var s, before, from := Begun(w), w.outstanding, |w.sup.launched|;
    var disarmed := DisarmEverything(s);
    DisarmAllKeeps(s, before, from);
    OrderNamesRecords(disarmed.records);
    var order := DependencyOrder(disarmed.records);
    StopEachMakesDormant(disarmed, order, ports, n);
    StopEachKeeps(disarmed, order, ports, before, from);
    var (asked, stopped) := StopEach(disarmed, order, ports);
    StopEachLeavesQueues(disarmed, order, ports);
    DormantAfterCancelling(asked, stopped, ports, before, from, n);
  }

  lemma {:induction false} StopEachLeavesQueues(s: State, order: seq<Name>, ports: Ports)
    ensures StopEach(s, order, ports).0.timers == s.timers
    decreases |order|
  {
    hide Find, Put;
    if order != [] && Has(s.records, order[|order| - 1]) {
      var m := order[|order| - 1];
      var record := Find(s.records, m).value;
      var runtime := record.runtime.DisarmSchedule().CancelRestart();
      var idle := SetRecord(s, m, record.With(runtime));
      if runtime.status.IsSettled() {
        StopEachLeavesQueues(idle, order[..|order| - 1], ports);
      } else {
        var (asked, outcome) := RequestStop(idle, m, ports);
        StopEachLeavesQueues(if outcome.Some? then asked else SetRecord(asked, m, record.With(runtime.MarkStopping())),
                             order[..|order| - 1], ports);
      }
    }
  }

  lemma {:induction false} ForceStoppedLeaves(s: State, stopped: seq<StopOutcome>)
    ensures var next := ForceKillStopped(s, stopped);
            next.records == s.records && next.timers == s.timers && next.waiters == s.waiters
    decreases |stopped|
  {
    if stopped != [] {
      var one := stopped[0];
      ForceStoppedLeaves(ScheduleForceKillOf(s, one.name, one.forceKillPid, IdentityToken(s, one.name)), stopped[1..]);
    }
  }

  lemma DormantAfterCancelling(asked: State, stopped: seq<StopOutcome>, ports: Ports,
                               before: set<ExitWatch>, from: nat, n: Name)
    requires Coherent(asked, before, from, []) && DormantRecord(asked.records, n)
    requires n !in asked.timers.restarts && n !in asked.timers.fires
    ensures var scheduled := ForceKillStopped(Tick(asked), stopped);
            var cancelled := CancelAll(scheduled, NamesOf(scheduled.records));
            Dormant(ForceKillUnswept(Tick(cancelled), ports.trackedPids(cancelled.tick), stopped), n)
  {
    ForceStoppedLeaves(Tick(asked), stopped);
    var scheduled := ForceKillStopped(Tick(asked), stopped);
    var names := NamesOf(scheduled.records);
    HasIsMember(scheduled.records, n);
    WaitingHasRecord(scheduled, n);
    CancelAllEmpties(scheduled, names, n);
    CancelAllLeavesDormant(scheduled, names, n);
    var cancelled := CancelAll(scheduled, names);
    ForceUnsweptIsCalm(Tick(cancelled), ports.trackedPids(cancelled.tick), stopped, n);
    assert Dormant(Tick(cancelled), n);
  }

  lemma WaitingHasRecord(s: State, n: Name)
    requires WaitersKnown(s.records, s.waiters)
    ensures StillWaiting(s.waiters, n) ==> Has(s.records, n)
  {
  }

  lemma {:induction false} CancelAllLeavesDormant(s: State, names: seq<Name>, n: Name)
    requires DormantRecord(s.records, n)
    ensures DormantRecord(CancelAll(s, names).records, n) && CancelAll(s, names).timers == s.timers
    decreases |names|
  {
    if names != [] {
      var m := names[0];
      var forgotten := s.(readyFailed := s.readyFailed - {m}, waiters := ForgetWaiter(s.waiters, m));
      var taken := forgotten.(waiters := forgotten.waiters - {m});
      var dead := WaitersOf(forgotten.waiters, m);
      FailDeadLeavesDormant(taken, dead, n);
      FailDeadLaunchesNothing(taken, dead);
      CancelAllLeavesDormant(CancelReadyOf(s, m), names[1..], n);
    }
  }

  lemma {:induction false} FailDeadLeavesDormant(s: State, dead: seq<Name>, n: Name)
    requires DormantRecord(s.records, n)
    ensures DormantRecord(FailDead(s, dead).0.records, n)
    decreases |s.waiters|, |dead|
  {
    hide ForgetWaiter;
    if dead != [] {
      DeadStepShrinks(s, dead);
      var (next, left) := DeadStep(s, dead);
      ErrorLeavesDormant(s.(waiters := ForgetWaiter(s.waiters, dead[|dead| - 1])), dead[|dead| - 1], n);
      hide DormantRecord;
      FailDeadLeavesDormant(next, left, n);
    }
  }

  lemma ErrorLeavesDormant(s: State, name: Name, n: Name)
    requires DormantRecord(s.records, n)
    ensures DormantRecord(MarkErroredIfSettled(s, name).records, n)
  {
  }

  // ----- what stopping everything leaves standing -----

  /** `n` is on record as before, under its declaration, and settled or not as before. */
  predicate Stands(records: seq<Record>, next: seq<Record>, n: Name) {
    && (Has(next, n) <==> Has(records, n))
    && (Has(records, n) ==>
          && Find(next, n).value.spec == Find(records, n).value.spec
          && (Unsettled(next, n) <==> Unsettled(records, n)))
  }

  lemma EditStands(records: seq<Record>, m: Name, updated: Record, n: Name)
    requires Has(records, m) && updated.runtime.name == m && updated.spec == Find(records, m).value.spec
    requires updated.runtime.status.IsSettled() <==> !Unsettled(records, m)
    ensures Stands(records, Put(records, m, updated), n)
  {
  }

  lemma {:induction false} StopEachStands(s: State, order: seq<Name>, ports: Ports, n: Name)
    requires TableOk(s.records)
    ensures Stands(s.records, StopEach(s, order, ports).0.records, n)
    ensures StopEach(s, order, ports).0.effects == s.effects && StopEach(s, order, ports).0.launched == s.launched
    decreases |order|
  {
    hide Find, Stands, RequestStop, TableOk;
    if order == [] || !Has(s.records, order[|order| - 1]) {
      StandsStill(s.records, n);
    } else {
      var m, rest := order[|order| - 1], order[..|order| - 1];
      var record := Find(s.records, m).value;
      var runtime := record.runtime.DisarmSchedule().CancelRestart();
      var idle := SetRecord(s, m, record.With(runtime));
      EditStands(s.records, m, record.With(runtime), n);
      HasPid(s.records, m);
      PutKeepsTable(s.records, m, record.With(runtime));
      if runtime.status.IsSettled() {
        StopEachStands(idle, rest, ports, n);
        StandsThrough(s.records, idle.records, StopEach(idle, rest, ports).0.records, n);
      } else {
        var (asked, outcome) := RequestStop(idle, m, ports);
        assert Find(idle.records, m) == Some(record.With(runtime));
        RequestStopEdits(idle, m, ports);
        var marked := if outcome.Some? then asked else SetRecord(asked, m, record.With(runtime.MarkStopping()));
        PutKeepsTable(idle.records, m, record.With(runtime.MarkStopping()));
        EditStands(idle.records, m, record.With(runtime.MarkStopping()), n);
        StopEachStands(marked, rest, ports, n);
        StandsThrough(s.records, idle.records, marked.records, n);
        StandsThrough(s.records, marked.records, StopEach(marked, rest, ports).0.records, n);
      }
    }
  }

  lemma HasPid(records: seq<Record>, m: Name)
    requires TableOk(records) && Has(records, m)
    ensures RecordOk(Find(records, m).value)
  {
  }

  lemma StandsStill(records: seq<Record>, n: Name)
    ensures Stands(records, records, n)
  {
  }

  lemma StandsThrough(records: seq<Record>, mid: seq<Record>, next: seq<Record>, n: Name)
    requires Stands(records, mid, n) && Stands(mid, next, n)
    ensures Stands(records, next, n)
  {
  }

  lemma ErrorStands(s: State, m: Name, n: Name)
    ensures Stands(s.records, MarkErroredIfSettled(s, m).records, n)
  {
    if Has(s.records, m) && !Unsettled(s.records, m) {
      var record := Find(s.records, m).value;
      EditStands(s.records, m, record.With(record.runtime.MarkExited(Errored)), n);
    }
  }

  lemma {:induction false} FailDeadStands(s: State, dead: seq<Name>, n: Name)
    ensures Stands(s.records, FailDead(s, dead).0.records, n)
    decreases |s.waiters|, |dead|
  {
    hide Stands, ForgetWaiter, MarkErroredIfSettled;
    if dead == [] {
      StandsStill(s.records, n);
    } else {
      DeadStepShrinks(s, dead);
      var (next, left) := DeadStep(s, dead);
      var trimmed := s.(waiters := ForgetWaiter(s.waiters, dead[|dead| - 1]));
      ErrorStands(trimmed, dead[|dead| - 1], n);
      FailDeadStands(next, left, n);
      StandsThrough(s.records, next.records, FailDead(next, left).0.records, n);
    }
  }

  /** What cancelling readiness leaves: the same standing, nothing queued, launched or watched. */
  ghost predicate Cancelled(s: State, next: State, names: set<Name>, n: Name) {
    && Stands(s.records, next.records, n) && next.timers == s.timers && next.launched == s.launched
    && WatchesIn(next.effects) == WatchesIn(s.effects) && next.readyFailed == s.readyFailed - names
  }

  lemma CancelReadyStands(s: State, m: Name, n: Name)
    ensures Cancelled(s, CancelReadyOf(s, m), {m}, n)
  {
    hide Stands, FailDead, ForgetWaiter, WatchesIn;
    var forgotten := s.(readyFailed := s.readyFailed - {m}, waiters := ForgetWaiter(s.waiters, m));
    var taken := forgotten.(waiters := forgotten.waiters - {m});
    var dead := WaitersOf(forgotten.waiters, m);
    FailDeadStands(taken, dead, n);
    FailDeadLaunchesNothing(taken, dead);
    FailDeadKeepsRest(taken, dead, n);
  }

  lemma {:induction false} CancelAllStands(s: State, names: seq<Name>, n: Name)
    ensures Cancelled(s, CancelAll(s, names), Elems(names), n)
    decreases |names|
  {
    hide Stands, CancelReadyOf, WatchesIn;
    if names == [] {
      StandsStill(s.records, n);
    } else {
      var m := names[0];
      var next := CancelReadyOf(s, m);
      CancelReadyStands(s, m, n);
      CancelAllStands(next, names[1..], n);
      StandsThrough(s.records, next.records, CancelAll(next, names[1..]).records, n);
      assert names == [m] + names[1..];
      assert s.readyFailed - {m} - Elems(names[1..]) == s.readyFailed - Elems(names);
    }
  }

  lemma {:induction false} ForceKillsAreAside(s: State, stopped: seq<StopOutcome>)
    ensures var next := ForceKillStopped(s, stopped); next == s.(effects := next.effects)
    ensures WatchesIn(ForceKillStopped(s, stopped).effects) == WatchesIn(s.effects)
    decreases |stopped|
  {
    hide WatchesIn, IdentityToken;
    if stopped != [] {
      var one := stopped[0];
      ForceKillsAreAside(ScheduleForceKillOf(s, one.name, one.forceKillPid, IdentityToken(s, one.name)), stopped[1..]);
    }
  }

  lemma {:induction false} SweepsAreAside(s: State, tracked: seq<nat>, stopped: seq<StopOutcome>)
    ensures var next := ForceKillUnswept(s, tracked, stopped); next == s.(effects := next.effects)
    ensures WatchesIn(ForceKillUnswept(s, tracked, stopped).effects) == WatchesIn(s.effects)
    decreases |tracked|
  {
    hide WatchesIn, OwnerOf, Covered;
    if tracked != [] {
      var (name, token) := OwnerOf(s.records, tracked[0]);
      SweepsAreAside(if Covered(stopped, tracked[0]) then s else ScheduleForceKillOf(s, name, Some(tracked[0]), token),
                     tracked[1..], stopped);
    }
  }

  lemma StopAllStands(s: State, ports: Ports, n: Name)
    requires TableOk(s.records)
    ensures var next := StopAll(s, ports);
            && Stands(s.records, next.records, n) && next.launched == s.launched
            && next.timers.CurrentGeneration(n) == s.timers.CurrentGeneration(n)
            && WatchesIn(next.effects) == WatchesIn(s.effects)
            && (Has(s.records, n) ==> n !in next.readyFailed)
  {
    hide Stands, StopEach, ForceKillStopped, CancelAll, ForceKillUnswept, DependencyOrder, TableOk, WatchesIn;
    var disarmed := DisarmEverything(s);
    StopEachStands(disarmed, DependencyOrder(disarmed.records), ports, n);
    StopEachLeavesQueues(disarmed, DependencyOrder(disarmed.records), ports);
    var (asked, stopped) := StopEach(disarmed, DependencyOrder(disarmed.records), ports);
    ForceKillsAreAside(Tick(asked), stopped);
    var scheduled := ForceKillStopped(Tick(asked), stopped);
    CancelAllStands(scheduled, NamesOf(scheduled.records), n);
    var cancelled := CancelAll(scheduled, NamesOf(scheduled.records));
    SweepsAreAside(Tick(cancelled), ports.trackedPids(cancelled.tick), stopped);
    StandsThrough(s.records, asked.records, cancelled.records, n);
    StandsMeans(s.records, asked.records, n);
    HasIsMember(asked.records, n);
  }

  lemma StandsMeans(records: seq<Record>, next: seq<Record>, n: Name)
    requires Stands(records, next, n)
    ensures Has(next, n) <==> Has(records, n)
  {
  }

  /** After `stop_all`: dormant, and orphaned exactly when it was before. */
  lemma StopAllStep(w: World, ports: Ports, n: Name)
    requires Inv(w)
    ensures var next := Step(w, StopEverything, ports);
            && Inv(next) && Dormant(next.sup, n) && next.sup.launched == w.sup.launched
            && (Orphaned(next, n) <==> Orphaned(w, n)) && (Orphaned(w, n) ==> n !in next.sup.readyFailed)
  {
    StopAllMakesDormant(w, ports, n);
    StopAllStands(Begun(w), ports, n);
    StepKeeps(w, StopEverything, ports);
    HandleStopAll(Begun(w), ports);
    hide Handle, Inv, StopAll, Dormant, WatchesIn, Orphaned, Find;
    var next := Step(w, StopEverything, ports);
    assert WatchesIn([]) == [] by { NoWatches(); }
    assert next.outstanding == w.outstanding by {
      hide Stands;
    }
    if Has(w.sup.records, n) {
      OrphanCarries(w, next, n);
    }
  }

  lemma NoWatches()
    ensures WatchesIn([]) == []
  {
  }

  lemma HandleStopAll(s: State, ports: Ports)
    ensures Handle(s, StopEverything, ports) == StopAll(s, ports)
  {
    hide StopAll;
  }

  /** Stopping everything is sticky for every service that was not orphaned. */
  lemma StopAllIsSticky(w: World, events: seq<Event>, ports: Ports, n: Name)
    requires Inv(w) && !Orphaned(w, n)
    requires var next := Step(w, StopEverything, ports);
             EnabledRun(next, events, ports) && RunAvoids(next, events, ports, n) && FewLaunches(Run(next, events, ports))
    ensures var next := Step(w, StopEverything, ports);
            NoLaunchOf(Run(next, events, ports).sup.launched, |w.sup.launched|, n)
  {
    hide Inv, Step, Dormant, Orphaned;
    StopAllStep(w, ports, n);
    RunStaysDormant(Step(w, StopEverything, ports), events, ports, n);
  }

  /**
   * Exactly when stopping everything sticks: with a launcher that never refuses, a service can come back
   * unasked if and only if an exit watch outlived its deletion before the stop.
   */
  lemma StopAllSticksUnlessOrphaned(w: World, ports: Ports, n: Name)
    requires Inv(w) && |w.sup.launched| + 1 < U64_MAX && forall t :: ports.spawn(t).Some?
    ensures Revivable(Step(w, StopEverything, ports), ports, n) <==> Orphaned(w, n)
  {
    StopAllStep(w, ports, n);
    hide Inv, Step, Dormant;
    var next := Step(w, StopEverything, ports);
    if Orphaned(w, n) {
      var watch :| watch in next.outstanding && watch.name == n && next.sup.timers.IsCurrent(n, watch.generation);
      OrphanIsRevived(next, watch, ports, n);
    } else {
      forall events | EnabledRun(next, events, ports) && RunAvoids(next, events, ports, n)
                      && FewLaunches(Run(next, events, ports))
        ensures NoLaunchOf(Run(next, events, ports).sup.launched, |next.sup.launched|, n) {
        StopAllIsSticky(w, events, ports, n);
      }
    }
  }
}
