/** The commands of usecases/src/supervisor_handlers.rs keep the invariant of module Coherence. */
module CommandCoherence {
  import opened Graphs
  import opened Model
  import opened ProcessTable
  import opened Handlers
  import opened Coherence

  // ----- start -----

  /** Every name one table has, the other has too. */
  ghost predicate HasAllOf(records: seq<Record>, older: seq<Record>) {
    forall n :: Has(older, n) ==> Has(records, n)
  }

  lemma UpsertKeeps(s: State, spec: Spec, nowMs: nat, before: set<ExitWatch>, from: nat, os: seq<StartOutcome>)
    requires Coherent(s, before, from, os) && |s.records| < U32_MAX && !MustWatchName(os, spec.name)
    ensures var next := s.(records := Upsert(s.records, spec, nowMs));
            && Coherent(next, before, from, os)
            && Has(next.records, spec.name)
            && HasAllOf(next.records, s.records)
            && |next.records| <= |s.records| + 1
            && (forall n :: Has(next.records, n) ==> Has(s.records, n) || n == spec.name)
  {
    UpsertKeepsTable(s.records, spec, nowMs);
    var next := s.(records := Upsert(s.records, spec, nowMs));
    match Find(s.records, spec.name)
    case Some(existing) =>
      EditKeeps(s, spec.name, existing.(spec := spec), before, from, os);
      SameNamesHave(s, next);
    case None =>
      var newcomer := Record(spec, NewRuntime(LowestFreePmId(s.records), spec.name, nowMs));
      FindInAppended(s.records, newcomer, spec.name);
      NewcomerKeeps(s, next, spec.name, before, from, os);
  }

  /** A settled newcomer, or a record that goes away, disturbs nobody else. */
  lemma NewcomerKeeps(s: State, next: State, name: Name, before: set<ExitWatch>, from: nat, os: seq<StartOutcome>)
    requires Coherent(s, before, from, os) && next == s.(records := next.records)
    requires TableOk(next.records) && !Unsettled(next.records, name) && !MustWatchName(os, name)
    requires forall n :: n != name ==> Find(next.records, n) == Find(s.records, n)
    requires WaitersKnown(next.records, s.waiters)
    ensures Coherent(next, before, from, os)
  {
    forall o <- os | MustWatch(o) ensures Holds(next.records, o) {
      assert Holds(s.records, o);
    }
    if next.timers.nextGeneration < U64_MAX {
      forall n | Unsettled(next.records, n) ensures ClaimsTheSame(s.records, next.records, n) {
      }
      ClaimsKeepWatches(s, next, LiveWatches(s, before), os);
    }
  }

  /** What `previous` remembers: nothing exactly for names the older table lacked. */
  ghost predicate Remembers(previous: seq<Prior>, older: seq<Record>) {
    forall p <- previous :: p.spec.None? ==> !Has(older, p.name)
  }

  ghost predicate PriorsNamed(previous: seq<Prior>) {
    forall p <- previous :: p.spec.Some? ==> p.spec.value.name == p.name
  }

  lemma {:induction false} UpsertAllKeeps(s: State, specs: seq<Spec>, nowMs: nat, older: seq<Record>,
                                          before: set<ExitWatch>, from: nat)
    requires Coherent(s, before, from, []) && |s.records| + |specs| < U32_MAX
    requires HasAllOf(s.records, older)
    ensures var (after, previous) := UpsertAll(s.records, specs, nowMs);
            && Coherent(s.(records := after), before, from, [])
            && HasAllOf(after, s.records)
            && |after| <= |s.records| + |specs|
            && |previous| == |specs|
            && (forall spec <- specs :: Has(after, spec.name))
            && Remembers(previous, older) && PriorsNamed(previous)
    decreases |specs|
  {
    CoherentKnows(s, before, from, []);
    hide Coherent, Upsert, TableOk, Find, PriorOf, Has, HasAllOf, Remembers, PriorsNamed;
    NoPriors(older);
    if specs != [] {
      UpsertKeeps(s, specs[0], nowMs, before, from, []);
      var next := s.(records := Upsert(s.records, specs[0], nowMs));
      HasThrough(next.records, s.records, older, specs[0].name);
      PriorIsNamed(s.records, specs[0].name, older);
      var (after, previous) := UpsertAll(next.records, specs[1..], nowMs);
      assert UpsertAll(s.records, specs, nowMs) == (after, [PriorOf(s.records, specs[0].name)] + previous);
      hide UpsertAll;
      UpsertAllKeeps(next, specs[1..], nowMs, older, before, from);
      HasThrough(after, next.records, s.records, specs[0].name);
      OneMoreSpec(after, specs);
      OneMorePrior(PriorOf(s.records, specs[0].name), previous, older);
    }
  }

  lemma OneMoreSpec(records: seq<Record>, specs: seq<Spec>)
    requires specs != [] && Has(records, specs[0].name) && forall spec <- specs[1..] :: Has(records, spec.name)
    ensures forall spec <- specs :: Has(records, spec.name)
  {
    hide Has;
    assert specs == [specs[0]] + specs[1..];
  }

  lemma NoPriors(older: seq<Record>)
    ensures Remembers([], older) && PriorsNamed([])
  {
  }

  lemma OneMorePrior(prior: Prior, rest: seq<Prior>, older: seq<Record>)
    requires Remembers(rest, older) && PriorsNamed(rest)
    requires prior.spec.None? ==> !Has(older, prior.name)
    requires prior.spec.Some? ==> prior.spec.value.name == prior.name
    ensures Remembers([prior] + rest, older) && PriorsNamed([prior] + rest)
  {
    hide Has;
  }

  lemma HasThrough(records: seq<Record>, middle: seq<Record>, older: seq<Record>, n: Name)
    requires HasAllOf(records, middle) && HasAllOf(middle, older)
    ensures HasAllOf(records, older) && (Has(middle, n) ==> Has(records, n))
  {
    hide Has;
  }

  lemma PriorIsNamed(records: seq<Record>, name: Name, older: seq<Record>)
    requires TableOk(records) && HasAllOf(records, older)
    ensures var prior := PriorOf(records, name);
            && (prior.spec.None? ==> !Has(older, prior.name))
            && (prior.spec.Some? ==> prior.spec.value.name == prior.name)
  {
  }

  lemma {:induction false} LaunchBatchKeeps(s: State, order: seq<Name>, specs: seq<Spec>, waiting: set<Name>, ports: Ports,
                                            before: set<ExitWatch>, from: nat, os: seq<StartOutcome>)
    requires Coherent(s, before, from, os) && AllHave(s.records, order)
    ensures var (next, report) := LaunchBatch(s, order, specs, waiting, ports);
            && Coherent(next, before, from, os + report.outcomes)
            && SameNames(s, next)
            && next.waiters == s.waiters
            && (forall d <- report.pending :: Outcome(report.outcomes, d.name))
    decreases |order|
  {
    if order == [] {
      assert os + [] == os;
    } else {
      var name := order[0];
      var waitingOn := WaitingDependencies(DependsOnOf(specs, name), waiting);
      if waitingOn != [] {
        var record := Find(s.records, name).value;
        var o := StartOutcome(record.runtime.pmId, name, None, Deferred);
        UnwatchedAppend(s, before, from, os, o);
        LaunchBatchKeeps(s, order[1..], specs, waiting + {name}, ports, before, from, os + [o]);
        var rest := LaunchBatch(s, order[1..], specs, waiting + {name}, ports).1;
        BatchGrows(os, o, rest);
      } else {
        LaunchKeeps(s, name, true, ports, before, from, os);
        var (tried, outcome) := LaunchOne(s, name, true, ports);
        SameNamesHave(s, tried);
        if outcome.None? {
          assert os + [] == os;
        } else {
          var waits := if AwaitsReady(tried.records, name) then waiting + {name} else waiting;
          LaunchBatchKeeps(tried, order[1..], specs, waits, ports, before, from, os + [outcome.value]);
          var rest := LaunchBatch(tried, order[1..], specs, waits, ports).1;
          BatchGrows(os, outcome.value, rest);
        }
      }
    }
  }

  lemma BatchGrows(os: seq<StartOutcome>, o: StartOutcome, rest: StartReport)
    ensures (os + [o]) + rest.outcomes == os + ([o] + rest.outcomes)
    ensures Outcome([o] + rest.outcomes, o.name)
    ensures forall n :: Outcome(rest.outcomes, n) ==> Outcome([o] + rest.outcomes, n)
  {
    assert o in [o] + rest.outcomes;
    forall n | Outcome(rest.outcomes, n) ensures Outcome([o] + rest.outcomes, n) {
      var p :| p in rest.outcomes && p.name == n;
      assert p in [o] + rest.outcomes;
    }
  }

  lemma RemoveKeeps(s: State, name: Name, older: seq<Record>, before: set<ExitWatch>, from: nat, os: seq<StartOutcome>)
    requires Coherent(s, before, from, os) && !MustWatchName(os, name)
    requires HasAllOf(s.records, older) && WaitersKnown(older, s.waiters) && !Has(older, name)
    ensures var next := s.(records := Remove(s.records, name));
            Coherent(next, before, from, os) && HasAllOf(next.records, older) && |next.records| <= |s.records|
  {
    RemoveKeepsTable(s.records, name);
    RemoveIsShorter(s.records, name);
    var next := s.(records := Remove(s.records, name));
    assert HasAllOf(next.records, older);
    WaitersStayKnown(older, next.records, s.waiters);
    NewcomerKeeps(s, next, name, before, from, os);
  }

  lemma RemoveIsShorter(records: seq<Record>, name: Name)
    ensures |Remove(records, name)| <= |records|
  {
  }

  lemma {:induction false} ForgetKeeps(s: State, previous: seq<Prior>, outcomes: seq<StartOutcome>, nowMs: nat,
                                       older: seq<Record>, before: set<ExitWatch>, from: nat)
    requires Coherent(s, before, from, outcomes) && |s.records| + |previous| < U32_MAX
    requires HasAllOf(s.records, older) && WaitersKnown(older, s.waiters)
    requires Remembers(previous, older) && PriorsNamed(previous)
    ensures var after := ForgetUnlaunched(s.records, previous, outcomes, nowMs);
            && Coherent(s.(records := after), before, from, outcomes)
            && HasAllOf(after, older)
            && (forall n :: Has(s.records, n) && Outcome(outcomes, n) ==> Has(after, n))
    decreases |previous|
  {
    if previous != [] {
      var prior := previous[0];
      assert previous == [prior] + previous[1..];
      if Outcome(outcomes, prior.name) {
        ForgetKeeps(s, previous[1..], outcomes, nowMs, older, before, from);
      } else if prior.spec.Some? {
        UpsertKeeps(s, prior.spec.value, nowMs, before, from, outcomes);
        ForgetKeeps(s.(records := Upsert(s.records, prior.spec.value, nowMs)), previous[1..], outcomes, nowMs,
                    older, before, from);
      } else {
        RemoveKeeps(s, prior.name, older, before, from, outcomes);
        ForgetKeeps(s.(records := Remove(s.records, prior.name)), previous[1..], outcomes, nowMs, older, before, from);
      }
    }
  }

  /** Room for the batch: the ids of the table stay within 32 bits. */
  predicate RoomFor(s: State, batch: nat) {
    |s.records| + 2 * batch < U32_MAX
  }

  lemma StartAppsKeeps(s: State, specs: seq<Spec>, ports: Ports, before: set<ExitWatch>, from: nat)
    requires Coherent(s, before, from, []) && RoomFor(s, |specs|)
    ensures var (next, report) := StartApps(s, specs, ports);
            && Coherent(next, before, from, report.outcomes)
            && next.waiters == s.waiters
            && (forall d <- report.pending :: Has(next.records, d.name))
            && HasAllOf(next.records, s.records)
  {
    var accepted := AcceptedOrder(s.records, specs, ports);
    if accepted.Some? {
      var order := accepted.value;
      var nowMs := ports.now(s.tick);
      UpsertAllKeeps(s, specs, nowMs, s.records, before, from);
      var (registered, previous) := UpsertAll(s.records, specs, nowMs);
      var ready := Tick(s.(records := registered));
      AsideKeeps(s.(records := registered), ready, before, from, []);
      BatchIsRegistered(registered, order, specs);
      LaunchBatchKeeps(ready, order, specs, {}, ports, before, from, []);
      var (tried, report) := LaunchBatch(ready, order, specs, {}, ports);
      assert [] + report.outcomes == report.outcomes;
      SameNamesHave(ready, tried);
      forall d <- report.pending ensures Outcome(report.outcomes, d.name) && Has(tried.records, d.name) {
        LaunchedAreInOrder(ready, order, specs, {}, ports, d.name);
      }
      var after := ForgetUnlaunched(tried.records, previous, report.outcomes, nowMs);
      if report.failed {
        ForgetKeeps(tried, previous, report.outcomes, nowMs, s.records, before, from);
        AsideKeeps(tried.(records := after), Tick(tried.(records := after)), before, from, report.outcomes);
      } else {
        AsideKeeps(tried, Tick(tried), before, from, report.outcomes);
      }
    }
  }

  lemma BatchIsRegistered(records: seq<Record>, order: seq<Name>, specs: seq<Spec>)
    requires forall n <- order :: NamesInclude(specs, n)
    requires forall spec <- specs :: Has(records, spec.name)
    ensures AllHave(records, order)
  {
    forall n <- order ensures Has(records, n) {
      var spec :| spec in specs && spec.name == n;
    }
  }

  lemma {:induction false} LaunchedAreInOrder(s: State, order: seq<Name>, specs: seq<Spec>, waiting: set<Name>,
                                              ports: Ports, name: Name)
    requires Outcome(LaunchBatch(s, order, specs, waiting, ports).1.outcomes, name)
    ensures name in order
    decreases |order|
  {
    if order != [] {
      var first := order[0];
      var waitingOn := WaitingDependencies(DependsOnOf(specs, first), waiting);
      if name != first {
        if waitingOn != [] {
          if Has(s.records, first) {
            LaunchedAreInOrder(s, order[1..], specs, waiting + {first}, ports, name);
          }
        } else {
          LaunchNames(s, first, true, ports);
          var (tried, outcome) := LaunchOne(s, first, true, ports);
          if outcome.Some? {
            var waits := if AwaitsReady(tried.records, first) then waiting + {first} else waiting;
            LaunchedAreInOrder(tried, order[1..], specs, waits, ports, name);
          }
        }
      }
    }
  }

  lemma LaunchNames(s: State, name: Name, register: bool, ports: Ports)
    ensures LaunchOne(s, name, register, ports).1.Some? ==> LaunchOne(s, name, register, ports).1.value.name == name
  {
  }

  lemma {:induction false} AddWaitsKnown(records: seq<Record>, waiters: Graph, deferred: Name, waitingOn: seq<Name>)
    requires WaitersKnown(records, waiters) && Has(records, deferred)
    ensures WaitersKnown(records, AddWaits(waiters, deferred, waitingOn))
    decreases |waitingOn|
  {
    if waitingOn != [] {
      AddWaitsKnown(records, AddWaiter(waiters, waitingOn[0], deferred), deferred, waitingOn[1..]);
    }
  }

  lemma {:induction false} AddPendingKnown(records: seq<Record>, waiters: Graph, pending: seq<DeferredStart>)
    requires WaitersKnown(records, waiters) && forall d <- pending :: Has(records, d.name)
    ensures WaitersKnown(records, AddPending(waiters, pending))
    decreases |pending|
  {
    if pending != [] {
      AddWaitsKnown(records, waiters, pending[0].name, pending[0].waitingOn);
      AddPendingKnown(records, AddWaits(waiters, pending[0].name, pending[0].waitingOn), pending[1..]);
    }
  }

  lemma {:induction false} SettleStartedKeeps(s: State, outcomes: seq<StartOutcome>, ports: Ports,
                                              before: set<ExitWatch>, from: nat)
    requires Coherent(s, before, from, [])
    ensures Coherent(SettleStarted(s, outcomes, ports), before, from, [])
    decreases |outcomes|
  {
    if outcomes != [] {
      var name := outcomes[0].name;
      var cancelled := CancelQueuedRestart(s, name);
      AsideKeeps(s, cancelled, before, from, []);
      ArmKeeps(cancelled, name, ports, before, from);
      SettleStartedKeeps(if outcomes[0].kind.Deferred? then cancelled else ArmTimerFor(cancelled, name, ports),
                         outcomes[1..], ports, before, from);
    }
  }

  lemma {:induction false} PrepareAllKeeps(s: State, services: seq<Name>, ports: Ports,
                                           before: set<ExitWatch>, from: nat)
    requires Coherent(s, before, from, [])
    ensures var (next, specs) := PrepareAll(s, services, ports);
            && Coherent(next, before, from, [])
            && next == s.(tick := next.tick)
            && (specs.Some? ==>
                  && |specs.value| == |services|
                  && forall i :: 0 <= i < |services| ==> specs.value[i].name == services[i])
    decreases |services|
  {
    if services != [] {
      AsideKeeps(s, Tick(s), before, from, []);
      PrepareAllKeeps(Tick(s), services[1..], ports, before, from);
    }
  }

  lemma StartKeeps(s: State, services: seq<Name>, ports: Ports, before: set<ExitWatch>, from: nat)
    requires Coherent(s, before, from, []) && RoomFor(s, |services|)
    ensures Coherent(Start(s, services, ports), before, from, [])
  {
    PrepareAllKeeps(s, services, ports, before, from);
    var (asked, specs) := PrepareAll(s, services, ports);
    if specs.Some? {
      StartAppsKeeps(asked, specs.value, ports, before, from);
      var (started, report) := StartApps(asked, specs.value, ports);
      WatchAllKeeps(started, before, from, report.outcomes);
      var watched := WatchAll(started, report.outcomes);
      SameNamesHave(started, watched);
      AddPendingKnown(watched.records, watched.waiters, report.pending);
      var waiting := watched.(waiters := AddPending(watched.waiters, report.pending));
      AsideKeeps(watched, waiting, before, from, []);
      SettleStartedKeeps(waiting, report.outcomes, ports, before, from);
    }
  }

  // ----- stop -----

  lemma RetireKeeps(s: State, name: Name, pid: Option<nat>, token: Option<string>, before: set<ExitWatch>, from: nat)
    requires Coherent(s, before, from, [])
    ensures Coherent(Retire(s, name, pid, token), before, from, []) && SameNames(s, Retire(s, name, pid, token))
  {
    hide WatchesIn, TableOk, Balanced, WatchesOk, CancelReadyOf;
    var disarmed := Disarm(s, name);
    AsideKeeps(s, disarmed, before, from, []);
    var cancelled := CancelQueuedRestart(disarmed, name);
    AsideKeeps(disarmed, cancelled, before, from, []);
    CancelReadyKeeps(cancelled, name, before, from);
    var released := CancelReadyOf(cancelled, name);
    AsideKeeps(released, ScheduleForceKillOf(released, name, pid, token), before, from, []);
  }

  lemma DrainingHasPid(s: State, selector: Selector)
    requires TableOk(s.records) && FindBy(s.records, selector).Some?
    requires FindBy(s.records, selector).value.runtime.status.IsShuttingDown()
    ensures FindBy(s.records, selector).value.runtime.pid.Some?
  {
    FindByIsFind(s.records, selector);
    assert Has(s.records, FindBy(s.records, selector).value.runtime.name);
  }

  lemma CoverKeeps(s: State, selector: Selector, before: set<ExitWatch>, from: nat)
    requires Coherent(s, before, from, [])
    ensures Coherent(CoverDraining(s, selector), before, from, []) && SameNames(s, CoverDraining(s, selector))
  {
    assert TableOk(s.records);
    hide Coherent, Retire, TableOk;
    if FindBy(s.records, selector).Some? {
      var record := FindBy(s.records, selector).value;
      if record.runtime.status.IsShuttingDown() {
        DrainingHasPid(s, selector);
        RetireKeeps(s, record.runtime.name, record.runtime.pid, record.runtime.Token(), before, from);
      }
    }
  }

  lemma IdleKeeps(s: State, name: Name, before: set<ExitWatch>, from: nat)
    requires Coherent(s, before, from, []) && Has(s.records, name)
    ensures var record := Find(s.records, name).value;
            var idle := SetRecord(s, name, record.With(record.runtime.DisarmSchedule().CancelRestart()));
            Coherent(idle, before, from, []) && SameNames(s, idle) && Has(idle.records, name)
  {
    var record := Find(s.records, name).value;
    EditKeeps(s, name, record.With(record.runtime.DisarmSchedule().CancelRestart()), before, from, []);
  }

  lemma TickKeeps(s: State, before: set<ExitWatch>, from: nat)
    requires Coherent(s, before, from, [])
    ensures Coherent(Tick(s), before, from, []) && SameNames(s, Tick(s))
  {
    AsideKeeps(s, Tick(s), before, from, []);
  }

  lemma FoundIsHeld(s: State, selector: Selector, before: set<ExitWatch>, from: nat)
    requires Coherent(s, before, from, []) && FindBy(s.records, selector).Some?
    ensures Find(s.records, FindBy(s.records, selector).value.runtime.name) == FindBy(s.records, selector)
  {
    FindByIsFind(s.records, selector);
  }

  lemma StopAppKeeps(s: State, selector: Selector, ports: Ports, before: set<ExitWatch>, from: nat)
    requires Coherent(s, before, from, [])
    ensures var next := StopApp(s, selector, ports).0; Coherent(next, before, from, []) && SameNames(s, next)
  {
    hide Coherent, RequestStop, Find, Put, FindBy, SetRecord;
    if FindBy(s.records, selector).Some? {
      var record := FindBy(s.records, selector).value;
      FoundIsHeld(s, selector, before, from);
      var name := record.runtime.name;
      IdleKeeps(s, name, before, from);
      var idle := SetRecord(s, name, record.With(record.runtime.DisarmSchedule().CancelRestart()));
      StopKeeps(idle, name, ports, before, from);
      var asked := RequestStop(idle, name, ports).0;
      TickKeeps(asked, before, from);
    }
  }

  lemma {:induction false} StopEachKeeps(s: State, order: seq<Name>, ports: Ports, before: set<ExitWatch>, from: nat)
    requires Coherent(s, before, from, []) && AllHave(s.records, order)
    ensures var next := StopEach(s, order, ports).0; Coherent(next, before, from, []) && SameNames(s, next)
    decreases |order|
  {
    if order != [] {
      var name := order[|order| - 1];
      var rest := order[..|order| - 1];
      assert name in order;
      var record := Find(s.records, name).value;
      IdleKeeps(s, name, before, from);
      var runtime := record.runtime.DisarmSchedule().CancelRestart();
      var idle := SetRecord(s, name, record.With(runtime));
      SameNamesHave(s, idle);
      if runtime.status.IsSettled() {
        StopEachKeeps(idle, rest, ports, before, from);
      } else {
        StopKeeps(idle, name, ports, before, from);
        var (asked, outcome) := RequestStop(idle, name, ports);
        SameNamesHave(idle, asked);
        if outcome.None? {
          EditKeeps(asked, name, record.With(runtime.MarkStopping()), before, from, []);
          var marked := SetRecord(asked, name, record.With(runtime.MarkStopping()));
          SameNamesHave(asked, marked);
          StopEachKeeps(marked, rest, ports, before, from);
        } else {
          StopEachKeeps(asked, rest, ports, before, from);
        }
      }
    }
  }

  lemma {:induction false} ForceStoppedKeeps(s: State, stopped: seq<StopOutcome>, before: set<ExitWatch>, from: nat)
    requires Coherent(s, before, from, [])
    ensures Coherent(ForceKillStopped(s, stopped), before, from, []) && SameNames(s, ForceKillStopped(s, stopped))
    decreases |stopped|
  {
    if stopped != [] {
      var one := stopped[0];
      var next := ScheduleForceKillOf(s, one.name, one.forceKillPid, IdentityToken(s, one.name));
      AsideKeeps(s, next, before, from, []);
      ForceStoppedKeeps(next, stopped[1..], before, from);
    }
  }

  lemma {:induction false} ForceUnsweptKeeps(s: State, tracked: seq<nat>, stopped: seq<StopOutcome>,
                                             before: set<ExitWatch>, from: nat)
    requires Coherent(s, before, from, [])
    ensures Coherent(ForceKillUnswept(s, tracked, stopped), before, from, [])
    ensures SameNames(s, ForceKillUnswept(s, tracked, stopped))
    decreases |tracked|
  {
    CoherentKnows(s, before, from, []);
    hide Coherent, OwnerOf, Covered, TableOk;
    if tracked != [] {
      var (name, token) := OwnerOf(s.records, tracked[0]);
      var next := ScheduleForceKillOf(s, name, Some(tracked[0]), token);
      AsideKeeps(s, next, before, from, []);
      ForceUnsweptKeeps(next, tracked[1..], stopped, before, from);
      ForceUnsweptKeeps(s, tracked[1..], stopped, before, from);
    }
  }

  lemma {:induction false} CancelAllKeeps(s: State, names: seq<Name>, before: set<ExitWatch>, from: nat)
    requires Coherent(s, before, from, [])
    ensures Coherent(CancelAll(s, names), before, from, []) && SameNames(s, CancelAll(s, names))
    decreases |names|
  {
    if names != [] {
      CancelReadyKeeps(s, names[0], before, from);
      CancelAllKeeps(CancelReadyOf(s, names[0]), names[1..], before, from);
    }
  }

  lemma DisarmAllKeeps(s: State, before: set<ExitWatch>, from: nat)
    requires Coherent(s, before, from, [])
    ensures Coherent(DisarmEverything(s), before, from, []) && SameNames(s, DisarmEverything(s))
  {
    var cleared := s.(timers := s.timers.(fires := map[], restarts := {}));
    var first := Emit(cleared, DisarmTimers(s.timers.fires.Keys));
    assert Aside(s, first);
    assert Aside(first, DisarmEverything(s));
    AsideKeeps(s, DisarmEverything(s), before, from, []);
  }

  /** The order a table is stopped or deleted in names exactly its records, each once. */
  lemma OrderNamesRecords(records: seq<Record>)
    requires TableOk(records)
    ensures forall n :: n in DependencyOrder(records) <==> Has(records, n)
    ensures NoDup(DependencyOrder(records))
  {
    var nodes := DependencyNodes(records);
    forall i | 0 <= i < |records| ensures nodes[i].name == NamesOf(records)[i] {
      FindIsUnique(records, records[i]);
    }
    DepGraph.TopoSortExact(nodes);
    forall n ensures n in DependencyOrder(records) <==> Has(records, n) {
      HasIsMember(records, n);
      if n in NamesOf(records) {
        var i :| 0 <= i < |records| && NamesOf(records)[i] == n;
        assert nodes[i] in nodes;
      }
    }
  }

  lemma StopAllKeeps(s: State, ports: Ports, before: set<ExitWatch>, from: nat)
    requires Coherent(s, before, from, [])
    ensures Coherent(StopAll(s, ports), before, from, []) && SameNames(s, StopAll(s, ports))
  {
    DisarmAllKeeps(s, before, from);
    var disarmed := DisarmEverything(s);
    OrderNamesRecords(disarmed.records);
    StopEachKeeps(disarmed, DependencyOrder(disarmed.records), ports, before, from);
    var (asked, stopped) := StopEach(disarmed, DependencyOrder(disarmed.records), ports);
    AsideKeeps(asked, Tick(asked), before, from, []);
    ForceStoppedKeeps(Tick(asked), stopped, before, from);
    var scheduled := ForceKillStopped(Tick(asked), stopped);
    CancelAllKeeps(scheduled, NamesOf(scheduled.records), before, from);
    var cancelled := CancelAll(scheduled, NamesOf(scheduled.records));
    AsideKeeps(cancelled, Tick(cancelled), before, from, []);
    ForceUnsweptKeeps(Tick(cancelled), ports.trackedPids(cancelled.tick), stopped, before, from);
  }

  lemma StopCommandKeeps(s: State, selector: Selector, ports: Ports, before: set<ExitWatch>, from: nat)
    requires Coherent(s, before, from, [])
    ensures Coherent(Stop(s, selector, ports).0, before, from, [])
  {
    if selector.All? {
      StopAllKeeps(s, ports, before, from);
    } else {
      StopAppKeeps(s, selector, ports, before, from);
      var (tried, outcome) := StopApp(s, selector, ports);
      if outcome.None? {
        CoverKeeps(tried, selector, before, from);
      } else {
        RetireKeeps(tried, outcome.value.name, outcome.value.forceKillPid, IdentityToken(tried, outcome.value.name),
                    before, from);
      }
    }
  }

  // ----- delete -----

  /**
   * Between the removal of a record and its retirement its name may still stand in a waiters list;
   * only that is missing from the invariant.
   */
  ghost predicate CoherentButFor(s: State, name: Name, before: set<ExitWatch>, from: nat) {
    var known := s.(waiters := ForgetWaiter(s.waiters, name));
    Coherent(known, before, from, [])
  }

  lemma RetireDeletedKeeps(s: State, name: Name, pid: Option<nat>, token: Option<string>,
                           before: set<ExitWatch>, from: nat)
    requires CoherentButFor(s, name, before, from)
    ensures Coherent(Retire(s, name, pid, token), before, from, []) && SameNames(s, Retire(s, name, pid, token))
  {
    var known := s.(waiters := ForgetWaiter(s.waiters, name));
    var cancelled := CancelQueuedRestart(Disarm(s, name), name);
    var forgotten := cancelled.(readyFailed := s.readyFailed - {name}, waiters := known.waiters);
    assert Aside(known, Disarm(known, name));
    assert Aside(Disarm(known, name), CancelQueuedRestart(Disarm(known, name), name));
    AsideKeeps(known, forgotten, before, from, []);
    FailKeeps(forgotten, name, before, from);
    var failed := FailDownstream(forgotten, name).0;
    AsideKeeps(failed, Emit(failed, CancelReady(name)), before, from, []);
    assert CancelReadyOf(cancelled, name) == Emit(failed, CancelReady(name));
    AsideKeeps(Emit(failed, CancelReady(name)), Retire(s, name, pid, token), before, from, []);
  }

  lemma ForgottenStayKnown(records: seq<Record>, waiters: Graph, name: Name)
    requires WaitersKnown(records, waiters)
    ensures WaitersKnown(Remove(records, name), ForgetWaiter(waiters, name))
  {
    var forgotten := ForgetWaiter(waiters, name);
    forall key <- forgotten ensures AllHave(Remove(records, name), forgotten[key]) {
      assert AllHave(records, waiters[key]);
    }
  }

  lemma DeleteOneKeeps(s: State, name: Name, ports: Ports, before: set<ExitWatch>, from: nat)
    requires Coherent(s, before, from, []) && Has(s.records, name)
    ensures var (next, outcome) := DeleteOne(s, name, ports);
            && (outcome.None? ==> Coherent(next, before, from, []))
            && (outcome.Some? ==> CoherentButFor(next, name, before, from) && outcome.value.name == name)
            && (forall n :: n != name ==> (Has(next.records, n) <==> Has(s.records, n)))
            && |next.records| <= |s.records|
  {
    StopKeeps(s, name, ports, before, from);
    var (asked, outcome) := RequestStop(s, name, ports);
    SameNamesHave(s, asked);
    CoherentKnows(asked, before, from, []);
    hide RequestStop, Find, WatchesIn, Coherent, CoherentButFor, TableOk, NamesOf;
    if outcome.Some? {
      RemoveKeepsTable(asked.records, name);
      RemoveIsShorter(asked.records, name);
      SavedDeleteKeeps(asked, name, before, from);
      RestoreKeeps(asked, name, before, from);
      var restored := asked.(records := Remove(asked.records, name) + [Find(asked.records, name).value]);
      CoherentKnows(restored, before, from, []);
      AsideKeeps(restored, Tick(restored), before, from, []);
    }
  }

  /** A delete that is saved leaves the state coherent but for the waiters that name the service. */
  lemma SavedDeleteKeeps(s: State, name: Name, before: set<ExitWatch>, from: nat)
    requires Coherent(s, before, from, []) && Has(s.records, name)
    ensures CoherentButFor(Tick(s.(records := Remove(s.records, name))), name, before, from)
  {
    CoherentKnows(s, before, from, []);
    RemoveKeepsTable(s.records, name);
    ForgottenStayKnown(s.records, s.waiters, name);
    AsideKeepsTrimmed(s, name, before, from);
    var trimmed := s.(waiters := ForgetWaiter(s.waiters, name));
    hide Find, WatchesIn, Coherent, ForgetWaiter, Remove;
    var removed := trimmed.(records := Remove(s.records, name));
    NewcomerKeeps(trimmed, removed, name, before, from, []);
    CoherentKnows(removed, before, from, []);
    AsideKeeps(removed, Tick(removed), before, from, []);
    assert Tick(removed) == Tick(s.(records := Remove(s.records, name))).(waiters := ForgetWaiter(s.waiters, name));
  }

  lemma AsideKeepsTrimmed(s: State, name: Name, before: set<ExitWatch>, from: nat)
    requires Coherent(s, before, from, [])
    ensures Coherent(s.(waiters := ForgetWaiter(s.waiters, name)), before, from, [])
  {
    AsideKeeps(s, s.(waiters := ForgetWaiter(s.waiters, name)), before, from, []);
  }

  /** A failed save puts the removed record back, at the end of the table. */
  lemma RestoreKeeps(s: State, name: Name, before: set<ExitWatch>, from: nat)
    requires Coherent(s, before, from, []) && Has(s.records, name)
    ensures var restored := s.(records := Remove(s.records, name) + [Find(s.records, name).value]);
            && Coherent(restored, before, from, [])
            && |restored.records| == |s.records|
            && forall n :: Find(restored.records, n) == Find(s.records, n)
  {
    var record := Find(s.records, name).value;
    var without := Remove(s.records, name);
    var restored := s.(records := without + [record]);
    RemoveKeepsTable(s.records, name);
    RestoreKeepsTable(s.records, name);
    forall n ensures Find(restored.records, n) == Find(s.records, n) {
      FindInAppended(without, record, n);
    }
    WaitersStayKnown(s.records, restored.records, s.waiters);
    if restored.timers.nextGeneration < U64_MAX {
      forall n | Unsettled(restored.records, n) ensures ClaimsTheSame(s.records, restored.records, n) {
      }
      ClaimsKeepWatches(s, restored, LiveWatches(s, before), []);
    }
  }

  lemma {:induction false} IdGoesWithRecord(records: seq<Record>, name: Name)
    requires NoDup(NamesOf(records)) && NoDup(IdsOf(records)) && Has(records, name)
    ensures forall r <- Remove(records, name) :: r.runtime.pmId != Find(records, name).value.runtime.pmId
    ensures |Remove(records, name)| == |records| - 1
  {
    NamesSplit(records);
    if records[0].runtime.name != name {
      IdGoesWithRecord(records[1..], name);
      FindIsExact(records[1..], name);
    }
  }

  lemma RestoreKeepsTable(records: seq<Record>, name: Name)
    requires TableOk(records) && Has(records, name)
    ensures TableOk(Remove(records, name) + [Find(records, name).value])
    ensures |Remove(records, name) + [Find(records, name).value]| == |records|
  {
    var without := Remove(records, name);
    var record := Find(records, name).value;
    RemoveKeepsTable(records, name);
    IdGoesWithRecord(records, name);
    NamesAppend(without, record);
    HasIsMember(without, name);
    AppendKeepsNoDup(NamesOf(without), name);
    forall i | 0 <= i < |without| ensures IdsOf(without)[i] != record.runtime.pmId {
      assert without[i] in without;
    }
    AppendKeepsNoDup(IdsOf(without), record.runtime.pmId);
    forall n ensures Find(without + [record], n) == Find(records, n) {
      FindInAppended(without, record, n);
    }
  }

  lemma DeleteStepKeeps(s: State, name: Name, ports: Ports, before: set<ExitWatch>, from: nat)
    requires Coherent(s, before, from, []) && Has(s.records, name)
    ensures Coherent(DeleteStep(s, name, ports), before, from, [])
    ensures |DeleteStep(s, name, ports).records| <= |s.records|
    ensures forall n :: n != name ==> (Has(DeleteStep(s, name, ports).records, n) <==> Has(s.records, n))
  {
    DeleteOneKeeps(s, name, ports, before, from);
    hide Coherent, CoherentButFor, DeleteOne, CoverDraining, Retire;
    var (tried, outcome) := DeleteOne(s, name, ports);
    if outcome.None? {
      CoverKeeps(tried, ByName(name), before, from);
    } else {
      RetireDeletedKeeps(tried, name, outcome.value.forceKillPid, IdentityToken(s, name), before, from);
    }
    SameNamesHave(tried, DeleteStep(s, name, ports));
  }

  lemma {:induction false} DeleteEachKeeps(s: State, order: seq<Name>, ports: Ports, before: set<ExitWatch>, from: nat)
    requires Coherent(s, before, from, []) && AllHave(s.records, order) && NoDup(order)
    ensures Coherent(DeleteEach(s, order, ports), before, from, [])
    ensures |DeleteEach(s, order, ports).records| <= |s.records|
    decreases |order|
  {
    if order != [] {
      var name := order[|order| - 1];
      var rest := order[..|order| - 1];
      assert name in order;
      DeleteStepKeeps(s, name, ports, before, from);
      forall n <- rest ensures Has(DeleteStep(s, name, ports).records, n) {
        assert n in order && n != name;
      }
      DeleteEachKeeps(DeleteStep(s, name, ports), rest, ports, before, from);
    }
  }

  lemma DeleteKeeps(s: State, selector: Selector, ports: Ports, before: set<ExitWatch>, from: nat)
    requires Coherent(s, before, from, [])
    ensures Coherent(Delete(s, selector, ports), before, from, [])
    ensures |Delete(s, selector, ports).records| <= |s.records|
  {
    if selector.All? {
      OrderNamesRecords(s.records);
      DeleteEachKeeps(s, DependencyOrder(s.records), ports, before, from);
    } else {
      var (tried, outcome) := DeleteApp(s, selector, ports);
      if FindBy(s.records, selector).Some? && !HasDependents(s.records, FindBy(s.records, selector).value.runtime.name) {
        FindByIsFind(s.records, selector);
        DeleteOneKeeps(s, FindBy(s.records, selector).value.runtime.name, ports, before, from);
      }
      if outcome.None? {
        CoverKeeps(tried, selector, before, from);
      } else {
        RetireDeletedKeeps(tried, outcome.value.name, outcome.value.forceKillPid, TokenBy(s, selector), before, from);
      }
    }
  }

  // ----- restart, reset, shutdown -----

  lemma ReloadKeeps(s: State, name: Name, spec: Spec, before: set<ExitWatch>, from: nat)
    requires Coherent(s, before, from, []) && Has(s.records, name) && spec.name == name
    ensures var reloaded := SetRecord(Tick(s), name, Find(s.records, name).value.(spec := spec));
            Coherent(reloaded, before, from, []) && SameNames(s, reloaded)
  {
    AsideKeeps(s, Tick(s), before, from, []);
    EditKeeps(Tick(s), name, Find(s.records, name).value.(spec := spec), before, from, []);
  }

  lemma AfterRestartKeeps(tried: State, outcome: RestartOutcome, name: Name, ports: Ports,
                          before: set<ExitWatch>, from: nat)
    requires Coherent(tried, before, from, if outcome.Started? then [outcome.started] else [])
    ensures var next :=
              if outcome.Refused? then ArmTimerFor(tried, name, ports)
              else
                var (dispatched, restarted) := DispatchRestart(tried, outcome);
                ArmTimerFor(CancelQueuedRestart(dispatched, restarted), restarted, ports);
            Coherent(next, before, from, []) && SameNames(tried, next)
  {
    if outcome.Refused? {
      ArmKeeps(tried, name, ports, before, from);
    } else {
      DispatchKeeps(tried, outcome, before, from);
      var (dispatched, restarted) := DispatchRestart(tried, outcome);
      AsideKeeps(dispatched, CancelQueuedRestart(dispatched, restarted), before, from, []);
      ArmKeeps(CancelQueuedRestart(dispatched, restarted), restarted, ports, before, from);
    }
  }

  lemma {:induction false} RestartEachKeeps(s: State, names: seq<Name>, ports: Ports, before: set<ExitWatch>, from: nat)
    requires Coherent(s, before, from, []) && AllHave(s.records, names)
    ensures Coherent(RestartEach(s, names, ports), before, from, []) && SameNames(s, RestartEach(s, names, ports))
    decreases |names|
  {
    if names != [] {
      var name := names[0];
      var prepared := Prepare(s, name, ports);
      if prepared.None? {
        AsideKeeps(s, Tick(s), before, from, []);
        RestartEachKeeps(Tick(s), names[1..], ports, before, from);
      } else {
        ReloadKeeps(s, name, prepared.value, before, from);
        var reloaded := SetRecord(Tick(s), name, Find(s.records, name).value.(spec := prepared.value));
        RestartAppKeeps(reloaded, ByName(name), ports, before, from);
        var (tried, outcome) := RestartApp(reloaded, ByName(name), ports);
        AfterRestartKeeps(tried, outcome, name, ports, before, from);
        var settled :=
          if outcome.Refused? then ArmTimerFor(tried, name, ports)
          else
            var (dispatched, restarted) := DispatchRestart(tried, outcome);
            ArmTimerFor(CancelQueuedRestart(dispatched, restarted), restarted, ports);
        SameNamesHave(s, settled);
        RestartEachKeeps(settled, names[1..], ports, before, from);
      }
    }
  }

  lemma RestartOneKeeps(s: State, selector: Selector, ports: Ports, before: set<ExitWatch>, from: nat)
    requires Coherent(s, before, from, [])
    ensures Coherent(RestartOne(s, selector, ports), before, from, []) && SameNames(s, RestartOne(s, selector, ports))
  {
    hide Coherent;
    RestartAppKeeps(s, selector, ports, before, from);
    var (tried, outcome) := RestartApp(s, selector, ports);
    hide RestartApp, DispatchRestart, ArmTimerFor;
    if !outcome.Refused? {
      AfterRestartKeeps(tried, outcome, "", ports, before, from);
    }
  }

  lemma RestartCommandKeeps(s: State, selector: Selector, ports: Ports, before: set<ExitWatch>, from: nat)
    requires Coherent(s, before, from, [])
    ensures Coherent(RestartCommand(s, selector, ports), before, from, [])
    ensures SameNames(s, RestartCommand(s, selector, ports))
  {
    assert TableOk(s.records);
    if selector.All? {
      RecordsHave(s.records);
      RestartEachKeeps(s, NamesOf(s.records), ports, before, from);
    } else if FindBy(s.records, selector).Some? {
      FindByIsFind(s.records, selector);
      var record := FindBy(s.records, selector).value;
      var name := record.runtime.name;
      AsideKeeps(s, Tick(s), before, from, []);
      hide Coherent, RestartOne, TableOk;
      var prepared := Prepare(s, name, ports);
      if prepared.Some? {
        ReloadKeeps(s, name, prepared.value, before, from);
        RestartOneKeeps(SetRecord(Tick(s), name, record.(spec := prepared.value)), selector, ports, before, from);
      }
    }
  }

  lemma ResetOneKeeps(s: State, name: Name, before: set<ExitWatch>, from: nat)
    requires Coherent(s, before, from, []) && Has(s.records, name)
    ensures Coherent(ResetOne(s, name), before, from, []) && SameNames(s, ResetOne(s, name))
  {
    var record := Find(s.records, name).value;
    var updated := record.With(record.runtime.ResetRestarts());
    EditKeeps(s, name, updated, before, from, []);
    AsideKeeps(SetRecord(s, name, updated), ResetOne(s, name), before, from, []);
  }

  lemma {:induction false} ResetEachKeeps(s: State, names: seq<Name>, before: set<ExitWatch>, from: nat)
    requires Coherent(s, before, from, []) && AllHave(s.records, names)
    ensures Coherent(ResetEach(s, names), before, from, []) && SameNames(s, ResetEach(s, names))
    decreases |names|
  {
    if names != [] {
      ResetOneKeeps(s, names[0], before, from);
      SameNamesHave(s, ResetOne(s, names[0]));
      ResetEachKeeps(ResetOne(s, names[0]), names[1..], before, from);
    }
  }

  lemma ResetKeeps(s: State, selector: Selector, before: set<ExitWatch>, from: nat)
    requires Coherent(s, before, from, [])
    ensures Coherent(Reset(s, selector), before, from, []) && SameNames(s, Reset(s, selector))
  {
    if selector.All? {
      RecordsHave(s.records);
      ResetEachKeeps(s, NamesOf(s.records), before, from);
    } else if FindBy(s.records, selector).Some? {
      FindByIsFind(s.records, selector);
      ResetOneKeeps(s, FindBy(s.records, selector).value.runtime.name, before, from);
    }
  }

  lemma ShutdownKeeps(s: State, before: set<ExitWatch>, from: nat)
    requires Coherent(s, before, from, [])
    ensures Coherent(PrepareShutdown(s), before, from, []) && SameNames(s, PrepareShutdown(s))
  {
    DisarmAllKeeps(s, before, from);
    AsideKeeps(DisarmEverything(s), PrepareShutdown(s), before, from, []);
  }
}
