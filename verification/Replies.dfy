/**
 * What the commands answer and leave behind (usecases/src/supervisor.rs, stop.rs, delete.rs, restart.rs,
 * reset.rs), in every case: accepted, refused by the system, or refused by the save.
 */
module Replies {
  import opened Graphs
  import opened Model
  import opened ProcessTable
  import opened Handlers
  import opened Coherence
  import opened Promises
  import StickyStop
  import BatchGraph
  import DepGraph
  import CommandCoherence
  import Commands
  import Waiting

  // ----- one record written anew -----

  /** Only the record of `name` is written anew, after so many questions to the world. */
  ghost predicate LeftAs(s: State, next: State, name: Name, left: Option<Record>, asks: nat) {
    && next == s.(records := next.records, tick := s.tick + asks)
    && Find(next.records, name) == left && OthersStand(s, next, name)
  }

  /** Nothing is armed or asked of the service any more. */
  function Idled(record: Record): Record {
    Record(record.spec, record.runtime.(scheduleArmed := false, pendingRestart := false, supervisedRestart := false))
  }

  function LivePidOf(record: Record): Option<nat> {
    if record.runtime.status in {Stopped, Errored} then None else record.runtime.pid
  }

  /** On its way out under its own pid, or settled when it has no process. */
  function AskedToStop(record: Record): Record {
    if LivePidOf(record).Some? then Record(record.spec, record.runtime.(status := Stopping))
    else Record(record.spec, record.runtime.(status := Stopped, pid := None, startedAtMs := None, identity := None))
  }

  /** What follows a refusal: a process on its way out is retired and will be killed; any other stays. */
  ghost predicate Drained(s: State, next: State, name: Name)
    requires Has(s.records, name)
  {
    var runtime := Find(s.records, name).value.runtime;
    if runtime.status != Stopping then next == s
    else runtime.pid.Some? ==> Retired(s, next, name, runtime.pid, runtime.Token())
  }

  /** The questions a stop request asks the system: one, when there is a process to signal. */
  function Signals(record: Record): nat { if LivePidOf(record).Some? then 1 else 0 }

  predicate CanSignal(record: Record, ports: Ports, tick: nat) { LivePidOf(record).Some? ==> ports.terminate(tick) }

  /** A stop request in full: the record as it is when refused, asked to stop otherwise. */
  lemma RequestLeaves(s: State, name: Name, ports: Ports)
    requires Has(s.records, name)
    ensures var (next, outcome) := RequestStop(s, name, ports);
            var record := Find(s.records, name).value;
            if CanSignal(record, ports, s.tick)
            then && outcome == Some(StopOutcome(name, LivePidOf(record)))
                 && next == s.(records := Put(s.records, name, AskedToStop(record)), tick := s.tick + Signals(record))
            else outcome.None? && next == s.(tick := s.tick + 1)
  {
    hide Find, Put;
  }

  lemma DrainPromise(s: State, selector: Selector, name: Name)
    requires FindBy(s.records, selector) == Find(s.records, name) && Has(s.records, name)
    ensures Drained(s, CoverDraining(s, selector), name)
  {
    var record := Find(s.records, name).value;
    if record.runtime.pid.Some? {
      RetirePromise(s, name, record.runtime.pid, record.runtime.Token());
    }
    hide Find, FindBy, Retire, Retired;
  }

  /** A record written anew in place is still found, by the same selector. */
  lemma StillFound(records: seq<Record>, selector: Selector, left: Record)
    requires TableOk(records) && FindBy(records, selector).Some? && RecordOk(left)
    requires left.runtime.pmId == FindBy(records, selector).value.runtime.pmId
    requires left.runtime.name == FindBy(records, selector).value.runtime.name
    ensures var next, name := Put(records, left.runtime.name, left), left.runtime.name;
            && Find(records, name) == FindBy(records, selector) && FindBy(next, selector) == Find(next, name) == Some(left)
            && TableOk(next) && forall m :: m != name ==> Find(next, m) == Find(records, m)
  {
    FindByIsFind(records, selector);
    FindIsUnique(records, FindBy(records, selector).value);
    StickyStop.FindByAfterPut(records, selector, left);
    Edited(records, left.runtime.name, left);
    PutKeepsTable(records, left.runtime.name, left);
    hide Find, FindBy, Put, NoDup;
  }

  /** Dropping what was asked of a service changes nothing about its process. */
  lemma IdleIsAlike(record: Record, ports: Ports, tick: nat)
    ensures var idle := Idled(record);
            && LivePidOf(idle) == LivePidOf(record) && Signals(idle) == Signals(record)
            && (CanSignal(idle, ports, tick) <==> CanSignal(record, ports, tick))
            && idle.runtime.pmId == AskedToStop(idle).runtime.pmId == record.runtime.pmId
            && idle.runtime.name == AskedToStop(idle).runtime.name == record.runtime.name
            && (RecordOk(record) ==> RecordOk(idle) && RecordOk(AskedToStop(idle)))
  {
  }

  // ----- stop -----

  /** The state a stop leaves before it retires anything. */
  ghost predicate StopTried(s: State, asked: State, name: Name, ports: Ports)
    requires Has(s.records, name)
  {
    var idle := Idled(Find(s.records, name).value);
    if CanSignal(idle, ports, s.tick) then LeftAs(s, asked, name, Some(AskedToStop(idle)), Signals(idle) + 1)
    else LeftAs(s, asked, name, Some(idle), 1)
  }

  /**
   * The stop of one service: it replies with success exactly when its process, if it has one, can be
   * signalled and the table saved. Its schedule and what was asked of it are dropped either way; on
   * success it is retired, and on a refusal it is when its process is on its way out.
   */
  ghost predicate StopAnswered(s: State, next: State, selector: Selector, replied: bool, ports: Ports)
    requires !selector.All? && TableOk(s.records)
  {
    match FindBy(s.records, selector)
    case None => !replied && next == s
    case Some(record) =>
      var name, live := record.runtime.name, LivePidOf(record);
      && Find(s.records, name) == Some(record)
      && (replied <==> CanSignal(record, ports, s.tick) && ports.save(s.tick + Signals(record)))
      && exists asked ::
           && StopTried(s, asked, name, ports)
           && if replied then Retired(asked, next, name, live, record.runtime.Token()) else Drained(asked, next, name)
  }

  lemma StopAnswer(s: State, selector: Selector, ports: Ports)
    requires !selector.All? && TableOk(s.records)
    ensures var (next, replied) := Stop(s, selector, ports); StopAnswered(s, next, selector, replied, ports)
  {
    hide Find, FindBy, Put, TableOk, StopApp, Retire, CoverDraining, Retired, Drained, StopTried, Signals, CanSignal, LivePidOf;
    if FindBy(s.records, selector).Some? {
      var record := FindBy(s.records, selector).value;
      StopAppLeaves(s, selector, ports);
      var (tried, outcome) := StopApp(s, selector, ports);
      if outcome.None? {
        DrainPromise(tried, selector, record.runtime.name);
      } else {
        StopRetires(s, tried, record, ports);
      }
    } else {
      NobodyStops(s, selector, ports);
    }
  }

  lemma NobodyStops(s: State, selector: Selector, ports: Ports)
    requires FindBy(s.records, selector).None? && !selector.All?
    ensures Stop(s, selector, ports) == (s, false)
  {
  }

  lemma StopRetires(s: State, tried: State, record: Record, ports: Ports)
    requires Find(s.records, record.runtime.name) == Some(record) && StopTried(s, tried, record.runtime.name, ports)
    requires CanSignal(record, ports, s.tick)
    ensures var name, live := record.runtime.name, LivePidOf(record);
            Retired(tried, Retire(tried, name, live, IdentityToken(tried, name)), name, live, record.runtime.Token())
  {
    var name := record.runtime.name;
    RetirePromise(tried, name, LivePidOf(record), IdentityToken(tried, name));
    hide Find, Retire, WaitsEnded;
  }

  /** `stop_app`: what it leaves, and whether it succeeds. */
  lemma StopAppLeaves(s: State, selector: Selector, ports: Ports)
    requires TableOk(s.records) && FindBy(s.records, selector).Some?
    ensures var (tried, outcome) := StopApp(s, selector, ports);
            var record := FindBy(s.records, selector).value;
            var name := record.runtime.name;
            && Find(s.records, name) == Some(record)
            && StopTried(s, tried, name, ports)
            && Has(tried.records, name) && FindBy(tried.records, selector) == Find(tried.records, name)
            && outcome == (if CanSignal(record, ports, s.tick) && ports.save(s.tick + Signals(record))
                           then Some(StopOutcome(name, LivePidOf(record))) else None)
  {
    hide Find, FindBy, Put, TableOk, RequestStop, RecordOk, Idled, AskedToStop, LivePidOf, CanSignal, Signals, StopApp, LeftAs;
    var record := FindBy(s.records, selector).value;
    var name, idle := record.runtime.name, Idled(record);
    FoundIsOk(s.records, selector);
    IdleIsAlike(record, ports, s.tick);
    StopAppUnfolds(s, selector, ports);
    StillFound(s.records, selector, idle);
    var stilled := s.(records := Put(s.records, name, idle));
    RequestLeaves(stilled, name, ports);
    hide StopTried;
    var tried := StopApp(s, selector, ports).0;
    if CanSignal(idle, ports, s.tick) {
      StillFound(stilled.records, selector, AskedToStop(idle));
      EditedTwice(s, stilled, name, AskedToStop(idle), Signals(idle) + 1);
    } else {
      EditedOnce(s, name, idle, 1);
    }
    TriedAs(s, tried, name, ports);
  }

  lemma TriedAs(s: State, tried: State, name: Name, ports: Ports)
    requires Has(s.records, name)
    requires var idle := Idled(Find(s.records, name).value);
             if CanSignal(idle, ports, s.tick) then LeftAs(s, tried, name, Some(AskedToStop(idle)), Signals(idle) + 1)
             else LeftAs(s, tried, name, Some(idle), 1)
    ensures StopTried(s, tried, name, ports)
  {
    hide LeftAs, Find, Idled, AskedToStop, CanSignal, Signals;
  }

  lemma EditedOnce(s: State, name: Name, left: Record, asks: nat)
    requires Has(s.records, name) && left.runtime.name == name
    ensures LeftAs(s, s.(records := Put(s.records, name, left), tick := s.tick + asks), name, Some(left), asks)
  {
    Edited(s.records, name, left);
    hide Find, Put;
  }

  lemma EditedTwice(s: State, mid: State, name: Name, twice: Record, asks: nat)
    requires Has(mid.records, name) && twice.runtime.name == name
    requires mid == s.(records := mid.records) && OthersStand(s, mid, name)
    ensures LeftAs(s, mid.(records := Put(mid.records, name, twice), tick := s.tick + asks), name, Some(twice), asks)
  {
    Edited(mid.records, name, twice);
    hide Find, Put;
  }

  lemma FoundIsOk(records: seq<Record>, selector: Selector)
    requires TableOk(records) && FindBy(records, selector).Some?
    ensures var record := FindBy(records, selector).value;
            RecordOk(record) && Find(records, record.runtime.name) == Some(record)
  {
    FindByIsFind(records, selector);
  }

  lemma StopAppUnfolds(s: State, selector: Selector, ports: Ports)
    requires FindBy(s.records, selector).Some?
    ensures var record := FindBy(s.records, selector).value;
            var name := record.runtime.name;
            var (asked, outcome) := RequestStop(s.(records := Put(s.records, name, Idled(record))), name, ports);
            StopApp(s, selector, ports) ==
              if outcome.None? then (asked, None) else (Tick(asked), if ports.save(asked.tick) then outcome else None)
  {
    hide FindBy, Put, RequestStop;
  }

  // ----- delete -----

  /** Another service, or itself, declares that it depends on this one. */
  ghost predicate IsNeeded(records: seq<Record>, name: Name) {
    exists m :: Has(records, m) && name in Find(records, m).value.spec.dependsOn
  }

  predicate DeleteSucceeds(record: Record, ports: Ports, tick: nat) {
    CanSignal(record, ports, tick) && ports.save(tick + Signals(record))
  }

  /** The state a delete leaves before it retires anything: the record is gone once saved, and kept if not. */
  ghost predicate DeleteTried(s: State, asked: State, name: Name, ports: Ports)
    requires Has(s.records, name)
  {
    var record := Find(s.records, name).value;
    if !CanSignal(record, ports, s.tick) then LeftAs(s, asked, name, Some(record), 1)
    else LeftAs(s, asked, name, if DeleteSucceeds(record, ports, s.tick) then None else Some(AskedToStop(record)), Signals(record) + 1)
  }

  /** A delete carried out: the service is gone and retired, or kept, and then drained. */
  ghost predicate DeleteAnswered(s: State, next: State, name: Name, ports: Ports)
    requires Has(s.records, name)
  {
    var record := Find(s.records, name).value;
    exists asked ::
      && DeleteTried(s, asked, name, ports)
      && if DeleteSucceeds(record, ports, s.tick)
         then Retired(asked, next, name, LivePidOf(record), record.runtime.Token())
         else Has(asked.records, name) && Drained(asked, next, name)
  }

  /** The delete of one service: refused while something needs it. */
  ghost predicate DeletedOne(s: State, next: State, selector: Selector, ports: Ports) {
    match FindBy(s.records, selector)
    case None => next == s
    case Some(record) =>
      var name := record.runtime.name;
      && Find(s.records, name) == Some(record)
      && if IsNeeded(s.records, name) then Drained(s, next, name) else DeleteAnswered(s, next, name, ports)
  }

  lemma NeededExactly(records: seq<Record>, name: Name)
    requires TableOk(records)
    ensures HasDependents(records, name) <==> IsNeeded(records, name)
  {
    if HasDependents(records, name) {
      var r :| r in records && name in r.spec.dependsOn;
      FindIsUnique(records, r);
    }
    if IsNeeded(records, name) {
      var m :| Has(records, m) && name in Find(records, m).value.spec.dependsOn;
      FoundIsIn(records, m);
    }
  }

  lemma {:induction false} FoundIsIn(records: seq<Record>, m: Name)
    requires Has(records, m)
    ensures Find(records, m).value in records
  {
    if records[0].runtime.name != m {
      FoundIsIn(records[1..], m);
    }
  }

  /** `delete_one`, in every case. */
  lemma DeleteLeaves(s: State, name: Name, ports: Ports)
    requires TableOk(s.records) && Has(s.records, name)
    ensures var (tried, outcome) := DeleteOne(s, name, ports);
            var record := Find(s.records, name).value;
            && DeleteTried(s, tried, name, ports) && TableOk(tried.records)
            && outcome == (if DeleteSucceeds(record, ports, s.tick) then Some(StopOutcome(name, LivePidOf(record))) else None)
            && (outcome.None? ==> Has(tried.records, name)
                                  && Find(tried.records, name).value.runtime.pmId == record.runtime.pmId)
  {
    hide Find, Put, TableOk, RequestStop, RecordOk, AskedToStop, LivePidOf, Remove, LeftAs, Signals;
    var record := Find(s.records, name).value;
    RequestLeaves(s, name, ports);
    if CanSignal(record, ports, s.tick) {
      AskedIsOk(s.records, name);
      var asked := RequestStop(s, name, ports).0;
      RemovedAndRestored(s, asked, name, AskedToStop(record), Signals(record) + 1);
      RemoveKeepsTable(asked.records, name);
    } else {
      LeftAlone(s, name, 1);
    }
  }

  lemma LeftAlone(s: State, name: Name, asks: nat)
    ensures LeftAs(s, s.(tick := s.tick + asks), name, Find(s.records, name), asks)
  {
  }

  lemma AskedIsOk(records: seq<Record>, name: Name)
    requires TableOk(records) && Has(records, name)
    ensures var asked := AskedToStop(Find(records, name).value);
            var next := Put(records, name, asked);
            && TableOk(next) && Find(next, name) == Some(asked)
            && asked.runtime.pmId == Find(records, name).value.runtime.pmId
            && forall m :: m != name ==> Find(next, m) == Find(records, m)
  {
    var record := Find(records, name).value;
    assert RecordOk(record);
    PutKeepsTable(records, name, AskedToStop(record));
    Edited(records, name, AskedToStop(record));
    hide Put, NoDup, Find;
  }

  /** Removing a record, and putting it back at the end, both leave everybody else alone. */
  lemma RemovedAndRestored(s: State, asked: State, name: Name, left: Record, asks: nat)
    requires TableOk(asked.records) && Find(asked.records, name) == Some(left) && OthersStand(s, asked, name)
    requires asked == s.(records := asked.records, tick := asked.tick)
    ensures var without := Remove(asked.records, name);
            && LeftAs(s, s.(records := without, tick := s.tick + asks), name, None, asks)
            && LeftAs(s, s.(records := without + [left], tick := s.tick + asks), name, Some(left), asks)
            && TableOk(without) && TableOk(without + [left]) && Find(without + [left], name) == Some(left)
  {
    var without := Remove(asked.records, name);
    RemoveKeepsTable(asked.records, name);
    CommandCoherence.RestoreKeepsTable(asked.records, name);
    hide Find, Remove, TableOk;
    forall m ensures Find(without + [left], m) == if Find(without, m).Some? then Find(without, m) else if m == name then Some(left) else None {
      FindInAppended(without, left, m);
    }
  }

  lemma DeleteStepAnswers(s: State, name: Name, ports: Ports)
    requires TableOk(s.records) && Has(s.records, name)
    ensures DeleteAnswered(s, DeleteStep(s, name, ports), name, ports)
  {
    hide Find, FindBy, TableOk, DeleteOne, CoverDraining, Retire, LivePidOf, DeleteTried, Drained, Retired;
    DeleteLeaves(s, name, ports);
    var (tried, outcome) := DeleteOne(s, name, ports);
    if outcome.None? {
      StickyStop.FindByNameIsFind(tried.records, name);
      DrainPromise(tried, ByName(name), name);
    } else {
      RetirePromise(tried, name, outcome.value.forceKillPid, IdentityToken(s, name));
    }
  }

  /** Names and ids are distinct, so the selector that found the record still does. */
  lemma {:induction false} FoundAlone(records: seq<Record>, selector: Selector, r: Record)
    requires NoDup(NamesOf(records)) && NoDup(IdsOf(records)) && r in records && Matches(selector, r)
    ensures FindBy(records, selector) == Some(r)
  {
    NamesSplit(records);
    if r != records[0] {
      assert r in records[1..];
      FoundAlone(records[1..], selector, r);
      OthersDiffer(records, r);
    }
  }

  lemma OthersDiffer(records: seq<Record>, r: Record)
    requires NoDup(NamesOf(records)) && NoDup(IdsOf(records)) && records != [] && r in records[1..]
    ensures r.runtime.name != records[0].runtime.name && r.runtime.pmId != records[0].runtime.pmId
  {
    var i :| 0 <= i < |records[1..]| && records[1..][i] == r;
    assert NamesOf(records)[i + 1] == r.runtime.name && IdsOf(records)[i + 1] == r.runtime.pmId;
  }

  /** A selector finds the record with that id or that name, and none when there is none; `All` finds none. */
  lemma SelectorsAreExact(records: seq<Record>, selector: Selector, r: Record)
    requires TableOk(records)
    ensures FindBy(records, selector) == Some(r) <==>
              && r in records
              && ((selector.Id? && r.runtime.pmId == selector.id) || (selector.ByName? && r.runtime.name == selector.name))
  {
    if r in records && Matches(selector, r) {
      FoundAlone(records, selector, r);
    }
    hide FindBy, NoDup, NamesOf, IdsOf, Find;
  }

  lemma StillSelected(records: seq<Record>, next: seq<Record>, selector: Selector, name: Name)
    requires TableOk(records) && TableOk(next) && FindBy(records, selector).Some? && FindBy(records, selector) == Find(records, name)
    requires Has(next, name) && Find(next, name).value.runtime.pmId == Find(records, name).value.runtime.pmId
    ensures FindBy(next, selector) == Find(next, name)
  {
    FoundIsIn(next, name);
    FoundAlone(next, selector, Find(next, name).value);
  }

  lemma DeleteAnswer(s: State, selector: Selector, ports: Ports)
    requires TableOk(s.records) && !selector.All?
    ensures DeletedOne(s, Delete(s, selector, ports), selector, ports)
  {
    hide Find, FindBy, TableOk, DeleteOne, CoverDraining, Retire, HasDependents, IsNeeded, LivePidOf, DeleteTried, Drained, Retired;
    var found := FindBy(s.records, selector);
    if found.Some? {
      var name := found.value.runtime.name;
      FoundIsOk(s.records, selector);
      NeededExactly(s.records, name);
      if IsNeeded(s.records, name) {
        DrainPromise(s, selector, name);
      } else {
        DeleteLeaves(s, name, ports);
        var (tried, outcome) := DeleteOne(s, name, ports);
        if outcome.None? {
          StillSelected(s.records, tried.records, selector, name);
          DrainPromise(tried, selector, name);
        } else {
          RetirePromise(tried, name, outcome.value.forceKillPid, TokenBy(s, selector));
        }
      }
    } else {
      NobodyDeletes(s, selector, ports);
    }
  }

  lemma NobodyDeletes(s: State, selector: Selector, ports: Ports)
    requires FindBy(s.records, selector).None? && !selector.All?
    ensures Delete(s, selector, ports) == s
  {
  }

  // ----- one turn for each service -----

  /** The record stands, or its service has failed since: errored if it was settled. */
  ghost predicate StandsOrFell(records: seq<Record>, next: seq<Record>, n: Name) {
    Find(next, n) == Find(records, n) || Find(next, n) == Waiting.Fallen(records, n)
  }

  lemma StandsThrough(records: seq<Record>, mid: seq<Record>, next: seq<Record>, n: Name)
    requires StandsOrFell(records, mid, n) && StandsOrFell(mid, next, n)
    ensures StandsOrFell(records, next, n)
  {
    hide Find;
  }

  /** What a delete does to the others: they stand, or fell with what they waited for. */
  lemma DeleteLeavesOthers(s: State, next: State, name: Name, n: Name, ports: Ports)
    requires Has(s.records, name) && DeleteAnswered(s, next, name, ports) && n != name
    requires RecordOk(Find(s.records, name).value)
    ensures StandsOrFell(s.records, next.records, n)
  {
    hide Find, StillWaiting, Waiting.Fallen, Reaches;
    var asked :| DeleteTried(s, asked, name, ports)
                 && if DeleteSucceeds(Find(s.records, name).value, ports, s.tick)
                    then Retired(asked, next, name, LivePidOf(Find(s.records, name).value), Find(s.records, name).value.runtime.Token())
                    else Has(asked.records, name) && Drained(asked, next, name);
    assert Find(asked.records, n) == Find(s.records, n);
    FallenAlike(s.records, asked.records, n);
  }

  lemma FallenAlike(records: seq<Record>, next: seq<Record>, n: Name)
    requires Find(next, n) == Find(records, n)
    ensures Waiting.Fallen(next, n) == Waiting.Fallen(records, n)
  {
    hide Find;
  }

  lemma {:induction false} FailDeadKeepsTable(s: State, dead: seq<Name>)
    requires TableOk(s.records)
    ensures TableOk(FailDead(s, dead).0.records)
    decreases |s.waiters|, |dead|
  {
    hide ForgetWaiter, TableOk;
    if dead != [] {
      DeadStepShrinks(s, dead);
      ErrorKeepsTable(s.(waiters := ForgetWaiter(s.waiters, dead[|dead| - 1])), dead[|dead| - 1]);
      var (next, left) := DeadStep(s, dead);
      FailDeadKeepsTable(next, left);
    }
  }

  lemma ErrorKeepsTable(s: State, name: Name)
    requires TableOk(s.records)
    ensures TableOk(MarkErroredIfSettled(s, name).records)
  {
    if Has(s.records, name) {
      var record := Find(s.records, name).value;
      assert RecordOk(record);
      PutKeepsTable(s.records, name, record.With(record.runtime.MarkExited(Errored)));
    }
    hide Find, Put, NoDup;
  }

  lemma RetireKeepsTable(s: State, name: Name, pid: Option<nat>, token: Option<string>)
    requires TableOk(s.records)
    ensures TableOk(Retire(s, name, pid, token).records)
  {
    hide TableOk, FailDead, ForgetWaiter, WatchesIn;
    var forgotten := ForgetWaiter(s.waiters, name);
    var trimmed := CancelQueuedRestart(Disarm(s, name), name).(readyFailed := s.readyFailed - {name}, waiters := forgotten - {name});
    FailDeadKeepsTable(trimmed, WaitersOf(forgotten, name));
  }

  lemma CoverKeepsTable(s: State, selector: Selector)
    requires TableOk(s.records)
    ensures TableOk(CoverDraining(s, selector).records)
  {
    if FindBy(s.records, selector).Some? {
      var runtime := FindBy(s.records, selector).value.runtime;
      RetireKeepsTable(s, runtime.name, runtime.pid, runtime.Token());
    }
    hide TableOk, Retire, FindBy;
  }

  lemma DeleteStepKeepsTable(s: State, name: Name, ports: Ports)
    requires TableOk(s.records) && Has(s.records, name)
    ensures TableOk(DeleteStep(s, name, ports).records)
  {
    DeleteLeaves(s, name, ports);
    hide TableOk, Find, DeleteOne, Retire, CoverDraining, DeleteTried;
    var (tried, outcome) := DeleteOne(s, name, ports);
    if outcome.None? {
      CoverKeepsTable(tried, ByName(name));
    } else {
      RetireKeepsTable(tried, outcome.value.name, outcome.value.forceKillPid, IdentityToken(s, name));
    }
  }

  /** A service that is not listed only ever falls with what it waits for. */
  lemma {:induction false} DeletesLeave(s: State, order: seq<Name>, n: Name, ports: Ports)
    requires TableOk(s.records) && NoDup(order) && AllHave(s.records, order) && n !in order
    ensures StandsOrFell(s.records, DeleteEach(s, order, ports).records, n)
    decreases |order|
  {
    hide TableOk, Find, DeleteStep, DeleteAnswered, StandsOrFell;
    if order == [] {
      StandsStill(s.records, n);
    } else {
      var next := DeleteTurn(s, order, ports);
      DeleteLeavesOthers(s, next, order[|order| - 1], n, ports);
      DeletesLeave(next, order[..|order| - 1], n, ports);
      StandsThrough(s.records, next.records, DeleteEach(s, order, ports).records, n);
    }
  }

  lemma StandsStill(records: seq<Record>, n: Name)
    ensures StandsOrFell(records, records, n)
  {
  }

  lemma DeleteTakesTime(s: State, next: State, name: Name, ports: Ports)
    requires Has(s.records, name) && RecordOk(Find(s.records, name).value) && DeleteAnswered(s, next, name, ports)
    ensures next.tick > s.tick
  {
    hide Find, WaitsEnded;
  }

  /** The first turn: the last name of the order. */
  lemma DeleteTurn(s: State, order: seq<Name>, ports: Ports) returns (next: State)
    requires TableOk(s.records) && NoDup(order) && AllHave(s.records, order) && order != []
    ensures next == DeleteStep(s, order[|order| - 1], ports) && TableOk(next.records)
    ensures Has(s.records, order[|order| - 1]) && RecordOk(Find(s.records, order[|order| - 1]).value)
    ensures DeleteAnswered(s, next, order[|order| - 1], ports) && next.tick > s.tick
    ensures NoDup(order[..|order| - 1]) && AllHave(next.records, order[..|order| - 1]) && order[|order| - 1] !in order[..|order| - 1]
    ensures DeleteEach(s, order, ports) == DeleteEach(next, order[..|order| - 1], ports)
  {
    var name := order[|order| - 1];
    next := DeleteStep(s, name, ports);
    Commands.RecordIsOk(s.records, name);
    DeleteStepAnswers(s, name, ports);
    DeleteStepKeepsTable(s, name, ports);
    hide TableOk, Find, DeleteStep;
    DeleteTakesTime(s, next, name, ports);
    hide DeleteAnswered;
    forall m <- order[..|order| - 1] ensures Has(next.records, m) {
      assert m in order && m != name;
      DeleteLeavesOthers(s, next, name, m, ports);
    }
  }

  // ----- the order of a command on everything -----

  /** `n` declares that it depends on `d`. */
  ghost predicate DependsIn(records: seq<Record>, n: Name, d: Name) {
    Has(records, n) && d in Find(records, n).value.spec.dependsOn
  }

  /** `d` comes earlier than `n` in the order. */
  ghost predicate IsAhead(order: seq<Name>, d: Name, n: Name) {
    exists i, j :: 0 <= i < j < |order| && order[i] == d && order[j] == n
  }

  /** In an acyclic table every service comes after what it depends on. */
  lemma OrderIsSorted(records: seq<Record>, n: Name, d: Name)
    requires TableOk(records) && BatchGraph.SoundGraph(records) && DependsIn(records, n, d)
    ensures IsAhead(DependencyOrder(records), d, n)
  {
    hide TableOk, BatchGraph.SoundGraph, DependencyNodes, Find, DepGraph.TopoSort, DepGraph.GraphOf, MergedNodes;
    var nodes, order := DependencyNodes(records), DependencyOrder(records);
    BatchGraph.TableSorts(records);
    NothingMerged(records);
    CommandCoherence.OrderNamesRecords(records);
    TableEdge(records, n, d);
    DepGraph.TopoSortExact(nodes);
    var i :| 0 <= i < |order| && order[i] == n;
    var k :| 0 <= k < |order[..i]| && order[..i][k] == d;
    assert order[k] == d;
  }

  lemma TableEdge(records: seq<Record>, n: Name, d: Name)
    requires TableOk(records) && DependsIn(records, n, d)
    ensures DepGraph.DistinctNames(DependencyNodes(records)) && Edge(DepGraph.GraphOf(DependencyNodes(records)), n, d)
  {
    BatchGraph.NodesAreTable(records);
    DepGraph.GraphOfNodes(DependencyNodes(records));
    assert Find(records, n).value.spec.DependencyNode() in DependencyNodes(records);
    Commands.RecordIsOk(records, n);
    hide TableOk, DependencyNodes, Find, DepGraph.GraphOf;
  }

  lemma NothingMerged(records: seq<Record>)
    ensures MergedNodes(records, []) == DependencyNodes(records)
  {
    NoneReplaced(DependencyNodes(records));
  }

  lemma {:induction false} NoneReplaced(known: seq<DepGraph.Node>)
    ensures OtherNodes(known, []) == known
  {
    if known != [] {
      NoneReplaced(known[1..]);
    }
  }

  // ----- delete everything -----

  /** The turn of one service when everything is deleted; before and after it, it stands or has fallen. */
  ghost predicate DeleteTurned(s: State, next: State, n: Name, at: nat, ports: Ports) {
    exists before: State, after: State ::
      && before.tick == at && Has(before.records, n) && StandsOrFell(s.records, before.records, n)
      && DeleteAnswered(before, after, n, ports)
      && StandsOrFell(after.records, next.records, n)
  }

  ghost predicate DeletedInTurn(s: State, next: State, n: Name, ports: Ports) {
    exists at :: DeleteTurned(s, next, n, at, ports)
  }

  ghost predicate DeletedBefore(s: State, next: State, n: Name, d: Name, ports: Ports) {
    exists at, later :: at < later && DeleteTurned(s, next, n, at, ports) && DeleteTurned(s, next, d, later, ports)
  }

  /** Every service takes its turn, and in an acyclic table it does before whatever it depends on. */
  ghost predicate DeletedAll(s: State, next: State, ports: Ports) {
    && (forall n :: Has(s.records, n) ==> DeletedInTurn(s, next, n, ports))
    && (BatchGraph.SoundGraph(s.records) ==>
          forall n, d :: DependsIn(s.records, n, d) ==> DeletedBefore(s, next, n, d, ports))
  }

  lemma TurnedLater(s: State, mid: State, next: State, n: Name, at: nat, ports: Ports)
    requires StandsOrFell(s.records, mid.records, n) && DeleteTurned(mid, next, n, at, ports)
    ensures DeleteTurned(s, next, n, at, ports)
  {
    hide DeleteAnswered, Find, StandsOrFell;
    var before: State, after: State :|
      && before.tick == at && Has(before.records, n) && StandsOrFell(mid.records, before.records, n)
      && DeleteAnswered(before, after, n, ports)
      && StandsOrFell(after.records, next.records, n);
    StandsThrough(s.records, mid.records, before.records, n);
  }

  /** Each listed service takes its turn. */
  lemma {:induction false} DeletesEach(s: State, order: seq<Name>, n: Name, ports: Ports) returns (at: nat)
    requires TableOk(s.records) && NoDup(order) && AllHave(s.records, order) && n in order
    ensures at >= s.tick && DeleteTurned(s, DeleteEach(s, order, ports), n, at, ports)
    decreases |order|
  {
    hide TableOk, Find, DeleteStep, DeleteAnswered, StandsOrFell, DeleteEach;
    var next := DeleteTurn(s, order, ports);
    if order[|order| - 1] == n {
      at := s.tick;
      StandsStill(s.records, n);
      DeletesLeave(next, order[..|order| - 1], n, ports);
    } else {
      hide DeleteTurned;
      DeleteLeavesOthers(s, next, order[|order| - 1], n, ports);
      at := DeletesEach(next, order[..|order| - 1], n, ports);
      TurnedLater(s, next, DeleteEach(s, order, ports), n, at, ports);
    }
  }

  /** The later of two in the order takes its turn first. */
  lemma {:induction false} DeletesInOrder(s: State, order: seq<Name>, d: Name, n: Name, ports: Ports) returns (at: nat, later: nat)
    requires TableOk(s.records) && NoDup(order) && AllHave(s.records, order) && IsAhead(order, d, n)
    ensures at < later && DeleteTurned(s, DeleteEach(s, order, ports), n, at, ports)
    ensures DeleteTurned(s, DeleteEach(s, order, ports), d, later, ports)
    decreases |order|
  {
    hide TableOk, Find, DeleteStep, DeleteAnswered, StandsOrFell, DeleteEach, DeleteTurned;
    var last, rest := order[|order| - 1], order[..|order| - 1];
    var next := DeleteTurn(s, order, ports);
    var i, j :| 0 <= i < j < |order| && order[i] == d && order[j] == n;
    assert d == rest[i] && d != last;
    DeleteLeavesOthers(s, next, last, d, ports);
    if last == n {
      at := FirstTurn(s, order, ports);
      later := DeletesEach(next, rest, d, ports);
    } else {
      assert n == rest[j];
      DeleteLeavesOthers(s, next, last, n, ports);
      at, later := DeletesInOrder(next, rest, d, n, ports);
      TurnedLater(s, next, DeleteEach(s, order, ports), n, at, ports);
    }
    TurnedLater(s, next, DeleteEach(s, order, ports), d, later, ports);
  }

  lemma FirstTurn(s: State, order: seq<Name>, ports: Ports) returns (at: nat)
    requires TableOk(s.records) && NoDup(order) && AllHave(s.records, order) && order != []
    ensures at == s.tick && DeleteTurned(s, DeleteEach(s, order, ports), order[|order| - 1], at, ports)
  {
    hide TableOk, Find, DeleteStep, DeleteAnswered, StandsOrFell, DeleteEach;
    var next := DeleteTurn(s, order, ports);
    at := s.tick;
    StandsStill(s.records, order[|order| - 1]);
    DeletesLeave(next, order[..|order| - 1], order[|order| - 1], ports);
  }

  lemma DeleteAllAnswer(s: State, ports: Ports)
    requires TableOk(s.records)
    ensures DeletedAll(s, Delete(s, All, ports), ports)
  {
    var order := DependencyOrder(s.records);
    CommandCoherence.OrderNamesRecords(s.records);
    hide TableOk, Find, DeleteEach, DeletedInTurn, DeletedBefore, DependencyOrder, DependsIn, IsAhead, BatchGraph.SoundGraph, NoDup;
    forall n | Has(s.records, n) ensures DeletedInTurn(s, Delete(s, All, ports), n, ports) {
      TurnOf(s, order, n, ports);
    }
    if BatchGraph.SoundGraph(s.records) {
      forall n, d | DependsIn(s.records, n, d) ensures DeletedBefore(s, Delete(s, All, ports), n, d, ports) {
        OrderIsSorted(s.records, n, d);
        TurnsOf(s, order, d, n, ports);
      }
    }
  }

  lemma TurnOf(s: State, order: seq<Name>, n: Name, ports: Ports)
    requires TableOk(s.records) && NoDup(order) && AllHave(s.records, order) && n in order
    ensures DeletedInTurn(s, DeleteEach(s, order, ports), n, ports)
  {
    hide DeleteTurned, DeleteEach;
    var at := DeletesEach(s, order, n, ports);
  }

  lemma TurnsOf(s: State, order: seq<Name>, d: Name, n: Name, ports: Ports)
    requires TableOk(s.records) && NoDup(order) && AllHave(s.records, order) && IsAhead(order, d, n)
    ensures DeletedBefore(s, DeleteEach(s, order, ports), n, d, ports)
  {
    hide DeleteTurned, DeleteEach;
    var at, later := DeletesInOrder(s, order, d, n, ports);
  }

  // ----- restart -----

  /**
   * A restart by command: done as a timer would do it, or, when it cannot be done, nothing but the schedule
   * may be armed anew.
   */
  ghost predicate RestartAnswered(s: State, next: State, name: Name, rearms: bool, ports: Ports) {
    if !CannotRestart(s, name, ports) then RestartTried(s, next, name, ports)
    else
      && next.records == s.records && next.launched == s.launched && next.waiters == s.waiters
      && next.readyFailed == s.readyFailed && WatchesIn(next.effects) == WatchesIn(s.effects)
      && next.timers.restarts == s.timers.restarts && next.timers.fires - {name} == s.timers.fires - {name}
      && if rearms then Rescheduled(s, next, name, ports) else next.timers == s.timers && next.effects == s.effects
  }

  /** The declaration is read again from its file; one that cannot be read changes nothing. */
  ghost predicate RestartTurned(s: State, next: State, name: Name, rearms: bool, ports: Ports)
    requires Has(s.records, name)
  {
    match ports.prepare(s.tick, name)
    case None => next == s.(tick := s.tick + 1)
    case Some(spec) =>
      exists reloaded ::
        && LeftAs(s, reloaded, name, Some(Record(spec.(name := name), Find(s.records, name).value.runtime)), 1)
        && RestartAnswered(reloaded, next, name, rearms, ports)
  }

  /** From the restart dispatched to the schedule armed: the queue is cleared in between. */
  lemma RestartSettles(s: State, tried: State, done: State, name: Name, ports: Ports)
    requires !CannotRestart(s, name, ports) && Restarted(s, tried, name, ports) && RestartFollowed(s, done, name, ports)
    requires done.records == tried.records && done.launched == tried.launched
    requires done.timers.fires == s.timers.fires && done.timers.restarts == s.timers.restarts
    requires done.waiters == s.waiters && done.readyFailed == s.readyFailed
    ensures RestartTried(s, ArmTimerFor(CancelQueuedRestart(done, name), name, ports), name, ports)
  {
    var cancelled := CancelQueuedRestart(done, name);
    assert WatchesIn(cancelled.effects) == WatchesIn(done.effects) && forall e <- done.effects :: e in cancelled.effects;
    ArmPromise(cancelled, name, ports);
    ArmTimerIsAside(cancelled, name, ports);
    ArmLeavesWaiters(cancelled, name, ports);
    SameSpec(s, tried, name, ports);
    hide ArmTimerFor, Find, WatchesIn, Restarted, RestartFollowed, Rescheduled, CannotRestart;
    var next := ArmTimerFor(cancelled, name, ports);
    RestartedAlike(s, tried, next, name, ports);
    FollowedFrom(s, s, done, next, name, ports);
    RescheduledFrom(s, cancelled, next, name, ports);
  }

  lemma RestartOneAnswers(s: State, selector: Selector, name: Name, ports: Ports)
    requires FindBy(s.records, selector) == Find(s.records, name) && Has(s.records, name)
    ensures RestartAnswered(s, RestartOne(s, selector, ports), name, false, ports)
  {
    SameRestart(s, selector, name, ports);
    DispatchPromise(s, name, ports);
    RefusedIsAside(s, name, ports);
    hide RestartApp, DispatchRestart, Find, FindBy, Restarted, RestartFollowed, WatchesIn, CancelQueuedRestart, ArmTimerFor, CannotRestart, RestartTried;
    var (tried, outcome) := RestartApp(s, selector, ports);
    if !outcome.Refused? {
      RestartSettles(s, tried, DispatchRestart(tried, outcome).0, name, ports);
    }
  }

  lemma SameRestart(s: State, selector: Selector, name: Name, ports: Ports)
    requires FindBy(s.records, selector) == Find(s.records, name)
    ensures RestartApp(s, selector, ports) == RestartApp(s, ByName(name), ports)
  {
    StickyStop.FindByNameIsFind(s.records, name);
    hide FindBy, LaunchOne, RequestStop, RequestRestartOf, Find;
  }

  lemma RefusedIsAside(s: State, name: Name, ports: Ports)
    ensures var (tried, outcome) := RestartApp(s, ByName(name), ports);
            outcome.Refused? ==>
              && tried.records == s.records && tried.launched == s.launched && tried.timers == s.timers
              && tried.effects == s.effects && tried.waiters == s.waiters && tried.readyFailed == s.readyFailed
  {
    DispatchPromise(s, name, ports);
    RestartAppAside(s, ByName(name), ports);
    hide RestartApp, DispatchRestart, Find, RestartFollowed, WatchesIn, CannotRestart;
  }

  /** One turn of a restart of everything, once the declaration is read. */
  function RestartTurn(s: State, name: Name, ports: Ports): State {
    var (tried, outcome) := RestartApp(s, ByName(name), ports);
    if outcome.Refused? then ArmTimerFor(tried, name, ports)
    else
      var (dispatched, restarted) := DispatchRestart(tried, outcome);
      ArmTimerFor(CancelQueuedRestart(dispatched, restarted), restarted, ports)
  }

  lemma RestartTurnAnswers(s: State, name: Name, ports: Ports)
    requires Has(s.records, name)
    ensures RestartAnswered(s, RestartTurn(s, name, ports), name, true, ports)
  {
    DispatchPromise(s, name, ports);
    RefusedIsAside(s, name, ports);
    hide RestartApp, DispatchRestart, Find, FindBy, Restarted, RestartFollowed, WatchesIn, CancelQueuedRestart, ArmTimerFor, CannotRestart, RestartTried, Rescheduled;
    var (tried, outcome) := RestartApp(s, ByName(name), ports);
    if outcome.Refused? {
      RefusedIsRearmed(s, tried, name, ports);
    } else {
      RestartSettles(s, tried, DispatchRestart(tried, outcome).0, name, ports);
    }
  }

  lemma RefusedIsRearmed(s: State, tried: State, name: Name, ports: Ports)
    requires tried.records == s.records && tried.launched == s.launched && tried.timers == s.timers
    requires tried.effects == s.effects && tried.waiters == s.waiters && tried.readyFailed == s.readyFailed
    requires CannotRestart(s, name, ports)
    ensures RestartAnswered(s, ArmTimerFor(tried, name, ports), name, true, ports)
  {
    ArmPromise(tried, name, ports);
    ArmTimerIsAside(tried, name, ports);
    ArmLeavesWaiters(tried, name, ports);
    hide ArmTimerFor, Find, WatchesIn, Rescheduled, CannotRestart;
    RescheduledFrom(s, tried, ArmTimerFor(tried, name, ports), name, ports);
  }

  /** The restart of one service by command. */
  ghost predicate RestartedOne(s: State, next: State, selector: Selector, ports: Ports) {
    match FindBy(s.records, selector)
    case None => next == s
    case Some(record) =>
      && Find(s.records, record.runtime.name) == Some(record)
      && RestartTurned(s, next, record.runtime.name, false, ports)
  }

  lemma RestartAnswer(s: State, selector: Selector, ports: Ports)
    requires TableOk(s.records) && !selector.All?
    ensures RestartedOne(s, RestartCommand(s, selector, ports), selector, ports)
  {
    hide Find, FindBy, Put, TableOk, RestartOne, RestartAnswered, RecordOk;
    if FindBy(s.records, selector).Some? {
      var record := FindBy(s.records, selector).value;
      var name := record.runtime.name;
      FoundIsOk(s.records, selector);
      var prepared := ports.prepare(s.tick, name);
      if prepared.Some? {
        var left := Record(prepared.value.(name := name), record.runtime);
        ReloadedIsOk(record, left);
        StillFound(s.records, selector, left);
        EditedOnce(s, name, left, 1);
        RestartOneAnswers(s.(records := Put(s.records, name, left), tick := s.tick + 1), selector, name, ports);
      }
    }
  }

  lemma ReloadedIsOk(record: Record, left: Record)
    requires RecordOk(record) && left.runtime == record.runtime && left.spec.name == record.runtime.name
    ensures RecordOk(left)
  {
  }

  // ----- restart everything -----

  /** Each service takes one turn, its record as it was when the command came. */
  ghost predicate RestartedInTurn(s: State, next: State, n: Name, ports: Ports) {
    exists before: State, after: State ::
      && Has(before.records, n) && Find(before.records, n) == Find(s.records, n)
      && RestartTurned(before, after, n, true, ports)
      && Find(next.records, n) == Find(after.records, n)
  }

  lemma RestartLeavesOthers(s: State, next: State, name: Name, rearms: bool, ports: Ports)
    requires Has(s.records, name) && RestartTurned(s, next, name, rearms, ports)
    ensures OthersStand(s, next, name) && Has(next.records, name)
  {
    hide Find, RestartFollowed, Rescheduled, SpawnedOne;
  }

  /** The turn of one service, and what is left to do. */
  lemma RestartFirst(s: State, names: seq<Name>, ports: Ports) returns (next: State)
    requires names != [] && AllHave(s.records, names)
    ensures RestartTurned(s, next, names[0], true, ports)
    ensures RestartEach(s, names, ports) == RestartEach(next, names[1..], ports)
  {
    hide Find, Put, RestartApp, DispatchRestart, CancelQueuedRestart, ArmTimerFor, RestartAnswered;
    var name := names[0];
    assert name in names;
    var prepared := ports.prepare(s.tick, name);
    if prepared.None? {
      next := Tick(s);
    } else {
      var left := Find(s.records, name).value.(spec := prepared.value.(name := name));
      var reloaded := SetRecord(Tick(s), name, left);
      EditedOnce(s, name, left, 1);
      RestartTurnAnswers(reloaded, name, ports);
      next := RestartTurn(reloaded, name, ports);
    }
  }

  lemma StillHave(s: State, next: State, names: seq<Name>)
    requires names != [] && AllHave(s.records, names) && OthersStand(s, next, names[0]) && Has(next.records, names[0])
    ensures AllHave(next.records, names[1..])
  {
    hide Find;
    forall m <- names[1..] ensures Has(next.records, m) {
      assert m in names;
    }
  }

  lemma {:induction false} RestartsLeave(s: State, names: seq<Name>, n: Name, ports: Ports)
    requires AllHave(s.records, names) && n !in names
    ensures Find(RestartEach(s, names, ports).records, n) == Find(s.records, n)
    decreases |names|
  {
    hide Find, RestartTurned, RestartEach;
    if names == [] {
      NobodyRestarts(s, ports);
    } else {
      assert names[0] in names;
      var next := RestartFirst(s, names, ports);
      RestartLeavesOthers(s, next, names[0], true, ports);
      StillHave(s, next, names);
      RestartsLeave(next, names[1..], n, ports);
    }
  }

  lemma NobodyRestarts(s: State, ports: Ports)
    ensures RestartEach(s, [], ports) == s
  {
  }

  lemma {:induction false} RestartsEach(s: State, names: seq<Name>, n: Name, ports: Ports)
    requires AllHave(s.records, names) && NoDup(names) && n in names
    ensures RestartedInTurn(s, RestartEach(s, names, ports), n, ports)
    decreases |names|
  {
    hide Find, RestartTurned, RestartEach;
    assert names[0] in names;
    var next := RestartFirst(s, names, ports);
    RestartLeavesOthers(s, next, names[0], true, ports);
    StillHave(s, next, names);
    if names[0] == n {
      RestartsLeave(next, names[1..], n, ports);
    } else {
      RestartsEach(next, names[1..], n, ports);
    }
  }

  lemma RestartAllAnswer(s: State, n: Name, ports: Ports)
    requires TableOk(s.records) && Has(s.records, n)
    ensures RestartedInTurn(s, RestartCommand(s, All, ports), n, ports)
  {
    HasIsMember(s.records, n);
    RecordsHave(s.records);
    RestartsEach(s, NamesOf(s.records), n, ports);
  }

  // ----- reset -----

  /** No restart is counted any more, and a service that had given up is merely stopped. */
  function Cleared(record: Record): Record {
    Record(record.spec, record.runtime.(restartTime := 0, unstableRestarts := 0,
                                        status := if record.runtime.status == Errored then Stopped else record.runtime.status))
  }

  ghost predicate ResetAnswered(s: State, next: State, selector: Selector) {
    if selector.All? then
      && next == s.(records := next.records, tick := s.tick + |s.records|)
      && (forall n :: Find(next.records, n) == if Has(s.records, n) then Some(Cleared(Find(s.records, n).value)) else None)
    else
      match FindBy(s.records, selector)
      case None => next == s
      case Some(record) =>
        && Find(s.records, record.runtime.name) == Some(record)
        && LeftAs(s, next, record.runtime.name, Some(Cleared(record)), 1)
  }

  lemma ResetLeaves(s: State, name: Name)
    requires Has(s.records, name)
    ensures LeftAs(s, ResetOne(s, name), name, Some(Cleared(Find(s.records, name).value)), 1)
  {
    EditedOnce(s, name, Cleared(Find(s.records, name).value), 1);
    hide Find, Put;
  }

  lemma {:induction false} ResetsEach(s: State, names: seq<Name>)
    requires AllHave(s.records, names) && NoDup(names)
    ensures var next := ResetEach(s, names);
            && next == s.(records := next.records, tick := s.tick + |names|)
            && forall n :: Find(next.records, n) ==
                 if n in names then Some(Cleared(Find(s.records, n).value)) else Find(s.records, n)
    decreases |names|
  {
    hide Find, ResetOne;
    if names != [] {
      assert names[0] in names;
      var next := ResetOne(s, names[0]);
      ResetLeaves(s, names[0]);
      StillHave(s, next, names);
      ResetsEach(next, names[1..]);
      forall n
        ensures Find(ResetEach(s, names).records, n) ==
                  if n in names then Some(Cleared(Find(s.records, n).value)) else Find(s.records, n) {
        assert n in names <==> n == names[0] || n in names[1..];
      }
    }
  }

  lemma ResetAnswer(s: State, selector: Selector)
    requires TableOk(s.records)
    ensures ResetAnswered(s, Reset(s, selector), selector)
  {
    if selector.All? {
      ResetAllAnswer(s);
      hide Find, ResetEach, NamesOf;
    } else if FindBy(s.records, selector).Some? {
      FoundIsOk(s.records, selector);
      ResetLeaves(s, FindBy(s.records, selector).value.runtime.name);
      hide Find, FindBy, ResetOne;
    }
  }

  lemma ResetAllAnswer(s: State)
    requires TableOk(s.records)
    ensures var next := ResetEach(s, NamesOf(s.records));
            && next == s.(records := next.records, tick := s.tick + |s.records|)
            && forall n :: Find(next.records, n) == if Has(s.records, n) then Some(Cleared(Find(s.records, n).value)) else None
  {
    RecordsHave(s.records);
    ResetsEach(s, NamesOf(s.records));
    hide Find, ResetEach, NamesOf, NoDup;
    var next := ResetEach(s, NamesOf(s.records));
    forall n ensures Find(next.records, n) == if Has(s.records, n) then Some(Cleared(Find(s.records, n).value)) else None {
      HasIsMember(s.records, n);
    }
  }

  // ----- stop everything -----

  /** A live service is on its way out whether it could be signalled or not; nothing is asked of anyone. */
  function Dismissed(record: Record): Record {
    if record.runtime.status in {Stopped, Errored} then Idled(record)
    else Record(record.spec, Idled(record).runtime.(status := Stopping))
  }

  /** The live services of an order, the last first. */
  function LiveFromBack(records: seq<Record>, order: seq<Name>): seq<Name>
    decreases |order|
  {
    if order == [] then []
    else (if Unsettled(records, order[|order| - 1]) then [order[|order| - 1]] else []) + LiveFromBack(records, order[..|order| - 1])
  }

  /** What signalling one service yields. */
  function Signalled(s: State, name: Name, ports: Ports): seq<StopOutcome> {
    if Unsettled(s.records, name) && ports.terminate(s.tick) then [StopOutcome(name, PidOf(s.records, name))] else []
  }

  /** The turn of the last service of the order, and what is left to do. */
  lemma StopFirst(s: State, order: seq<Name>, ports: Ports) returns (next: State)
    requires TableOk(s.records) && AllHave(s.records, order) && order != []
    ensures var name := order[|order| - 1];
            && Has(s.records, name) && TableOk(next.records)
            && LeftAs(s, next, name, Some(Dismissed(Find(s.records, name).value)), if Unsettled(s.records, name) then 1 else 0)
            && StopEach(s, order, ports).0 == StopEach(next, order[..|order| - 1], ports).0
            && StopEach(s, order, ports).1 == Signalled(s, name, ports) + StopEach(next, order[..|order| - 1], ports).1
  {
    hide Find, Put, TableOk, RequestStop, RecordOk, LeftAs, Idled, Dismissed, Signals, CanSignal, LivePidOf, AskedToStop;
    var name := order[|order| - 1];
    assert name in order;
    var record := Find(s.records, name).value;
    var idle := Idled(record);
    Commands.RecordIsOk(s.records, name);
    StoppedIsOk(record, ports, s.tick);
    PutKeepsTable(s.records, name, idle);
    var stilled := SetRecord(s, name, idle);
    EditedOnce(s, name, idle, 0);
    Edited(s.records, name, idle);
    if record.runtime.status.IsSettled() {
      next := stilled;
    } else {
      RequestLeaves(stilled, name, ports);
      PutKeepsTable(stilled.records, name, Dismissed(record));
      EditedTwice(s, stilled, name, Dismissed(record), 1);
      next := s.(records := Put(stilled.records, name, Dismissed(record)), tick := s.tick + 1);
    }
    assert forall more: seq<StopOutcome> :: [] + more == more;
  }

  lemma StoppedIsOk(record: Record, ports: Ports, tick: nat)
    requires RecordOk(record)
    ensures RecordOk(Idled(record)) && RecordOk(Dismissed(record))
    ensures record.With(record.runtime.DisarmSchedule().CancelRestart()) == Idled(record)
    ensures Idled(record).runtime.name == Dismissed(record).runtime.name == record.runtime.name
    ensures Idled(record).runtime.status == record.runtime.status && Idled(record).runtime.pid == record.runtime.pid
    ensures record.runtime.status.IsSettled() ==> Dismissed(record) == Idled(record)
    ensures !record.runtime.status.IsSettled() ==>
              && record.With(Idled(record).runtime.MarkStopping()) == AskedToStop(Idled(record)) == Dismissed(record)
              && LivePidOf(Idled(record)) == record.runtime.pid && Signals(Idled(record)) == 1
              && (CanSignal(Idled(record), ports, tick) <==> ports.terminate(tick))
  {
  }

  lemma {:induction false} LiveAlike(records: seq<Record>, next: seq<Record>, order: seq<Name>)
    requires forall n <- order :: Find(next, n) == Find(records, n)
    ensures LiveFromBack(next, order) == LiveFromBack(records, order)
    decreases |order|
  {
    hide Find;
    if order != [] {
      assert order[|order| - 1] in order;
      forall n <- order[..|order| - 1] ensures Find(next, n) == Find(records, n) {
        assert n in order;
      }
      LiveAlike(records, next, order[..|order| - 1]);
    }
  }

  /** What the turn of the last of the order means for the rest. */
  lemma RestAlike(s: State, next: State, order: seq<Name>)
    requires order != [] && NoDup(order) && AllHave(s.records, order) && OthersStand(s, next, order[|order| - 1])
    ensures var name, rest := order[|order| - 1], order[..|order| - 1];
            && NoDup(rest) && name !in rest && AllHave(next.records, rest)
            && (forall n :: n in order <==> n == name || n in rest)
            && LiveFromBack(next.records, rest) == LiveFromBack(s.records, rest)
            && (forall n <- rest :: Find(next.records, n) == Find(s.records, n))
  {
    hide Find;
    var name, rest := order[|order| - 1], order[..|order| - 1];
    assert order == rest + [name];
    forall n <- rest ensures Find(next.records, n) == Find(s.records, n) && Has(next.records, n) {
      assert n in order && n != name;
    }
    LiveAlike(s.records, next.records, rest);
  }

  lemma {:induction false} StopsEach(s: State, order: seq<Name>, ports: Ports)
    requires TableOk(s.records) && AllHave(s.records, order) && NoDup(order)
    ensures var next := StopEach(s, order, ports).0;
            && next == s.(records := next.records, tick := s.tick + |LiveFromBack(s.records, order)|) && TableOk(next.records)
            && forall n :: Find(next.records, n) ==
                 if n in order then Some(Dismissed(Find(s.records, n).value)) else Find(s.records, n)
    decreases |order|
  {
    hide Find, TableOk, StopEach, Dismissed, LiveFromBack;
    if order == [] {
      NobodyStopped(s, ports);
    } else {
      var name, rest := order[|order| - 1], order[..|order| - 1];
      var next := StopFirst(s, order, ports);
      RestAlike(s, next, order);
      StopsEach(next, rest, ports);
      LiveFirst(s.records, order);
      var last := StopEach(s, order, ports).0;
      forall n ensures Find(last.records, n) == if n in order then Some(Dismissed(Find(s.records, n).value)) else Find(s.records, n) {
        assert n in order <==> n == name || n in rest;
      }
    }
  }

  lemma NobodyStopped(s: State, ports: Ports)
    ensures StopEach(s, [], ports) == (s, []) && LiveFromBack(s.records, []) == []
  {
  }

  lemma LiveFirst(records: seq<Record>, order: seq<Name>)
    requires order != []
    ensures LiveFromBack(records, order) ==
              (if Unsettled(records, order[|order| - 1]) then [order[|order| - 1]] else []) + LiveFromBack(records, order[..|order| - 1])
  {
  }

  /** Every live service that could be signalled is among those to be killed. */
  lemma {:induction false} StopsReport(s: State, order: seq<Name>, ports: Ports, i: nat)
    requires TableOk(s.records) && AllHave(s.records, order) && NoDup(order)
    requires i < |LiveFromBack(s.records, order)| && ports.terminate(s.tick + i)
    ensures var n := LiveFromBack(s.records, order)[i];
            StopOutcome(n, PidOf(s.records, n)) in StopEach(s, order, ports).1
    decreases |order|
  {
    hide Find, TableOk, StopEach, Dismissed, LiveFromBack;
    if order == [] {
      NobodyStopped(s, ports);
    } else {
      var name, rest := order[|order| - 1], order[..|order| - 1];
      var next := StopFirst(s, order, ports);
      RestAlike(s, next, order);
      LiveFirst(s.records, order);
      var own := if Unsettled(s.records, name) then 1 else 0;
      if i >= own {
        LiveIsListed(s.records, rest, LiveFromBack(s.records, rest)[i - own]);
        StopsReport(next, rest, ports, i - own);
      }
    }
  }

  lemma {:induction false} LiveIsListed(records: seq<Record>, order: seq<Name>, n: Name)
    ensures n in LiveFromBack(records, order) <==> n in order && Unsettled(records, n)
    decreases |order|
  {
    hide Find;
    if order != [] {
      LiveIsListed(records, order[..|order| - 1], n);
      assert order == order[..|order| - 1] + [order[|order| - 1]];
    }
  }

  lemma {:induction false} LiveIsReversed(records: seq<Record>, order: seq<Name>, d: Name, n: Name)
    requires IsAhead(order, d, n) && Unsettled(records, d) && Unsettled(records, n)
    ensures IsAhead(LiveFromBack(records, order), n, d)
    decreases |order|
  {
    hide Find, LiveFromBack, Unsettled;
    var last, rest := order[|order| - 1], order[..|order| - 1];
    LiveFirst(records, order);
    var live, more := LiveFromBack(records, order), LiveFromBack(records, rest);
    var i, j :| 0 <= i < j < |order| && order[i] == d && order[j] == n;
    assert rest[i] == d;
    if j == |order| - 1 {
      LiveIsListed(records, rest, d);
      var k :| 0 <= k < |more| && more[k] == d;
      assert live == [n] + more && live[0] == n && live[k + 1] == d;
    } else {
      assert rest[j] == n;
      LiveIsReversed(records, rest, d, n);
      var a, b :| 0 <= a < b < |more| && more[a] == n && more[b] == d;
      var own := |live| - |more|;
      assert live[own + a] == n && live[own + b] == d;
    }
  }

  /** Cancelling readiness for many: nobody waits for them, they wait for nobody, records stand or fall. */
  lemma {:induction false} CancelsEach(s: State, names: seq<Name>)
    ensures var next := CancelAll(s, names);
            && next.timers == s.timers && next.launched == s.launched && next.tick == s.tick
            && next.readyFailed == s.readyFailed - Elems(names) && s.effects <= next.effects
            && (forall a, b :: Edge(next.waiters, a, b) ==> Edge(s.waiters, a, b) && a !in names && b !in names)
            && (forall n :: StandsOrFell(s.records, next.records, n))
    decreases |names|
  {
    hide CancelReadyOf, Find, StandsOrFell, Edge, Waiting.Fallen;
    if names == [] {
      forall n ensures StandsOrFell(s.records, s.records, n) {
        StandsStill(s.records, n);
      }
    } else {
      var next := CancelReadyOf(s, names[0]);
      CancelLeaves(s, names[0]);
      CancelsEach(next, names[1..]);
      forall n ensures StandsOrFell(s.records, CancelAll(s, names).records, n) {
        StandsThrough(s.records, next.records, CancelAll(next, names[1..]).records, n);
      }
      assert names == [names[0]] + names[1..];
      assert s.readyFailed - {names[0]} - Elems(names[1..]) == s.readyFailed - Elems(names);
    }
  }

  lemma CancelLeaves(s: State, name: Name)
    ensures var next := CancelReadyOf(s, name);
            && next.timers == s.timers && next.launched == s.launched && next.tick == s.tick
            && next.readyFailed == s.readyFailed - {name} && s.effects <= next.effects
            && (forall a, b :: Edge(next.waiters, a, b) ==> Edge(s.waiters, a, b) && a != name && b != name)
            && (forall n :: StandsOrFell(s.records, next.records, n))
  {
    CancelReadyPromise(s, name);
    hide CancelReadyOf, Find, Edge, Waiting.Fallen, Reaches, StillWaiting;
  }

  /** A record when everything has been stopped: dismissed, and errored if it was settled and waited. */
  predicate IsDismissed(before: Record, after: Option<Record>) {
    after == Some(Dismissed(before)) || after == Some(Waiting.FallenRecord(Dismissed(before)))
  }

  /** The live services of a table in the order they are signalled, dependents first, each once. */
  ghost predicate SignalOrder(records: seq<Record>, signalled: seq<Name>) {
    && NoDup(signalled) && (forall n :: n in signalled <==> Unsettled(records, n))
    && (BatchGraph.SoundGraph(records) ==>
          forall n, d :: DependsIn(records, n, d) && Unsettled(records, n) && Unsettled(records, d) ==> IsAhead(signalled, n, d))
  }

  /**
   * Stopping everything: nothing stays armed, queued or waiting, and nothing is launched. Every live
   * service is signalled once, dependents first, and is on its way out even if the signal was refused;
   * each that took it, and every process the launcher still tracks afterwards, will be killed, under the
   * name and token of the service it belongs to.
   */
  ghost predicate StoppedEverything(s: State, next: State, ports: Ports) {
    && next.timers == s.timers.(fires := map[], restarts := {}) && next.launched == s.launched
    && (forall n :: Has(s.records, n) ==>
          && IsDismissed(Find(s.records, n).value, Find(next.records, n))
          && n !in next.readyFailed && forall x :: !Edge(next.waiters, n, x) && !Edge(next.waiters, x, n))
    && exists signalled :: SignalOrder(s.records, signalled) && AllKilled(s, next, signalled, ports)
  }

  /** Whoever took the signal will be killed, and every process tracked after the last signal. */
  ghost predicate AllKilled(s: State, next: State, signalled: seq<Name>, ports: Ports) {
    var tracked := ports.trackedPids(s.tick + |signalled| + 1);
    && (forall i :: 0 <= i < |signalled| && ports.terminate(s.tick + i) ==> WillBeKilled(s, next, signalled[i]))
    && (forall pid <- tracked :: Commands.IsCovered(next.effects, pid))
    && (forall n :: TracksOwn(s.records, n, tracked) ==> WillBeKilled(s, next, n))
  }

  /** The launcher tracks the process of a live service, which no other record claims. */
  ghost predicate TracksOwn(records: seq<Record>, n: Name, tracked: seq<nat>) {
    && Unsettled(records, n) && PidOf(records, n).Some? && PidOf(records, n).value in tracked
    && forall m :: m != n ==> PidOf(records, m) != PidOf(records, n)
  }

  ghost predicate WillBeKilled(s: State, next: State, n: Name) {
    && Has(s.records, n)
    && var runtime := Find(s.records, n).value.runtime;
       runtime.pid.Some? && KillOf(s, n, runtime.pid.value, runtime.Token()) in next.effects
  }

  lemma LiveIsOrdered(records: seq<Record>)
    requires TableOk(records)
    ensures SignalOrder(records, LiveFromBack(records, DependencyOrder(records)))
  {
    var order := DependencyOrder(records);
    CommandCoherence.OrderNamesRecords(records);
    hide TableOk, Find, DependencyOrder, LiveFromBack, DependsIn, BatchGraph.SoundGraph, NoDup, IsAhead, Unsettled;
    LiveIsDistinct(records, order);
    forall n ensures n in LiveFromBack(records, order) <==> Unsettled(records, n) {
      LiveIsListed(records, order, n);
    }
    if BatchGraph.SoundGraph(records) {
      forall n, d | DependsIn(records, n, d) && Unsettled(records, n) && Unsettled(records, d)
        ensures IsAhead(LiveFromBack(records, order), n, d) {
        OrderIsSorted(records, n, d);
        LiveIsReversed(records, order, d, n);
      }
    }
  }

  lemma {:induction false} LiveIsDistinct(records: seq<Record>, order: seq<Name>)
    requires NoDup(order)
    ensures NoDup(LiveFromBack(records, order))
    decreases |order|
  {
    hide Find, LiveFromBack;
    if order == [] {
      LiveOfNobody(records);
    } else {
      var last, rest := order[|order| - 1], order[..|order| - 1];
      LiveFirst(records, order);
      LiveIsDistinct(records, rest);
      LiveIsListed(records, rest, last);
      NoDupCons(last, LiveFromBack(records, rest));
    }
  }

  lemma LiveOfNobody(records: seq<Record>)
    ensures LiveFromBack(records, []) == []
  {
  }

  /** Each process asked to leave gets its kill task, under its own token. */
  lemma {:induction false} StoppedAreKilled(s: State, stopped: seq<StopOutcome>, one: StopOutcome)
    requires one in stopped && one.forceKillPid.Some?
    ensures KillOf(s, one.name, one.forceKillPid.value, IdentityToken(s, one.name)) in ForceKillStopped(s, stopped).effects
    decreases |stopped|
  {
    hide IdentityToken, WatchesIn;
    var next := ScheduleForceKillOf(s, stopped[0].name, stopped[0].forceKillPid, IdentityToken(s, stopped[0].name));
    if one == stopped[0] {
      Commands.StoppedAreCovered(next, stopped[1..]);
      assert KillOf(s, one.name, one.forceKillPid.value, IdentityToken(s, one.name)) in next.effects;
    } else {
      Commands.KillIsAside(s, stopped[0].name, stopped[0].forceKillPid, IdentityToken(s, stopped[0].name));
      TokenAlike(s, next, one.name);
      StoppedAreKilled(next, stopped[1..], one);
    }
  }

  lemma TokenAlike(s: State, next: State, name: Name)
    requires next.records == s.records
    ensures IdentityToken(next, name) == IdentityToken(s, name)
  {
  }

  /** The state in which the kills of a stop of everything are scheduled, and the one it ends in. */
  lemma StopAllStages(s: State, ports: Ports) returns (asked: State, stopped: seq<StopOutcome>, cancelled: State)
    requires TableOk(s.records)
    ensures var order := DependencyOrder(s.records);
            && asked == s.(records := asked.records, timers := s.timers.(fires := map[], restarts := {}), effects := asked.effects,
                           tick := s.tick + |LiveFromBack(s.records, order)| + 1)
            && (forall n :: Find(asked.records, n) == if Has(s.records, n) then Some(Dismissed(Find(s.records, n).value)) else None)
            && (forall i :: 0 <= i < |LiveFromBack(s.records, order)| && ports.terminate(s.tick + i) ==>
                  var n := LiveFromBack(s.records, order)[i]; StopOutcome(n, PidOf(s.records, n)) in stopped)
            && (forall one <- stopped :: one.forceKillPid == PidOf(s.records, one.name))
    ensures TableOk(cancelled.records)
    ensures cancelled == CancelAll(ForceKillStopped(asked, stopped), NamesOf(asked.records))
    ensures StopAll(s, ports) == ForceKillUnswept(Tick(cancelled), ports.trackedPids(cancelled.tick), stopped)
  {
    hide Find, TableOk, DisarmEverything, StopEach, DependencyOrder, LiveFromBack, Dismissed, NamesOf, NoDup, WatchesIn;
    var disarmed := DisarmEverything(s);
    DisarmsAll(s);
    var order := DependencyOrder(s.records);
    CommandCoherence.OrderNamesRecords(s.records);
    StopsEach(disarmed, order, ports);
    asked, stopped := Tick(StopEach(disarmed, order, ports).0), StopEach(disarmed, order, ports).1;
    StickyStop.ForceKillsAreAside(asked, stopped);
    cancelled := CancelAll(ForceKillStopped(asked, stopped), NamesOf(asked.records));
    CancelsKeepTable(ForceKillStopped(asked, stopped), NamesOf(asked.records));
    forall i | 0 <= i < |LiveFromBack(s.records, order)| && ports.terminate(s.tick + i)
      ensures var n := LiveFromBack(s.records, order)[i]; StopOutcome(n, PidOf(s.records, n)) in stopped {
      StopsReport(disarmed, order, ports, i);
    }
    forall one <- stopped ensures one.forceKillPid == PidOf(s.records, one.name) {
      StopsOwn(disarmed, order, ports, one);
    }
  }

  lemma {:induction false} StopsOwn(s: State, order: seq<Name>, ports: Ports, one: StopOutcome)
    requires TableOk(s.records) && AllHave(s.records, order) && NoDup(order) && one in StopEach(s, order, ports).1
    ensures one.forceKillPid == PidOf(s.records, one.name) && one.name in order
    decreases |order|
  {
    hide Find, TableOk, StopEach, Dismissed;
    if order == [] {
      NobodyStopped(s, ports);
    } else {
      var name, rest := order[|order| - 1], order[..|order| - 1];
      var next := StopFirst(s, order, ports);
      RestAlike(s, next, order);
      if one !in Signalled(s, name, ports) {
        StopsOwn(next, rest, ports, one);
      }
    }
  }

  lemma DisarmsAll(s: State)
    ensures var next := DisarmEverything(s);
            next == s.(timers := s.timers.(fires := map[], restarts := {}), effects := next.effects)
  {
  }

  lemma StopAllAnswer(s: State, ports: Ports)
    requires TableOk(s.records)
    ensures StoppedEverything(s, StopAll(s, ports), ports)
  {
    hide Find, TableOk, StopAll, DependencyOrder, LiveFromBack, Dismissed, NamesOf, NoDup, WatchesIn, SignalOrder, CancelAll,
         ForceKillStopped, ForceKillUnswept, AllKilled, Edge, IsDismissed, Elems;
    var asked, stopped, cancelled := StopAllStages(s, ports);
    var next := StopAll(s, ports);
    StickyStop.ForceKillsAreAside(asked, stopped);
    CancelsEach(ForceKillStopped(asked, stopped), NamesOf(asked.records));
    StickyStop.SweepsAreAside(Tick(cancelled), ports.trackedPids(cancelled.tick), stopped);
    forall n | Has(s.records, n)
      ensures IsDismissed(Find(s.records, n).value, Find(next.records, n)) && n !in next.readyFailed
      ensures forall x :: !Edge(next.waiters, n, x) && !Edge(next.waiters, x, n) {
      EndsDismissed(s, asked, ForceKillStopped(asked, stopped), cancelled, n);
    }
    var signalled := LiveFromBack(s.records, DependencyOrder(s.records));
    LiveIsOrdered(s.records);
    StopAllKills(s, asked, stopped, cancelled, next, signalled, ports);
  }

  lemma StopAllKills(s: State, asked: State, stopped: seq<StopOutcome>, cancelled: State, next: State, signalled: seq<Name>, ports: Ports)
    requires TableOk(s.records) && TableOk(cancelled.records)
    requires forall m :: Find(asked.records, m) == if Has(s.records, m) then Some(Dismissed(Find(s.records, m).value)) else None
    requires forall m :: StandsOrFell(asked.records, cancelled.records, m)
    requires signalled == LiveFromBack(s.records, DependencyOrder(s.records))
    requires forall i :: 0 <= i < |signalled| && ports.terminate(s.tick + i) ==>
               StopOutcome(signalled[i], PidOf(s.records, signalled[i])) in stopped
    requires forall one <- stopped :: one.forceKillPid == PidOf(s.records, one.name)
    requires asked.timers.generations == s.timers.generations && cancelled.timers == asked.timers
    requires cancelled.tick == s.tick + |signalled| + 1
    requires cancelled == CancelAll(ForceKillStopped(asked, stopped), NamesOf(asked.records))
    requires next == ForceKillUnswept(Tick(cancelled), ports.trackedPids(cancelled.tick), stopped)
    ensures AllKilled(s, next, signalled, ports)
  {
    hide Find, TableOk, DependencyOrder, LiveFromBack, Dismissed, NamesOf, NoDup, WatchesIn, CancelAll, ForceKillStopped,
         ForceKillUnswept, WillBeKilled, Commands.IsCovered, StandsOrFell, TracksOwn;
    forall i | 0 <= i < |signalled| && ports.terminate(s.tick + i) ensures WillBeKilled(s, next, signalled[i]) {
      LiveIsListed(s.records, DependencyOrder(s.records), signalled[i]);
      SignalledAreKilled(s, asked, stopped, cancelled, next, signalled[i], ports);
    }
    TrackedAreKilled(asked, stopped, cancelled, ports);
    TableNamed(cancelled.records);
    forall n | TracksOwn(s.records, n, ports.trackedPids(cancelled.tick)) ensures WillBeKilled(s, next, n) {
      OwnIsKilled(s, asked, stopped, cancelled, next, n, ports);
    }
  }

  lemma TableNamed(records: seq<Record>)
    requires TableOk(records)
    ensures NoDup(NamesOf(records))
  {
  }

  lemma EndsDismissed(s: State, asked: State, scheduled: State, cancelled: State, n: Name)
    requires Has(s.records, n) && Find(asked.records, n) == Some(Dismissed(Find(s.records, n).value))
    requires StandsOrFell(asked.records, cancelled.records, n)
    requires cancelled.readyFailed == scheduled.readyFailed - Elems(NamesOf(asked.records))
    requires forall a, b :: Edge(cancelled.waiters, a, b) ==> a !in NamesOf(asked.records) && b !in NamesOf(asked.records)
    ensures IsDismissed(Find(s.records, n).value, Find(cancelled.records, n)) && n !in cancelled.readyFailed
    ensures forall x :: !Edge(cancelled.waiters, n, x) && !Edge(cancelled.waiters, x, n)
  {
    hide Find, Edge, NamesOf, Waiting.FallenRecord, Dismissed;
    HasIsMember(asked.records, n);
  }

  lemma SignalledAreKilled(s: State, asked: State, stopped: seq<StopOutcome>, cancelled: State, next: State, n: Name, ports: Ports)
    requires TableOk(s.records) && Unsettled(s.records, n) && StopOutcome(n, PidOf(s.records, n)) in stopped
    requires Find(asked.records, n) == Some(Dismissed(Find(s.records, n).value))
    requires asked.timers.generations == s.timers.generations
    requires cancelled == CancelAll(ForceKillStopped(asked, stopped), NamesOf(asked.records))
    requires next == ForceKillUnswept(Tick(cancelled), ports.trackedPids(cancelled.tick), stopped)
    ensures WillBeKilled(s, next, n)
  {
    hide Find, TableOk, CancelAll, ForceKillStopped, ForceKillUnswept, NamesOf, WatchesIn, IdentityToken;
    KillIsAlike(s, asked, n);
    StoppedAreKilled(asked, stopped, StopOutcome(n, PidOf(s.records, n)));
    Commands.CancelAllGrows(ForceKillStopped(asked, stopped), NamesOf(asked.records));
    SweepsGrow(Tick(cancelled), ports.trackedPids(cancelled.tick), stopped);
  }

  lemma KillIsAlike(s: State, asked: State, n: Name)
    requires TableOk(s.records) && Unsettled(s.records, n)
    requires Find(asked.records, n) == Some(Dismissed(Find(s.records, n).value))
    requires asked.timers.generations == s.timers.generations
    ensures PidOf(s.records, n).Some?
    ensures var pid, token := PidOf(s.records, n).value, Find(s.records, n).value.runtime.Token();
            KillOf(asked, n, pid, IdentityToken(asked, n)) == KillOf(s, n, pid, token)
  {
    Commands.RecordIsOk(s.records, n);
    hide Find, TableOk;
  }

  lemma {:induction false} SweepsGrow(s: State, tracked: seq<nat>, stopped: seq<StopOutcome>)
    ensures s.effects <= ForceKillUnswept(s, tracked, stopped).effects
    decreases |tracked|
  {
    hide OwnerOf, Covered, WatchesIn;
    if tracked != [] {
      var (name, token) := OwnerOf(s.records, tracked[0]);
      SweepsGrow(if Covered(stopped, tracked[0]) then s else ScheduleForceKillOf(s, name, Some(tracked[0]), token),
                 tracked[1..], stopped);
    }
  }

  lemma TrackedAreKilled(asked: State, stopped: seq<StopOutcome>, cancelled: State, ports: Ports)
    requires cancelled == CancelAll(ForceKillStopped(asked, stopped), NamesOf(asked.records))
    ensures forall pid <- ports.trackedPids(cancelled.tick) ::
              Commands.IsCovered(ForceKillUnswept(Tick(cancelled), ports.trackedPids(cancelled.tick), stopped).effects, pid)
  {
    hide CancelAll, ForceKillStopped, ForceKillUnswept, NamesOf, Covered, Commands.IsCovered;
    var scheduled := ForceKillStopped(asked, stopped);
    Commands.StoppedAreCovered(asked, stopped);
    Commands.CancelAllGrows(scheduled, NamesOf(asked.records));
    forall pid: nat | Covered(stopped, pid) ensures Commands.IsCovered(Tick(cancelled).effects, pid) {
      Commands.CoveredStays(scheduled.effects, cancelled.effects, pid);
    }
    Commands.UnsweptAreCovered(Tick(cancelled), ports.trackedPids(cancelled.tick), stopped);
  }

  lemma OwnIsKilled(s: State, asked: State, stopped: seq<StopOutcome>, cancelled: State, next: State, n: Name, ports: Ports)
    requires TableOk(s.records) && TracksOwn(s.records, n, ports.trackedPids(cancelled.tick))
    requires forall m :: Find(asked.records, m) == if Has(s.records, m) then Some(Dismissed(Find(s.records, m).value)) else None
    requires forall m :: StandsOrFell(asked.records, cancelled.records, m)
    requires forall one <- stopped :: one.forceKillPid == PidOf(s.records, one.name)
    requires asked.timers.generations == s.timers.generations && cancelled.timers == asked.timers
    requires NoDup(NamesOf(cancelled.records))
    requires cancelled == CancelAll(ForceKillStopped(asked, stopped), NamesOf(asked.records))
    requires next == ForceKillUnswept(Tick(cancelled), ports.trackedPids(cancelled.tick), stopped)
    ensures WillBeKilled(s, next, n)
  {
    hide Find, TableOk, CancelAll, ForceKillStopped, ForceKillUnswept, NamesOf, WatchesIn, OwnerOf, StandsOrFell, Dismissed;
    var pid := PidOf(s.records, n).value;
    if Covered(stopped, pid) {
      var one :| one in stopped && one.forceKillPid == Some(pid);
      assert one == StopOutcome(n, PidOf(s.records, n));
      SignalledAreKilled(s, asked, stopped, cancelled, next, n, ports);
    } else {
      PidKept(s, asked, cancelled, n);
      forall m | PidOf(cancelled.records, m) == Some(pid) ensures m == n {
        PidKept(s, asked, cancelled, m);
      }
      FoundIsIn(cancelled.records, n);
      OwnedBy(cancelled.records, n, pid);
      SweepKills(Tick(cancelled), ports.trackedPids(cancelled.tick), stopped, pid);
    }
  }

  /** Dismissing and failing take no process over: a live service keeps its pid and its token. */
  lemma PidKept(s: State, asked: State, cancelled: State, m: Name)
    requires Find(asked.records, m) == if Has(s.records, m) then Some(Dismissed(Find(s.records, m).value)) else None
    requires StandsOrFell(asked.records, cancelled.records, m)
    ensures PidOf(cancelled.records, m).Some? ==> PidOf(cancelled.records, m) == PidOf(s.records, m)
    ensures Unsettled(s.records, m) ==>
              && Has(cancelled.records, m) && PidOf(cancelled.records, m) == PidOf(s.records, m)
              && Find(cancelled.records, m).value.runtime.Token() == Find(s.records, m).value.runtime.Token()
  {
    hide Find;
  }

  lemma {:induction false} OwnedBy(records: seq<Record>, n: Name, pid: nat)
    requires NoDup(NamesOf(records)) && PidOf(records, n) == Some(pid) && records != []
    requires forall m :: PidOf(records, m) == Some(pid) ==> m == n
    ensures OwnerOf(records, pid) == (n, Find(records, n).value.runtime.Token())
  {
    FirstOrRest(records);
    var first, rest := records[0].runtime.name, records[1..];
    hide Find, NamesOf, NoDup;
    assert PidOf(records, first) == records[0].runtime.pid;
    if first != n {
      forall m | PidOf(rest, m) == Some(pid) ensures m == n {
        assert m != first && PidOf(records, m) == PidOf(rest, m);
      }
      OwnedBy(rest, n, pid);
    }
  }

  lemma FirstOrRest(records: seq<Record>)
    requires NoDup(NamesOf(records)) && records != []
    ensures NoDup(NamesOf(records[1..])) && Find(records, records[0].runtime.name) == Some(records[0])
    ensures forall m :: m != records[0].runtime.name ==> Find(records, m) == Find(records[1..], m)
    ensures !Has(records[1..], records[0].runtime.name)
  {
    NamesSplit(records);
    NotInRest(records);
    hide NoDup, NamesOf;
  }

  lemma NotInRest(records: seq<Record>)
    requires NoDup(NamesOf(records)) && records != []
    ensures !Has(records[1..], records[0].runtime.name)
  {
    NamesSplit(records);
    HasIsMember(records[1..], records[0].runtime.name);
    hide Find, NamesOf;
  }

  lemma {:induction false} SweepKills(s: State, tracked: seq<nat>, stopped: seq<StopOutcome>, pid: nat)
    requires pid in tracked && !Covered(stopped, pid)
    ensures var (name, token) := OwnerOf(s.records, pid);
            KillOf(s, name, pid, token) in ForceKillUnswept(s, tracked, stopped).effects
    decreases |tracked|
  {
    hide OwnerOf, Covered, WatchesIn;
    var (name, token) := OwnerOf(s.records, tracked[0]);
    var next := if Covered(stopped, tracked[0]) then s else ScheduleForceKillOf(s, name, Some(tracked[0]), token);
    if tracked[0] == pid {
      assert next.effects[|next.effects| - 1] == KillOf(s, name, pid, token);
      SweepsGrow(next, tracked[1..], stopped);
    } else {
      SweepKills(next, tracked[1..], stopped, pid);
    }
  }

  lemma {:induction false} CancelsKeepTable(s: State, names: seq<Name>)
    requires TableOk(s.records)
    ensures TableOk(CancelAll(s, names).records)
    decreases |names|
  {
    hide TableOk, FailDead, ForgetWaiter, WatchesIn;
    if names != [] {
      var forgotten := ForgetWaiter(s.waiters, names[0]);
      FailDeadKeepsTable(s.(readyFailed := s.readyFailed - {names[0]}, waiters := forgotten - {names[0]}), WaitersOf(forgotten, names[0]));
      CancelsKeepTable(CancelReadyOf(s, names[0]), names[1..]);
    }
  }
}
