/**
 * What single commands and events promise their caller (usecases/src/supervisor_handlers.rs,
 * supervisor_ready.rs, start.rs, stop.rs and delete.rs): nothing asked to stop is left without a force
 * kill, a start during a stop is not lost, an unsaved delete is undone.
 */
module Commands {
  import opened Graphs
  import opened Model
  import opened ProcessTable
  import opened Handlers
  import opened TaskBoards

  // ----- force kills -----

  predicate Covers(e: Effect, pid: nat) {
    e.ScheduleForceKill? && e.pid == pid
  }

  /** Some effect schedules a force kill of the pid. */
  predicate IsCovered(effects: seq<Effect>, pid: nat) {
    exists e <- effects :: Covers(e, pid)
  }

  lemma CoveredStays(effects: seq<Effect>, more: seq<Effect>, pid: nat)
    requires effects <= more && IsCovered(effects, pid)
    ensures IsCovered(more, pid)
  {
    var e :| e in effects && Covers(e, pid);
    assert e in more;
  }

  lemma KillCovers(s: State, name: Name, pid: Option<nat>, token: Option<string>)
    ensures var next := ScheduleForceKillOf(s, name, pid, token);
            && s.effects <= next.effects
            && (pid.Some? ==> IsCovered(next.effects, pid.value))
  {
    if pid.Some? {
      var e := ScheduleForceKill(name, s.timers.CurrentGeneration(name), pid.value, token);
      assert e in Emit(s, e).effects && Covers(e, pid.value);
    }
  }

  lemma KillIsAside(s: State, name: Name, pid: Option<nat>, token: Option<string>)
    ensures var next := ScheduleForceKillOf(s, name, pid, token);
            next == s.(effects := next.effects)
  {
  }

  lemma {:induction false} StoppedAreCovered(s: State, stopped: seq<StopOutcome>)
    ensures var next := ForceKillStopped(s, stopped);
            && s.effects <= next.effects
            && forall pid: nat :: Covered(stopped, pid) ==> IsCovered(next.effects, pid)
    decreases |stopped|
  {
    hide ScheduleForceKillOf, IdentityToken;
    if stopped != [] {
      var one := stopped[0];
      var first := ScheduleForceKillOf(s, one.name, one.forceKillPid, IdentityToken(s, one.name));
      KillCovers(s, one.name, one.forceKillPid, IdentityToken(s, one.name));
      StoppedAreCovered(first, stopped[1..]);
      forall pid: nat | Covered(stopped, pid) ensures IsCovered(ForceKillStopped(s, stopped).effects, pid) {
        if one.forceKillPid == Some(pid) {
          CoveredStays(first.effects, ForceKillStopped(s, stopped).effects, pid);
        } else {
          var other :| other in stopped && other.forceKillPid == Some(pid);
          assert other in stopped[1..];
          assert Covered(stopped[1..], pid);
        }
      }
    }
  }

  lemma CancelReadyGrows(s: State, name: Name)
    ensures s.effects <= CancelReadyOf(s, name).effects
  {
    hide FailDownstream, ForgetWaiter;
    FailQuiet(s.(readyFailed := s.readyFailed - {name}, waiters := ForgetWaiter(s.waiters, name)), name);
  }

  lemma {:induction false} CancelAllGrows(s: State, names: seq<Name>)
    ensures s.effects <= CancelAll(s, names).effects
    decreases |names|
  {
    hide CancelReadyOf;
    if names != [] {
      CancelReadyGrows(s, names[0]);
      CancelAllGrows(CancelReadyOf(s, names[0]), names[1..]);
    }
  }

  lemma {:induction false} UnsweptAreCovered(s: State, tracked: seq<nat>, stopped: seq<StopOutcome>)
    requires forall pid: nat :: Covered(stopped, pid) ==> IsCovered(s.effects, pid)
    ensures var next := ForceKillUnswept(s, tracked, stopped);
            s.effects <= next.effects && forall pid <- tracked :: IsCovered(next.effects, pid)
    decreases |tracked|
  {
    hide ScheduleForceKillOf, OwnerOf, Covered, IsCovered;
    if tracked != [] {
      var (name, token) := OwnerOf(s.records, tracked[0]);
      var first := if Covered(stopped, tracked[0]) then s else ScheduleForceKillOf(s, name, Some(tracked[0]), token);
      KillCovers(s, name, Some(tracked[0]), token);
      forall pid: nat | Covered(stopped, pid) ensures IsCovered(first.effects, pid) {
        CoveredStays(s.effects, first.effects, pid);
      }
      UnsweptAreCovered(first, tracked[1..], stopped);
      CoveredStays(first.effects, ForceKillUnswept(s, tracked, stopped).effects, tracked[0]);
    }
  }

  /**
   * Stopping everything leaves no process out: every service asked to leave and every process the
   * launcher still tracks, whoever owns it, gets a force kill.
   */
  lemma StopAllCoversEveryProcess(s: State, ports: Ports)
    ensures var disarmed := DisarmEverything(s);
            var (asked, stopped) := StopEach(disarmed, DependencyOrder(disarmed.records), ports);
            var scheduled := ForceKillStopped(Tick(asked), stopped);
            var cancelled := CancelAll(scheduled, NamesOf(scheduled.records));
            var done := StopAll(s, ports);
            && (forall one <- stopped :: one.forceKillPid.Some? ==> IsCovered(done.effects, one.forceKillPid.value))
            && (forall pid <- ports.trackedPids(cancelled.tick) :: IsCovered(done.effects, pid))
  {
    hide DisarmEverything, StopEach, DependencyOrder, ForceKillStopped, CancelAll, ForceKillUnswept, NamesOf, IsCovered;
    var disarmed := DisarmEverything(s);
    var (asked, stopped) := StopEach(disarmed, DependencyOrder(disarmed.records), ports);
    var scheduled := ForceKillStopped(Tick(asked), stopped);
    StoppedAreCovered(Tick(asked), stopped);
    var cancelled := CancelAll(scheduled, NamesOf(scheduled.records));
    CancelAllGrows(scheduled, NamesOf(scheduled.records));
    forall pid: nat | Covered(stopped, pid) ensures IsCovered(Tick(cancelled).effects, pid) {
      CoveredStays(scheduled.effects, cancelled.effects, pid);
    }
    UnsweptAreCovered(Tick(cancelled), ports.trackedPids(cancelled.tick), stopped);
    var done := StopAll(s, ports);
    forall one <- stopped | one.forceKillPid.Some? ensures IsCovered(done.effects, one.forceKillPid.value) {
      assert Covered(stopped, one.forceKillPid.value);
      CoveredStays(Tick(cancelled).effects, done.effects, one.forceKillPid.value);
    }
  }

  /** A stop that replied with success has scheduled the force kill of the process it asked to leave. */
  lemma StopCoversItsProcess(s: State, selector: Selector, ports: Ports)
    requires !selector.All? && Stop(s, selector, ports).1
    requires FindBy(s.records, selector).Some?
    requires Has(s.records, FindBy(s.records, selector).value.runtime.name)
    requires Find(s.records, FindBy(s.records, selector).value.runtime.name) == FindBy(s.records, selector)
    ensures var live := FindBy(s.records, selector).value.runtime.LivePid();
            live.Some? ==> IsCovered(Stop(s, selector, ports).0.effects, live.value)
  {
    hide FindBy, Disarm, CancelQueuedRestart, CancelReadyOf, IsCovered;
    var record := FindBy(s.records, selector).value;
    var name := record.runtime.name;
    var idle := SetRecord(s, name, record.With(record.runtime.DisarmSchedule().CancelRestart()));
    AskedForLivePid(idle, name, ports);
    var (tried, outcome) := StopApp(s, selector, ports);
    var before := CancelReadyOf(CancelQueuedRestart(Disarm(tried, name), name), name);
    KillCovers(before, name, outcome.value.forceKillPid, IdentityToken(tried, name));
  }

  lemma AskedForLivePid(s: State, name: Name, ports: Ports)
    requires Has(s.records, name)
    ensures var outcome := RequestStop(s, name, ports).1;
            outcome.Some? ==>
              outcome.value.name == name && outcome.value.forceKillPid == Find(s.records, name).value.runtime.LivePid()
  {
    hide Find, Put;
  }

  // ----- starting while stopping -----

  /**
   * A start that meets a service on its way out is not lost: the launch asks for a restart, and when the
   * process leaves the service is queued to start again at once, whatever its exit code.
   */
  lemma StartDuringStopRestarts(s: State, name: Name, register: bool, ports: Ports, generation: nat, outcome: ExitOutcome)
    requires Has(s.records, name) && Find(s.records, name).value.runtime.status.Stopping?
    requires !Find(s.records, name).value.runtime.supervisedRestart
    requires s.timers.IsCurrent(name, generation) && name !in s.readyFailed
    ensures var (next, started) := LaunchOne(s, name, register, ports);
            var left := OnExit(next, name, generation, outcome, ports);
            && started.Some? && started.value.kind.AlreadyRunning? && next.launched == s.launched
            && name in left.timers.restarts && ScheduleRestart(name, 0) in left.effects
            && Has(left.records, name) && Find(left.records, name).value.runtime.status.Stopped?
            && !Find(left.records, name).value.runtime.pendingRestart
  {
    hide Put, Find;
    var record := Find(s.records, name).value;
    var next := LaunchOne(s, name, register, ports).0;
    var asked := record.With(record.runtime.ArmSchedule().RequestRestart());
    assert next.records == Put(s.records, name, asked) && Find(next.records, name) == Some(asked);
    var (settled, action) := ClassifyExit(asked, outcome, ports.now(next.tick));
    assert action == RestartAfter(0) && settled.runtime.status.Stopped?;
    var saved := Tick(SetRecord(Emit(next, CancelForceKill(name)), name, settled));
    assert saved.records == Put(next.records, name, settled) && Find(saved.records, name) == Some(settled);
    assert OnExit(next, name, generation, outcome, ports) == QueueRestart(saved, name, 0);
  }

  // ----- deletes that cannot be saved -----

  /**
   * A delete whose save fails changes no other record and keeps the service itself, with its declaration
   * and its id; one that is saved removes exactly that service.
   */
  lemma DeleteIsAllOrNothing(s: State, name: Name, ports: Ports)
    requires TableOk(s.records) && Has(s.records, name)
    ensures var (next, outcome) := DeleteOne(s, name, ports);
            var record := Find(s.records, name).value;
            && (forall other :: other != name ==> Find(next.records, other) == Find(s.records, other))
            && (if outcome.Some? then !Has(next.records, name)
                else Has(next.records, name) && Find(next.records, name).value.spec == record.spec
                     && Find(next.records, name).value.runtime.pmId == record.runtime.pmId)
  {
    hide Put, Remove;
    var (asked, outcome) := RequestStop(s, name, ports);
    AskKeepsOthers(s, name, ports);
    if outcome.Some? {
      var kept := Find(asked.records, name).value;
      RemovedName(asked.records, name);
      var without := Remove(asked.records, name);
      forall other ensures Find(without + [kept], other) == if other == name then Some(kept) else Find(without, other) {
        FindInAppended(without, kept, other);
      }
    }
  }

  lemma AskKeepsOthers(s: State, name: Name, ports: Ports)
    requires TableOk(s.records) && Has(s.records, name)
    ensures var asked := RequestStop(s, name, ports).0;
            var record := Find(s.records, name).value;
            && TableOk(asked.records)
            && (forall other :: other != name ==> Find(asked.records, other) == Find(s.records, other))
            && Has(asked.records, name) && Find(asked.records, name).value.spec == record.spec
            && Find(asked.records, name).value.runtime.pmId == record.runtime.pmId
  {
    hide Put, TableOk;
    var record := Find(s.records, name).value;
    assert RecordOk(record) by { RecordIsOk(s.records, name); }
    var idle, stopping := record.With(record.runtime.MarkExited(Stopped)), record.With(record.runtime.MarkStopping());
    PutKeepsTable(s.records, name, idle);
    if record.runtime.LivePid().Some? {
      PutKeepsTable(s.records, name, stopping);
    }
  }

  lemma RecordIsOk(records: seq<Record>, name: Name)
    requires TableOk(records) && Has(records, name)
    ensures RecordOk(Find(records, name).value)
  {
  }

  lemma RemovedName(records: seq<Record>, name: Name)
    requires TableOk(records) && Has(records, name)
    ensures !Has(Remove(records, name), name)
  {
    RemoveKeepsTable(records, name);
  }
}
