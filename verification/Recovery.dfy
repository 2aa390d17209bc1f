/**
 * The take-over as the source performs it (usecases/src/resurrect.rs, and `resurrect_saved` of
 * usecases/src/supervisor.rs): the table is filled, survivors adopted and the rest started, step by
 * step, on the supervisor's own state.
 */
module Recovery {
  import opened Graphs
  import opened Model
  import opened ProcessTable
  import opened Handlers
  import opened Judge
  import opened Supervision
  import Daemon
  import R = Resurrect
  import P = Promises
  import TakeOvers

  /**
   * An adopted process is taken charge of as it is: nothing is asked of the outside world, and its record
   * keeps its pid, its token and its declaration and counts as running; no other record changes.
   */
  ghost predicate TakenAsIs(s: State, next: State, name: Name, outcome: Option<StartOutcome>)
    requires Has(s.records, name)
  {
    var before := Find(s.records, name).value;
    && next.tick == s.tick && next.timers == s.timers
    && P.OthersStand(s, next, name)
    && (if before.runtime.pid.None? then outcome.None? && next.panicked && next.records == s.records
        else
          && outcome.Some? && outcome.value.kind.Adopted? && outcome.value.pid == before.runtime.pid
          && next.launched == s.launched + [Handlers.Launch(name, before.runtime.pid.value)]
          && Has(next.records, name)
          && var after := Find(next.records, name).value;
             && after.spec == before.spec && after.runtime.pid == before.runtime.pid
             && after.runtime.Token() == before.runtime.Token() && after.runtime.status.IsRunning())
  }

  lemma AdoptPromise(s: State, name: Name)
    requires Has(s.records, name)
    ensures var (next, outcome) := R.AdoptOne(s, name); TakenAsIs(s, next, name, outcome)
  {
    hide Find, Put;
    var record := Find(s.records, name).value;
    P.Edited(s.records, name, record.With(if record.AwaitsReady() then record.runtime else record.runtime.MarkOnline()));
  }

  method Adopt(sup: Supervisor, name: Name) returns (outcome: Option<StartOutcome>)
    modifies sup, sup.table
    ensures (sup.Value(), outcome) == R.AdoptOne(old(sup.Value()), name)
    ensures Has(old(sup.table.records), name) ==> TakenAsIs(old(sup.Value()), sup.Value(), name, outcome)
  {
    if Has(sup.table.records, name) {
      AdoptPromise(sup.Value(), name);
    }
    hide Find, Put, TakenAsIs;
    var found := Find(sup.table.records, name);
    if found.None? {
      sup.Fail();
      return None;
    }
    var record := found.value;
    var runtime := record.runtime;
    if !record.AwaitsReady() {
      runtime := runtime.MarkOnline();
    }
    if runtime.pid.None? {
      sup.Fail();
      return None;
    }
    sup.SetRecord(name, record.With(runtime));
    sup.launched := sup.launched + [Handlers.Launch(name, runtime.pid.value)];
    outcome := Some(StartOutcome(runtime.pmId, name, runtime.pid, Adopted));
  }

  lemma RecoverTurn(s: State, os: seq<StartOutcome>, order: seq<Name>, i: nat, judged: map<Name, Judged>, ports: Ports)
    requires i < |order|
    ensures var (next, o) := R.RecoverOne(s, order[i], judged, ports);
            R.Recover(s, os, order[i..], judged, ports) ==
            R.Recover(next, R.AddOutcome(os, o), order[i + 1..], judged, ports)
  {
    hide R.RecoverOne, R.AddOutcome;
    assert order[i..][1..] == order[i + 1..];
  }

  lemma NobodyRecovered(s: State, os: seq<StartOutcome>, judged: map<Name, Judged>, ports: Ports)
    ensures R.Recover(s, os, [], judged, ports) == (s, os)
  {
  }

  /** The recovery loop of `resurrect`: survivors are adopted, the rest is started. */
  method RecoverEach(sup: Supervisor, order: seq<Name>, judged: map<Name, Judged>, ports: Ports) returns (outcomes: seq<StartOutcome>)
    modifies sup, sup.table
    ensures (sup.Value(), outcomes) == R.Recover(old(sup.Value()), [], order, judged, ports)
  {
    hide R.Recover, R.AdoptOne, LaunchOne, P.SpawnsAtMostOnce, P.LaunchAnswers;
    outcomes := [];
    ghost var s := sup.Value();
    assert order[0..] == order;
    for i := 0 to |order|
      invariant R.Recover(sup.Value(), outcomes, order[i..], judged, ports) == R.Recover(s, [], order, judged, ports)
    {
      RecoverTurn(sup.Value(), outcomes, order, i, judged, ports);
      var name := order[i];
      if name !in judged {
        continue;
      }
      var outcome: Option<StartOutcome> := None;
      match judged[name].verdict {
        case Adopt => outcome := Adopt(sup, name);
        case Settle(_) =>
        case Respawn(_, _) => outcome := sup.LaunchOne(name, false, ports);
      }
      if outcome.Some? {
        outcomes := outcomes + [outcome.value];
      }
    }
    assert order[|order|..] == [];
    NobodyRecovered(sup.Value(), outcomes, judged, ports);
  }

  lemma TakeOverUnfolds(s: State, stored: seq<Record>, trust: Trust, host: Host, ports: Ports)
    ensures var judged := JudgeAll(stored, trust, host);
            var filled := s.(records := R.ForgetAll(stored, judged));
            var (recovered, os) := R.Recover(filled, [], ProcessTable.DependencyOrder(filled.records), judged, ports);
            R.TakeOver(s, stored, trust, host, ports) == (Tick(recovered), os)
  {
    hide R.Recover, R.ForgetAll, JudgeAll, ProcessTable.DependencyOrder;
  }

  /** `resurrect`, once the verdicts are in and the evictions are over. */
  method Resurrect(sup: Supervisor, stored: seq<Record>, trust: Trust, host: Host, ports: Ports)
      returns (outcomes: seq<StartOutcome>)
    modifies sup, sup.table
    ensures (sup.Value(), outcomes) == R.TakeOver(old(sup.Value()), stored, trust, host, ports)
    ensures R.StoredOk(stored) ==> TakeOvers.AllEndAsJudged(stored, sup.table.records, trust, host, ports)
  {
    hide R.TakeOver, R.StoredOk, TakeOvers.AllEndAsJudged, R.Recover, R.ForgetAll, JudgeAll, ProcessTable.DependencyOrder;
    var judged := JudgeAll(stored, trust, host);
    sup.table.records := R.ForgetAll(stored, judged);
    var order := sup.table.DependencyOrder();
    outcomes := RecoverEach(sup, order, judged, ports);
    var _ := sup.Ask();
    TakeOverUnfolds(old(sup.Value()), stored, trust, host, ports);
    if R.StoredOk(stored) {
      TakeOvers.EachEndsAsJudged(old(sup.Value()), stored, trust, host, ports);
    }
  }

  lemma ArmTurn(s: State, names: seq<Name>, i: nat, ports: Ports)
    requires i < |names|
    ensures R.ArmAll(s, names[i..], ports) == R.ArmAll(ArmTimerFor(s, names[i], ports), names[i + 1..], ports)
  {
    assert names[i..][1..] == names[i + 1..];
  }

  /**
   * `resurrect_saved` on a new supervisor. The daemon it leaves is coherent: every process adopted or
   * started is watched, and every later run is sound.
   */
  method ResurrectSaved(sup: Supervisor, stored: seq<Record>, trust: Trust, host: Host, ports: Ports)
    requires sup.Value() == R.NEW_SUPERVISOR
    modifies sup, sup.table, sup.timers
    ensures sup.Value() == R.Boot(stored, trust, host, ports)
    ensures R.StoredOk(stored) ==> Daemon.Inv(R.BootWorld(sup.Value()))
  {
    hide R.TakeOver, WatchAll, ArmTimerFor, R.ArmedNames, Daemon.Inv, R.StoredOk;
    var outcomes := Resurrect(sup, stored, trust, host, ports);
    sup.WatchAll(outcomes);
    var names := R.ArmedNames(sup.table.records);
    ghost var watched := sup.Value();
    assert names[0..] == names;
    for i := 0 to |names|
      invariant R.ArmAll(sup.Value(), names[i..], ports) == R.ArmAll(watched, names, ports)
    {
      ArmTurn(sup.Value(), names, i, ports);
      sup.ArmTimer(names[i], ports);
    }
    if R.StoredOk(stored) {
      R.BootIsSound(stored, trust, host, ports);
    }
  }
}
