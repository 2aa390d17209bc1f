/**
 * What a memory or liveness sample does (usecases/src/supervisor.rs, supervisor_liveness.rs, query.rs):
 * which services it looks at, when it restarts one, and that a restart it asks for is the breaker's.
 */
module Samples {
  import opened Graphs
  import opened Model
  import opened ProcessTable
  import opened Handlers
  import opened Coherence
  import opened Promises
  import Daemon

  // ----- a restart asked for by a sample -----

  /** A restart that waits for the exit is marked as the supervisor's own. */
  function OwnRequest(record: Record): Record {
    if record.runtime.pendingRestart then Record(record.spec, record.runtime.(supervisedRestart := true)) else record
  }

  /** A restart was tried once, and what it asked for goes through the breaker. */
  ghost predicate RestartedByBreaker(s: State, next: State, name: Name, ports: Ports) {
    exists tried ::
      && RestartTried(s, tried, name, ports)
      && next == tried.(records := next.records, panicked := next.panicked)
      && OthersStand(tried, next, name)
      && (Has(tried.records, name) ==> Find(next.records, name) == Some(OwnRequest(Find(tried.records, name).value)))
  }

  lemma BreakerPromise(s: State, name: Name, ports: Ports)
    ensures RestartedByBreaker(s, HandToTheBreaker(RestartNow(s, name, ports), name), name, ports)
  {
    RestartNowPromise(s, name, ports);
    hide RestartNow, RestartTried, Find, Put;
    var tried := RestartNow(s, name, ports);
    if Has(tried.records, name) {
      var record := Find(tried.records, name).value;
      Edited(tried.records, name, record.With(record.runtime.RequestSupervisedRestart()));
    }
  }

  /** Nobody else's record is touched by it. */
  lemma BreakerLeavesOthers(s: State, next: State, name: Name, ports: Ports)
    requires RestartedByBreaker(s, next, name, ports)
    ensures OthersStand(s, next, name)
    ensures Has(s.records, name) ==> Has(next.records, name)
  {
    hide Find;
  }

  // ----- liveness, one service -----

  function OneMore(failures: nat): nat { if failures < U32_MAX then failures + 1 else U32_MAX }

  function WithFailures(record: Record, failures: nat): Record {
    Record(record.spec, record.runtime.(livenessFailures := failures))
  }

  /** The state in which the failures of a service are as counted, everything else as it was. */
  function Counted(s: State, name: Name, failures: nat): State
    requires Has(s.records, name)
  {
    s.(records := Put(s.records, name, WithFailures(Find(s.records, name).value, failures)), tick := s.tick + 1)
  }

  /**
   * A probe that answers clears the failures and asks for nothing. One that does not counts one more, and
   * a restart is tried exactly when that reaches the threshold.
   */
  ghost predicate Checked(s: State, next: State, name: Name, threshold: nat, ports: Ports)
    requires Has(s.records, name)
  {
    var failures := OneMore(Find(s.records, name).value.runtime.livenessFailures);
    if ports.isReady(s.tick) then next == Counted(s, name, 0)
    else if failures < threshold then next == Counted(s, name, failures)
    else RestartedByBreaker(Counted(s, name, failures), next, name, ports)
  }

  lemma CheckPromise(s: State, name: Name, threshold: nat, ports: Ports)
    requires Has(s.records, name)
    ensures Checked(s, CheckStep(s, name, threshold, ports), name, threshold, ports)
  {
    hide Find, Put, RestartNow, HandToTheBreaker, RestartedByBreaker;
    BreakerPromise(Counted(s, name, OneMore(Find(s.records, name).value.runtime.livenessFailures)), name, ports);
  }

  lemma CountedFinds(s: State, name: Name, failures: nat)
    requires Has(s.records, name)
    ensures Find(Counted(s, name, failures).records, name) == Some(WithFailures(Find(s.records, name).value, failures))
    ensures OthersStand(s, Counted(s, name, failures), name)
  {
    Edited(s.records, name, WithFailures(Find(s.records, name).value, failures));
  }

  lemma CheckLeavesOthers(s: State, name: Name, threshold: nat, ports: Ports)
    requires Has(s.records, name)
    ensures OthersStand(s, CheckStep(s, name, threshold, ports), name)
    ensures Has(CheckStep(s, name, threshold, ports).records, name)
  {
    CheckPromise(s, name, threshold, ports);
    var failures := OneMore(Find(s.records, name).value.runtime.livenessFailures);
    CountedFinds(s, name, 0);
    CountedFinds(s, name, failures);
    hide Find, Put, CheckStep, RestartedByBreaker, Counted;
    if !ports.isReady(s.tick) && failures >= threshold {
      BreakerLeavesOthers(Counted(s, name, failures), CheckStep(s, name, threshold, ports), name, ports);
    }
  }

  // ----- liveness, one sample -----

  /** Asked at a sample: online, restarting itself, and with a liveness probe. */
  predicate IsProbed(record: Record) {
    record.runtime.status == Online && record.spec.autorestart && record.spec.livenessProbe.Some?
  }

  /** The names of the records `chosen` holds of, in table order. */
  function NamesWhere(records: seq<Record>, chosen: Record -> bool): seq<Name> {
    if records == [] then []
    else (if chosen(records[0]) then [records[0].runtime.name] else []) + NamesWhere(records[1..], chosen)
  }

  lemma {:induction false} WatchListIsExact(records: seq<Record>)
    ensures LivenessWatchList(records) == NamesWhere(records, IsProbed)
  {
    if records != [] {
      WatchListIsExact(records[1..]);
    }
  }

  lemma {:induction false} WhereIsNamed(records: seq<Record>, chosen: Record -> bool, n: Name)
    requires n in NamesWhere(records, chosen)
    ensures n in NamesOf(records)
  {
    if n in NamesWhere(records[1..], chosen) {
      WhereIsNamed(records[1..], chosen, n);
    }
  }

  lemma {:induction false} WhereHolds(records: seq<Record>, chosen: Record -> bool, n: Name)
    requires NoDup(NamesOf(records))
    ensures n in NamesWhere(records, chosen) <==> Has(records, n) && chosen(Find(records, n).value)
  {
    if records != [] {
      FirstIsAlone(records, chosen);
      hide NamesOf, NoDup;
      WhereHolds(records[1..], chosen, n);
    }
  }

  lemma FirstIsAlone(records: seq<Record>, chosen: Record -> bool)
    requires records != [] && NoDup(NamesOf(records))
    ensures NoDup(NamesOf(records[1..])) && records[0].runtime.name !in NamesWhere(records[1..], chosen)
  {
    NoDupCons(records[0].runtime.name, NamesOf(records[1..]));
    if records[0].runtime.name in NamesWhere(records[1..], chosen) {
      WhereIsNamed(records[1..], chosen, records[0].runtime.name);
    }
  }

  lemma {:induction false} WhereDistinct(records: seq<Record>, chosen: Record -> bool)
    requires NoDup(NamesOf(records))
    ensures NoDup(NamesWhere(records, chosen))
  {
    if records != [] {
      FirstIsAlone(records, chosen);
      WhereDistinct(records[1..], chosen);
      NoDupCons(records[0].runtime.name, NamesWhere(records[1..], chosen));
    }
  }

  /** The state in which `n` is asked, the services before it having been asked already. */
  function AskedIn(s: State, names: seq<Name>, n: Name, threshold: nat, ports: Ports): State
    decreases |names|
  {
    if names == [] || names[0] == n then s else AskedIn(CheckStep(s, names[0], threshold, ports), names[1..], n, threshold, ports)
  }

  lemma StillHave(records: seq<Record>, next: seq<Record>, names: seq<Name>)
    requires names != [] && AllHave(records, names) && Has(next, names[0])
    requires forall m :: m != names[0] ==> Find(next, m) == Find(records, m)
    ensures AllHave(next, names[1..])
  {
    hide Find;
    forall m <- names[1..] ensures Has(next, m) {
      assert m in names;
    }
  }

  lemma {:induction false} CheckListLeaves(s: State, names: seq<Name>, n: Name, threshold: nat, ports: Ports)
    requires AllHave(s.records, names) && n !in names
    ensures Find(CheckLiveness(s, names, threshold, ports).records, n) == Find(s.records, n)
    decreases |names|
  {
    hide CheckStep, Find;
    if names != [] {
      CheckLeavesOthers(s, names[0], threshold, ports);
      StillHave(s.records, CheckStep(s, names[0], threshold, ports).records, names);
      CheckListLeaves(CheckStep(s, names[0], threshold, ports), names[1..], n, threshold, ports);
    }
  }

  /** Each listed service is asked once, its record as it was when the sample began. */
  lemma {:induction false} CheckListAsks(s: State, names: seq<Name>, n: Name, threshold: nat, ports: Ports)
    requires AllHave(s.records, names) && NoDup(names) && n in names
    ensures var at := AskedIn(s, names, n, threshold, ports);
            && Find(at.records, n) == Find(s.records, n)
            && Find(CheckLiveness(s, names, threshold, ports).records, n) == Find(CheckStep(at, n, threshold, ports).records, n)
    decreases |names|
  {
    hide CheckStep, Find;
    var rest, next := names[1..], CheckStep(s, names[0], threshold, ports);
    assert names[0] in names;
    CheckLeavesOthers(s, names[0], threshold, ports);
    StillHave(s.records, next.records, names);
    if names[0] == n {
      CheckListLeaves(next, rest, n, threshold, ports);
    } else {
      CheckListAsks(next, rest, n, threshold, ports);
    }
  }

  /** A process that has outlived its minimum uptime, with a tally of unstable restarts still standing. */
  predicate HasProvedStable(record: Record, nowMs: nat) {
    var runtime := record.runtime;
    && runtime.unstableRestarts != 0 && !runtime.status.IsSettled() && runtime.startedAtMs.Some?
    && runtime.startedAtMs.value <= nowMs && record.spec.minUptimeMs <= nowMs - runtime.startedAtMs.value
  }

  function Steadied(record: Record, nowMs: nat): Record {
    if HasProvedStable(record, nowMs) then Record(record.spec, record.runtime.(unstableRestarts := 0)) else record
  }

  /** The state in which a liveness sample asks `n`. */
  function AskedFor(s: State, n: Name, threshold: nat, ports: Ports): State {
    AskedIn(Emit(s, ScheduleLivenessSample), NamesWhere(s.records, IsProbed), n, threshold, ports)
  }

  /**
   * What one liveness sample does to a service: only one that is online, restarts itself and has a probe
   * is asked, once; everybody's tally is cleared once it has proved stable.
   */
  ghost predicate Sampled(s: State, next: State, n: Name, threshold: nat, ports: Ports)
    requires Has(s.records, n)
  {
    var asked := AskedFor(s, n, threshold, ports);
    && Find(asked.records, n) == Find(s.records, n)
    && exists checked: State, nowMs: nat ::
         && (if IsProbed(Find(s.records, n).value) then Checked(asked, checked, n, threshold, ports)
             else Find(checked.records, n) == Find(s.records, n))
         && Has(checked.records, n)
         && Find(next.records, n) == Some(Steadied(Find(checked.records, n).value, nowMs))
  }

  lemma {:induction false} NobodyAskedTwice(s: State, names: seq<Name>, n: Name, threshold: nat, ports: Ports)
    requires AllHave(s.records, names) && n !in names
    ensures Find(AskedIn(s, names, n, threshold, ports).records, n) == Find(s.records, n)
    decreases |names|
  {
    hide CheckStep, Find;
    if names != [] {
      CheckLeavesOthers(s, names[0], threshold, ports);
      StillHave(s.records, CheckStep(s, names[0], threshold, ports).records, names);
      NobodyAskedTwice(CheckStep(s, names[0], threshold, ports), names[1..], n, threshold, ports);
    }
  }

  lemma SettlesRecord(records: seq<Record>, n: Name, nowMs: nat)
    ensures Find(SettleStability(records, nowMs), n) ==
              if Has(records, n) then Some(Steadied(Find(records, n).value, nowMs)) else None
  {
    hide Find;
  }

  lemma ProbedAreKnown(records: seq<Record>)
    requires NoDup(NamesOf(records))
    ensures AllHave(records, NamesWhere(records, IsProbed)) && NoDup(NamesWhere(records, IsProbed))
    ensures forall n :: n in NamesWhere(records, IsProbed) <==> Has(records, n) && IsProbed(Find(records, n).value)
  {
    hide NamesWhere, Find, IsProbed, NoDup;
    forall n ensures n in NamesWhere(records, IsProbed) <==> Has(records, n) && IsProbed(Find(records, n).value) {
      WhereHolds(records, IsProbed, n);
    }
    WhereDistinct(records, IsProbed);
  }

  lemma SamplePromise(s: State, n: Name, threshold: nat, ports: Ports)
    requires NoDup(NamesOf(s.records)) && Has(s.records, n)
    ensures Sampled(s, OnLivenessSample(s, threshold, ports), n, threshold, ports)
  {
    var names, begun := NamesWhere(s.records, IsProbed), Emit(s, ScheduleLivenessSample);
    WatchListIsExact(s.records);
    ProbedAreKnown(s.records);
    hide Find, NamesWhere, LivenessWatchList, CheckStep, Checked, IsProbed, SettleStability, NoDup, CheckLiveness, AskedIn;
    var last := CheckLiveness(begun, names, threshold, ports);
    var asked := AskedFor(s, n, threshold, ports);
    SettlesRecord(last.records, n, ports.now(last.tick));
    if n in names {
      CheckListAsks(begun, names, n, threshold, ports);
      CheckPromise(asked, n, threshold, ports);
      CheckLeavesOthers(asked, n, threshold, ports);
      var checked := CheckStep(asked, n, threshold, ports);
      assert Find(last.records, n) == Find(checked.records, n);
    } else {
      CheckListLeaves(begun, names, n, threshold, ports);
      NobodyAskedTwice(begun, names, n, threshold, ports);
      assert Find(last.records, n) == Find(s.records, n);
    }
  }

  // ----- liveness, sample after sample -----

  /** As long as the probe fails, only the failures of a service go up; its tally may be cleared. */
  predicate StillUp(before: Record, after: Record, failures: nat) {
    && after.spec == before.spec
    && after.runtime == before.runtime.(livenessFailures := failures, unstableRestarts := after.runtime.unstableRestarts)
  }

  function Sampling(threshold: nat): Daemon.Event { Daemon.SampleLiveness(threshold) }

  function AfterSamples(w: Daemon.World, k: nat, threshold: nat, ports: Ports): Daemon.World {
    if k == 0 then w else Daemon.Step(AfterSamples(w, k - 1, threshold, ports), Sampling(threshold), ports)
  }

  /** The probe of `n` fails at the next `k` samples. */
  predicate FailsProbes(w: Daemon.World, n: Name, k: nat, threshold: nat, ports: Ports) {
    forall i :: 0 <= i < k ==>
      !ports.isReady(AskedFor(Daemon.Begun(AfterSamples(w, i, threshold, ports)), n, threshold, ports).tick)
  }

  lemma SampleStep(w: Daemon.World, n: Name, threshold: nat, ports: Ports)
    requires Daemon.Inv(w) && Has(w.sup.records, n)
    ensures Sampled(Daemon.Begun(w), Daemon.Step(w, Sampling(threshold), ports).sup, n, threshold, ports)
    ensures Daemon.Inv(Daemon.Step(w, Sampling(threshold), ports))
  {
    Daemon.InvMeans(w);
    SamplePromise(Daemon.Begun(w), n, threshold, ports);
    Daemon.StepKeeps(w, Sampling(threshold), ports);
    HandleSample(Daemon.Begun(w), threshold, ports);
    hide Daemon.Inv, Daemon.Handle, OnLivenessSample, Sampled, WatchesIn;
  }

  lemma HandleSample(s: State, threshold: nat, ports: Ports)
    ensures Daemon.Handle(s, Sampling(threshold), ports) == OnLivenessSample(s, threshold, ports)
  {
    hide OnLivenessSample;
  }

  /** A sample whose answer is a failure that does not reach the threshold counts it. */
  lemma FailureCounts(s: State, next: State, n: Name, threshold: nat, ports: Ports)
    requires Has(s.records, n) && IsProbed(Find(s.records, n).value) && Sampled(s, next, n, threshold, ports)
    requires !ports.isReady(AskedFor(s, n, threshold, ports).tick)
    requires OneMore(Find(s.records, n).value.runtime.livenessFailures) < threshold
    ensures Has(next.records, n)
    ensures StillUp(Find(s.records, n).value, Find(next.records, n).value, OneMore(Find(s.records, n).value.runtime.livenessFailures))
  {
    hide Find, Put, AskedFor;
    var asked := AskedFor(s, n, threshold, ports);
    var record := Find(s.records, n).value;
    CountedFinds(asked, n, OneMore(record.runtime.livenessFailures));
  }

  /** Fewer failures in a row than the threshold bring no restart. */
  lemma {:induction false} FewFailuresAreBorne(w: Daemon.World, n: Name, k: nat, threshold: nat, ports: Ports)
    requires Daemon.Inv(w) && Has(w.sup.records, n) && IsProbed(Find(w.sup.records, n).value) && threshold <= U32_MAX
    requires Find(w.sup.records, n).value.runtime.livenessFailures + k < threshold && FailsProbes(w, n, k, threshold, ports)
    ensures var after := AfterSamples(w, k, threshold, ports);
            var record := Find(w.sup.records, n).value;
            && Daemon.Inv(after) && Has(after.sup.records, n)
            && StillUp(record, Find(after.sup.records, n).value, record.runtime.livenessFailures + k)
  {
    hide Daemon.Inv, Daemon.Step, Find, AskedFor, Sampled;
    if k > 0 {
      FewFailuresAreBorne(w, n, k - 1, threshold, ports);
      var before := AfterSamples(w, k - 1, threshold, ports);
      SampleStep(before, n, threshold, ports);
      FailureCounts(Daemon.Begun(before), AfterSamples(w, k, threshold, ports).sup, n, threshold, ports);
    }
  }

  /** What a restart asked for by a failed probe leaves: on its way out, to come back through the breaker. */
  predicate LeavesToComeBack(before: Record, after: Record, failures: nat) {
    && after.spec == before.spec
    && after.runtime == before.runtime.(status := Stopping, pendingRestart := true, supervisedRestart := true,
                                        livenessFailures := failures, unstableRestarts := after.runtime.unstableRestarts)
  }

  /** The failure that reaches the threshold restarts the service, unless it cannot be signalled. */
  lemma FailureRestarts(s: State, next: State, n: Name, threshold: nat, ports: Ports)
    requires Has(s.records, n) && IsProbed(Find(s.records, n).value) && Sampled(s, next, n, threshold, ports)
    requires Find(s.records, n).value.runtime.pid.Some? && !Find(s.records, n).value.runtime.pendingRestart
    requires !ports.isReady(AskedFor(s, n, threshold, ports).tick)
    requires OneMore(Find(s.records, n).value.runtime.livenessFailures) >= threshold
    ensures Has(next.records, n)
    ensures var before, after := Find(s.records, n).value, Find(next.records, n).value;
            var failures := OneMore(before.runtime.livenessFailures);
            if ports.terminate(AskedFor(s, n, threshold, ports).tick + 1) then LeavesToComeBack(before, after, failures)
            else StillUp(before, after, failures)
  {
    hide Find, Put, AskedFor, RestartFollowed, Rescheduled, SpawnedOne;
    var asked := AskedFor(s, n, threshold, ports);
    var record := Find(s.records, n).value;
    CountedFinds(asked, n, OneMore(record.runtime.livenessFailures));
  }

  /**
   * As many failures in a row as the threshold bring a restart: the probe that fails for the last time has
   * the process terminated, and its exit will be answered by the breaker.
   */
  lemma ThresholdRestarts(w: Daemon.World, n: Name, k: nat, threshold: nat, ports: Ports)
    requires Daemon.Inv(w) && Has(w.sup.records, n) && IsProbed(Find(w.sup.records, n).value) && threshold <= U32_MAX
    requires k >= 1 && Find(w.sup.records, n).value.runtime.livenessFailures + k == threshold
    requires FailsProbes(w, n, k, threshold, ports) && !Find(w.sup.records, n).value.runtime.pendingRestart
    ensures var last, after := AfterSamples(w, k - 1, threshold, ports), AfterSamples(w, k, threshold, ports);
            var record := Find(w.sup.records, n).value;
            && Has(last.sup.records, n) && StillUp(record, Find(last.sup.records, n).value, threshold - 1)
            && Has(after.sup.records, n)
            && if ports.terminate(AskedFor(Daemon.Begun(last), n, threshold, ports).tick + 1)
               then LeavesToComeBack(record, Find(after.sup.records, n).value, threshold)
               else StillUp(record, Find(after.sup.records, n).value, threshold)
  {
    hide Daemon.Inv, Daemon.Step, Find, AskedFor, Sampled;
    var last, after := AfterSamples(w, k - 1, threshold, ports), AfterSamples(w, k, threshold, ports);
    FewFailuresAreBorne(w, n, k - 1, threshold, ports);
    var before := Find(last.sup.records, n).value;
    UpHasPid(last, n);
    SampleStep(last, n, threshold, ports);
    assert !ports.isReady(AskedFor(Daemon.Begun(last), n, threshold, ports).tick);
    hide FailsProbes, AfterSamples;
    FailureRestarts(Daemon.Begun(last), after.sup, n, threshold, ports);
    UpAndThen(Find(w.sup.records, n).value, before, Find(after.sup.records, n).value, threshold - 1, threshold);
  }

  lemma UpAndThen(record: Record, before: Record, after: Record, failures: nat, more: nat)
    requires StillUp(record, before, failures)
    ensures LeavesToComeBack(before, after, more) ==> LeavesToComeBack(record, after, more)
    ensures StillUp(before, after, more) ==> StillUp(record, after, more)
  {
  }

  lemma UpHasPid(w: Daemon.World, n: Name)
    requires Daemon.Inv(w) && Has(w.sup.records, n) && Find(w.sup.records, n).value.runtime.status.Online?
    ensures Find(w.sup.records, n).value.runtime.pid.Some?
  {
    Daemon.InvMeans(w);
  }

  /** A probe that answers is never a reason to restart: the failures are cleared and nothing is asked. */
  lemma AnswerClears(s: State, next: State, n: Name, threshold: nat, ports: Ports)
    requires Has(s.records, n) && IsProbed(Find(s.records, n).value) && Sampled(s, next, n, threshold, ports)
    requires ports.isReady(AskedFor(s, n, threshold, ports).tick)
    ensures Has(next.records, n) && StillUp(Find(s.records, n).value, Find(next.records, n).value, 0)
  {
    hide Find, Put, AskedFor;
    CountedFinds(AskedFor(s, n, threshold, ports), n, 0);
  }

  // ----- memory -----

  /** Running, with a limit, and sampled above it. */
  predicate IsOverLimit(record: Record, sampled: map<nat, nat>) {
    && record.runtime.status.IsRunning() && record.runtime.pid.Some? && record.spec.maxMemoryKib.Some?
    && record.runtime.pid.value in sampled && record.spec.maxMemoryKib.value < sampled[record.runtime.pid.value]
  }

  lemma {:induction false} BreachesAreExact(records: seq<Record>, sampled: map<nat, nat>)
    ensures BreachesOf(records, sampled) == NamesWhere(records, r => IsOverLimit(r, sampled))
  {
    if records != [] {
      BreachesAreExact(records[1..], sampled);
    }
  }

  /** A memory sample restarts, once and through the breaker, exactly the processes over their limit. */
  ghost predicate MemorySampled(s: State, next: State, n: Name, ports: Ports) {
    if Has(s.records, n) && IsOverLimit(Find(s.records, n).value, ports.residentMemory(s.tick)) then
      exists before: State, after: State ::
        && Find(before.records, n) == Find(s.records, n)
        && RestartedByBreaker(before, after, n, ports)
        && Find(next.records, n) == Find(after.records, n)
    else Find(next.records, n) == Find(s.records, n)
  }

  lemma {:induction false} KillsLeave(s: State, names: seq<Name>, n: Name, ports: Ports)
    requires n !in names
    ensures Find(KillBreaches(s, names, ports).records, n) == Find(s.records, n)
    decreases |names|
  {
    hide RestartNow, HandToTheBreaker, Find, RestartedByBreaker;
    if names != [] {
      var next := HandToTheBreaker(RestartNow(s, names[0], ports), names[0]);
      BreakerPromise(s, names[0], ports);
      BreakerLeavesOthers(s, next, names[0], ports);
      KillsLeave(next, names[1..], n, ports);
    }
  }

  lemma {:induction false} KillsEach(s: State, names: seq<Name>, n: Name, ports: Ports) returns (before: State, after: State)
    requires NoDup(names) && n in names
    ensures Find(before.records, n) == Find(s.records, n) && RestartedByBreaker(before, after, n, ports)
    ensures Find(KillBreaches(s, names, ports).records, n) == Find(after.records, n)
    decreases |names|
  {
    hide RestartNow, HandToTheBreaker, Find, RestartedByBreaker;
    var next := HandToTheBreaker(RestartNow(s, names[0], ports), names[0]);
    BreakerPromise(s, names[0], ports);
    BreakerLeavesOthers(s, next, names[0], ports);
    if names[0] == n {
      before, after := s, next;
      KillsLeave(next, names[1..], n, ports);
    } else {
      before, after := KillsEach(next, names[1..], n, ports);
    }
  }

  lemma MemoryPromise(s: State, n: Name, ports: Ports)
    requires NoDup(NamesOf(s.records))
    ensures MemorySampled(s, OnMemorySample(s, ports), n, ports)
  {
    var sampled := ports.residentMemory(s.tick);
    var names := NamesWhere(s.records, r => IsOverLimit(r, sampled));
    BreachesAreExact(s.records, sampled);
    WhereHolds(s.records, r => IsOverLimit(r, sampled), n);
    WhereDistinct(s.records, r => IsOverLimit(r, sampled));
    hide Find, NamesWhere, BreachesOf, IsOverLimit, RestartedByBreaker, NoDup, KillBreaches;
    var begun := Tick(Emit(s, ScheduleMemorySample));
    if n in names {
      var before, after := KillsEach(begun, names, n, ports);
    } else {
      KillsLeave(begun, names, n, ports);
    }
  }

  // ----- the next sample -----

  lemma RestartGrows(s: State, name: Name, ports: Ports)
    ensures forall e <- s.effects :: e in RestartNow(s, name, ports).effects
  {
    hide Find, WatchesIn, RestartApp;
    RestartAppAside(CancelQueuedRestart(s, name), ByName(name), ports);
  }

  lemma BreakerGrows(s: State, name: Name, ports: Ports)
    ensures forall e <- s.effects :: e in HandToTheBreaker(RestartNow(s, name, ports), name).effects
  {
    RestartGrows(s, name, ports);
    hide Find, Put, RestartNow;
  }

  lemma {:induction false} KillsGrow(s: State, names: seq<Name>, ports: Ports)
    ensures forall e <- s.effects :: e in KillBreaches(s, names, ports).effects
    decreases |names|
  {
    hide HandToTheBreaker, RestartNow;
    if names != [] {
      BreakerGrows(s, names[0], ports);
      KillsGrow(HandToTheBreaker(RestartNow(s, names[0], ports), names[0]), names[1..], ports);
    }
  }

  lemma CheckGrows(s: State, name: Name, threshold: nat, ports: Ports)
    ensures forall e <- s.effects :: e in CheckStep(s, name, threshold, ports).effects
  {
    hide HandToTheBreaker, RestartNow, Find, Put;
    if Has(s.records, name) {
      var failing := Find(s.records, name).value.runtime.FailLiveness();
      BreakerGrows(SetRecord(Tick(s), name, Find(s.records, name).value.With(failing)), name, ports);
    }
  }

  lemma {:induction false} ChecksGrow(s: State, names: seq<Name>, threshold: nat, ports: Ports)
    ensures forall e <- s.effects :: e in CheckLiveness(s, names, threshold, ports).effects
    decreases |names|
  {
    hide CheckStep;
    if names != [] {
      CheckGrows(s, names[0], threshold, ports);
      ChecksGrow(CheckStep(s, names[0], threshold, ports), names[1..], threshold, ports);
    }
  }

  /** Every sample schedules the next. */
  lemma MemoryIsSampledAgain(s: State, ports: Ports)
    ensures ScheduleMemorySample in OnMemorySample(s, ports).effects
  {
    hide KillBreaches, BreachesOf, WatchesIn;
    var begun := Tick(Emit(s, ScheduleMemorySample));
    assert begun.effects[|begun.effects| - 1] == ScheduleMemorySample;
    KillsGrow(begun, BreachesOf(s.records, ports.residentMemory(s.tick)), ports);
  }

  lemma LivenessIsSampledAgain(s: State, threshold: nat, ports: Ports)
    ensures ScheduleLivenessSample in OnLivenessSample(s, threshold, ports).effects
  {
    hide CheckLiveness, LivenessWatchList, WatchesIn, SettleStability;
    var begun := Emit(s, ScheduleLivenessSample);
    assert begun.effects[|begun.effects| - 1] == ScheduleLivenessSample;
    ChecksGrow(begun, LivenessWatchList(s.records), threshold, ports);
  }
}
