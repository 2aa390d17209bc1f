/**
 * A daemon taking over the processes its predecessor saved (usecases/src/resurrect.rs and
 * `resurrect_saved` of usecases/src/supervisor.rs): stranded processes are swept, stale ones evicted
 * concurrently, and only then are survivors adopted and the rest started again.
 */
module Resurrect {
  import opened Graphs
  import opened Model
  import opened ProcessTable
  import opened Handlers
  import opened Coherence
  import opened Judge
  import DepGraph
  import Daemon

  datatype Stranded = Stranded(name: Name, pid: Option<nat>, token: Option<string>)

  datatype Contents = Contents(records: seq<Record>, stranded: seq<Stranded>, boot: Option<string>)

  // ----- the table -----

  predicate KeptAsIs(judged: map<Name, Judged>, name: Name) {
    name in judged && judged[name].verdict.Adopt?
  }

  /** `forget_unless_adopted`. */
  function Forget(record: Record, judged: map<Name, Judged>): Record {
    var runtime := record.runtime;
    var known :=
      if !runtime.status.IsSettled() && !KeptAsIs(judged, runtime.name) then runtime.MarkExited(Stopped) else runtime;
    record.With(known.(pendingRestart := false))
  }

  function ForgetAll(stored: seq<Record>, judged: map<Name, Judged>): (records: seq<Record>)
    ensures |records| == |stored|
    ensures forall i :: 0 <= i < |stored| ==> records[i] == Forget(stored[i], judged)
  {
    if stored == [] then [] else [Forget(stored[0], judged)] + ForgetAll(stored[1..], judged)
  }

  /** `adopt`. */
  function AdoptOne(s: State, name: Name): (State, Option<StartOutcome>) {
    match Find(s.records, name)
    case None => (Panic(s), None)
    case Some(record) =>
      var runtime := if record.AwaitsReady() then record.runtime else record.runtime.MarkOnline();
      if runtime.pid.None? then (Panic(s), None)
      else
        var kept := SetRecord(s, name, record.With(runtime));
        (kept.(launched := kept.launched + [Handlers.Launch(name, runtime.pid.value)]),
         Some(StartOutcome(runtime.pmId, name, runtime.pid, Adopted)))
  }

  function AddOutcome(os: seq<StartOutcome>, o: Option<StartOutcome>): seq<StartOutcome> {
    if o.Some? then os + [o.value] else os
  }

  /** The recovery of one name; a refused start is only logged. */
  function RecoverOne(s: State, name: Name, judged: map<Name, Judged>, ports: Ports): (State, Option<StartOutcome>) {
    if name !in judged || judged[name].verdict.Settle? then (s, None)
    else if judged[name].verdict.Adopt? then AdoptOne(s, name)
    else LaunchOne(s, name, false, ports)
  }

  function Recover(s: State, os: seq<StartOutcome>, order: seq<Name>, judged: map<Name, Judged>, ports: Ports)
      : (State, seq<StartOutcome>)
    decreases |order|
  {
    if order == [] then (s, os)
    else
      var (next, o) := RecoverOne(s, order[0], judged, ports);
      Recover(next, AddOutcome(os, o), order[1..], judged, ports)
  }

  /** `resurrect`, as far as the table and the outcomes go. */
  function TakeOver(s: State, stored: seq<Record>, trust: Trust, host: Host, ports: Ports): (State, seq<StartOutcome>) {
    var judged := JudgeAll(stored, trust, host);
    var records := ForgetAll(stored, judged);
    var (recovered, os) := Recover(s.(records := records), [], DependencyOrder(records), judged, ports);
    (Tick(recovered), os)
  }

  function ArmedNames(records: seq<Record>): seq<Name> {
    if records == [] then []
    else (if records[0].spec.schedule.Some? && records[0].runtime.scheduleArmed then [records[0].runtime.name] else [])
         + ArmedNames(records[1..])
  }

  function ArmAll(s: State, names: seq<Name>, ports: Ports): State
    decreases |names|
  {
    if names == [] then s else ArmAll(ArmTimerFor(s, names[0], ports), names[1..], ports)
  }

  const EMPTY_TIMERS := Timers(map[], {}, map[], 0)

  const NEW_SUPERVISOR := State([], EMPTY_TIMERS, map[], {}, [], [], 0, false)

  /** `resurrect_saved` on a new supervisor: take over, watch every outcome, arm the stored schedules. */
  function Boot(stored: seq<Record>, trust: Trust, host: Host, ports: Ports): State {
    var (taken, os) := TakeOver(NEW_SUPERVISOR, stored, trust, host, ports);
    var watched := WatchAll(taken, os);
    ArmAll(watched, ArmedNames(watched.records), ports)
  }

  // ----- what it sends -----

  datatype Move =
    | Sweeping(plan: nat, act: Act)
    | Evicting(plan: nat, act: Act)
    | Adopting(name: Name)
    | Respawning(name: Name)
    | Saving
  {
    predicate IsSignal() { (Sweeping? || Evicting?) && act.IsSignal() }
    predicate IsRecovery() { Adopting? || Respawning? }
  }

  /** `eviction_plan` for every name in recovery order. */
  function Plans(order: seq<Name>, judged: map<Name, Judged>): seq<Plan> {
    if order == [] then []
    else
      var name := order[0];
      var stale := if name in judged then StaleOf(judged[name].verdict) else None;
      (if stale.Some? then [Plan(name, stale.value, judged[name].expected, ScopeOf(judged[name].verdict))] else [])
      + Plans(order[1..], judged)
  }

  /** The survivors among the processes whose declaration can no longer be read. */
  function SweepPlans(stranded: seq<Stranded>, trust: Trust, seen: map<nat, Liveness>): seq<Plan> {
    if stranded == [] then []
    else
      var pid := SurvivingPid(stranded[0].pid, stranded[0].token, trust, seen);
      (if pid.Some? then [Plan(stranded[0].name, pid.value, stranded[0].token, ProcessGroup)] else [])
      + SweepPlans(stranded[1..], trust, seen)
  }

  function Labelled(acts: seq<Act>, plan: nat): seq<Move> {
    if acts == [] then [] else [Sweeping(plan, acts[0])] + Labelled(acts[1..], plan)
  }

  /** `sweep_stranded`: one eviction after the other. */
  function SweepMoves(plans: seq<Plan>, answers: nat -> Answers, i: nat): seq<Move>
    requires i <= |plans|
    decreases |plans| - i
  {
    if i == |plans| then [] else Labelled(Evict(plans[i], answers(i)), i) + SweepMoves(plans, answers, i + 1)
  }

  function Lane(moves: seq<Move>, plan: nat): seq<Act> {
    if moves == [] then []
    else (if moves[0].Evicting? && moves[0].plan == plan then [moves[0].act] else []) + Lane(moves[1..], plan)
  }

  /** `evict_all`: the evictions run side by side, each in its own order. */
  ghost predicate SideBySide(moves: seq<Move>, plans: seq<Plan>, answers: nat -> Answers) {
    && (forall m <- moves :: m.Evicting? && m.plan < |plans|)
    && (forall i :: 0 <= i < |plans| ==> Lane(moves, i) == Evict(plans[i], answers(i)))
  }

  function RecoverMoves(order: seq<Name>, judged: map<Name, Judged>): seq<Move> {
    if order == [] then []
    else
      var name := order[0];
      (if name !in judged || judged[name].verdict.Settle? then []
       else if judged[name].verdict.Adopt? then [Adopting(name)]
       else [Respawning(name)])
      + RecoverMoves(order[1..], judged)
  }

  /** What the host shows over a whole take-over. */
  datatype Scene = Scene(sweepSeen: map<nat, Liveness>, sweepAnswers: nat -> Answers, host: Host, answers: nat -> Answers)

  function OrderOf(stored: seq<Record>, trust: Trust, host: Host): seq<Name> {
    DependencyOrder(ForgetAll(stored, JudgeAll(stored, trust, host)))
  }

  function StalePlans(stored: seq<Record>, trust: Trust, host: Host): seq<Plan> {
    Plans(OrderOf(stored, trust, host), JudgeAll(stored, trust, host))
  }

  /** `moves` is a possible trace of `resurrect`. */
  ghost predicate IsTrace(moves: seq<Move>, contents: Contents, trust: Trust, scene: Scene) {
    var judged := JudgeAll(contents.records, trust, scene.host);
    exists evictions ::
      && SideBySide(evictions, StalePlans(contents.records, trust, scene.host), scene.answers)
      && moves == SweepMoves(SweepPlans(contents.stranded, trust, scene.sweepSeen), scene.sweepAnswers, 0)
                  + (evictions + (RecoverMoves(OrderOf(contents.records, trust, scene.host), judged) + [Saving]))
  }

  // ----- safety of every trace -----

  lemma {:induction false} PlanHasOwner(order: seq<Name>, judged: map<Name, Judged>, plan: Plan)
    requires plan in Plans(order, judged)
    ensures plan.name in judged
    ensures StaleOf(judged[plan.name].verdict) == Some(plan.stale)
    ensures plan.expected == judged[plan.name].expected && plan.scope == ScopeOf(judged[plan.name].verdict)
  {
    if plan in Plans(order[1..], judged) {
      PlanHasOwner(order[1..], judged, plan);
    }
  }

  /** The saved record a planned eviction is about, and why it may be evicted. */
  ghost predicate PlanIsCareful(plan: Plan, r: Record, trust: Trust, host: Host) {
    && r.runtime.name == plan.name && r.runtime.pid == Some(plan.stale) && r.runtime.Token() == plan.expected
    && trust.Kept?
    && !Observed(host.seen, plan.stale).Gone?
    && !PidWasRecycled(Observed(host.seen, plan.stale), plan.expected)
    && (r.runtime.status.IsRunning() && plan.scope.ProcessGroup? ==> TokenMatched(r, host))
  }

  lemma PlansAreCareful(stored: seq<Record>, trust: Trust, host: Host, plan: Plan)
    requires plan in StalePlans(stored, trust, host)
    ensures exists r <- stored :: PlanIsCareful(plan, r, trust, host)
  {
    hide JudgeVerdict, JudgeAll, Plans, DependencyOrder;
    PlanHasOwner(OrderOf(stored, trust, host), JudgeAll(stored, trust, host), plan);
    var r := JudgedOwn(stored, trust, host, plan.name);
    StaleIsCareful(r, trust, host);
    assert PlanIsCareful(plan, r, trust, host);
  }

  lemma {:induction false} SweepPlansAreCareful(stranded: seq<Stranded>, trust: Trust, seen: map<nat, Liveness>, plan: Plan)
    requires plan in SweepPlans(stranded, trust, seen)
    ensures trust.Kept? && plan.scope.ProcessGroup?
    ensures !Observed(seen, plan.stale).Gone? && !PidWasRecycled(Observed(seen, plan.stale), plan.expected)
    ensures exists o <- stranded :: o.name == plan.name && o.pid == Some(plan.stale) && o.token == plan.expected
  {
    if plan in SweepPlans(stranded[1..], trust, seen) {
      SweepPlansAreCareful(stranded[1..], trust, seen, plan);
    } else {
      assert stranded[0] in stranded;
    }
  }

  lemma {:induction false} SweepMovesBelong(plans: seq<Plan>, answers: nat -> Answers, i: nat, m: Move)
    requires i <= |plans| && m in SweepMoves(plans, answers, i)
    ensures m.Sweeping? && m.plan < |plans| && m.act in Evict(plans[m.plan], answers(m.plan))
    decreases |plans| - i
  {
    hide Evict;
    var acts := Evict(plans[i], answers(i));
    if m in Labelled(acts, i) {
      LabelledBelong(acts, i, m);
    } else {
      SweepMovesBelong(plans, answers, i + 1, m);
    }
  }

  lemma {:induction false} LabelledBelong(acts: seq<Act>, plan: nat, m: Move)
    requires m in Labelled(acts, plan)
    ensures m.Sweeping? && m.plan == plan && m.act in acts
  {
    if m != Sweeping(plan, acts[0]) {
      LabelledBelong(acts[1..], plan, m);
    }
  }

  lemma {:induction false} LaneHolds(moves: seq<Move>, m: Move)
    requires m in moves && m.Evicting?
    ensures m.act in Lane(moves, m.plan)
  {
    if m != moves[0] {
      LaneHolds(moves[1..], m);
    }
  }

  lemma {:induction false} RecoverMovesOnly(order: seq<Name>, judged: map<Name, Judged>, m: Move)
    requires m in RecoverMoves(order, judged)
    ensures m.IsRecovery()
    ensures m.Adopting? ==> KeptAsIs(judged, m.name)
    ensures m.Respawning? ==> m.name in judged && judged[m.name].verdict.Respawn?
  {
    if m in RecoverMoves(order[1..], judged) {
      RecoverMovesOnly(order[1..], judged, m);
    }
  }

  /** Some eviction, swept or stale, that `act` is part of. */
  ghost predicate ComesFrom(m: Move, contents: Contents, trust: Trust, scene: Scene) {
    && (m.Sweeping? ==>
          var plans := SweepPlans(contents.stranded, trust, scene.sweepSeen);
          m.plan < |plans| && m.act in Evict(plans[m.plan], scene.sweepAnswers(m.plan)))
    && (m.Evicting? ==>
          var plans := StalePlans(contents.records, trust, scene.host);
          m.plan < |plans| && m.act in Evict(plans[m.plan], scene.answers(m.plan)))
  }

  lemma TraceMoves(moves: seq<Move>, contents: Contents, trust: Trust, scene: Scene, m: Move)
    requires IsTrace(moves, contents, trust, scene) && m in moves
    ensures ComesFrom(m, contents, trust, scene)
  {
    hide Evict, SweepMoves, SweepPlans, StalePlans, RecoverMoves, OrderOf, JudgeAll, Lane;
    var judged := JudgeAll(contents.records, trust, scene.host);
    var order := OrderOf(contents.records, trust, scene.host);
    var plans := SweepPlans(contents.stranded, trust, scene.sweepSeen);
    var evictions :| SideBySide(evictions, StalePlans(contents.records, trust, scene.host), scene.answers)
                     && moves == SweepMoves(plans, scene.sweepAnswers, 0)
                                 + (evictions + (RecoverMoves(order, judged) + [Saving]));
    if m in SweepMoves(plans, scene.sweepAnswers, 0) {
      SweepMovesBelong(plans, scene.sweepAnswers, 0, m);
    } else if m in evictions {
      LaneHolds(evictions, m);
    } else if m in RecoverMoves(order, judged) {
      RecoverMovesOnly(order, judged, m);
    }
  }

  /** After a reboot no recorded pid is signalled at all. */
  lemma RebootSignalsNobody(moves: seq<Move>, contents: Contents, scene: Scene, current: Option<string>)
    requires contents.boot.Some? && current.Some? && contents.boot != current
    requires IsTrace(moves, contents, TrustOf(contents.boot, current), scene)
    ensures forall m <- moves :: !m.IsSignal() && !m.Adopting?
  {
    hide IsTrace, StalePlans, SweepPlans, Evict;
    forall m <- moves ensures !m.IsSignal() && !m.Adopting? {
      TraceMoves(moves, contents, Lost, scene, m);
      if m.Sweeping? {
        var plan := SweepPlans(contents.stranded, Lost, scene.sweepSeen)[m.plan];
        SweepPlansAreCareful(contents.stranded, Lost, scene.sweepSeen, plan);
      } else if m.Evicting? {
        var plan := StalePlans(contents.records, Lost, scene.host)[m.plan];
        PlansAreCareful(contents.records, Lost, scene.host, plan);
      } else if m.Adopting? {
        TraceRecoveries(moves, contents, Lost, scene, m);
        var r := JudgedOwn(contents.records, Lost, scene.host, m.name);
        AdoptionIsExact(r, Lost, scene.host);
      }
    }
  }

  lemma TraceRecoveries(moves: seq<Move>, contents: Contents, trust: Trust, scene: Scene, m: Move)
    requires IsTrace(moves, contents, trust, scene) && m in moves && m.IsRecovery()
    ensures var judged := JudgeAll(contents.records, trust, scene.host);
            m.name in judged && (m.Adopting? <==> judged[m.name].verdict.Adopt?)
  {
    hide Evict, SweepMoves, SweepPlans, StalePlans, RecoverMoves, OrderOf, JudgeAll, Lane;
    var judged := JudgeAll(contents.records, trust, scene.host);
    var order := OrderOf(contents.records, trust, scene.host);
    var plans := SweepPlans(contents.stranded, trust, scene.sweepSeen);
    var evictions :| SideBySide(evictions, StalePlans(contents.records, trust, scene.host), scene.answers)
                     && moves == SweepMoves(plans, scene.sweepAnswers, 0)
                                 + (evictions + (RecoverMoves(order, judged) + [Saving]));
    if m in SweepMoves(plans, scene.sweepAnswers, 0) {
      SweepMovesBelong(plans, scene.sweepAnswers, 0, m);
    } else if m in RecoverMoves(order, judged) {
      RecoverMovesOnly(order, judged, m);
    }
  }

  /**
   * Every signal of a take-over belongs to the careful eviction of one recorded pid: a stranded
   * process, or a stored record whose process was neither gone nor replaced, and whose token matched if
   * it was meant to run and its whole group is signalled.
   */
  lemma EverySignalIsCareful(moves: seq<Move>, contents: Contents, trust: Trust, scene: Scene, m: Move)
    requires IsTrace(moves, contents, trust, scene) && m in moves && m.IsSignal()
    ensures exists plan: Plan, answers: Answers, k: nat ::
              && k < |Evict(plan, answers)| && Evict(plan, answers)[k] == m.act
              && SignalIsCareful(plan, Evict(plan, answers), k)
              && (m.Evicting? ==> exists r <- contents.records :: PlanIsCareful(plan, r, trust, scene.host))
              && (m.Sweeping? ==> exists o <- contents.stranded :: o.pid == Some(plan.stale) && o.token == plan.expected)
  {
    hide IsTrace, StalePlans, SweepPlans, Evict, SignalIsCareful, PlanIsCareful;
    TraceMoves(moves, contents, trust, scene, m);
    if m.Sweeping? {
      var plan := SweepPlans(contents.stranded, trust, scene.sweepSeen)[m.plan];
      var answers := scene.sweepAnswers(m.plan);
      var k: nat :| k < |Evict(plan, answers)| && Evict(plan, answers)[k] == m.act;
      SweepPlansAreCareful(contents.stranded, trust, scene.sweepSeen, plan);
      EvictionIsCareful(plan, answers, k);
    } else {
      var plan := StalePlans(contents.records, trust, scene.host)[m.plan];
      var answers := scene.answers(m.plan);
      var k: nat :| k < |Evict(plan, answers)| && Evict(plan, answers)[k] == m.act;
      PlansAreCareful(contents.records, trust, scene.host, plan);
      EvictionIsCareful(plan, answers, k);
    }
  }

  lemma NotAmongEvictions(swept: seq<Move>, evictions: seq<Move>, rest: seq<Move>, i: nat)
    requires forall k :: 0 <= k < |evictions| ==> evictions[k].Evicting?
    requires i < |swept| + |evictions| + |rest| && (swept + (evictions + rest))[i].IsRecovery()
    ensures i < |swept| || |swept| + |evictions| <= i
  {
  }

  /** Nothing is signalled any more once the first service is adopted or started. */
  lemma EvictionsComeFirst(moves: seq<Move>, contents: Contents, trust: Trust, scene: Scene, i: nat, j: nat)
    requires IsTrace(moves, contents, trust, scene) && i < j < |moves| && moves[i].IsRecovery()
    ensures !moves[j].IsSignal()
  {
    hide Evict, SweepMoves, SweepPlans, StalePlans, RecoverMoves, OrderOf, JudgeAll, Lane;
    var judged := JudgeAll(contents.records, trust, scene.host);
    var order := OrderOf(contents.records, trust, scene.host);
    var plans := SweepPlans(contents.stranded, trust, scene.sweepSeen);
    var evictions :| SideBySide(evictions, StalePlans(contents.records, trust, scene.host), scene.answers)
                     && moves == SweepMoves(plans, scene.sweepAnswers, 0)
                                 + (evictions + (RecoverMoves(order, judged) + [Saving]));
    var swept, recovered := SweepMoves(plans, scene.sweepAnswers, 0), RecoverMoves(order, judged);
    forall k | 0 <= k < |evictions| ensures evictions[k].Evicting? {
      assert evictions[k] in evictions;
    }
    NotAmongEvictions(swept, evictions, recovered + [Saving], i);
    if i < |swept| {
      assert moves[i] == swept[i];
      SweepMovesBelong(plans, scene.sweepAnswers, 0, moves[i]);
    } else if |swept| + |evictions| <= i && j < |moves| - 1 {
      assert moves[j] == recovered[j - |swept| - |evictions|];
      RecoverMovesOnly(order, judged, moves[j]);
    }
  }

  // ----- the table afterwards -----

  lemma {:induction false} ForgetKeepsNames(stored: seq<Record>, judged: map<Name, Judged>)
    ensures NamesOf(ForgetAll(stored, judged)) == NamesOf(stored)
    ensures IdsOf(ForgetAll(stored, judged)) == IdsOf(stored)
  {
    if stored != [] {
      ForgetKeepsNames(stored[1..], judged);
    }
  }

  lemma RecoverOneKeepsNames(s: State, name: Name, judged: map<Name, Judged>, ports: Ports)
    ensures NamesOf(RecoverOne(s, name, judged, ports).0.records) == NamesOf(s.records)
  {
    hide Find, Put, NamesOf;
  }

  lemma {:induction false} RecoverKeepsNames(s: State, os: seq<StartOutcome>, order: seq<Name>,
                                             judged: map<Name, Judged>, ports: Ports)
    ensures NamesOf(Recover(s, os, order, judged, ports).0.records) == NamesOf(s.records)
    decreases |order|
  {
    hide RecoverOne;
    if order != [] {
      var (next, o) := RecoverOne(s, order[0], judged, ports);
      RecoverOneKeepsNames(s, order[0], judged, ports);
      RecoverKeepsNames(next, AddOutcome(os, o), order[1..], judged, ports);
    }
  }

  /** Whatever the host answers, the table keeps exactly the stored records, in their order. */
  lemma TakeOverKeepsNames(s: State, stored: seq<Record>, trust: Trust, host: Host, ports: Ports)
    ensures NamesOf(TakeOver(s, stored, trust, host, ports).0.records) == NamesOf(stored)
  {
    hide Recover, JudgeAll, DependencyOrder;
    var judged := JudgeAll(stored, trust, host);
    var records := ForgetAll(stored, judged);
    ForgetKeepsNames(stored, judged);
    RecoverKeepsNames(s.(records := records), [], DependencyOrder(records), judged, ports);
  }

  // ----- booting into a sound world -----

  /** What a saved table satisfies once every declaration is resolved under its own name. */
  ghost predicate StoredOk(stored: seq<Record>) {
    && NoDup(NamesOf(stored)) && NoDup(IdsOf(stored))
    && forall r <- stored :: r.runtime.pmId >= 1 && r.spec.name == r.runtime.name
  }

  /** Inside the recovery loop: every live process is accounted for by an outcome or still to be adopted. */
  ghost predicate Recovering(s: State, os: seq<StartOutcome>, order: seq<Name>, judged: map<Name, Judged>) {
    && !s.panicked && TableOk(s.records)
    && s.waiters == map[] && s.timers == EMPTY_TIMERS && s.effects == []
    && OutcomesHold(s.records, os)
    && s.launched == OwedLaunches(os)
    && (forall n <- order :: Has(s.records, n))
    && (forall n <- order :: KeptAsIs(judged, n) ==> Unsettled(s.records, n))
    && (forall n :: Unsettled(s.records, n) ==> MustWatchName(os, n) || (n in order && KeptAsIs(judged, n)))
  }

  /** One record is rewritten; `o`, if any, is the outcome that accounts for its process. */
  ghost predicate RecoveryEdit(s: State, next: State, name: Name, updated: Record,
                               os: seq<StartOutcome>, o: Option<StartOutcome>) {
    && next.records == Put(s.records, name, updated)
    && next.waiters == s.waiters && next.timers == s.timers && next.effects == s.effects && next.panicked == s.panicked
    && Has(s.records, name) && RecordOk(updated)
    && updated.runtime.name == name && updated.runtime.pmId == Find(s.records, name).value.runtime.pmId
    && (Unsettled(s.records, name) ==>
          !updated.runtime.status.IsSettled() && updated.runtime.pid == Find(s.records, name).value.runtime.pid)
    && (o.Some? && MustWatch(o.value) ==>
          && o.value.name == name && o.value.pid.Some? && o.value.pid == updated.runtime.pid
          && !updated.runtime.status.IsSettled()
          && next.launched == s.launched + [Handlers.Launch(name, o.value.pid.value)])
    && (o.None? || !MustWatch(o.value) ==>
          && next.launched == s.launched
          && (!updated.runtime.status.IsSettled() ==> Unsettled(s.records, name)))
  }

  lemma EditRecovers(s: State, next: State, updated: Record, os: seq<StartOutcome>, o: Option<StartOutcome>,
                     order: seq<Name>, judged: map<Name, Judged>)
    requires order != [] && Recovering(s, os, order, judged)
    requires RecoveryEdit(s, next, order[0], updated, os, o)
    requires KeptAsIs(judged, order[0]) ==> o.Some? && MustWatch(o.value)
    ensures Recovering(next, AddOutcome(os, o), order[1..], judged)
  {
    hide Put, Find, OwedLaunches, KeptAsIs;
    var name, after := order[0], AddOutcome(os, o);
    PutKeepsTable(s.records, name, updated);
    EditKeepsOutcomes(s, next, name, updated, os, o);
    EditBalances(s, next, name, updated, os, o);
    assert forall n :: Unsettled(s.records, n) ==> Unsettled(next.records, n);
    forall n <- order[1..] ensures n in order {
    }
    forall n | Unsettled(next.records, n)
      ensures MustWatchName(after, n) || (n in order[1..] && KeptAsIs(judged, n))
    {
      AccountedFor(s, os, o, order, judged, n);
    }
  }

  lemma EditKeepsOutcomes(s: State, next: State, name: Name, updated: Record, os: seq<StartOutcome>, o: Option<StartOutcome>)
    requires OutcomesHold(s.records, os) && RecoveryEdit(s, next, name, updated, os, o)
    ensures OutcomesHold(next.records, AddOutcome(os, o))
  {
    hide Put, Find;
    forall p <- AddOutcome(os, o) | MustWatch(p) ensures Holds(next.records, p) {
      if p in os {
        assert Holds(s.records, p);
      }
    }
  }

  lemma EditBalances(s: State, next: State, name: Name, updated: Record, os: seq<StartOutcome>, o: Option<StartOutcome>)
    requires s.launched == OwedLaunches(os) && RecoveryEdit(s, next, name, updated, os, o)
    ensures next.launched == OwedLaunches(AddOutcome(os, o))
  {
    hide Put, Find, OwedLaunches;
    if o.Some? {
      OwedAppend(os, o.value);
      assert s.launched + [] == s.launched;
    }
  }

  lemma AccountedFor(s: State, os: seq<StartOutcome>, o: Option<StartOutcome>, order: seq<Name>,
                     judged: map<Name, Judged>, n: Name)
    requires order != []
    requires o.Some? && MustWatch(o.value) ==> o.value.name == order[0]
    requires KeptAsIs(judged, order[0]) ==> o.Some? && MustWatch(o.value)
    requires (MustWatchName(os, n) || (n in order && KeptAsIs(judged, n))) || (n == order[0] && o.Some? && MustWatch(o.value))
    ensures MustWatchName(AddOutcome(os, o), n) || (n in order[1..] && KeptAsIs(judged, n))
  {
    var after := AddOutcome(os, o);
    if MustWatchName(os, n) {
      var p :| p in os && MustWatch(p) && p.name == n;
      assert p in after;
    } else if n == order[0] {
      assert o.value in after;
    }
  }

  lemma AdoptRecovers(s: State, os: seq<StartOutcome>, order: seq<Name>, judged: map<Name, Judged>)
    requires order != [] && Recovering(s, os, order, judged) && KeptAsIs(judged, order[0])
    ensures var (next, o) := AdoptOne(s, order[0]);
            o.Some? && Recovering(next, AddOutcome(os, o), order[1..], judged)
  {
    var name := order[0];
    var record := Find(s.records, name).value;
    var runtime := if record.AwaitsReady() then record.runtime else record.runtime.MarkOnline();
    assert Unsettled(s.records, name) && RecordOk(record);
    var (next, o) := AdoptOne(s, name);
    EditRecovers(s, next, record.With(runtime), os, o, order, judged);
  }

  lemma LaunchIsEdit(s: State, name: Name, os: seq<StartOutcome>, ports: Ports) returns (updated: Record)
    requires Has(s.records, name) && RecordOk(Find(s.records, name).value)
    requires LaunchOne(s, name, false, ports).1.Some?
    ensures var (next, o) := LaunchOne(s, name, false, ports); RecoveryEdit(s, next, name, updated, os, o)
  {
    hide Find, Put;
    var record := Find(s.records, name).value;
    var runtime := record.runtime;
    if !runtime.status.IsSettled() {
      var armed := runtime.ArmSchedule();
      updated := record.With(if runtime.status.IsShuttingDown() then armed.RequestRestart() else armed);
    } else {
      var spawned := ports.spawn(s.tick).value;
      var launching := runtime.ArmSchedule().MarkLaunched(spawned.pid, spawned.nowMs);
      var online := if record.spec.readyProbe.None? then launching.MarkOnline() else launching;
      updated := record.With(online.RecordIdentity(spawned.identity));
    }
  }

  lemma LaunchRecovers(s: State, os: seq<StartOutcome>, order: seq<Name>, judged: map<Name, Judged>, ports: Ports)
    requires order != [] && Recovering(s, os, order, judged) && !KeptAsIs(judged, order[0])
    ensures var (next, o) := LaunchOne(s, order[0], false, ports);
            Recovering(next, AddOutcome(os, o), order[1..], judged)
  {
    hide Find, Put, RecoveryEdit, OutcomesHold;
    var name := order[0];
    var (next, o) := LaunchOne(s, name, false, ports);
    assert Has(s.records, name) && RecordOk(Find(s.records, name).value);
    if o.None? {
      RefusedLaunchOnlyTicks(s, name, ports);
      SkipRecovers(s, os, order, judged);
    } else {
      var updated := LaunchIsEdit(s, name, os, ports);
      EditRecovers(s, next, updated, os, o, order, judged);
    }
  }

  lemma RefusedLaunchOnlyTicks(s: State, name: Name, ports: Ports)
    requires Has(s.records, name) && LaunchOne(s, name, false, ports).1.None?
    ensures LaunchOne(s, name, false, ports).0 == Tick(s)
  {
    hide Find, Put;
  }

  lemma SkipRecovers(s: State, os: seq<StartOutcome>, order: seq<Name>, judged: map<Name, Judged>)
    requires order != [] && Recovering(s, os, order, judged) && !KeptAsIs(judged, order[0])
    ensures Recovering(s, os, order[1..], judged)
    ensures Recovering(Tick(s), os, order[1..], judged)
  {
  }

  lemma {:induction false} RecoverAccounts(s: State, os: seq<StartOutcome>, order: seq<Name>,
                                           judged: map<Name, Judged>, ports: Ports)
    requires Recovering(s, os, order, judged)
    ensures var (last, all) := Recover(s, os, order, judged, ports); Recovering(last, all, [], judged)
    decreases |order|
  {
    hide Recovering, AdoptOne, LaunchOne;
    if order != [] {
      var (next, o) := RecoverOne(s, order[0], judged, ports);
      if KeptAsIs(judged, order[0]) {
        AdoptRecovers(s, os, order, judged);
      } else if order[0] in judged && judged[order[0]].verdict.Respawn? {
        LaunchRecovers(s, os, order, judged, ports);
      } else {
        SkipRecovers(s, os, order, judged);
      }
      RecoverAccounts(next, AddOutcome(os, o), order[1..], judged, ports);
    }
  }

  lemma RecoveredIsCoherent(s: State, os: seq<StartOutcome>, judged: map<Name, Judged>)
    requires Recovering(s, os, [], judged)
    ensures Coherent(Tick(s), {}, 0, os)
  {
    var t := Tick(s);
    assert t.launched[0..] == t.launched;
    assert LaunchesOf(WatchesIn([])) == [];
    assert LiveWatches(t, {}) == {};
    forall n | Unsettled(t.records, n) ensures MustWatchName(os, n) {
    }
  }

  lemma ForgottenTableOk(stored: seq<Record>, trust: Trust, host: Host)
    requires StoredOk(stored)
    ensures var judged := JudgeAll(stored, trust, host);
            var records := ForgetAll(stored, judged);
            && TableOk(records)
            && (forall n :: Unsettled(records, n) <==> Has(stored, n) && KeptAsIs(judged, n))
  {
    hide JudgeVerdict, JudgeAll;
    var judged := JudgeAll(stored, trust, host);
    var records := ForgetAll(stored, judged);
    ForgetKeepsNames(stored, judged);
    forall n
      ensures Has(records, n) ==> RecordOk(Find(records, n).value)
      ensures Unsettled(records, n) <==> Has(stored, n) && KeptAsIs(judged, n)
    {
      ForgottenRecord(stored, trust, host, n);
    }
  }

  lemma ForgottenRecord(stored: seq<Record>, trust: Trust, host: Host, n: Name)
    requires StoredOk(stored)
    ensures var judged := JudgeAll(stored, trust, host);
            var records := ForgetAll(stored, judged);
            && (Has(records, n) <==> Has(stored, n))
            && (Has(records, n) ==> RecordOk(Find(records, n).value))
            && (Unsettled(records, n) <==> Has(stored, n) && KeptAsIs(judged, n))
  {
    hide JudgeVerdict, JudgeAll, TokenMatched, Unchanged;
    var judged := JudgeAll(stored, trust, host);
    FindForgotten(stored, judged, n);
    if KeptAsIs(judged, n) {
      var r := JudgedOwn(stored, trust, host, n);
      FindIsUnique(stored, r);
      AdoptedHasPid(r, trust, host);
    }
    if Has(stored, n) {
      FindIsExact(stored, n);
    }
  }

  lemma AdoptedHasPid(r: Record, trust: Trust, host: Host)
    requires JudgeVerdict(r, trust, host).Adopt?
    ensures r.runtime.pid.Some?
  {
    AdoptionIsExact(r, trust, host);
  }

  lemma {:induction false} FindForgotten(stored: seq<Record>, judged: map<Name, Judged>, n: Name)
    ensures Find(ForgetAll(stored, judged), n) ==
              if Has(stored, n) then Some(Forget(Find(stored, n).value, judged)) else None
  {
    if stored != [] {
      FindForgotten(stored[1..], judged, n);
      assert ForgetAll(stored, judged)[1..] == ForgetAll(stored[1..], judged);
    }
  }

  /** Every stored record comes up in the recovery order, each name once. */
  lemma OrderCoversTable(records: seq<Record>)
    requires TableOk(records)
    ensures forall n :: n in DependencyOrder(records) <==> Has(records, n)
  {
    hide DepGraph.TopoSort, Find;
    var nodes := DependencyNodes(records);
    forall i | 0 <= i < |records| ensures nodes[i].name == NamesOf(records)[i] {
      FindIsUnique(records, records[i]);
      assert RecordOk(Find(records, records[i].runtime.name).value);
    }
    assert DepGraph.DistinctNames(nodes);
    DepGraph.TopoSortExact(nodes);
    forall n ensures n in DependencyOrder(records) <==> Has(records, n) {
      HasIsMember(records, n);
      KnownIsNamed(nodes, NamesOf(records), n);
    }
  }

  lemma KnownIsNamed(nodes: seq<DepGraph.Node>, names: seq<Name>, n: Name)
    requires |nodes| == |names| && forall i :: 0 <= i < |nodes| ==> nodes[i].name == names[i]
    ensures DepGraph.Known(nodes, n) <==> n in names
  {
    if DepGraph.Known(nodes, n) {
      var node :| node in nodes && node.name == n;
      var i :| 0 <= i < |nodes| && nodes[i] == node;
      assert names[i] == n;
    }
    if n in names {
      var i :| 0 <= i < |names| && names[i] == n;
      assert nodes[i] in nodes && nodes[i].name == n;
    }
  }

  lemma RecoveryBegins(stored: seq<Record>, trust: Trust, host: Host)
    requires StoredOk(stored)
    ensures var judged := JudgeAll(stored, trust, host);
            var records := ForgetAll(stored, judged);
            Recovering(NEW_SUPERVISOR.(records := records), [], DependencyOrder(records), judged)
  {
    hide JudgeAll, ForgetAll, TableOk, StoredOk, DependencyOrder, Find, KeptAsIs;
    var judged := JudgeAll(stored, trust, host);
    var records := ForgetAll(stored, judged);
    ForgottenTableOk(stored, trust, host);
    OrderCoversTable(records);
    forall n ensures Has(records, n) <==> Has(stored, n) {
      FindForgotten(stored, judged, n);
    }
  }

  lemma TakeOverIsCoherent(stored: seq<Record>, trust: Trust, host: Host, ports: Ports)
    requires StoredOk(stored)
    ensures var (taken, os) := TakeOver(NEW_SUPERVISOR, stored, trust, host, ports);
            Coherent(taken, {}, 0, os)
  {
    hide JudgeAll, ForgetAll, Recover, Recovering, Coherent, StoredOk, DependencyOrder;
    var judged := JudgeAll(stored, trust, host);
    var records := ForgetAll(stored, judged);
    var s := NEW_SUPERVISOR.(records := records);
    var order := DependencyOrder(records);
    RecoveryBegins(stored, trust, host);
    RecoverAccounts(s, [], order, judged, ports);
    var (last, all) := Recover(s, [], order, judged, ports);
    RecoveredIsCoherent(last, all, judged);
  }

  lemma {:induction false} ArmAllKeeps(s: State, names: seq<Name>, ports: Ports, before: set<ExitWatch>, from: nat)
    requires Coherent(s, before, from, [])
    ensures Coherent(ArmAll(s, names, ports), before, from, []) && SameNames(s, ArmAll(s, names, ports))
    decreases |names|
  {
    hide Coherent, ArmTimerFor;
    if names != [] {
      ArmKeeps(s, names[0], ports, before, from);
      ArmAllKeeps(ArmTimerFor(s, names[0], ports), names[1..], ports, before, from);
    }
  }

  // ----- the table and the trace tell one story -----

  /** The outcome is what came of the move. */
  predicate ComesOf(o: StartOutcome, m: Move) {
    m.IsRecovery() && o.name == m.name && (o.kind.Adopted? <==> m.Adopting?)
  }

  /** Every outcome came of a move of its own, in order. */
  predicate Follows(os: seq<StartOutcome>, moves: seq<Move>)
    decreases |moves|
  {
    os == []
    || (moves != [] && ((ComesOf(os[0], moves[0]) && Follows(os[1..], moves[1..])) || Follows(os, moves[1..])))
  }

  lemma RecoverOneFollows(s: State, name: Name, judged: map<Name, Judged>, ports: Ports)
    ensures var o := RecoverOne(s, name, judged, ports).1;
            && (o.Some? ==> name in judged && !judged[name].verdict.Settle?)
            && (o.Some? ==> ComesOf(o.value, if judged[name].verdict.Adopt? then Adopting(name) else Respawning(name)))
  {
    hide Find, Put;
  }

  lemma {:induction false} RecoveryFollows(s: State, os: seq<StartOutcome>, order: seq<Name>,
                                           judged: map<Name, Judged>, ports: Ports)
    ensures var all := Recover(s, os, order, judged, ports).1;
            os <= all && Follows(all[|os|..], RecoverMoves(order, judged))
    decreases |order|
  {
    hide RecoverOne, ComesOf;
    if order != [] {
      var (next, o) := RecoverOne(s, order[0], judged, ports);
      RecoverOneFollows(s, order[0], judged, ports);
      RecoveryFollows(next, AddOutcome(os, o), order[1..], judged, ports);
      var all := Recover(s, os, order, judged, ports).1;
      var moves, later := RecoverMoves(order, judged), RecoverMoves(order[1..], judged);
      assert moves != later ==> moves[1..] == later;
      if o.Some? {
        assert all[|os|] == o.value && all[|os|..][1..] == all[|os| + 1..];
      }
    }
  }

  /**
   * In every trace of a take-over the services it reports taken over are, in order, those the trace
   * adopts and respawns: nothing is taken charge of without its move.
   */
  lemma TakeOverFollowsItsTrace(moves: seq<Move>, contents: Contents, trust: Trust, scene: Scene, s: State, ports: Ports)
    requires IsTrace(moves, contents, trust, scene)
    ensures var os := TakeOver(s, contents.records, trust, scene.host, ports).1;
            exists from :: 0 <= from <= |moves| && Follows(os, moves[from..])
  {
    hide Recover, JudgeAll, ForgetAll, RecoverMoves, Follows, SweepMoves, SideBySide, SweepPlans, StalePlans, DependencyOrder;
    var judged := JudgeAll(contents.records, trust, scene.host);
    var order := OrderOf(contents.records, trust, scene.host);
    var swept := SweepMoves(SweepPlans(contents.stranded, trust, scene.sweepSeen), scene.sweepAnswers, 0);
    var evictions :| SideBySide(evictions, StalePlans(contents.records, trust, scene.host), scene.answers)
                     && moves == swept + (evictions + (RecoverMoves(order, judged) + [Saving]));
    var known := s.(records := ForgetAll(contents.records, judged));
    RecoveryFollows(known, [], order, judged, ports);
    var os := Recover(known, [], order, judged, ports).1;
    assert os[0..] == os;
    FollowsInLonger(os, RecoverMoves(order, judged), [Saving]);
    assert moves[|swept| + |evictions|..] == RecoverMoves(order, judged) + [Saving];
  }

  lemma {:induction false} FollowsInLonger(os: seq<StartOutcome>, moves: seq<Move>, more: seq<Move>)
    requires Follows(os, moves)
    ensures Follows(os, moves + more)
    decreases |moves|
  {
    if os != [] {
      assert (moves + more)[1..] == moves[1..] + more;
      if ComesOf(os[0], moves[0]) && Follows(os[1..], moves[1..]) {
        FollowsInLonger(os[1..], moves[1..], more);
      } else {
        FollowsInLonger(os, moves[1..], more);
      }
    }
  }

  /** The world after a boot: its exit watches are the ones the boot started. */
  function BootWorld(booted: State): Daemon.World {
    Daemon.World(booted, Elems(WatchesIn(booted.effects)))
  }

  /**
   * Booting, whatever the host answers, establishes the invariant every later run keeps: in particular
   * each process adopted or started is watched.
   */
  lemma BootIsSound(stored: seq<Record>, trust: Trust, host: Host, ports: Ports)
    requires StoredOk(stored)
    ensures Daemon.Inv(BootWorld(Boot(stored, trust, host, ports)))
  {
    hide TakeOver, Coherent, WatchAll, ArmAll;
    var (taken, os) := TakeOver(NEW_SUPERVISOR, stored, trust, host, ports);
    TakeOverIsCoherent(stored, trust, host, ports);
    WatchAllKeeps(taken, {}, 0, os);
    var watched := WatchAll(taken, os);
    ArmAllKeeps(watched, ArmedNames(watched.records), ports, {}, 0);
    var booted := Boot(stored, trust, host, ports);
    Daemon.BoundaryKeeps(booted, {}, 0, {});
    assert {} + Elems(WatchesIn(booted.effects)) == Elems(WatchesIn(booted.effects));
  }

  /** From any boot, every run is sound. */
  lemma EveryBootedRunIsSound(stored: seq<Record>, trust: Trust, host: Host, events: seq<Daemon.Event>, ports: Ports)
    requires StoredOk(stored)
    requires Daemon.EnabledRun(BootWorld(Boot(stored, trust, host, ports)), events, ports)
    ensures var last := Daemon.Run(BootWorld(Boot(stored, trust, host, ports)), events, ports);
            && Daemon.Sound(last)
            && (Daemon.FewLaunches(last) ==>
                  forall n :: Unsettled(last.sup.records, n) ==> Daemon.WatchedOnce(last, n))
  {
    hide Boot, Daemon.Run, Daemon.EnabledRun, Daemon.Inv;
    BootIsSound(stored, trust, host, ports);
    Daemon.EveryRunIsSound(BootWorld(Boot(stored, trust, host, ports)), events, ports);
  }
}
