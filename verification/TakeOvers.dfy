/**
 * What a take-over does to every stored service (usecases/src/resurrect.rs and `resurrect_saved` of
 * usecases/src/supervisor.rs): whoever may still live is evicted whole before it is started again, nobody
 * is forgotten, and each record ends as its verdict says.
 */
module TakeOvers {
  import opened Graphs
  import opened Model
  import opened ProcessTable
  import opened Handlers
  import opened Coherence
  import opened Promises
  import opened Judge
  import opened Resurrect
  import BatchGraph
  import Batches
  import DepGraph
  import Replies
  import Samples

  // ----- the plans -----

  /** Every name in the order with something to evict has a plan, with what was recorded of it. */
  lemma {:induction false} PlanIsMade(order: seq<Name>, judged: map<Name, Judged>, n: Name) returns (i: nat)
    requires n in order && n in judged && StaleOf(judged[n].verdict).Some?
    ensures i < |Plans(order, judged)|
    ensures Plans(order, judged)[i] ==
              Plan(n, StaleOf(judged[n].verdict).value, judged[n].expected, ScopeOf(judged[n].verdict))
  {
    if order[0] == n {
      i := 0;
    } else {
      var k := PlanIsMade(order[1..], judged, n);
      i := |Plans(order, judged)| - |Plans(order[1..], judged)| + k;
    }
  }

  /** A record is judged on its own: names are distinct. */
  lemma JudgedByOwn(stored: seq<Record>, trust: Trust, host: Host, r: Record)
    requires NoDup(NamesOf(stored)) && r in stored && WasSupposedToRun(r)
    ensures r.runtime.name in JudgeAll(stored, trust, host)
    ensures JudgeAll(stored, trust, host)[r.runtime.name] == Judged(JudgeVerdict(r, trust, host), r.runtime.Token())
  {
    hide JudgeVerdict, JudgeAll;
    JudgedRecords(stored, trust, host, r.runtime.name);
    var own := JudgedOwn(stored, trust, host, r.runtime.name);
    SameNameSameRecord(stored, r, own);
  }

  lemma SameNameSameRecord(stored: seq<Record>, a: Record, b: Record)
    requires NoDup(NamesOf(stored)) && a in stored && b in stored && a.runtime.name == b.runtime.name
    ensures a == b
  {
    var i :| 0 <= i < |stored| && stored[i] == a;
    var j :| 0 <= j < |stored| && stored[j] == b;
    assert NamesOf(stored)[i] == NamesOf(stored)[j];
  }

  lemma NotJudged(stored: seq<Record>, trust: Trust, host: Host, r: Record)
    requires NoDup(NamesOf(stored)) && r in stored && !WasSupposedToRun(r)
    ensures r.runtime.name !in JudgeAll(stored, trust, host)
  {
    hide JudgeVerdict, JudgeAll;
    JudgedRecords(stored, trust, host, r.runtime.name);
    if r.runtime.name in JudgeAll(stored, trust, host) {
      var own := JudgedOwn(stored, trust, host, r.runtime.name);
      SameNameSameRecord(stored, r, own);
    }
  }

  // ----- every trace: evicted whole, then started again -----

  lemma {:induction false} LaneSplits(a: seq<Move>, b: seq<Move>, i: nat)
    ensures Lane(a + b, i) == Lane(a, i) + Lane(b, i)
  {
    if a == [] {
      assert a + b == b;
    } else {
      assert (a + b)[1..] == a[1..] + b;
      LaneSplits(a[1..], b, i);
    }
  }

  lemma {:induction false} LaneOfOthers(moves: seq<Move>, i: nat)
    requires forall m <- moves :: !m.Evicting?
    ensures Lane(moves, i) == []
  {
    if moves != [] {
      LaneOfOthers(moves[1..], i);
    }
  }

  lemma {:induction false} RecoversNamed(order: seq<Name>, judged: map<Name, Judged>, n: Name)
    ensures Adopting(n) in RecoverMoves(order, judged) <==> n in order && n in judged && judged[n].verdict.Adopt?
    ensures Respawning(n) in RecoverMoves(order, judged) <==> n in order && n in judged && judged[n].verdict.Respawn?
  {
    if order != [] {
      RecoversNamed(order[1..], judged, n);
      assert order == [order[0]] + order[1..];
    }
  }

  /** A trace in its three parts. */
  lemma TraceParts(moves: seq<Move>, contents: Contents, trust: Trust, scene: Scene)
      returns (swept: seq<Move>, evictions: seq<Move>, recovered: seq<Move>)
    requires IsTrace(moves, contents, trust, scene)
    ensures moves == swept + (evictions + (recovered + [Saving]))
    ensures forall m <- swept :: m.Sweeping?
    ensures forall m <- evictions :: m.Evicting?
    ensures recovered == RecoverMoves(OrderOf(contents.records, trust, scene.host), JudgeAll(contents.records, trust, scene.host))
    ensures forall m <- recovered :: m.IsRecovery()
    ensures var plans := StalePlans(contents.records, trust, scene.host);
            forall i :: 0 <= i < |plans| ==> Lane(evictions, i) == Evict(plans[i], scene.answers(i))
  {
    hide Evict, SweepMoves, SweepPlans, StalePlans, RecoverMoves, OrderOf, JudgeAll, Lane;
    var judged := JudgeAll(contents.records, trust, scene.host);
    var order := OrderOf(contents.records, trust, scene.host);
    var plans := SweepPlans(contents.stranded, trust, scene.sweepSeen);
    swept, recovered := SweepMoves(plans, scene.sweepAnswers, 0), RecoverMoves(order, judged);
    evictions :| SideBySide(evictions, StalePlans(contents.records, trust, scene.host), scene.answers)
                 && moves == swept + (evictions + (recovered + [Saving]));
    forall m <- swept ensures m.Sweeping? {
      SweepMovesBelong(plans, scene.sweepAnswers, 0, m);
    }
    forall m <- recovered ensures m.IsRecovery() {
      RecoverMovesOnly(order, judged, m);
    }
  }

  /** The first `k` moves hold a whole eviction of the process the record was left with. */
  ghost predicate EvictedWhole(moves: seq<Move>, k: nat, r: Record, scene: Scene)
    requires k <= |moves|
  {
    r.runtime.pid.Some? &&
    exists i: nat, scope: Scope ::
      && Lane(moves[..k], i) == Evict(Plan(r.runtime.name, r.runtime.pid.value, r.runtime.Token(), scope), scene.answers(i))
      && (scope.SinglePid? <==> !r.runtime.status.Stopping? && !TokenMatched(r, scene.host))
  }

  lemma StaleIsPlanned(contents: Contents, trust: Trust, scene: Scene, r: Record) returns (i: nat)
    requires StoredOk(contents.records) && r in contents.records && WasSupposedToRun(r)
    requires MayLive(r, trust, scene.host) && !JudgeVerdict(r, trust, scene.host).Adopt?
    ensures var plans := StalePlans(contents.records, trust, scene.host);
            && i < |plans| && plans[i].name == r.runtime.name && Some(plans[i].stale) == r.runtime.pid
            && plans[i].expected == r.runtime.Token()
            && (plans[i].scope.SinglePid? <==> !r.runtime.status.Stopping? && !TokenMatched(r, scene.host))
  {
    var judged := JudgeAll(contents.records, trust, scene.host);
    JudgedByOwn(contents.records, trust, scene.host, r);
    VerdictIsExact(r, trust, scene.host);
    StoredInOrder(contents.records, trust, scene.host, r);
    hide JudgeVerdict, JudgeAll, Plans, OrderOf, MayLive, TokenMatched;
    i := PlanIsMade(OrderOf(contents.records, trust, scene.host), judged, r.runtime.name);
  }

  lemma StoredInOrder(stored: seq<Record>, trust: Trust, host: Host, r: Record)
    requires StoredOk(stored) && r in stored
    ensures r.runtime.name in OrderOf(stored, trust, host)
  {
    hide JudgeAll, ForgetAll, DependencyOrder, Find;
    ForgottenTableOk(stored, trust, host);
    var judged := JudgeAll(stored, trust, host);
    OrderCoversTable(ForgetAll(stored, judged));
    ForgetKeepsNames(stored, judged);
    var i :| 0 <= i < |stored| && stored[i] == r;
    assert NamesOf(stored)[i] == r.runtime.name;
    HasIsMember(ForgetAll(stored, judged), r.runtime.name);
  }

  /**
   * Eviction before respawn: in every trace, when a stored service is started again although the process
   * it was left with may still live, that process has been evicted whole before, alone if it was meant to
   * run and its token did not match, with its group otherwise.
   */
  lemma EvictedBeforeRespawn(moves: seq<Move>, contents: Contents, trust: Trust, scene: Scene, r: Record, k: nat)
    requires IsTrace(moves, contents, trust, scene) && StoredOk(contents.records)
    requires r in contents.records && WasSupposedToRun(r) && MayLive(r, trust, scene.host)
    requires k < |moves| && moves[k] == Respawning(r.runtime.name)
    ensures EvictedWhole(moves, k, r, scene)
  {
    hide IsTrace, StoredOk, JudgeVerdict, JudgeAll, RecoverMoves, OrderOf, StalePlans, Lane, Evict, MayLive, TokenMatched;
    var swept, evictions, recovered := TraceParts(moves, contents, trust, scene);
    RespawnIsJudged(contents, trust, scene, r, recovered, moves, k);
    var i := StaleIsPlanned(contents, trust, scene, r);
    var at := |swept| + |evictions|;
    forall j | 0 <= j < at ensures moves[j].Sweeping? || moves[j].Evicting? {
      if j < |swept| {
        assert moves[j] == swept[j];
      } else {
        assert moves[j] == evictions[j - |swept|];
      }
    }
    var before := (recovered + [Saving])[..k - at];
    assert moves[..k] == swept + (evictions + before);
    LaneSplits(swept, evictions + before, i);
    LaneSplits(evictions, before, i);
    LaneOfOthers(swept, i);
    forall m <- before ensures !m.Evicting? {
      assert m in recovered + [Saving];
    }
    LaneOfOthers(before, i);
  }

  lemma RespawnIsJudged(contents: Contents, trust: Trust, scene: Scene, r: Record, recovered: seq<Move>, moves: seq<Move>, k: nat)
    requires StoredOk(contents.records) && r in contents.records && WasSupposedToRun(r)
    requires IsTrace(moves, contents, trust, scene) && k < |moves| && moves[k] == Respawning(r.runtime.name)
    ensures JudgeVerdict(r, trust, scene.host).Respawn?
  {
    hide IsTrace, JudgeVerdict, JudgeAll;
    TraceRecoveries(moves, contents, trust, scene, moves[k]);
    TraceRespawns(moves, contents, trust, scene, r.runtime.name);
    JudgedByOwn(contents.records, trust, scene.host, r);
  }

  lemma TraceRespawns(moves: seq<Move>, contents: Contents, trust: Trust, scene: Scene, n: Name)
    requires IsTrace(moves, contents, trust, scene)
    ensures var judged, order := JudgeAll(contents.records, trust, scene.host), OrderOf(contents.records, trust, scene.host);
            && (Adopting(n) in moves <==> n in order && n in judged && judged[n].verdict.Adopt?)
            && (Respawning(n) in moves <==> n in order && n in judged && judged[n].verdict.Respawn?)
  {
    hide IsTrace, JudgeAll, OrderOf, RecoverMoves, StalePlans, Lane, Evict;
    var swept, evictions, recovered := TraceParts(moves, contents, trust, scene);
    RecoversNamed(OrderOf(contents.records, trust, scene.host), JudgeAll(contents.records, trust, scene.host), n);
    assert Adopting(n) in moves <==> Adopting(n) in recovered;
    assert Respawning(n) in moves <==> Respawning(n) in recovered;
  }

  /**
   * Nobody is forgotten: in every trace each stored service that was meant to run is adopted, started again
   * or settled as its verdict says, and whatever is not adopted and may still live is evicted whole.
   */
  lemma NobodyIsForgotten(moves: seq<Move>, contents: Contents, trust: Trust, scene: Scene, r: Record)
    requires IsTrace(moves, contents, trust, scene) && StoredOk(contents.records) && r in contents.records
    ensures var n, verdict := r.runtime.name, JudgeVerdict(r, trust, scene.host);
            && (Adopting(n) in moves <==> WasSupposedToRun(r) && verdict.Adopt?)
            && (Respawning(n) in moves <==> WasSupposedToRun(r) && verdict.Respawn?)
            && (WasSupposedToRun(r) && !verdict.Adopt? && MayLive(r, trust, scene.host) ==> EvictedWhole(moves, |moves|, r, scene))
  {
    hide IsTrace, StoredOk, JudgeVerdict, JudgeAll, RecoverMoves, OrderOf, StalePlans, Lane, Evict, MayLive, TokenMatched, NoDup;
    TraceRespawns(moves, contents, trust, scene, r.runtime.name);
    StoredInOrder(contents.records, trust, scene.host, r);
    NamesAreDistinct(contents.records);
    if WasSupposedToRun(r) {
      JudgedByOwn(contents.records, trust, scene.host, r);
      if !JudgeVerdict(r, trust, scene.host).Adopt? && MayLive(r, trust, scene.host) {
        var swept, evictions, recovered := TraceParts(moves, contents, trust, scene);
        var i := StaleIsPlanned(contents, trust, scene, r);
        LaneSplits(swept, evictions + (recovered + [Saving]), i);
        LaneSplits(evictions, recovered + [Saving], i);
        LaneOfOthers(swept, i);
        LaneOfOthers(recovered + [Saving], i);
        assert moves[..|moves|] == moves;
      }
    } else {
      NotJudged(contents.records, trust, scene.host, r);
    }
  }

  lemma NamesAreDistinct(stored: seq<Record>)
    requires StoredOk(stored)
    ensures NoDup(NamesOf(stored))
  {
  }

  // ----- what was stranded -----

  /** The process of a declaration that can no longer be read, as far as nothing shows it gone or replaced. */
  predicate StrandedMayLive(o: Stranded, trust: Trust, seen: map<nat, Liveness>) {
    && trust.Kept? && o.pid.Some?
    && (o.pid.value in seen ==>
          match seen[o.pid.value]
          case Gone => false
          case Unreadable => true
          case Alive(token) => o.token.Some? ==> token == o.token.value)
  }

  function SweepPlan(o: Stranded): Plan
    requires o.pid.Some?
  {
    Plan(o.name, o.pid.value, o.token, ProcessGroup)
  }

  /** Exactly the stranded processes that may still live are swept, with their groups, in order. */
  lemma {:induction false} SweepsAreExact(stranded: seq<Stranded>, trust: Trust, seen: map<nat, Liveness>, plan: Plan)
    ensures plan in SweepPlans(stranded, trust, seen) <==>
              exists o <- stranded :: StrandedMayLive(o, trust, seen) && plan == SweepPlan(o)
  {
    if stranded != [] {
      SweepsAreExact(stranded[1..], trust, seen, plan);
      var o := stranded[0];
      assert plan in SweepPlans(stranded, trust, seen) <==>
               plan in SweepPlans(stranded[1..], trust, seen) || (StrandedMayLive(o, trust, seen) && plan == SweepPlan(o));
      hide SweepPlans, StrandedMayLive, SweepPlan;
      assert stranded == [o] + stranded[1..];
    }
  }

  // ----- the table -----

  /** The record of a service whose process is taken to be gone. */
  function Settled(record: Record): Record {
    var known := record.runtime.(pendingRestart := false);
    Record(record.spec, if known.status.IsSettled() then known
                        else known.(status := Stopped, pid := None, startedAtMs := None, identity := None))
  }

  /** The record of an adopted service: as it was, online unless it still waits for its probe. */
  function AdoptedAs(record: Record): Record {
    var waits := record.spec.readyProbe.Some? && record.runtime.status == Launching;
    Record(record.spec, record.runtime.(pendingRestart := false, status := if waits then Launching else Online))
  }

  /** How the verdict on a stored record shows on the table. */
  ghost predicate CameBack(before: Record, after: Record, verdict: Option<Verdict>, ports: Ports) {
    if verdict.None? || verdict.value.Settle? then after == Settled(before)
    else if verdict.value.Adopt? then after == AdoptedAs(before)
    else exists t :: after ==
           match LaunchLeaves(Settled(before), false, ports.spawn(t))
           case None => Settled(before)
           case Some(left) => Record(before.spec, left.runtime)
  }

  function VerdictOf(r: Record, trust: Trust, host: Host): Option<Verdict> {
    if WasSupposedToRun(r) then Some(JudgeVerdict(r, trust, host)) else None
  }

  lemma AdoptLeaves(s: State, name: Name)
    requires Has(s.records, name)
    ensures var next := AdoptOne(s, name).0;
            && OthersStand(s, next, name) && next.timers == s.timers
            && Find(next.records, name) ==
                 (if Find(s.records, name).value.runtime.pid.None? then Find(s.records, name)
                  else var record := Find(s.records, name).value;
                       var waits := record.spec.readyProbe.Some? && record.runtime.status == Launching;
                       Some(Record(record.spec, if waits then record.runtime else record.runtime.(status := Online))))
  {
    hide Find, Put;
    var record := Find(s.records, name).value;
    Edited(s.records, name, record.With(if record.AwaitsReady() then record.runtime else record.runtime.MarkOnline()));
  }

  lemma RecoverOthers(s: State, name: Name, judged: map<Name, Judged>, ports: Ports)
    requires Has(s.records, name)
    ensures var next := RecoverOne(s, name, judged, ports).0; OthersStand(s, next, name) && Has(next.records, name)
  {
    AdoptLeaves(s, name);
    LaunchPromise(s, name, false, ports);
    LaunchAnswer(s, name, false, ports);
    hide AdoptOne, LaunchOne, Find;
  }

  lemma {:induction false} RecoverLeaves(s: State, os: seq<StartOutcome>, order: seq<Name>, judged: map<Name, Judged>,
                                         ports: Ports, n: Name)
    requires AllHave(s.records, order) && n !in order
    ensures Find(Recover(s, os, order, judged, ports).0.records, n) == Find(s.records, n)
    decreases |order|
  {
    hide RecoverOne, Find;
    if order != [] {
      var (next, o) := RecoverOne(s, order[0], judged, ports);
      assert order[0] in order;
      RecoverOthers(s, order[0], judged, ports);
      forall m <- order[1..] ensures Has(next.records, m) {
        assert m in order && (m == order[0] || Find(next.records, m) == Find(s.records, m));
      }
      RecoverLeaves(next, AddOutcome(os, o), order[1..], judged, ports, n);
    }
  }

  /** Each name in the order is recovered at its turn, its record as it was when the recovery began. */
  lemma {:induction false} RecoversEach(s: State, os: seq<StartOutcome>, order: seq<Name>, judged: map<Name, Judged>,
                                        ports: Ports, n: Name) returns (at: State)
    requires AllHave(s.records, order) && NoDup(order) && n in order
    ensures Find(at.records, n) == Find(s.records, n)
    ensures Find(Recover(s, os, order, judged, ports).0.records, n) == Find(RecoverOne(at, n, judged, ports).0.records, n)
    decreases |order|
  {
    hide RecoverOne, Find;
    var (next, o) := RecoverOne(s, order[0], judged, ports);
    assert order[0] in order;
    RecoverOthers(s, order[0], judged, ports);
    forall m <- order[1..] ensures Has(next.records, m) {
      assert m in order && (m == order[0] || Find(next.records, m) == Find(s.records, m));
    }
    if order[0] == n {
      at := s;
      assert n !in order[1..];
      RecoverLeaves(next, AddOutcome(os, o), order[1..], judged, ports, n);
    } else {
      at := RecoversEach(next, AddOutcome(os, o), order[1..], judged, ports, n);
    }
  }

  lemma OrderIsDistinct(records: seq<Record>)
    requires TableOk(records)
    ensures NoDup(DependencyOrder(records))
  {
    hide DepGraph.TopoSort, Find;
    var nodes := DependencyNodes(records);
    forall i | 0 <= i < |records| ensures nodes[i].name == NamesOf(records)[i] {
      FindIsUnique(records, records[i]);
      assert RecordOk(Find(records, records[i].runtime.name).value);
    }
    assert DepGraph.DistinctNames(nodes);
    DepGraph.TopoSortExact(nodes);
  }

  lemma ForgottenIs(stored: seq<Record>, trust: Trust, host: Host, r: Record)
    requires StoredOk(stored) && r in stored
    ensures var judged := JudgeAll(stored, trust, host);
            Find(ForgetAll(stored, judged), r.runtime.name) ==
              Some(if VerdictOf(r, trust, host) == Some(Adopt) then Record(r.spec, r.runtime.(pendingRestart := false)) else Settled(r))
  {
    hide JudgeVerdict, JudgeAll, ForgetAll;
    var judged := JudgeAll(stored, trust, host);
    FindForgotten(stored, judged, r.runtime.name);
    FindIsUnique(stored, r);
    if WasSupposedToRun(r) {
      JudgedByOwn(stored, trust, host, r);
    } else {
      NotJudged(stored, trust, host, r);
    }
  }

  /** What one recovery makes of the record it finds. */
  lemma RecoverOneLeaves(s: State, r: Record, judged: map<Name, Judged>, verdict: Option<Verdict>, ports: Ports)
    requires Find(s.records, r.runtime.name) ==
               Some(if verdict == Some(Adopt) then Record(r.spec, r.runtime.(pendingRestart := false)) else Settled(r))
    requires if verdict.None? then r.runtime.name !in judged
             else r.runtime.name in judged && judged[r.runtime.name].verdict == verdict.value
    requires verdict == Some(Adopt) ==> r.runtime.pid.Some? && !r.runtime.status.IsSettled()
    ensures var after := Find(RecoverOne(s, r.runtime.name, judged, ports).0.records, r.runtime.name);
            after.Some? && CameBack(r, after.value, verdict, ports)
  {
    AdoptLeaves(s, r.runtime.name);
    LaunchAnswer(s, r.runtime.name, false, ports);
    hide AdoptOne, LaunchOne, Find;
  }

  /** A stored record came back as its verdict says. */
  ghost predicate EndsAsJudged(r: Record, records: seq<Record>, trust: Trust, host: Host, ports: Ports) {
    var after := Find(records, r.runtime.name);
    after.Some? && CameBack(r, after.value, VerdictOf(r, trust, host), ports)
  }

  /** In every take-over each stored record ends as its verdict says. */
  lemma TakeOverIsExact(s: State, stored: seq<Record>, trust: Trust, host: Host, ports: Ports, r: Record)
    requires StoredOk(stored) && r in stored
    ensures EndsAsJudged(r, TakeOver(s, stored, trust, host, ports).0.records, trust, host, ports)
  {
    var judged := JudgeAll(stored, trust, host);
    var records := ForgetAll(stored, judged);
    ForgottenTableOk(stored, trust, host);
    OrderCoversTable(records);
    OrderIsDistinct(records);
    ForgottenIs(stored, trust, host, r);
    StoredInOrder(stored, trust, host, r);
    VerdictIsJudged(stored, trust, host, r);
    hide JudgeVerdict, JudgeAll, ForgetAll, DependencyOrder, Find, CameBack, RecoverOne, Recover, StoredOk, TableOk;
    var at := RecoversEach(s.(records := records), [], DependencyOrder(records), judged, ports, r.runtime.name);
    RecoverOneLeaves(at, r, judged, VerdictOf(r, trust, host), ports);
  }

  lemma VerdictIsJudged(stored: seq<Record>, trust: Trust, host: Host, r: Record)
    requires StoredOk(stored) && r in stored
    ensures var judged, verdict := JudgeAll(stored, trust, host), VerdictOf(r, trust, host);
            && (if verdict.None? then r.runtime.name !in judged
                else r.runtime.name in judged && judged[r.runtime.name].verdict == verdict.value)
            && (verdict == Some(Adopt) ==> r.runtime.pid.Some? && !r.runtime.status.IsSettled())
  {
    if WasSupposedToRun(r) {
      JudgedByOwn(stored, trust, host, r);
      AdoptionIsExact(r, trust, host);
    } else {
      NotJudged(stored, trust, host, r);
    }
    hide JudgeVerdict, JudgeAll;
  }

  ghost predicate AllEndAsJudged(stored: seq<Record>, records: seq<Record>, trust: Trust, host: Host, ports: Ports) {
    forall r <- stored :: EndsAsJudged(r, records, trust, host, ports)
  }

  lemma EachEndsAsJudged(s: State, stored: seq<Record>, trust: Trust, host: Host, ports: Ports)
    requires StoredOk(stored)
    ensures AllEndAsJudged(stored, TakeOver(s, stored, trust, host, ports).0.records, trust, host, ports)
  {
    hide TakeOver, EndsAsJudged;
    forall r <- stored ensures EndsAsJudged(r, TakeOver(s, stored, trust, host, ports).0.records, trust, host, ports) {
      TakeOverIsExact(s, stored, trust, host, ports, r);
    }
  }

  // ----- the schedules of a boot -----

  /** Its schedule runs: it has one, and was started and not stopped since. */
  predicate IsScheduled(record: Record) { record.spec.schedule.Some? && record.runtime.scheduleArmed }

  lemma {:induction false} ArmedAreScheduled(records: seq<Record>)
    ensures ArmedNames(records) == Samples.NamesWhere(records, IsScheduled)
  {
    if records != [] {
      ArmedAreScheduled(records[1..]);
    }
  }

  /** Whether a name is armed, and for an instant the scheduler named. */
  ghost predicate ArmedFor(s: State, n: Name, ports: Ports) {
    n in s.timers.fires && exists t :: ports.nextFire(t) == Some(s.timers.fires[n])
  }

  lemma {:induction false} ArmsEach(s: State, names: seq<Name>, n: Name, ports: Ports)
    requires n in names ==> Has(s.records, n) && Find(s.records, n).value.spec.schedule.Some?
    ensures var next := ArmAll(s, names, ports);
            && next.records == s.records
            && (n !in names && n !in s.timers.fires ==> n !in next.timers.fires)
            && (n in next.timers.fires && (n in s.timers.fires ==> ArmedFor(s, n, ports)) ==> ArmedFor(next, n, ports))
            && ((forall t :: ports.nextFire(t).Some?) && (n in names || n in s.timers.fires) ==> n in next.timers.fires)
    decreases |names|
  {
    hide Find, ArmTimerFor;
    if names != [] {
      var next := ArmTimerFor(s, names[0], ports);
      ArmPromise(s, names[0], ports);
      OneArmed(s, next, names[0], n, ports);
      hide Armed, ArmedFor;
      assert n in names <==> n == names[0] || n in names[1..];
      ArmsEach(next, names[1..], n, ports);
    }
  }

  lemma OneArmed(s: State, next: State, name: Name, n: Name, ports: Ports)
    requires Armed(s, next, name, ports)
    ensures next.records == s.records
    ensures n != name ==> (n in next.timers.fires <==> n in s.timers.fires) && (ArmedFor(next, n, ports) <==> ArmedFor(s, n, ports))
    ensures n == name && n in next.timers.fires ==> ArmedFor(next, n, ports)
    ensures n == name && (forall t :: ports.nextFire(t).Some?) && Has(s.records, n) && Find(s.records, n).value.spec.schedule.Some? ==>
              n in next.timers.fires
  {
    hide Find;
    if n != name {
      assert n in next.timers.fires <==> n in next.timers.fires - {name};
      assert n in s.timers.fires <==> n in s.timers.fires - {name};
      assert n in s.timers.fires ==> (s.timers.fires - {name})[n] == s.timers.fires[n];
      assert n in next.timers.fires ==> (next.timers.fires - {name})[n] == next.timers.fires[n];
    }
  }

  lemma {:induction false} RecoverAside(s: State, os: seq<StartOutcome>, order: seq<Name>, judged: map<Name, Judged>, ports: Ports)
    ensures Recover(s, os, order, judged, ports).0.timers == s.timers
    decreases |order|
  {
    hide LaunchOne, AdoptOne, AddOutcome;
    if order != [] {
      RecoverOneAside(s, order[0], judged, ports);
      var (next, o) := RecoverOne(s, order[0], judged, ports);
      RecoverAside(next, AddOutcome(os, o), order[1..], judged, ports);
    }
  }

  lemma RecoverOneAside(s: State, name: Name, judged: map<Name, Judged>, ports: Ports)
    ensures RecoverOne(s, name, judged, ports).0.timers == s.timers
  {
    hide Find, Put;
  }

  lemma TakenAside(stored: seq<Record>, trust: Trust, host: Host, ports: Ports)
    requires StoredOk(stored)
    ensures var taken := TakeOver(NEW_SUPERVISOR, stored, trust, host, ports).0;
            NoDup(NamesOf(taken.records)) && taken.timers.fires == map[]
  {
    TakeOverKeepsNames(NEW_SUPERVISOR, stored, trust, host, ports);
    var judged := JudgeAll(stored, trust, host);
    var records := ForgetAll(stored, judged);
    hide Recover, JudgeAll, ForgetAll, DependencyOrder;
    RecoverAside(NEW_SUPERVISOR.(records := records), [], DependencyOrder(records), judged, ports);
  }

  /**
   * A boot leaves the records of the take-over, and arms exactly the services whose schedule runs, each
   * for an instant the scheduler named.
   */
  lemma BootArmsExactly(stored: seq<Record>, trust: Trust, host: Host, ports: Ports, n: Name)
    requires StoredOk(stored)
    ensures var taken, booted := TakeOver(NEW_SUPERVISOR, stored, trust, host, ports).0, Boot(stored, trust, host, ports);
            var scheduled := Has(taken.records, n) && IsScheduled(Find(taken.records, n).value);
            && booted.records == taken.records
            && (n in booted.timers.fires ==> scheduled && ArmedFor(booted, n, ports))
            && (scheduled && (forall t :: ports.nextFire(t).Some?) ==> n in booted.timers.fires)
  {
    var (taken, os) := TakeOver(NEW_SUPERVISOR, stored, trust, host, ports);
    TakenAside(stored, trust, host, ports);
    Batches.WatchAllAside(taken, os);
    hide TakeOver, WatchAll, ArmAll, Find, ArmedNames, ArmedFor, StoredOk, NoDup;
    var watched := WatchAll(taken, os);
    ArmedAreScheduled(watched.records);
    Samples.WhereHolds(watched.records, IsScheduled, n);
    ArmsEach(watched, ArmedNames(watched.records), n, ports);
  }

  // ----- dependencies come back first -----

  /** `names` are some of `order`, as they come in it. */
  ghost predicate Follow(names: seq<Name>, order: seq<Name>)
    decreases |order|
  {
    names == []
    || (order != [] && ((names[0] == order[0] && Follow(names[1..], order[1..])) || Follow(names, order[1..])))
  }

  lemma {:induction false} FollowersAreListed(names: seq<Name>, order: seq<Name>, k: nat)
    requires Follow(names, order) && k < |names|
    ensures names[k] in order
    decreases |order|
  {
    if names[0] == order[0] && Follow(names[1..], order[1..]) {
      if k > 0 {
        FollowersAreListed(names[1..], order[1..], k - 1);
      }
    } else {
      FollowersAreListed(names, order[1..], k);
    }
  }

  lemma {:induction false} FollowersKeepOrder(names: seq<Name>, order: seq<Name>, d: Name, n: Name, i: nat, j: nat)
    requires Follow(names, order) && NoDup(order) && Replies.IsAhead(order, d, n)
    requires i < |names| && j < |names| && names[i] == d && names[j] == n
    ensures i < j
    decreases |order|
  {
    var rest := order[1..];
    var a, b :| 0 <= a < b < |order| && order[a] == d && order[b] == n;
    assert rest[b - 1] == n && forall k :: 0 <= k < |rest| ==> rest[k] == order[k + 1];
    if a > 0 {
      assert rest[a - 1] == d;
      if names[0] == order[0] && Follow(names[1..], rest) {
        assert i > 0 && j > 0;
        FollowersKeepOrder(names[1..], rest, d, n, i - 1, j - 1);
      } else {
        FollowersKeepOrder(names, rest, d, n, i, j);
      }
    } else {
      assert d !in rest;
      if names[0] == order[0] && Follow(names[1..], rest) {
        if i > 0 {
          FollowersAreListed(names[1..], rest, i - 1);
        }
      } else {
        FollowersAreListed(names, rest, i);
      }
    }
  }

  function OutcomeNames(os: seq<StartOutcome>): seq<Name> {
    if os == [] then [] else [os[0].name] + OutcomeNames(os[1..])
  }

  lemma {:induction false} NamesOfMore(os: seq<StartOutcome>, more: seq<StartOutcome>)
    ensures OutcomeNames(os + more) == OutcomeNames(os) + OutcomeNames(more)
    ensures |OutcomeNames(os)| == |os| && forall k :: 0 <= k < |os| ==> OutcomeNames(os)[k] == os[k].name
  {
    if os == [] {
      assert os + more == more;
    } else {
      assert (os + more)[1..] == os[1..] + more;
      NamesOfMore(os[1..], more);
    }
  }

  lemma {:induction false} RecoversInOrder(s: State, os: seq<StartOutcome>, order: seq<Name>, judged: map<Name, Judged>, ports: Ports)
      returns (more: seq<StartOutcome>)
    ensures Recover(s, os, order, judged, ports).1 == os + more && Follow(OutcomeNames(more), order)
    decreases |order|
  {
    hide RecoverOne;
    if order == [] {
      more := [];
    } else {
      var (next, o) := RecoverOne(s, order[0], judged, ports);
      RecoversOwnName(s, order[0], judged, ports);
      var rest := RecoversInOrder(next, AddOutcome(os, o), order[1..], judged, ports);
      if o.Some? {
        more := [o.value] + rest;
        assert os + more == (os + [o.value]) + rest;
        assert more[1..] == rest && OutcomeNames(more)[1..] == OutcomeNames(rest);
      } else {
        more := rest;
      }
    }
  }

  lemma RecoversOwnName(s: State, name: Name, judged: map<Name, Judged>, ports: Ports)
    ensures var o := RecoverOne(s, name, judged, ports).1; o.Some? ==> o.value.name == name
  {
    hide Find, Put;
  }

  lemma ForgettingKeepsGraph(stored: seq<Record>, judged: map<Name, Judged>)
    requires BatchGraph.SoundGraph(stored)
    ensures BatchGraph.SoundGraph(ForgetAll(stored, judged))
    ensures forall n, d :: Replies.DependsIn(ForgetAll(stored, judged), n, d) <==> Replies.DependsIn(stored, n, d)
  {
    ForgettingKeepsSpecs(stored, judged);
    BatchGraph.SameSpecsSameGraph(stored, ForgetAll(stored, judged));
    hide Find, ForgetAll;
    forall n, d ensures Replies.DependsIn(ForgetAll(stored, judged), n, d) <==> Replies.DependsIn(stored, n, d) {
      assert BatchGraph.SpecOf(ForgetAll(stored, judged), n) == BatchGraph.SpecOf(stored, n);
    }
  }

  lemma ForgettingKeepsSpecs(stored: seq<Record>, judged: map<Name, Judged>)
    ensures BatchGraph.SameSpecs(stored, ForgetAll(stored, judged))
  {
    hide Find, ForgetAll, Forget;
    forall n ensures BatchGraph.SpecOf(ForgetAll(stored, judged), n) == BatchGraph.SpecOf(stored, n) {
      FindForgotten(stored, judged, n);
      if Has(stored, n) {
        ForgetsNameless(Find(stored, n).value, judged);
      }
    }
  }

  lemma ForgetsNameless(record: Record, judged: map<Name, Judged>)
    ensures Forget(record, judged).spec == record.spec
  {
  }

  lemma TakenInOrder(s: State, stored: seq<Record>, trust: Trust, host: Host, ports: Ports)
    ensures var os := TakeOver(s, stored, trust, host, ports).1;
            Follow(OutcomeNames(os), OrderOf(stored, trust, host))
  {
    var judged := JudgeAll(stored, trust, host);
    var records := ForgetAll(stored, judged);
    hide JudgeAll, ForgetAll, DependencyOrder, Recover, Follow;
    var os := RecoversInOrder(s.(records := records), [], DependencyOrder(records), judged, ports);
    assert [] + os == os;
  }

  lemma OrderOfDepends(stored: seq<Record>, trust: Trust, host: Host, n: Name, d: Name)
    requires StoredOk(stored) && BatchGraph.SoundGraph(stored) && Replies.DependsIn(stored, n, d)
    ensures NoDup(OrderOf(stored, trust, host)) && Replies.IsAhead(OrderOf(stored, trust, host), d, n)
  {
    var judged := JudgeAll(stored, trust, host);
    ForgottenTableOk(stored, trust, host);
    ForgettingKeepsGraph(stored, judged);
    hide JudgeAll, ForgetAll, DependencyOrder, StoredOk, TableOk, BatchGraph.SoundGraph, Replies.DependsIn, NoDup, Replies.IsAhead;
    Replies.OrderIsSorted(ForgetAll(stored, judged), n, d);
    OrderIsDistinct(ForgetAll(stored, judged));
  }

  /** A take-over takes up what a service depends on before the service itself. */
  lemma DependenciesComeBackFirst(s: State, stored: seq<Record>, trust: Trust, host: Host, ports: Ports, n: Name, d: Name, i: nat, j: nat)
    requires StoredOk(stored) && BatchGraph.SoundGraph(stored) && Replies.DependsIn(stored, n, d)
    requires var os := TakeOver(s, stored, trust, host, ports).1; i < |os| && j < |os| && os[i].name == d && os[j].name == n
    ensures i < j
  {
    hide TakeOver, OrderOf, StoredOk, BatchGraph.SoundGraph, Replies.DependsIn, NoDup, Follow, Replies.IsAhead, OutcomeNames;
    var os := TakeOver(s, stored, trust, host, ports).1;
    TakenInOrder(s, stored, trust, host, ports);
    OrderOfDepends(stored, trust, host, n, d);
    NamesOfMore(os, []);
    FollowersKeepOrder(OutcomeNames(os), OrderOf(stored, trust, host), d, n, i, j);
  }

  /** The names a list of moves takes up again. */
  function NamesRecovered(moves: seq<Move>): seq<Name> {
    if moves == [] then []
    else (if moves[0].IsRecovery() then [moves[0].name] else []) + NamesRecovered(moves[1..])
  }

  lemma {:induction false} MovesFollow(order: seq<Name>, judged: map<Name, Judged>)
    ensures Follow(NamesRecovered(RecoverMoves(order, judged)), order)
  {
    if order != [] {
      MovesFollow(order[1..], judged);
      var rest, all := RecoverMoves(order[1..], judged), RecoverMoves(order, judged);
      if all != rest {
        assert all[1..] == rest && NamesRecovered(all)[1..] == NamesRecovered(rest);
      }
    }
  }

  lemma {:induction false} RecoveredAt(moves: seq<Move>)
    requires forall m <- moves :: m.IsRecovery()
    ensures |NamesRecovered(moves)| == |moves|
    ensures forall k :: 0 <= k < |moves| ==> moves[k].IsRecovery() && NamesRecovered(moves)[k] == moves[k].name
  {
    if moves != [] {
      RecoveredAt(moves[1..]);
    }
  }

  /** In every trace what a service depends on is adopted or started again before the service itself. */
  lemma RecoveredInOrder(moves: seq<Move>, contents: Contents, trust: Trust, scene: Scene, n: Name, d: Name, i: nat, j: nat)
    requires IsTrace(moves, contents, trust, scene) && StoredOk(contents.records)
    requires BatchGraph.SoundGraph(contents.records) && Replies.DependsIn(contents.records, n, d)
    requires i < |moves| && j < |moves| && moves[i].IsRecovery() && moves[j].IsRecovery()
    requires moves[i].name == d && moves[j].name == n
    ensures i < j
  {
    hide IsTrace, OrderOf, JudgeAll, StoredOk, BatchGraph.SoundGraph, Replies.DependsIn, NoDup, Follow, Replies.IsAhead,
         NamesRecovered, RecoverMoves, Lane, Evict, StalePlans;
    var order := OrderOf(contents.records, trust, scene.host);
    var swept, evictions, recovered := TraceParts(moves, contents, trust, scene);
    OrderOfDepends(contents.records, trust, scene.host, n, d);
    MovesFollow(order, JudgeAll(contents.records, trust, scene.host));
    RecoveredAt(recovered);
    var at := |swept| + |evictions|;
    RecoveriesAt(swept, evictions, recovered, moves, i);
    RecoveriesAt(swept, evictions, recovered, moves, j);
    FollowersKeepOrder(NamesRecovered(recovered), order, d, n, i - at, j - at);
  }

  lemma RecoveriesAt(swept: seq<Move>, evictions: seq<Move>, recovered: seq<Move>, moves: seq<Move>, k: nat)
    requires moves == swept + (evictions + (recovered + [Saving])) && k < |moves| && moves[k].IsRecovery()
    requires (forall m <- swept :: m.Sweeping?) && (forall m <- evictions :: m.Evicting?)
    ensures var at := |swept| + |evictions|; at <= k < at + |recovered| && recovered[k - at] == moves[k]
  {
    forall j | 0 <= j < |swept| ensures swept[j].Sweeping? {
      assert swept[j] in swept;
    }
    forall j | 0 <= j < |evictions| ensures evictions[j].Evicting? {
      assert evictions[j] in evictions;
    }
    MoveAt(swept, evictions, recovered, k);
  }

  lemma MoveAt(swept: seq<Move>, evictions: seq<Move>, recovered: seq<Move>, k: nat)
    requires k <= |swept| + |evictions| + |recovered|
    ensures var moves, at := swept + (evictions + (recovered + [Saving])), |swept| + |evictions|;
            && |moves| == at + |recovered| + 1
            && moves[k] == if k < |swept| then swept[k] else if k < at then evictions[k - |swept|]
                           else if k < at + |recovered| then recovered[k - at] else Saving
  {
  }
}
