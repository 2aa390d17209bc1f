/**
 * What a batch start does (usecases/src/start.rs, `start` of usecases/src/supervisor_handlers.rs): which
 * declarations it accepts, which services it launches and which it defers behind what they depend on.
 */
module Batches {
  import opened Graphs
  import opened Model
  import opened ProcessTable
  import opened Handlers
  import opened Coherence
  import opened CommandCoherence
  import opened BatchGraph
  import opened Promises
  import DepGraph
  import StickyStop
  import TaskBoards

  // ----- dependencies inside a batch -----

  predicate AwaitsItsProbe(records: seq<Record>, d: Name) {
    && Has(records, d)
    && Find(records, d).value.spec.readyProbe.Some? && Find(records, d).value.runtime.status == Launching
  }

  /** Not up yet: deferred by the batch itself, or launched by it and awaiting its probe. */
  predicate NotUp(outcomes: seq<StartOutcome>, records: seq<Record>, d: Name) {
    exists o <- outcomes :: o.name == d && (o.kind.Deferred? || AwaitsItsProbe(records, d))
  }

  /** What the batch declares a name to depend on. */
  predicate DependsOn(specs: seq<Spec>, n: Name, d: Name) {
    exists spec <- specs :: spec.name == n && d in spec.dependsOn
  }

  function DeferredNames(outcomes: seq<StartOutcome>): seq<Name> {
    if outcomes == [] then []
    else (if outcomes[0].kind.Deferred? then [outcomes[0].name] else []) + DeferredNames(outcomes[1..])
  }

  function PendingNames(pending: seq<DeferredStart>): seq<Name> {
    if pending == [] then [] else [pending[0].name] + PendingNames(pending[1..])
  }

  /** A service is deferred exactly when something it depends on is not up, and then behind all of that. */
  ghost predicate Respects(specs: seq<Spec>, records: seq<Record>, report: StartReport) {
    && (forall o <- report.outcomes :: o.kind.Deferred? <==> IsBlocked(specs, report.outcomes, records, o.name))
    && PendingNames(report.pending) == DeferredNames(report.outcomes)
    && (forall p <- report.pending :: WaitsExactly(specs, report.outcomes, records, p))
  }

  ghost predicate IsBlocked(specs: seq<Spec>, outcomes: seq<StartOutcome>, records: seq<Record>, n: Name) {
    exists d :: DependsOn(specs, n, d) && NotUp(outcomes, records, d)
  }

  ghost predicate WaitsExactly(specs: seq<Spec>, outcomes: seq<StartOutcome>, records: seq<Record>, p: DeferredStart) {
    forall d :: d in p.waitingOn <==> DependsOn(specs, p.name, d) && NotUp(outcomes, records, d)
  }

  // ----- the launching loop -----

  /** Nobody depends on itself or on somebody later in the order. */
  predicate NoneAhead(specs: seq<Spec>, order: seq<Name>) {
    order == [] || ((forall x <- order :: !DependsOn(specs, order[0], x)) && NoneAhead(specs, order[1..]))
  }

  lemma {:induction false} DependsByLookup(specs: seq<Spec>, n: Name, d: Name)
    requires DistinctSpecs(specs)
    ensures d in DependsOnOf(specs, n) <==> DependsOn(specs, n, d)
  {
    if specs != [] {
      var rest, last := specs[..|specs| - 1], specs[|specs| - 1];
      assert specs == rest + [last];
      if last.name == n {
        forall spec <- specs | spec.name == n ensures spec == last {
          var i :| 0 <= i < |specs| && specs[i] == spec;
        }
      } else {
        DependsByLookup(rest, n, d);
      }
    }
  }

  /** `d` held back by what came before this part of the loop, or by this part. */
  predicate Held(waiting: set<Name>, outcomes: seq<StartOutcome>, records: seq<Record>, d: Name) {
    d in waiting || NotUp(outcomes, records, d)
  }

  /** `Respects` for a part of the loop that starts with `waiting` already held back. */
  ghost predicate PartRespects(specs: seq<Spec>, records: seq<Record>, report: StartReport, waiting: set<Name>) {
    && (forall o <- report.outcomes :: o.kind.Deferred? <==> HeldBack(specs, waiting, report.outcomes, records, o.name))
    && PendingNames(report.pending) == DeferredNames(report.outcomes)
    && (forall p <- report.pending :: HeldExactly(specs, waiting, report.outcomes, records, p))
  }

  ghost predicate HeldBack(specs: seq<Spec>, waiting: set<Name>, outcomes: seq<StartOutcome>, records: seq<Record>, n: Name) {
    exists d :: DependsOn(specs, n, d) && Held(waiting, outcomes, records, d)
  }

  ghost predicate HeldExactly(specs: seq<Spec>, waiting: set<Name>, outcomes: seq<StartOutcome>, records: seq<Record>,
                              p: DeferredStart) {
    forall d :: d in p.waitingOn <==> DependsOn(specs, p.name, d) && Held(waiting, outcomes, records, d)
  }

  /** Where the same services are held back, the same services are deferred behind the same. */
  lemma HeldAlike(specs: seq<Spec>, waiting: set<Name>, outcomes: seq<StartOutcome>, other: set<Name>, more: seq<StartOutcome>,
                  records: seq<Record>, n: Name, p: DeferredStart)
    requires forall d :: Held(waiting, outcomes, records, d) <==> Held(other, more, records, d)
    ensures HeldBack(specs, waiting, outcomes, records, n) <==> HeldBack(specs, other, more, records, n)
    ensures HeldExactly(specs, waiting, outcomes, records, p) <==> HeldExactly(specs, other, more, records, p)
  {
    hide DependsOn, Held;
    if HeldBack(specs, waiting, outcomes, records, n) {
      var d :| DependsOn(specs, n, d) && Held(waiting, outcomes, records, d);
      assert Held(other, more, records, d);
    }
    if HeldBack(specs, other, more, records, n) {
      var d :| DependsOn(specs, n, d) && Held(other, more, records, d);
      assert Held(waiting, outcomes, records, d);
    }
  }

  /** The loop touches no record but those it goes through, and reports on nobody else. */
  lemma {:induction false} BatchIsLocal(s: State, order: seq<Name>, specs: seq<Spec>, waiting: set<Name>, ports: Ports)
    ensures var (next, report) := LaunchBatch(s, order, specs, waiting, ports);
            && (forall m :: m !in order ==> Find(next.records, m) == Find(s.records, m))
            && (forall o <- report.outcomes :: o.name in order)
            && (forall p <- report.pending :: p.name in order)
    decreases |order|
  {
    hide LaunchOne, AwaitsReady, DependsOnOf, Find;
    if order != [] {
      var name := order[0];
      if WaitingDependencies(DependsOnOf(specs, name), waiting) != [] {
        BatchIsLocal(s, order[1..], specs, waiting + {name}, ports);
      } else {
        LaunchPromise(s, name, true, ports);
        LaunchNamed(s, name, ports);
        var (tried, outcome) := LaunchOne(s, name, true, ports);
        BatchIsLocal(tried, order[1..], specs, if AwaitsReady(tried.records, name) then waiting + {name} else waiting, ports);
      }
    }
  }

  lemma LaunchNamed(s: State, name: Name, ports: Ports)
    ensures var outcome := LaunchOne(s, name, true, ports).1;
            outcome.Some? ==> outcome.value.name == name && !outcome.value.kind.Deferred?
  {
  }

  lemma {:induction false} BatchRespects(s: State, order: seq<Name>, specs: seq<Spec>, waiting: set<Name>, ports: Ports)
    requires AllHave(s.records, order) && NoDup(order) && DistinctSpecs(specs) && NoneAhead(specs, order)
    requires forall n <- order :: n !in waiting
    ensures var (next, report) := LaunchBatch(s, order, specs, waiting, ports);
            PartRespects(specs, next.records, report, waiting)
    decreases |order|
  {
    hide LaunchOne, AwaitsReady, DependsOnOf, DependsOn, Find, PartRespects;
    if order == [] {
      NobodyHeld(specs, s.records, waiting);
    } else {
      var name, rest := order[0], order[1..];
      assert name !in rest;
      forall n <- rest ensures n in order {
      }
      forall d ensures d in DependsOnOf(specs, name) <==> DependsOn(specs, name, d) {
        DependsByLookup(specs, name, d);
      }
      var waitingOn := WaitingDependencies(DependsOnOf(specs, name), waiting);
      var (next, report) := LaunchBatch(s, order, specs, waiting, ports);
      if waitingOn != [] {
        BatchRespects(s, rest, specs, waiting + {name}, ports);
        BatchIsLocal(s, rest, specs, waiting + {name}, ports);
        var (last, more) := LaunchBatch(s, rest, specs, waiting + {name}, ports);
        var o := StartOutcome(Find(s.records, name).value.runtime.pmId, name, None, Deferred);
        OneMoreDeferred(specs, last.records, o, more, order, waiting, waitingOn);
      } else {
        LaunchNamed(s, name, ports);
        LaunchPromise(s, name, true, ports);
        var (tried, outcome) := LaunchOne(s, name, true, ports);
        if outcome.None? {
          NobodyHeld(specs, tried.records, waiting);
        } else {
          OthersHave(s.records, tried.records, name, rest);
          var waits := if AwaitsReady(tried.records, name) then waiting + {name} else waiting;
          BatchRespects(tried, rest, specs, waits, ports);
          BatchIsLocal(tried, rest, specs, waits, ports);
          var (last, more) := LaunchBatch(tried, rest, specs, waits, ports);
          AwaitsAlike(tried.records, last.records, name);
          OneMoreLaunched(specs, last.records, outcome.value, more, order, waiting);
        }
      }
    }
  }

  lemma NobodyHeld(specs: seq<Spec>, records: seq<Record>, waiting: set<Name>)
    ensures forall failed :: PartRespects(specs, records, StartReport([], failed, []), waiting)
  {
  }

  lemma OthersHave(records: seq<Record>, next: seq<Record>, name: Name, rest: seq<Name>)
    requires AllHave(records, rest) && name !in rest && forall m :: m != name ==> Find(next, m) == Find(records, m)
    ensures AllHave(next, rest)
  {
    hide Find;
  }

  lemma AwaitsAlike(records: seq<Record>, next: seq<Record>, name: Name)
    requires Find(next, name) == Find(records, name)
    ensures AwaitsReady(records, name) <==> AwaitsItsProbe(next, name)
  {
  }

  /** What is held back, seen before and after the first of the order. */
  lemma HeldShifts(records: seq<Record>, o: StartOutcome, outcomes: seq<StartOutcome>, waiting: set<Name>, d: Name)
    ensures Held(waiting, [o] + outcomes, records, d) <==>
              Held(if o.kind.Deferred? || AwaitsItsProbe(records, o.name) then waiting + {o.name} else waiting, outcomes, records, d)
  {
    assert ([o] + outcomes)[0] == o && ([o] + outcomes)[1..] == outcomes;
  }

  lemma OneMoreDeferred(specs: seq<Spec>, records: seq<Record>, o: StartOutcome, more: StartReport, order: seq<Name>,
                        waiting: set<Name>, waitingOn: seq<Name>)
    requires order != [] && o.name == order[0] && o.kind.Deferred? && NoneAhead(specs, order) && waitingOn != []
    requires PartRespects(specs, records, more, waiting + {o.name})
    requires forall p <- more.outcomes :: p.name in order[1..]
    requires forall d :: d in waitingOn <==> DependsOn(specs, o.name, d) && d in waiting
    ensures PartRespects(specs, records, StartReport([o] + more.outcomes, more.failed, [DeferredStart(o.name, waitingOn)] + more.pending),
                         waiting)
  {
    var all, pending := [o] + more.outcomes, [DeferredStart(o.name, waitingOn)] + more.pending;
    hide DependsOn, AwaitsItsProbe, Held, NoneAhead, HeldBack, HeldExactly;
    forall d ensures Held(waiting, all, records, d) <==> Held(waiting + {o.name}, more.outcomes, records, d) {
      HeldShifts(records, o, more.outcomes, waiting, d);
    }
    forall d | DependsOn(specs, o.name, d) ensures Held(waiting, all, records, d) <==> d in waiting {
      EarlierIsHeld(specs, records, o, more.outcomes, order, waiting, d);
    }
    DeferredIsHeld(specs, waiting, all, records, DeferredStart(o.name, waitingOn));
    assert all[0] == o && all[1..] == more.outcomes && pending[1..] == more.pending;
    forall x <- more.outcomes ensures x.kind.Deferred? <==> HeldBack(specs, waiting, all, records, x.name) {
      HeldAlike(specs, waiting, all, waiting + {o.name}, more.outcomes, records, x.name, DeferredStart(x.name, []));
    }
    forall p <- more.pending ensures HeldExactly(specs, waiting, all, records, p) {
      HeldAlike(specs, waiting, all, waiting + {o.name}, more.outcomes, records, p.name, p);
    }
  }

  lemma DeferredIsHeld(specs: seq<Spec>, waiting: set<Name>, outcomes: seq<StartOutcome>, records: seq<Record>, p: DeferredStart)
    requires forall d | DependsOn(specs, p.name, d) :: Held(waiting, outcomes, records, d) <==> d in waiting
    requires p.waitingOn != [] && forall d :: d in p.waitingOn <==> DependsOn(specs, p.name, d) && d in waiting
    ensures HeldBack(specs, waiting, outcomes, records, p.name) && HeldExactly(specs, waiting, outcomes, records, p)
  {
    hide DependsOn, Held;
    var d := p.waitingOn[0];
    assert d in p.waitingOn;
    assert DependsOn(specs, p.name, d) && Held(waiting, outcomes, records, d);
  }

  /** What the first of the order depends on comes before this part of the loop. */
  lemma EarlierIsHeld(specs: seq<Spec>, records: seq<Record>, o: StartOutcome, outcomes: seq<StartOutcome>, order: seq<Name>,
                      waiting: set<Name>, d: Name)
    requires order != [] && o.name == order[0] && NoneAhead(specs, order) && DependsOn(specs, o.name, d)
    requires forall p <- outcomes :: p.name in order[1..]
    ensures Held(waiting, [o] + outcomes, records, d) <==> d in waiting
  {
    hide DependsOn;
    assert d !in order;
    forall p <- [o] + outcomes ensures p.name in order {
    }
  }

  lemma OneMoreLaunched(specs: seq<Spec>, records: seq<Record>, o: StartOutcome, more: StartReport, order: seq<Name>,
                        waiting: set<Name>)
    requires order != [] && o.name == order[0] && !o.kind.Deferred? && NoneAhead(specs, order)
    requires PartRespects(specs, records, more, if AwaitsItsProbe(records, o.name) then waiting + {o.name} else waiting)
    requires forall p <- more.outcomes :: p.name in order[1..]
    requires forall d :: DependsOn(specs, o.name, d) ==> d !in waiting
    ensures PartRespects(specs, records, more.(outcomes := [o] + more.outcomes), waiting)
  {
    var all := [o] + more.outcomes;
    var waits := if AwaitsItsProbe(records, o.name) then waiting + {o.name} else waiting;
    hide DependsOn, AwaitsItsProbe, Held, NoneAhead;
    forall d ensures Held(waiting, all, records, d) <==> Held(waits, more.outcomes, records, d) {
      HeldShifts(records, o, more.outcomes, waiting, d);
    }
    forall d | DependsOn(specs, o.name, d) ensures !Held(waiting, all, records, d) {
      EarlierIsHeld(specs, records, o, more.outcomes, order, waiting, d);
    }
    LaunchedRespects(specs, records, o, more, waits, waiting);
  }

  lemma LaunchedRespects(specs: seq<Spec>, records: seq<Record>, o: StartOutcome, more: StartReport, waits: set<Name>, waiting: set<Name>)
    requires !o.kind.Deferred? && PartRespects(specs, records, more, waits)
    requires forall d :: Held(waiting, [o] + more.outcomes, records, d) <==> Held(waits, more.outcomes, records, d)
    requires forall d | DependsOn(specs, o.name, d) :: !Held(waiting, [o] + more.outcomes, records, d)
    ensures PartRespects(specs, records, more.(outcomes := [o] + more.outcomes), waiting)
  {
    hide DependsOn, Held;
    var all := [o] + more.outcomes;
    hide HeldBack, HeldExactly;
    assert all[0] == o && all[1..] == more.outcomes;
    assert !HeldBack(specs, waiting, all, records, o.name) by { NotHeldBack(specs, waiting, all, records, o.name); }
    forall x <- more.outcomes ensures x.kind.Deferred? <==> HeldBack(specs, waiting, all, records, x.name) {
      HeldAlike(specs, waiting, all, waits, more.outcomes, records, x.name, DeferredStart(x.name, []));
    }
    forall p <- more.pending ensures HeldExactly(specs, waiting, all, records, p) {
      HeldAlike(specs, waiting, all, waits, more.outcomes, records, p.name, p);
    }
  }

  lemma NotHeldBack(specs: seq<Spec>, waiting: set<Name>, outcomes: seq<StartOutcome>, records: seq<Record>, n: Name)
    requires forall d | DependsOn(specs, n, d) :: !Held(waiting, outcomes, records, d)
    ensures !HeldBack(specs, waiting, outcomes, records, n)
  {
    hide DependsOn, Held;
  }

  // ----- the accepted order -----

  lemma {:induction false} BatchKeepsDistinct(full: seq<Name>, specs: seq<Spec>)
    requires NoDup(full)
    ensures NoDup(InBatch(full, specs))
  {
    hide NamesInclude;
    if full != [] {
      assert full == [full[0]] + full[1..];
      NoDupCons(full[0], full[1..]);
      BatchKeepsDistinct(full[1..], specs);
      NoDupCons(full[0], InBatch(full[1..], specs));
    }
  }

  lemma {:induction false} BatchIsOrdered(full: seq<Name>, specs: seq<Spec>)
    requires forall i, j :: 0 <= i <= j < |full| ==> !DependsOn(specs, full[i], full[j])
    ensures NoneAhead(specs, InBatch(full, specs))
  {
    hide DependsOn, NamesInclude;
    if full != [] {
      forall i, j | 0 <= i <= j < |full[1..]| ensures !DependsOn(specs, full[1..][i], full[1..][j]) {
        assert !DependsOn(specs, full[i + 1], full[j + 1]);
      }
      BatchIsOrdered(full[1..], specs);
      forall x <- InBatch(full, specs) ensures !DependsOn(specs, full[0], x) {
        var j :| 0 <= j < |full| && full[j] == x;
      }
      if NamesInclude(specs, full[0]) {
        var rest := InBatch(full[1..], specs);
        assert ([full[0]] + rest)[1..] == rest;
      }
    }
  }

  lemma DependsByMerge(records: seq<Record>, specs: seq<Spec>, n: Name, d: Name)
    requires DistinctSpecs(specs) && DependsOn(specs, n, d)
    ensures MergedSpec(records, specs, n).Some? && d in MergedSpec(records, specs, n).value.dependsOn
  {
    var spec :| spec in specs && spec.name == n && d in spec.dependsOn;
    DeclaredIsUnique(specs, spec);
    var i :| 0 <= i < |specs| && specs[i] == spec;
  }

  lemma AcceptedIsOrdered(records: seq<Record>, specs: seq<Spec>, ports: Ports)
    requires TableOk(records) && DistinctSpecs(specs) && AcceptedOrder(records, specs, ports).Some?
    ensures var order := AcceptedOrder(records, specs, ports).value;
            && NoDup(order) && NoneAhead(specs, order) && |order| == |specs|
            && forall n :: n in order <==> NamesInclude(specs, n)
  {
    var nodes := MergedNodes(records, specs);
    MergedEdges(records, specs);
    DepGraph.TopoSortExact(nodes);
    hide DepGraph.TopoSort, MergedNodes, MergedSpec, DependsOn, TableOk, DepGraph.GraphOf;
    var full := DepGraph.TopoSort(nodes).order;
    BatchKeepsDistinct(full, specs);
    forall i, j | 0 <= i <= j < |full| ensures !DependsOn(specs, full[i], full[j]) {
      if DependsOn(specs, full[i], full[j]) {
        DependsByMerge(records, specs, full[i], full[j]);
      }
    }
    BatchIsOrdered(full, specs);
    forall n ensures n in InBatch(full, specs) <==> NamesInclude(specs, n) {
      if NamesInclude(specs, n) {
        IncludedIsKnown(records, specs, n);
      }
    }
    SameNumber(specs, InBatch(full, specs));
  }

  lemma IncludedIsKnown(records: seq<Record>, specs: seq<Spec>, n: Name)
    requires NamesInclude(specs, n)
    ensures MergedSpec(records, specs, n).Some?
  {
    var spec :| spec in specs && spec.name == n;
    var i :| 0 <= i < |specs| && specs[i] == spec;
  }

  lemma SameNumber(specs: seq<Spec>, order: seq<Name>)
    requires DistinctSpecs(specs) && NoDup(order) && forall n :: n in order <==> NamesInclude(specs, n)
    ensures |order| == |specs|
  {
    var names := seq(|specs|, i requires 0 <= i < |specs| => specs[i].name);
    forall n ensures n in names <==> NamesInclude(specs, n) {
      if NamesInclude(specs, n) {
        var spec :| spec in specs && spec.name == n;
        var i :| 0 <= i < |specs| && specs[i] == spec;
        assert names[i] == n;
      }
    }
    DistinctCount(names);
    DistinctCount(order);
    assert Elems(names) == Elems(order);
  }

  lemma {:induction false} DistinctCount(names: seq<Name>)
    requires NoDup(names)
    ensures |Elems(names)| == |names|
  {
    if names != [] {
      var rest, last := names[..|names| - 1], names[|names| - 1];
      DistinctCount(rest);
      assert names == rest + [last] && last !in rest;
      assert Elems(names) == Elems(rest) + {last};
    }
  }

  /** Refused exactly when some declaration is invalid or the table with the batch in it has no sound graph. */
  lemma AcceptedExactly(records: seq<Record>, specs: seq<Spec>, ports: Ports, nowMs: nat)
    requires TableOk(records) && DistinctSpecs(specs) && |records| + |specs| < U32_MAX
    ensures AcceptedOrder(records, specs, ports).Some? <==>
              (forall spec <- specs :: ports.accepts(spec)) && SoundGraph(UpsertAll(records, specs, nowMs).0)
  {
    var nodes, after := MergedNodes(records, specs), UpsertAll(records, specs, nowMs).0;
    MergedEdges(records, specs);
    UpsertAllSpecs(records, specs, nowMs);
    DepGraph.TopoSortExact(nodes);
    DepGraph.GraphOfNodes(nodes);
    hide DepGraph.TopoSort, MergedNodes, MergedSpec, TableOk, UpsertAll, DepGraph.GraphOf, SpecOf;
    var g, h := DepGraph.GraphOf(nodes), TableGraph(after);
    TableGraphEdges(after);
    forall n ensures n in g <==> n in h {
      SpecIsHeld(after, n);
    }
    assert forall a, b :: Edge(g, a, b) <==> Edge(h, a, b);
    if Acyclic(g) {
      SubgraphIsAcyclic(g, h);
    }
    if Acyclic(h) {
      SubgraphIsAcyclic(h, g);
    }
  }

  lemma SpecIsHeld(records: seq<Record>, n: Name)
    ensures SpecOf(records, n).Some? <==> Has(records, n)
  {
  }

  // ----- registering and rolling back -----

  /** The record of a name once its declaration is registered: its own runtime, or a new one. */
  predicate Carried(older: Option<Record>, now: Option<Record>, spec: Spec, nowMs: nat) {
    && now.Some? && now.value.spec == spec
    && now.value.runtime == if older.Some? then older.value.runtime
                            else NewRuntime(now.value.runtime.pmId, spec.name, nowMs)
  }

  lemma UpsertCarries(records: seq<Record>, spec: Spec, nowMs: nat)
    ensures Carried(Find(records, spec.name), Find(Upsert(records, spec, nowMs), spec.name), spec, nowMs)
  {
    match Find(records, spec.name)
    case Some(existing) => Edited(records, spec.name, existing.(spec := spec));
    case None => FindInAppended(records, Record(spec, NewRuntime(LowestFreePmId(records), spec.name, nowMs)), spec.name);
  }

  lemma {:induction false} UpsertAllCarries(records: seq<Record>, specs: seq<Spec>, nowMs: nat, n: Name)
    requires DistinctSpecs(specs)
    ensures var after := UpsertAll(records, specs, nowMs).0;
            if NamesInclude(specs, n) then Carried(Find(records, n), Find(after, n), BatchGraph.Declared(specs, n), nowMs)
            else Find(after, n) == Find(records, n)
    decreases |specs|
  {
    hide Find, Upsert, Carried;
    if specs != [] {
      var next, rest := Upsert(records, specs[0], nowMs), specs[1..];
      UpsertAllCarries(next, rest, nowMs, n);
      if n == specs[0].name {
        UpsertCarries(records, specs[0], nowMs);
        assert !NamesInclude(rest, n) by {
          forall spec <- rest ensures spec.name != n {
            var i :| 0 <= i < |rest| && rest[i] == spec;
            assert specs[0].name != specs[i + 1].name;
          }
        }
        assert specs[0] in specs;
      } else {
        StickyStop.UpsertFindsOthers(records, specs[0], nowMs, n);
        assert specs == [specs[0]] + rest;
        assert NamesInclude(specs, n) <==> NamesInclude(rest, n);
      }
    }
  }

  /** Rolling back gives a name without an outcome its old declaration, or takes it off the table. */
  lemma {:induction false} ForgetRestores(records: seq<Record>, previous: seq<Prior>, outcomes: seq<StartOutcome>,
                                          nowMs: nat, n: Name)
    requires TableOk(records) && |records| + |previous| < U32_MAX && DistinctPriors(previous) && PriorsNamed(previous)
    ensures var after := Find(ForgetUnlaunched(records, previous, outcomes, nowMs), n);
            && (Outcome(outcomes, n) || !InPriors(previous, n) ==> after == Find(records, n))
            && (forall p <- previous | p.name == n && !Outcome(outcomes, n) ::
                  if p.spec.None? then after.None?
                  else Has(records, n) ==> after == Some(Find(records, n).value.(spec := p.spec.value)))
    decreases |previous|
  {
    if previous != [] {
      var prior, rest := previous[0], previous[1..];
      var undone :=
        if Outcome(outcomes, prior.name) then records
        else if prior.spec.Some? then Upsert(records, prior.spec.value, nowMs)
        else Remove(records, prior.name);
      hide Find, Upsert, Remove, Outcome, TableOk, SpecOf, InPriors, DistinctPriors, PriorsNamed;
      PriorsTail(previous, n);
      UndoOne(records, prior, outcomes, nowMs);
      UndoneOne(records, prior, outcomes, nowMs, n);
      ForgetRestores(undone, rest, outcomes, nowMs, n);
    }
  }

  lemma PriorsTail(previous: seq<Prior>, n: Name)
    requires previous != [] && DistinctPriors(previous) && PriorsNamed(previous)
    ensures var prior, rest := previous[0], previous[1..];
            && DistinctPriors(rest) && PriorsNamed(rest) && (prior.spec.Some? ==> prior.spec.value.name == prior.name)
            && (InPriors(previous, n) <==> prior.name == n || InPriors(rest, n))
            && (prior.name == n ==> !InPriors(rest, n))
            && (forall p <- rest :: p.name != prior.name && p in previous) && (forall p <- previous :: p == prior || p in rest)
  {
    var prior, rest := previous[0], previous[1..];
    assert previous == [prior] + rest;
    forall p <- rest ensures p.name != prior.name && p in previous {
      var i :| 0 <= i < |rest| && rest[i] == p;
      assert previous[0].name != previous[i + 1].name;
    }
  }

  lemma UndoneOne(records: seq<Record>, prior: Prior, outcomes: seq<StartOutcome>, nowMs: nat, n: Name)
    requires TableOk(records) && |records| < U32_MAX
    requires prior.spec.Some? ==> prior.spec.value.name == prior.name
    ensures var undone :=
              if Outcome(outcomes, prior.name) then records
              else if prior.spec.Some? then Upsert(records, prior.spec.value, nowMs)
              else Remove(records, prior.name);
            var found := Find(undone, n);
            if n != prior.name || Outcome(outcomes, n) then found == Find(records, n)
            else if prior.spec.None? then found.None?
            else Has(records, n) ==> found == Some(Find(records, n).value.(spec := prior.spec.value))
  {
    if !Outcome(outcomes, prior.name) {
      if prior.spec.Some? {
        UpsertKeepsTable(records, prior.spec.value, nowMs);
        if Has(records, prior.name) {
          Edited(records, prior.name, Find(records, prior.name).value.(spec := prior.spec.value));
        }
      } else {
        RemoveKeepsTable(records, prior.name);
      }
    }
  }

  // ----- what a turn of the loop leaves -----

  /** The outcome of a name and the record it leaves, from the record it had when the loop began. */
  ghost predicate TookTurn(before: Record, after: Option<Record>, o: StartOutcome, ports: Ports) {
    && o.pmId == before.runtime.pmId
    && after.Some? && after.value.spec == before.spec
    && if o.kind.Deferred? then o.pid.None? && after.value.runtime == before.runtime
       else exists t :: LaunchLeaves(before, true, ports.spawn(t)) == Some(Left(after.value.runtime, o.pid, o.kind))
  }

  ghost predicate AllTookTurns(records: seq<Record>, next: seq<Record>, outcomes: seq<StartOutcome>, ports: Ports) {
    forall o <- outcomes :: Has(records, o.name) && TookTurn(Find(records, o.name).value, Find(next, o.name), o, ports)
  }

  lemma {:induction false} TurnsAreTaken(s: State, order: seq<Name>, specs: seq<Spec>, waiting: set<Name>, ports: Ports)
    requires AllHave(s.records, order) && NoDup(order)
    ensures var (next, report) := LaunchBatch(s, order, specs, waiting, ports);
            && AllTookTurns(s.records, next.records, report.outcomes, ports)
            && (forall m :: !Outcome(report.outcomes, m) ==> Find(next.records, m) == Find(s.records, m))
            && (report.failed ==> exists t :: ports.spawn(t).None?)
    decreases |order|
  {
    hide LaunchOne, AwaitsReady, DependsOnOf, Find, TookTurn;
    if order != [] {
      var name, rest := order[0], order[1..];
      assert name !in rest && name in order;
      var (next, report) := LaunchBatch(s, order, specs, waiting, ports);
      if WaitingDependencies(DependsOnOf(specs, name), waiting) != [] {
        TurnsAreTaken(s, rest, specs, waiting + {name}, ports);
        BatchIsLocal(s, rest, specs, waiting + {name}, ports);
        DeferredTurn(Find(s.records, name).value, name, ports);
        MoreTurns(s.records, s.records, next.records, report.outcomes[0], report.outcomes[1..], ports);
      } else {
        LaunchPromise(s, name, true, ports);
        LaunchNamed(s, name, ports);
        LaunchedTurn(s, name, ports);
        var (tried, outcome) := LaunchOne(s, name, true, ports);
        if outcome.Some? {
          OthersHave(s.records, tried.records, name, rest);
          var waits := if AwaitsReady(tried.records, name) then waiting + {name} else waiting;
          TurnsAreTaken(tried, rest, specs, waits, ports);
          BatchIsLocal(tried, rest, specs, waits, ports);
          assert report.outcomes[0] == outcome.value;
          MoreTurns(s.records, tried.records, next.records, report.outcomes[0], report.outcomes[1..], ports);
        }
      }
    }
  }

  lemma DeferredTurn(record: Record, name: Name, ports: Ports)
    ensures TookTurn(record, Some(record), StartOutcome(record.runtime.pmId, name, None, Deferred), ports)
  {
  }

  lemma LaunchedTurn(s: State, name: Name, ports: Ports)
    requires Has(s.records, name)
    ensures var (next, outcome) := LaunchOne(s, name, true, ports);
            if outcome.Some? then TookTurn(Find(s.records, name).value, Find(next.records, name), outcome.value, ports)
            else ports.spawn(s.tick).None?
  {
    LaunchAnswer(s, name, true, ports);
    hide LaunchOne, Find;
  }

  lemma MoreTurns(records: seq<Record>, mid: seq<Record>, next: seq<Record>, o: StartOutcome, more: seq<StartOutcome>, ports: Ports)
    requires forall m :: m != o.name ==> Find(mid, m) == Find(records, m)
    requires forall p <- more :: p.name != o.name
    requires AllTookTurns(mid, next, more, ports)
    requires forall m :: !Outcome(more, m) ==> Find(next, m) == Find(mid, m)
    requires Has(records, o.name) && TookTurn(Find(records, o.name).value, Find(next, o.name), o, ports)
    ensures AllTookTurns(records, next, [o] + more, ports)
    ensures forall m :: !Outcome([o] + more, m) ==> Find(next, m) == Find(records, m)
  {
    hide Find, TookTurn;
    assert ([o] + more)[0] == o && ([o] + more)[1..] == more;
    forall m | !Outcome([o] + more, m) ensures Find(next, m) == Find(records, m) {
      assert m != o.name && !Outcome(more, m);
    }
  }

  lemma {:induction false} BatchAside(s: State, order: seq<Name>, specs: seq<Spec>, waiting: set<Name>, ports: Ports)
    requires AllHave(s.records, order) && NoDup(order)
    ensures var next := LaunchBatch(s, order, specs, waiting, ports).0;
            next == s.(records := next.records, launched := next.launched, tick := next.tick)
    decreases |order|
  {
    hide LaunchOne, AwaitsReady, DependsOnOf, Find;
    if order != [] {
      var name, rest := order[0], order[1..];
      assert name !in rest && name in order;
      if WaitingDependencies(DependsOnOf(specs, name), waiting) != [] {
        BatchAside(s, rest, specs, waiting + {name}, ports);
      } else {
        LaunchPromise(s, name, true, ports);
        LaunchAnswer(s, name, true, ports);
        LaunchAside(s, name, true, ports);
        var (tried, outcome) := LaunchOne(s, name, true, ports);
        if outcome.Some? {
          OthersHave(s.records, tried.records, name, rest);
          BatchAside(tried, rest, specs, if AwaitsReady(tried.records, name) then waiting + {name} else waiting, ports);
        }
      }
    }
  }

  // ----- the whole batch -----

  predicate DistinctOutcomes(outcomes: seq<StartOutcome>) {
    forall i, j :: 0 <= i < j < |outcomes| ==> outcomes[i].name != outcomes[j].name
  }

  /** The outcome of a name, from the record it had before the batch and its new declaration. */
  ghost predicate CameOut(records: seq<Record>, next: seq<Record>, specs: seq<Spec>, o: StartOutcome, ports: Ports, nowMs: nat) {
    exists before, spec ::
      && spec in specs && spec.name == o.name
      && Carried(Find(records, o.name), Some(before), spec, nowMs)
      && TookTurn(before, Find(next, o.name), o, ports)
  }

  predicate Accepts(specs: seq<Spec>, ports: Ports) {
    forall spec <- specs :: ports.accepts(spec)
  }

  /**
   * A batch is refused, changing nothing, exactly when one of its declarations is invalid or the table with
   * them in it has no closed and acyclic dependency graph. Otherwise it goes through its services, what one
   * depends on before it, each deferred, registered, launched or found running as its record says, until
   * the launcher refuses one; nobody it did not reach is changed, and dependencies are respected.
   */
  ghost predicate BatchStarted(s: State, next: State, specs: seq<Spec>, report: StartReport, ports: Ports) {
    var nowMs := ports.now(s.tick);
    if !Accepts(specs, ports) || !SoundGraph(UpsertAll(s.records, specs, nowMs).0) then
      next == s && report == StartReport([], true, [])
    else
      && next == s.(records := next.records, launched := next.launched, tick := next.tick)
      && DistinctOutcomes(report.outcomes)
      && (report.failed <==> |report.outcomes| < |specs|) && (report.failed ==> exists t :: ports.spawn(t).None?)
      && (forall o <- report.outcomes, d :: DependsOn(specs, o.name, d) && NamesInclude(specs, d) ==> Outcome(report.outcomes, d))
      && (forall n :: !Outcome(report.outcomes, n) ==> Find(next.records, n) == Find(s.records, n))
      && (forall o <- report.outcomes :: CameOut(s.records, next.records, specs, o, ports, nowMs))
      && Respects(specs, next.records, report)
  }

  lemma StartAppsStarts(s: State, specs: seq<Spec>, ports: Ports)
    requires TableOk(s.records) && RoomFor(s, |specs|) && DistinctSpecs(specs)
    ensures var (next, report) := StartApps(s, specs, ports); BatchStarted(s, next, specs, report, ports)
  {
    var nowMs := ports.now(s.tick);
    AcceptedExactly(s.records, specs, ports, nowMs);
    hide BatchStarted, SoundGraph;
    if AcceptedOrder(s.records, specs, ports).Some? {
      AcceptedStarts(s, specs, ports);
    } else {
      RefusedStarts(s, specs, ports);
    }
  }

  lemma RefusedStarts(s: State, specs: seq<Spec>, ports: Ports)
    requires AcceptedOrder(s.records, specs, ports).None?
    requires !Accepts(specs, ports) || !SoundGraph(UpsertAll(s.records, specs, ports.now(s.tick)).0)
    ensures var (next, report) := StartApps(s, specs, ports); BatchStarted(s, next, specs, report, ports)
  {
    hide AcceptedOrder, SoundGraph;
  }

  /** What the launching loop did to the registered table, before a failed batch is rolled back. */
  ghost predicate Tried(registered: seq<Record>, tried: State, order: seq<Name>, specs: seq<Spec>, report: StartReport, ports: Ports) {
    && AllTookTurns(registered, tried.records, report.outcomes, ports)
    && (forall m :: !Outcome(report.outcomes, m) ==> Find(tried.records, m) == Find(registered, m))
    && (report.failed ==> exists t :: ports.spawn(t).None?)
    && Respects(specs, tried.records, report)
    && |report.outcomes| <= |order| && (!report.failed ==> |report.outcomes| == |order|)
    && (forall i :: 0 <= i < |report.outcomes| ==> report.outcomes[i].name == order[i])
    && TableOk(tried.records) && |tried.records| == |registered|
  }

  lemma LoopTries(s: State, order: seq<Name>, specs: seq<Spec>, ports: Ports)
    requires AllHave(s.records, order) && NoDup(order) && DistinctSpecs(specs) && NoneAhead(specs, order) && TableOk(s.records)
    ensures var (tried, report) := LaunchBatch(s, order, specs, {}, ports);
            && Tried(s.records, tried, order, specs, report, ports)
            && tried == s.(records := tried.records, launched := tried.launched, tick := tried.tick)
            && (report.failed ==> |report.outcomes| < |order|)
  {
    hide LaunchBatch, TableOk, AllTookTurns, Find;
    TurnsAreTaken(s, order, specs, {}, ports);
    BatchRespects(s, order, specs, {}, ports);
    LaunchBatchSpecs(s, order, specs, {}, ports);
    LaunchBatchTable(s, order, specs, {}, ports);
    BatchAside(s, order, specs, {}, ports);
    FailedIsShorter(s, order, specs, {}, ports);
    var (tried, report) := LaunchBatch(s, order, specs, {}, ports);
    WholeRespects(specs, tried.records, report);
  }

  lemma {:induction false} FailedIsShorter(s: State, order: seq<Name>, specs: seq<Spec>, waiting: set<Name>, ports: Ports)
    requires AllHave(s.records, order) && NoDup(order)
    ensures var report := LaunchBatch(s, order, specs, waiting, ports).1;
            report.failed ==> |report.outcomes| < |order|
    decreases |order|
  {
    hide LaunchOne, AwaitsReady, DependsOnOf, Find;
    if order != [] {
      var name, rest := order[0], order[1..];
      assert name !in rest && name in order;
      if WaitingDependencies(DependsOnOf(specs, name), waiting) != [] {
        FailedIsShorter(s, rest, specs, waiting + {name}, ports);
      } else {
        LaunchPromise(s, name, true, ports);
        var (tried, outcome) := LaunchOne(s, name, true, ports);
        if outcome.Some? {
          OthersHave(s.records, tried.records, name, rest);
          FailedIsShorter(tried, rest, specs, if AwaitsReady(tried.records, name) then waiting + {name} else waiting, ports);
        }
      }
    }
  }

  lemma WholeRespects(specs: seq<Spec>, records: seq<Record>, report: StartReport)
    requires PartRespects(specs, records, report, {})
    ensures Respects(specs, records, report)
  {
    hide DependsOn, NotUp, PendingNames, DeferredNames;
    forall d ensures Held({}, report.outcomes, records, d) <==> NotUp(report.outcomes, records, d) {
    }
    hide Held;
    forall p <- report.pending ensures WaitsExactly(specs, report.outcomes, records, p) {
      forall d ensures d in p.waitingOn <==> DependsOn(specs, p.name, d) && NotUp(report.outcomes, records, d) {
        assert Held({}, report.outcomes, records, d) <==> NotUp(report.outcomes, records, d);
      }
    }
    forall o <- report.outcomes ensures o.kind.Deferred? <==> IsBlocked(specs, report.outcomes, records, o.name) {
      BlockedByHeld(specs, report.outcomes, records, o.name);
    }
  }

  lemma BlockedByHeld(specs: seq<Spec>, outcomes: seq<StartOutcome>, records: seq<Record>, n: Name)
    ensures IsBlocked(specs, outcomes, records, n) <==> exists d :: DependsOn(specs, n, d) && Held({}, outcomes, records, d)
  {
    hide DependsOn, NotUp;
    if IsBlocked(specs, outcomes, records, n) {
      var d :| DependsOn(specs, n, d) && NotUp(outcomes, records, d);
      assert Held({}, outcomes, records, d);
    }
  }

  /** The parts of an accepted batch: the order, the table registered, what the loop did, the roll-back. */
  lemma AcceptedUnfolds(s: State, specs: seq<Spec>, ports: Ports)
    requires AcceptedOrder(s.records, specs, ports).Some?
    ensures var order, nowMs := AcceptedOrder(s.records, specs, ports).value, ports.now(s.tick);
            var (registered, previous) := UpsertAll(s.records, specs, nowMs);
            var (tried, report) := LaunchBatch(Tick(s.(records := registered)), order, specs, {}, ports);
            var kept := if report.failed then ForgetUnlaunched(tried.records, previous, report.outcomes, nowMs) else tried.records;
            StartApps(s, specs, ports) == (Tick(tried.(records := kept)), report)
  {
    hide AcceptedOrder, UpsertAll, LaunchBatch, ForgetUnlaunched;
  }

  lemma AcceptedStarts(s: State, specs: seq<Spec>, ports: Ports)
    requires TableOk(s.records) && RoomFor(s, |specs|) && DistinctSpecs(specs)
    requires AcceptedOrder(s.records, specs, ports).Some?
    requires Accepts(specs, ports) && SoundGraph(UpsertAll(s.records, specs, ports.now(s.tick)).0)
    ensures var (next, report) := StartApps(s, specs, ports); BatchStarted(s, next, specs, report, ports)
  {
    var order, nowMs := AcceptedOrder(s.records, specs, ports).value, ports.now(s.tick);
    AcceptedIsOrdered(s.records, specs, ports);
    UpsertAllSpecs(s.records, specs, nowMs);
    UpsertAllTable(s.records, specs, nowMs);
    AcceptedUnfolds(s, specs, ports);
    var (registered, previous) := UpsertAll(s.records, specs, nowMs);
    BatchNamesHeld(s.records, registered, order, specs);
    hide AcceptedOrder, UpsertAll, LaunchBatch, ForgetUnlaunched, StartApps, SoundGraph, TableOk, Find, SpecOf, MergedSpec;
    hide Respects, CameOut, DependsOn, DistinctOutcomes, AllTookTurns, NamesInclude, Outcome, AllHave, NoDup, DistinctSpecs;
    var ready := Tick(s.(records := registered));
    LoopTries(ready, order, specs, ports);
    var (tried, report) := LaunchBatch(ready, order, specs, {}, ports);
    var next := StartApps(s, specs, ports).0;
    hide BatchStarted;
    RolledBack(s.records, registered, tried, next.records, order, specs, previous, report, ports, nowMs);
    hide Tried;
    TriedIsPrefix(registered, tried, order, specs, report, ports);
    PartsMakeBatch(s, next, specs, report, ports);
  }

  lemma PartsMakeBatch(s: State, next: State, specs: seq<Spec>, report: StartReport, ports: Ports)
    requires Accepts(specs, ports) && SoundGraph(UpsertAll(s.records, specs, ports.now(s.tick)).0)
    requires next == s.(records := next.records, launched := next.launched, tick := next.tick)
    requires DistinctOutcomes(report.outcomes)
    requires report.failed <==> |report.outcomes| < |specs|
    requires report.failed ==> exists t :: ports.spawn(t).None?
    requires forall o <- report.outcomes, d :: DependsOn(specs, o.name, d) && NamesInclude(specs, d) ==> Outcome(report.outcomes, d)
    requires forall n :: !Outcome(report.outcomes, n) ==> Find(next.records, n) == Find(s.records, n)
    requires forall o <- report.outcomes :: CameOut(s.records, next.records, specs, o, ports, ports.now(s.tick))
    requires Respects(specs, next.records, report)
    ensures BatchStarted(s, next, specs, report, ports)
  {
    hide SoundGraph, Find, CameOut, Respects, DependsOn, NamesInclude, Outcome, UpsertAll, DistinctOutcomes;
  }

  lemma TriedIsPrefix(registered: seq<Record>, tried: State, order: seq<Name>, specs: seq<Spec>, report: StartReport, ports: Ports)
    requires Tried(registered, tried, order, specs, report, ports) && NoDup(order) && NoneAhead(specs, order)
    requires forall n :: n in order <==> NamesInclude(specs, n)
    ensures DistinctOutcomes(report.outcomes) && |report.outcomes| <= |order|
    ensures !report.failed ==> |report.outcomes| == |order|
    ensures report.failed ==> exists t :: ports.spawn(t).None?
    ensures forall o <- report.outcomes, d :: DependsOn(specs, o.name, d) && NamesInclude(specs, d) ==> Outcome(report.outcomes, d)
  {
    hide AllTookTurns, Respects, TableOk, DependsOn, NamesInclude, Outcome, NoneAhead;
    PrefixIsClosed(specs, order, report.outcomes);
  }

  /** Nobody is reached before what it depends on. */
  lemma PrefixIsClosed(specs: seq<Spec>, order: seq<Name>, outcomes: seq<StartOutcome>)
    requires NoDup(order) && NoneAhead(specs, order) && forall n :: n in order <==> NamesInclude(specs, n)
    requires |outcomes| <= |order| && forall i :: 0 <= i < |outcomes| ==> outcomes[i].name == order[i]
    ensures DistinctOutcomes(outcomes)
    ensures forall o <- outcomes, d :: DependsOn(specs, o.name, d) && NamesInclude(specs, d) ==> Outcome(outcomes, d)
  {
    hide DependsOn, NamesInclude, NoneAhead;
    forall o <- outcomes, d | DependsOn(specs, o.name, d) && NamesInclude(specs, d) ensures Outcome(outcomes, d) {
      var i :| 0 <= i < |outcomes| && outcomes[i] == o;
      var j :| 0 <= j < |order| && order[j] == d;
      if i <= j {
        AheadMeans(specs, order, i, j);
      } else {
        assert outcomes[j].name == d;
      }
    }
  }

  lemma {:induction false} AheadMeans(specs: seq<Spec>, order: seq<Name>, i: nat, j: nat)
    requires i <= j < |order| && NoneAhead(specs, order)
    ensures !DependsOn(specs, order[i], order[j])
  {
    hide DependsOn;
    assert order[j] in order;
    if i > 0 {
      AheadMeans(specs, order[1..], i - 1, j - 1);
    }
  }

  /** After the roll-back of a failed batch: who was reached as the loop left it, everybody else as before. */
  lemma RolledBack(records: seq<Record>, registered: seq<Record>, tried: State, next: seq<Record>, order: seq<Name>,
                   specs: seq<Spec>, previous: seq<Prior>, report: StartReport, ports: Ports, nowMs: nat)
    requires TableOk(records) && DistinctSpecs(specs) && |records| + 2 * |specs| < U32_MAX
    requires (registered, previous) == UpsertAll(records, specs, nowMs) && |registered| <= |records| + |specs|
    requires |previous| == |specs| && forall i :: 0 <= i < |specs| ==> previous[i] == Prior(specs[i].name, SpecOf(records, specs[i].name))
    requires Tried(registered, tried, order, specs, report, ports) && |order| == |specs|
    requires forall n :: n in order <==> NamesInclude(specs, n)
    requires report.failed ==> |report.outcomes| < |order|
    requires next == if report.failed then ForgetUnlaunched(tried.records, previous, report.outcomes, nowMs) else tried.records
    ensures forall n :: !Outcome(report.outcomes, n) ==> Find(next, n) == Find(records, n)
    ensures forall o <- report.outcomes :: CameOut(records, next, specs, o, ports, nowMs)
    ensures Respects(specs, next, report)
  {
    hide Find, ForgetUnlaunched, TookTurn, AllTookTurns, UpsertAll, TableOk, SpecOf, Respects, NamesInclude, CameOut;
    forall n ensures Find(next, n) == if Outcome(report.outcomes, n) then Find(tried.records, n) else Find(records, n) {
      OneRolledBack(records, registered, tried, next, order, specs, previous, report, ports, nowMs, n);
    }
    forall o <- report.outcomes ensures CameOut(records, next, specs, o, ports, nowMs) {
      OneCameOut(records, registered, tried, next, order, specs, report, o, ports, nowMs);
    }
    RespectsAlike(specs, tried.records, next, report);
  }

  lemma RespectsAlike(specs: seq<Spec>, records: seq<Record>, next: seq<Record>, report: StartReport)
    requires Respects(specs, records, report)
    requires forall n :: Outcome(report.outcomes, n) ==> Find(next, n) == Find(records, n)
    ensures Respects(specs, next, report)
  {
    forall d ensures NotUp(report.outcomes, next, d) <==> NotUp(report.outcomes, records, d) {
      NotUpAlike(report.outcomes, records, next, d);
    }
    hide NotUp, DependsOn, Outcome, Find, PendingNames, DeferredNames, IsBlocked, WaitsExactly;
    forall o <- report.outcomes ensures o.kind.Deferred? <==> IsBlocked(specs, report.outcomes, next, o.name) {
      BlockedAlike(specs, report.outcomes, records, next, o.name);
    }
    forall p <- report.pending ensures WaitsExactly(specs, report.outcomes, next, p) {
      WaitsAlike(specs, report.outcomes, records, next, p);
    }
  }

  lemma BlockedAlike(specs: seq<Spec>, outcomes: seq<StartOutcome>, records: seq<Record>, next: seq<Record>, n: Name)
    requires forall d :: NotUp(outcomes, next, d) <==> NotUp(outcomes, records, d)
    ensures IsBlocked(specs, outcomes, next, n) <==> IsBlocked(specs, outcomes, records, n)
  {
    hide NotUp, DependsOn;
    if IsBlocked(specs, outcomes, next, n) {
      var d :| DependsOn(specs, n, d) && NotUp(outcomes, next, d);
      assert NotUp(outcomes, records, d);
    }
    if IsBlocked(specs, outcomes, records, n) {
      var d :| DependsOn(specs, n, d) && NotUp(outcomes, records, d);
      assert NotUp(outcomes, next, d);
    }
  }

  lemma WaitsAlike(specs: seq<Spec>, outcomes: seq<StartOutcome>, records: seq<Record>, next: seq<Record>, p: DeferredStart)
    requires forall d :: NotUp(outcomes, next, d) <==> NotUp(outcomes, records, d)
    requires WaitsExactly(specs, outcomes, records, p)
    ensures WaitsExactly(specs, outcomes, next, p)
  {
    hide NotUp, DependsOn;
    forall d ensures d in p.waitingOn <==> DependsOn(specs, p.name, d) && NotUp(outcomes, next, d) {
      assert NotUp(outcomes, next, d) <==> NotUp(outcomes, records, d);
    }
  }

  lemma NotUpAlike(outcomes: seq<StartOutcome>, records: seq<Record>, next: seq<Record>, d: Name)
    requires forall n :: Outcome(outcomes, n) ==> Find(next, n) == Find(records, n)
    ensures NotUp(outcomes, next, d) <==> NotUp(outcomes, records, d)
  {
    hide Find;
  }

  lemma OneCameOut(records: seq<Record>, registered: seq<Record>, tried: State, next: seq<Record>, order: seq<Name>,
                   specs: seq<Spec>, report: StartReport, o: StartOutcome, ports: Ports, nowMs: nat)
    requires DistinctSpecs(specs) && registered == UpsertAll(records, specs, nowMs).0 && o in report.outcomes
    requires Tried(registered, tried, order, specs, report, ports) && forall n :: n in order <==> NamesInclude(specs, n)
    requires Find(next, o.name) == Find(tried.records, o.name)
    ensures CameOut(records, next, specs, o, ports, nowMs)
  {
    hide Find, TookTurn, UpsertAll, Carried, TableOk, Respects;
    UpsertAllCarries(records, specs, nowMs, o.name);
    var i :| 0 <= i < |report.outcomes| && report.outcomes[i] == o;
    assert o.name in order;
    assert NamesInclude(specs, o.name);
    var before := Find(registered, o.name).value;
    assert Carried(Find(records, o.name), Some(before), BatchGraph.Declared(specs, o.name), nowMs);
  }

  lemma OneRolledBack(records: seq<Record>, registered: seq<Record>, tried: State, next: seq<Record>, order: seq<Name>,
                      specs: seq<Spec>, previous: seq<Prior>, report: StartReport, ports: Ports, nowMs: nat, n: Name)
    requires TableOk(records) && DistinctSpecs(specs) && |records| + 2 * |specs| < U32_MAX
    requires (registered, previous) == UpsertAll(records, specs, nowMs) && |registered| <= |records| + |specs|
    requires |previous| == |specs| && forall i :: 0 <= i < |specs| ==> previous[i] == Prior(specs[i].name, SpecOf(records, specs[i].name))
    requires Tried(registered, tried, order, specs, report, ports) && |order| == |specs|
    requires forall n :: n in order <==> NamesInclude(specs, n)
    requires report.failed ==> |report.outcomes| < |order|
    requires next == if report.failed then ForgetUnlaunched(tried.records, previous, report.outcomes, nowMs) else tried.records
    ensures Find(next, n) == if Outcome(report.outcomes, n) then Find(tried.records, n) else Find(records, n)
  {
    hide Find, ForgetUnlaunched, UpsertAll, TableOk, Respects, AllTookTurns;
    UpsertAllCarries(records, specs, nowMs, n);
    if report.failed {
      PriorsAre(records, specs, previous, n);
      ForgetRestores(tried.records, previous, report.outcomes, nowMs, n);
    } else if NamesInclude(specs, n) {
      OutcomeIsPrefix(report.outcomes, order, n);
      assert order[..|report.outcomes|] == order;
    }
  }

  lemma PriorsAre(records: seq<Record>, specs: seq<Spec>, previous: seq<Prior>, n: Name)
    requires TableOk(records) && DistinctSpecs(specs)
    requires |previous| == |specs| && forall i :: 0 <= i < |specs| ==> previous[i] == Prior(specs[i].name, SpecOf(records, specs[i].name))
    ensures DistinctPriors(previous) && PriorsNamed(previous)
    ensures InPriors(previous, n) <==> NamesInclude(specs, n)
    ensures forall p <- previous | p.name == n :: p.spec == SpecOf(records, n)
    ensures NamesInclude(specs, n) ==> exists p <- previous :: p.name == n
  {
    forall p <- previous ensures p.spec.Some? ==> p.spec.value.name == p.name {
      assert Has(records, p.name) ==> RecordOk(Find(records, p.name).value);
    }
    if NamesInclude(specs, n) {
      var spec :| spec in specs && spec.name == n;
      var i :| 0 <= i < |specs| && specs[i] == spec;
      assert previous[i] in previous;
    }
    if InPriors(previous, n) {
      var p :| p in previous && p.name == n;
      var i :| 0 <= i < |previous| && previous[i] == p;
      assert specs[i] in specs;
    }
  }

  // ----- the waits a start adds -----

  lemma AddedWait(g: Graph, dependency: Name, waiter: Name)
    ensures var after := AddWaiter(g, dependency, waiter);
            && (forall d, x :: Edge(after, d, x) <==> Edge(g, d, x) || (d == dependency && x == waiter))
            && (forall d :: WaitersOf(g, d) <= WaitersOf(after, d))
  {
  }

  lemma {:induction false} AddedWaits(g: Graph, deferred: Name, waitingOn: seq<Name>)
    ensures var after := AddWaits(g, deferred, waitingOn);
            && (forall d, x :: Edge(after, d, x) <==> Edge(g, d, x) || (x == deferred && d in waitingOn))
            && (forall d :: WaitersOf(g, d) <= WaitersOf(after, d))
    decreases |waitingOn|
  {
    hide AddWaiter, Edge, WaitersOf;
    if waitingOn != [] {
      var next, after := AddWaiter(g, waitingOn[0], deferred), AddWaits(g, deferred, waitingOn);
      AddedWait(g, waitingOn[0], deferred);
      AddedWaits(next, deferred, waitingOn[1..]);
      forall d, x ensures Edge(after, d, x) <==> Edge(g, d, x) || (x == deferred && d in waitingOn) {
        assert Edge(after, d, x) <==> Edge(next, d, x) || (x == deferred && d in waitingOn[1..]);
        assert d in waitingOn <==> d == waitingOn[0] || d in waitingOn[1..];
      }
    }
  }

  predicate PendingOn(pending: seq<DeferredStart>, x: Name, d: Name) {
    exists p <- pending :: p.name == x && d in p.waitingOn
  }

  /** The graph gains an edge for every pending wait and loses none; old waiters stay first in line. */
  lemma {:induction false} AddedPending(g: Graph, pending: seq<DeferredStart>)
    ensures var after := AddPending(g, pending);
            && (forall d, x :: Edge(after, d, x) <==> Edge(g, d, x) || PendingOn(pending, x, d))
            && (forall d :: WaitersOf(g, d) <= WaitersOf(after, d))
    decreases |pending|
  {
    hide AddWaits, Edge, WaitersOf;
    if pending != [] {
      var p, rest := pending[0], pending[1..];
      AddedWaits(g, p.name, p.waitingOn);
      AddedPending(AddWaits(g, p.name, p.waitingOn), rest);
      assert pending == [p] + rest;
      forall d, x ensures PendingOn(pending, x, d) <==> (x == p.name && d in p.waitingOn) || PendingOn(rest, x, d) {
      }
    }
  }

  /** `x` was deferred by the batch behind `d`. */
  predicate DeferredBehind(specs: seq<Spec>, outcomes: seq<StartOutcome>, records: seq<Record>, x: Name, d: Name) {
    && (exists o <- outcomes :: o.name == x && o.kind.Deferred?)
    && DependsOn(specs, x, d) && NotUp(outcomes, records, d)
  }

  lemma {:induction false} NamesPending(pending: seq<DeferredStart>, n: Name)
    ensures n in PendingNames(pending) <==> exists p <- pending :: p.name == n
  {
    if pending != [] {
      NamesPending(pending[1..], n);
      assert pending == [pending[0]] + pending[1..];
    }
  }

  lemma {:induction false} NamesDeferred(outcomes: seq<StartOutcome>, n: Name)
    ensures n in DeferredNames(outcomes) <==> exists o <- outcomes :: o.name == n && o.kind.Deferred?
  {
    if outcomes != [] {
      NamesDeferred(outcomes[1..], n);
      assert outcomes == [outcomes[0]] + outcomes[1..];
    }
  }

  lemma PendingIsDeferred(specs: seq<Spec>, records: seq<Record>, report: StartReport, x: Name, d: Name)
    requires Respects(specs, records, report)
    ensures PendingOn(report.pending, x, d) <==> DeferredBehind(specs, report.outcomes, records, x, d)
  {
    hide DependsOn, NotUp, PendingNames, DeferredNames, WaitsExactly, IsBlocked;
    NamesPending(report.pending, x);
    NamesDeferred(report.outcomes, x);
    forall p <- report.pending | p.name == x
      ensures d in p.waitingOn <==> DependsOn(specs, x, d) && NotUp(report.outcomes, records, d) {
      WaitsMeans(specs, report.outcomes, records, p, d);
    }
  }

  lemma WaitsMeans(specs: seq<Spec>, outcomes: seq<StartOutcome>, records: seq<Record>, p: DeferredStart, d: Name)
    requires WaitsExactly(specs, outcomes, records, p)
    ensures d in p.waitingOn <==> DependsOn(specs, p.name, d) && NotUp(outcomes, records, d)
  {
    hide DependsOn, NotUp;
  }

  // ----- the timers a start settles -----

  predicate Reached(outcomes: seq<StartOutcome>, n: Name) {
    exists o <- outcomes :: o.name == n && !o.kind.Deferred?
  }

  /**
   * Nothing queued for a service the batch reported on is left; what it did not defer is armed if it has a
   * schedule, and only then; no other timer changes.
   */
  ghost predicate TimersSettled(s: State, next: State, outcomes: seq<StartOutcome>, ports: Ports) {
    && (forall n :: n in next.timers.restarts <==> n in s.timers.restarts && !Outcome(outcomes, n))
    && (forall n :: Reached(outcomes, n) ==> Rescheduled(s, next, n, ports))
    && (forall n :: !Reached(outcomes, n) ==>
          (n in next.timers.fires <==> n in s.timers.fires)
          && (n in s.timers.fires ==> next.timers.fires[n] == s.timers.fires[n]))
  }

  lemma {:induction false} SettlesTimers(s: State, outcomes: seq<StartOutcome>, ports: Ports)
    requires DistinctOutcomes(outcomes)
    ensures var next := SettleStarted(s, outcomes, ports);
            && TimersSettled(s, next, outcomes, ports)
            && next.records == s.records && next.launched == s.launched && next.waiters == s.waiters
            && next.readyFailed == s.readyFailed && WatchesIn(next.effects) == WatchesIn(s.effects)
    decreases |outcomes|
  {
    hide ArmTimerFor, Find, WatchesIn, TimersSettled, Armed, DistinctOutcomes, CancelQueuedRestart;
    if outcomes == [] {
      NobodySettled(s, ports);
    } else {
      var o, rest := outcomes[0], outcomes[1..];
      assert outcomes == [o] + rest;
      var mid := SettledFirst(s, o, ports);
      RestIsDistinct(o, rest);
      SettlesTimers(mid, rest, ports);
      OneSettled(s, mid, SettleStarted(s, outcomes, ports), o, rest, ports);
    }
  }

  /** The state after the first of the outcomes. */
  lemma SettledFirst(s: State, o: StartOutcome, ports: Ports) returns (mid: State)
    ensures var cancelled := CancelQueuedRestart(s, o.name);
            mid == if o.kind.Deferred? then cancelled else ArmTimerFor(cancelled, o.name, ports)
    ensures mid.records == s.records && mid.launched == s.launched && mid.waiters == s.waiters && mid.readyFailed == s.readyFailed
    ensures WatchesIn(mid.effects) == WatchesIn(s.effects) && mid.timers.restarts == s.timers.restarts - {o.name}
    ensures if o.kind.Deferred? then mid.timers.fires == s.timers.fires else Armed(CancelQueuedRestart(s, o.name), mid, o.name, ports)
  {
    var cancelled := CancelQueuedRestart(s, o.name);
    ArmPromise(cancelled, o.name, ports);
    ArmLeavesWaiters(cancelled, o.name, ports);
    ArmTimerIsAside(cancelled, o.name, ports);
    hide ArmTimerFor, Find, WatchesIn, TaskBoards.InSync;
    mid := if o.kind.Deferred? then cancelled else ArmTimerFor(cancelled, o.name, ports);
  }

  lemma NobodySettled(s: State, ports: Ports)
    ensures SettleStarted(s, [], ports) == s && TimersSettled(s, s, [], ports)
  {
  }

  lemma RestIsDistinct(o: StartOutcome, rest: seq<StartOutcome>)
    requires DistinctOutcomes([o] + rest)
    ensures DistinctOutcomes(rest)
  {
    forall i, j | 0 <= i < j < |rest| ensures rest[i].name != rest[j].name {
      assert ([o] + rest)[i + 1].name != ([o] + rest)[j + 1].name;
    }
  }

  lemma OneSettled(s: State, mid: State, next: State, o: StartOutcome, rest: seq<StartOutcome>, ports: Ports)
    requires DistinctOutcomes([o] + rest) && TimersSettled(mid, next, rest, ports) && mid.records == s.records
    requires mid.timers.restarts == s.timers.restarts - {o.name}
    requires if o.kind.Deferred? then mid.timers.fires == s.timers.fires else Armed(CancelQueuedRestart(s, o.name), mid, o.name, ports)
    ensures TimersSettled(s, next, [o] + rest, ports)
  {
    var all := [o] + rest;
    FirstIsDistinct(o, rest);
    FirstIsSettled(s, mid, next, o, ports);
    OthersFires(s, mid, o, ports);
    hide Armed, CancelQueuedRestart, DistinctOutcomes, Find;
    forall n ensures Reached(all, n) <==> Reached(rest, n) || (n == o.name && !o.kind.Deferred?) {
      OneMoreReached(o, rest, n);
    }
    forall n ensures Outcome(all, n) <==> Outcome(rest, n) || n == o.name {
      OneMoreReached(o, rest, n);
    }
    hide Reached, Outcome;
    forall n | Reached(all, n) ensures Rescheduled(s, next, n, ports) {
      if n != o.name {
        assert Rescheduled(mid, next, n, ports);
      }
    }
  }

  lemma FirstIsDistinct(o: StartOutcome, rest: seq<StartOutcome>)
    requires DistinctOutcomes([o] + rest)
    ensures !Outcome(rest, o.name) && !Reached(rest, o.name)
  {
    var all := [o] + rest;
    forall p <- rest ensures p.name != o.name {
      var i :| 0 <= i < |rest| && rest[i] == p;
      assert all[0].name != all[i + 1].name;
    }
  }

  lemma OneMoreReached(o: StartOutcome, rest: seq<StartOutcome>, n: Name)
    ensures Reached([o] + rest, n) <==> Reached(rest, n) || (n == o.name && !o.kind.Deferred?)
    ensures Outcome([o] + rest, n) <==> Outcome(rest, n) || n == o.name
  {
    assert ([o] + rest)[0] == o && ([o] + rest)[1..] == rest;
  }

  /** What arming the first left is still so when the rest are done. */
  lemma FirstIsSettled(s: State, mid: State, next: State, o: StartOutcome, ports: Ports)
    requires mid.records == s.records
    requires !o.kind.Deferred? ==> Armed(CancelQueuedRestart(s, o.name), mid, o.name, ports)
    ensures !o.kind.Deferred? && (o.name in next.timers.fires <==> o.name in mid.timers.fires)
            && (o.name in mid.timers.fires ==> next.timers.fires[o.name] == mid.timers.fires[o.name]) ==>
              Rescheduled(s, next, o.name, ports)
  {
    hide Find, WatchesIn;
  }

  lemma OthersFires(s: State, mid: State, o: StartOutcome, ports: Ports)
    requires if o.kind.Deferred? then mid.timers.fires == s.timers.fires else Armed(CancelQueuedRestart(s, o.name), mid, o.name, ports)
    ensures forall n :: n != o.name || o.kind.Deferred? ==>
              (n in mid.timers.fires <==> n in s.timers.fires)
              && (n in s.timers.fires ==> mid.timers.fires[n] == s.timers.fires[n])
  {
    hide Find, WatchesIn;
    if !o.kind.Deferred? {
      forall n | n != o.name
        ensures n in mid.timers.fires <==> n in s.timers.fires
        ensures n in s.timers.fires ==> mid.timers.fires[n] == s.timers.fires[n] {
        assert n in mid.timers.fires - {o.name} <==> n in s.timers.fires - {o.name};
      }
    }
  }

  // ----- the command -----

  /** The declarations of the services, each read from its own file at its turn. */
  function Declarations(services: seq<Name>, from: nat, ports: Ports): (specs: seq<Spec>)
    requires forall i :: 0 <= i < |services| ==> ports.prepare(from + i, services[i]).Some?
  {
    seq(|services|, i requires 0 <= i < |services| => ports.prepare(from + i, services[i]).value.(name := services[i]))
  }

  predicate Readable(services: seq<Name>, from: nat, ports: Ports) {
    forall i :: 0 <= i < |services| ==> ports.prepare(from + i, services[i]).Some?
  }

  lemma {:induction false} PreparesAll(s: State, services: seq<Name>, ports: Ports)
    ensures var (next, specs) := PrepareAll(s, services, ports);
            && next == s.(tick := next.tick)
            && (specs.Some? <==> Readable(services, s.tick, ports))
            && (specs.Some? ==> next.tick == s.tick + |services| && specs.value == Declarations(services, s.tick, ports))
    decreases |services|
  {
    if services != [] {
      PreparesAll(Tick(s), services[1..], ports);
      ReadsFirst(services, s.tick, ports);
      hide Readable, Declarations;
    }
  }

  lemma ReadsFirst(services: seq<Name>, from: nat, ports: Ports)
    requires services != []
    ensures var first := ports.prepare(from, services[0]);
            && (Readable(services, from, ports) <==> first.Some? && Readable(services[1..], from + 1, ports))
            && (Readable(services, from, ports) ==>
                  Declarations(services, from, ports) ==
                    [first.value.(name := services[0])] + Declarations(services[1..], from + 1, ports))
  {
    var rest := services[1..];
    if Readable(services, from, ports) {
      assert ports.prepare(from + 0, services[0]).Some?;
      forall i | 0 <= i < |rest| ensures ports.prepare(from + 1 + i, rest[i]).Some? {
        assert ports.prepare(from + (i + 1), services[i + 1]).Some?;
      }
    }
    if ports.prepare(from, services[0]).Some? && Readable(rest, from + 1, ports) {
      forall i | 0 <= i < |services| ensures ports.prepare(from + i, services[i]).Some? {
        if i > 0 {
          assert ports.prepare(from + 1 + (i - 1), rest[i - 1]).Some?;
        }
      }
      DeclaresFirst(services, from, ports);
    }
  }

  lemma DeclaresFirst(services: seq<Name>, from: nat, ports: Ports)
    requires services != [] && Readable(services, from, ports) && Readable(services[1..], from + 1, ports)
    ensures Declarations(services, from, ports) ==
              [ports.prepare(from, services[0]).value.(name := services[0])] + Declarations(services[1..], from + 1, ports)
  {
    var all, more := Declarations(services, from, ports), Declarations(services[1..], from + 1, ports);
    forall i | 1 <= i < |services| ensures all[i] == more[i - 1] {
      assert services[i] == services[1..][i - 1] && from + i == from + 1 + (i - 1);
    }
  }

  /**
   * Starting services is all or nothing about their declarations: one that cannot be read leaves
   * everything as it was. Otherwise the batch is started, every service it deferred waits for exactly what
   * it depends on and is not up, whoever waited before still does, and the timers are settled.
   */
  ghost predicate StartedServices(s: State, next: State, services: seq<Name>, ports: Ports) {
    if !Readable(services, s.tick, ports) then next == s.(tick := next.tick)
    else
      var specs, asked := Declarations(services, s.tick, ports), s.(tick := s.tick + |services|);
      exists started: State, report: StartReport ::
        && BatchStarted(asked, started, specs, report, ports)
        && next.records == started.records && next.launched == started.launched && next.readyFailed == s.readyFailed
        && (forall d, x :: Edge(next.waiters, d, x) <==>
              Edge(s.waiters, d, x) || DeferredBehind(specs, report.outcomes, next.records, x, d))
        && (forall d :: WaitersOf(s.waiters, d) <= WaitersOf(next.waiters, d))
        && TimersSettled(started, next, report.outcomes, ports)
  }

  lemma {:induction false} WatchAllAside(s: State, outcomes: seq<StartOutcome>)
    ensures var next := WatchAll(s, outcomes);
            && next.records == s.records && next.launched == s.launched && next.waiters == s.waiters
            && next.readyFailed == s.readyFailed
            && next.timers.fires == s.timers.fires && next.timers.restarts == s.timers.restarts
    decreases |outcomes|
  {
    hide Watch;
    if outcomes != [] {
      WatchAside(s, outcomes[0]);
      WatchAllAside(Watch(s, outcomes[0]), outcomes[1..]);
    }
  }

  lemma WatchAside(s: State, o: StartOutcome)
    ensures var next := Watch(s, o);
            && next.records == s.records && next.launched == s.launched && next.waiters == s.waiters
            && next.readyFailed == s.readyFailed
            && next.timers.fires == s.timers.fires && next.timers.restarts == s.timers.restarts
  {
    hide Find, WatchesIn;
  }

  lemma DeclarationsAreDistinct(services: seq<Name>, from: nat, ports: Ports)
    requires NoDup(services) && Readable(services, from, ports)
    ensures DistinctSpecs(Declarations(services, from, ports)) && |Declarations(services, from, ports)| == |services|
  {
  }

  lemma StartPromise(s: State, services: seq<Name>, ports: Ports)
    requires TableOk(s.records) && RoomFor(s, |services|) && NoDup(services)
    ensures StartedServices(s, Start(s, services, ports), services, ports)
  {
    PreparesAll(s, services, ports);
    var (asked, specs) := PrepareAll(s, services, ports);
    if specs.Some? {
      DeclarationsAreDistinct(services, s.tick, ports);
      hide PrepareAll, StartApps, BatchStarted, TableOk, Declarations, WatchAll, SettleStarted, AddPending, DistinctSpecs, NoDup;
      StartAppsStarts(asked, specs.value, ports);
      var (started, report) := StartApps(asked, specs.value, ports);
      SettlesStart(asked, started, specs.value, report, ports);
      EndsStart(s, asked, started, Start(s, services, ports), services, specs.value, report, ports);
    } else {
      hide PrepareAll;
    }
  }

  /** What `start` does after the batch: watch, remember who waits, settle the timers. */
  function Followed(started: State, report: StartReport, ports: Ports): State {
    var watched := WatchAll(started, report.outcomes);
    SettleStarted(watched.(waiters := AddPending(watched.waiters, report.pending)), report.outcomes, ports)
  }

  /** The waits and timers after a batch, whatever became of it. */
  ghost predicate WaitsAndTimers(asked: State, started: State, next: State, specs: seq<Spec>, report: StartReport, ports: Ports) {
    && next.records == started.records && next.launched == started.launched && next.readyFailed == asked.readyFailed
    && (forall d, x :: Edge(next.waiters, d, x) <==>
          Edge(asked.waiters, d, x) || DeferredBehind(specs, report.outcomes, next.records, x, d))
    && (forall d :: WaitersOf(asked.waiters, d) <= WaitersOf(next.waiters, d))
    && TimersSettled(started, next, report.outcomes, ports)
  }

  lemma SettlesStart(asked: State, started: State, specs: seq<Spec>, report: StartReport, ports: Ports)
    requires BatchStarted(asked, started, specs, report, ports)
    ensures WaitsAndTimers(asked, started, Followed(started, report, ports), specs, report, ports)
  {
    BatchMeans(asked, started, specs, report, ports);
    hide BatchStarted, Respects, DeferredBehind, PendingOn, Edge, WaitersOf, WatchAll, SettleStarted, AddPending, Find, WatchesIn;
    WatchAllAside(started, report.outcomes);
    var watched := WatchAll(started, report.outcomes);
    AddedPending(started.waiters, report.pending);
    var remembered := watched.(waiters := AddPending(watched.waiters, report.pending));
    SettlesTimers(remembered, report.outcomes, ports);
    SettledAlike(started, remembered, SettleStarted(remembered, report.outcomes, ports), report.outcomes, ports);
    forall d, x ensures PendingOn(report.pending, x, d) <==> DeferredBehind(specs, report.outcomes, started.records, x, d) {
      PendingIsDeferred(specs, started.records, report, x, d);
    }
  }

  lemma SettledAlike(started: State, remembered: State, next: State, outcomes: seq<StartOutcome>, ports: Ports)
    requires TimersSettled(remembered, next, outcomes, ports) && remembered.records == started.records
    requires remembered.timers.fires == started.timers.fires && remembered.timers.restarts == started.timers.restarts
    ensures TimersSettled(started, next, outcomes, ports)
  {
    hide Find;
  }

  lemma BatchMeans(s: State, next: State, specs: seq<Spec>, report: StartReport, ports: Ports)
    requires BatchStarted(s, next, specs, report, ports)
    ensures DistinctOutcomes(report.outcomes) && Respects(specs, next.records, report)
    ensures next.waiters == s.waiters && next.readyFailed == s.readyFailed
  {
    hide SoundGraph, CameOut, Find, DependsOn;
  }

  lemma EndsStart(s: State, asked: State, started: State, next: State, services: seq<Name>, specs: seq<Spec>, report: StartReport,
                  ports: Ports)
    requires Readable(services, s.tick, ports) && specs == Declarations(services, s.tick, ports)
    requires asked == s.(tick := s.tick + |services|) && (started, report) == StartApps(asked, specs, ports)
    requires BatchStarted(asked, started, specs, report, ports)
    requires WaitsAndTimers(asked, started, next, specs, report, ports)
    ensures StartedServices(s, next, services, ports)
  {
    hide BatchStarted, Declarations, StartApps, DeferredBehind, Edge, WaitersOf, TimersSettled;
  }
}
