/**
 * The dependency graph of the table stays closed and acyclic through `start_apps`, however the batch
 * ends (usecases/src/start.rs), and through a single delete (usecases/src/delete.rs).
 */
module BatchGraph {
  import opened Graphs
  import opened Model
  import opened ProcessTable
  import opened Handlers
  import opened Coherence
  import opened CommandCoherence
  import opened Daemon
  import DepGraph

  function SpecOf(records: seq<Record>, n: Name): Option<Spec> {
    var found := Find(records, n);
    if found.None? then None else Some(found.value.spec)
  }

  ghost function TableGraph(records: seq<Record>): Graph {
    map n | n in Elems(NamesOf(records)) && Has(records, n) :: Find(records, n).value.spec.dependsOn
  }

  lemma TableGraphEdges(records: seq<Record>)
    ensures forall n :: n in TableGraph(records) <==> Has(records, n)
    ensures forall a, b :: Edge(TableGraph(records), a, b) <==>
              SpecOf(records, a).Some? && b in SpecOf(records, a).value.dependsOn
  {
    forall n ensures n in TableGraph(records) <==> Has(records, n) {
      HasIsMember(records, n);
    }
  }

  ghost predicate SoundGraph(records: seq<Record>) {
    Closed(TableGraph(records)) && Acyclic(TableGraph(records))
  }

  ghost predicate SameSpecs(records: seq<Record>, next: seq<Record>) {
    forall n :: SpecOf(next, n) == SpecOf(records, n)
  }

  lemma SameSpecsSameGraph(records: seq<Record>, next: seq<Record>)
    requires SameSpecs(records, next) && SoundGraph(records)
    ensures SoundGraph(next)
  {
    TableGraphEdges(records);
    TableGraphEdges(next);
    forall n ensures n in TableGraph(next) <==> n in TableGraph(records) {
      assert SpecOf(next, n) == SpecOf(records, n);
    }
    assert forall a, b :: Edge(TableGraph(next), a, b) <==> Edge(TableGraph(records), a, b);
    SubgraphIsAcyclic(TableGraph(records), TableGraph(next));
  }

  lemma SubgraphIsAcyclic(g: Graph, part: Graph)
    requires Acyclic(g) && forall a, b :: Edge(part, a, b) ==> Edge(g, a, b)
    ensures Acyclic(part)
  {
    forall x ensures !Reaches(part, x, x) {
      if Reaches(part, x, x) {
        var p :| Connects(part, p, x, x);
        assert Connects(g, p, x, x);
        assert Reaches(g, x, x);
      }
    }
  }

  // ----- the nodes a batch is sorted with -----

  lemma NodeIsRecord(records: seq<Record>, i: nat)
    requires TableOk(records) && i < |records|
    ensures var node := DependencyNodes(records)[i];
            && node.name == NamesOf(records)[i] && Find(records, node.name) == Some(records[i])
            && node == records[i].spec.DependencyNode()
  {
    FindIsUnique(records, records[i]);
  }

  lemma NodesAreTable(records: seq<Record>)
    requires TableOk(records)
    ensures DepGraph.DistinctNames(DependencyNodes(records))
    ensures forall node <- DependencyNodes(records) ::
              SpecOf(records, node.name).Some? && SpecOf(records, node.name).value.dependsOn == node.dependsOn
    ensures forall n :: Has(records, n) ==> SpecOf(records, n).value.DependencyNode() in DependencyNodes(records)
  {
    hide DependencyNodes, Find, NamesOf;
    var nodes := DependencyNodes(records);
    forall i | 0 <= i < |records| ensures nodes[i].name == NamesOf(records)[i] {
      NodeIsRecord(records, i);
    }
    forall node <- nodes ensures SpecOf(records, node.name).Some? && SpecOf(records, node.name).value.dependsOn == node.dependsOn {
      var i :| 0 <= i < |nodes| && nodes[i] == node;
      NodeIsRecord(records, i);
    }
    forall n | Has(records, n) ensures SpecOf(records, n).value.DependencyNode() in nodes {
      FindIsExact(records, n);
      var i :| 0 <= i < |records| && records[i] == Find(records, n).value;
      NodeIsRecord(records, i);
      assert nodes[i] in nodes;
    }
  }

  predicate DistinctSpecs(specs: seq<Spec>) {
    forall i, j :: 0 <= i < j < |specs| ==> specs[i].name != specs[j].name
  }

  lemma {:induction false} OthersStayDistinct(known: seq<DepGraph.Node>, specs: seq<Spec>)
    requires DepGraph.DistinctNames(known)
    ensures DepGraph.DistinctNames(OtherNodes(known, specs))
  {
    if known != [] {
      OthersStayDistinct(known[1..], specs);
      forall node <- OtherNodes(known[1..], specs) ensures node.name != known[0].name {
        var i :| 0 <= i < |known[1..]| && known[1..][i] == node;
        assert known[0].name != known[i + 1].name;
      }
    }
  }

  /** What the merged graph says of a name: its new declaration if it is in the batch, else its record's. */
  function MergedSpec(records: seq<Record>, specs: seq<Spec>, n: Name): Option<Spec> {
    if exists i :: 0 <= i < |specs| && specs[i].name == n then Some(Declared(specs, n)) else SpecOf(records, n)
  }

  function Declared(specs: seq<Spec>, n: Name): (spec: Spec)
    requires exists i :: 0 <= i < |specs| && specs[i].name == n
    ensures spec in specs && spec.name == n
  {
    if specs[0].name == n then specs[0] else Declared(specs[1..], n)
  }

  lemma DeclaredIsUnique(specs: seq<Spec>, spec: Spec)
    requires DistinctSpecs(specs) && spec in specs
    ensures NamesInclude(specs, spec.name) && Declared(specs, spec.name) == spec
  {
    var i :| 0 <= i < |specs| && specs[i] == spec;
    assert specs[i].name == spec.name;
    var d := Declared(specs, spec.name);
    var j :| 0 <= j < |specs| && specs[j] == d;
  }

  lemma MergedDistinct(records: seq<Record>, specs: seq<Spec>)
    requires TableOk(records) && DistinctSpecs(specs)
    ensures DepGraph.DistinctNames(MergedNodes(records, specs))
  {
    NodesAreTable(records);
    var known := DependencyNodes(records);
    OthersStayDistinct(known, specs);
    hide TableOk, DependencyNodes;
    var batch, others := SpecNodes(specs), OtherNodes(known, specs);
    var nodes := MergedNodes(records, specs);
    forall i, j | 0 <= i < j < |nodes| ensures nodes[i].name != nodes[j].name {
      if i < |batch| <= j {
        assert nodes[j] in others;
        assert specs[i] in specs;
      }
    }
  }

  lemma MergedNode(records: seq<Record>, specs: seq<Spec>, node: DepGraph.Node)
    requires TableOk(records) && DistinctSpecs(specs) && node in MergedNodes(records, specs)
    ensures MergedSpec(records, specs, node.name).Some?
    ensures MergedSpec(records, specs, node.name).value.dependsOn == node.dependsOn
  {
    NodesAreTable(records);
    hide TableOk;
    var batch := SpecNodes(specs);
    if node in batch {
      var i :| 0 <= i < |batch| && batch[i] == node;
      DeclaredIsUnique(specs, specs[i]);
    } else {
      assert node in OtherNodes(DependencyNodes(records), specs);
      assert !NamesInclude(specs, node.name);
    }
  }

  lemma MergedKnown(records: seq<Record>, specs: seq<Spec>, n: Name) returns (node: DepGraph.Node)
    requires TableOk(records) && DistinctSpecs(specs) && MergedSpec(records, specs, n).Some?
    ensures node in MergedNodes(records, specs) && node.name == n
  {
    if exists i :: 0 <= i < |specs| && specs[i].name == n {
      var i :| 0 <= i < |specs| && specs[i].name == n;
      node := SpecNodes(specs)[i];
      assert node in MergedNodes(records, specs);
    } else {
      NodesAreTable(records);
      assert RecordOk(Find(records, n).value);
      node := SpecOf(records, n).value.DependencyNode();
      assert node in OtherNodes(DependencyNodes(records), specs);
    }
  }

  lemma MergedEdges(records: seq<Record>, specs: seq<Spec>)
    requires TableOk(records) && DistinctSpecs(specs)
    ensures DepGraph.DistinctNames(MergedNodes(records, specs))
    ensures forall n :: DepGraph.Known(MergedNodes(records, specs), n) <==> MergedSpec(records, specs, n).Some?
    ensures forall a, b :: Edge(DepGraph.GraphOf(MergedNodes(records, specs)), a, b) <==>
              MergedSpec(records, specs, a).Some? && b in MergedSpec(records, specs, a).value.dependsOn
  {
    MergedDistinct(records, specs);
    var nodes := MergedNodes(records, specs);
    DepGraph.GraphOfNodes(nodes);
    hide TableOk, DistinctSpecs, MergedNodes, MergedSpec;
    forall n ensures DepGraph.Known(nodes, n) <==> MergedSpec(records, specs, n).Some? {
      if DepGraph.Known(nodes, n) {
        var node :| node in nodes && node.name == n;
        MergedNode(records, specs, node);
      }
      if MergedSpec(records, specs, n).Some? {
        var node := MergedKnown(records, specs, n);
      }
    }
    forall a, b ensures Edge(DepGraph.GraphOf(nodes), a, b) <==>
        MergedSpec(records, specs, a).Some? && b in MergedSpec(records, specs, a).value.dependsOn {
      if a in DepGraph.GraphOf(nodes) {
        var node :| node in nodes && node.name == a;
        MergedNode(records, specs, node);
      }
      if MergedSpec(records, specs, a).Some? {
        var node := MergedKnown(records, specs, a);
        MergedNode(records, specs, node);
      }
    }
  }

  // ----- what the table declares along the batch -----

  lemma UpsertSpecs(records: seq<Record>, spec: Spec, nowMs: nat)
    requires TableOk(records) && |records| < U32_MAX
    ensures forall n :: SpecOf(Upsert(records, spec, nowMs), n) == if n == spec.name then Some(spec) else SpecOf(records, n)
  {
    UpsertKeepsTable(records, spec, nowMs);
  }

  lemma {:induction false} UpsertAllSpecs(records: seq<Record>, specs: seq<Spec>, nowMs: nat)
    requires TableOk(records) && |records| + |specs| < U32_MAX && DistinctSpecs(specs)
    ensures var (after, previous) := UpsertAll(records, specs, nowMs);
            && (forall n :: SpecOf(after, n) == MergedSpec(records, specs, n))
            && |previous| == |specs|
            && (forall i :: 0 <= i < |specs| ==> previous[i] == Prior(specs[i].name, SpecOf(records, specs[i].name)))
    decreases |specs|
  {
    if specs != [] {
      UpsertKeepsTable(records, specs[0], nowMs);
      UpsertSpecs(records, specs[0], nowMs);
      var next := Upsert(records, specs[0], nowMs);
      UpsertAllSpecs(next, specs[1..], nowMs);
      forall n ensures MergedSpec(next, specs[1..], n) == MergedSpec(records, specs, n) {
        MergedTail(records, specs, nowMs, n);
      }
      forall i | 1 <= i < |specs| ensures SpecOf(next, specs[i].name) == SpecOf(records, specs[i].name) {
        assert specs[i].name != specs[0].name;
      }
    }
  }

  lemma MergedTail(records: seq<Record>, specs: seq<Spec>, nowMs: nat, n: Name)
    requires specs != [] && DistinctSpecs(specs)
    requires forall m :: SpecOf(Upsert(records, specs[0], nowMs), m) ==
               if m == specs[0].name then Some(specs[0]) else SpecOf(records, m)
    ensures MergedSpec(Upsert(records, specs[0], nowMs), specs[1..], n) == MergedSpec(records, specs, n)
  {
    if exists i :: 0 <= i < |specs[1..]| && specs[1..][i].name == n {
      var i :| 0 <= i < |specs[1..]| && specs[1..][i].name == n;
      assert specs[i + 1].name == n;
      DeclaredIsUnique(specs, specs[i + 1]);
      assert DistinctSpecs(specs[1..]);
      DeclaredIsUnique(specs[1..], specs[i + 1]);
    } else if specs[0].name == n {
      DeclaredIsUnique(specs, specs[0]);
    }
  }

  lemma LaunchKeepsSpecs(s: State, name: Name, register: bool, ports: Ports)
    ensures SameSpecs(s.records, LaunchOne(s, name, register, ports).0.records)
  {
    if Has(s.records, name) && LaunchOne(s, name, register, ports).1.Some? {
      var updated := LaunchEdits(s, name, register, ports);
      hide LaunchOne;
    }
  }

  /** The launching loop keeps every declaration and gets through a prefix of the order. */
  lemma {:induction false} LaunchBatchSpecs(s: State, order: seq<Name>, specs: seq<Spec>, waiting: set<Name>, ports: Ports)
    requires AllHave(s.records, order)
    ensures var (next, report) := LaunchBatch(s, order, specs, waiting, ports);
            && SameSpecs(s.records, next.records)
            && |report.outcomes| <= |order|
            && (!report.failed ==> |report.outcomes| == |order|)
            && (forall i :: 0 <= i < |report.outcomes| ==> report.outcomes[i].name == order[i])
    decreases |order|
  {
    hide SameSpecs, DependsOnOf, WaitingDependencies, AwaitsReady, LaunchOne;
    if order == [] {
      SpecsStay(s.records);
    } else {
      var name := order[0];
      var waitingOn := WaitingDependencies(DependsOnOf(specs, name), waiting);
      assert Has(s.records, name);
      if waitingOn != [] {
        LaunchBatchSpecs(s, order[1..], specs, waiting + {name}, ports);
      } else {
        LaunchKeepsSpecs(s, name, true, ports);
        LaunchNames(s, name, true, ports);
        var (tried, outcome) := LaunchOne(s, name, true, ports);
        if outcome.Some? {
          var waits := if AwaitsReady(tried.records, name) then waiting + {name} else waiting;
          SameSpecsHave(s.records, tried.records, order);
          LaunchBatchSpecs(tried, order[1..], specs, waits, ports);
          SameSpecsThen(s.records, tried.records, LaunchBatch(tried, order[1..], specs, waits, ports).0.records);
        }
      }
    }
  }

  lemma SpecsStay(records: seq<Record>)
    ensures SameSpecs(records, records)
  {
  }

  lemma SameSpecsHave(records: seq<Record>, next: seq<Record>, names: seq<Name>)
    requires SameSpecs(records, next) && AllHave(records, names)
    ensures AllHave(next, names)
  {
    forall n <- names ensures Has(next, n) {
      assert SpecOf(next, n) == SpecOf(records, n);
    }
  }

  lemma SameSpecsThen(records: seq<Record>, mid: seq<Record>, next: seq<Record>)
    requires SameSpecs(records, mid) && SameSpecs(mid, next)
    ensures SameSpecs(records, next)
  {
    forall n ensures SpecOf(next, n) == SpecOf(records, n) {
      assert SpecOf(mid, n) == SpecOf(records, n);
    }
  }

  predicate InPriors(previous: seq<Prior>, n: Name) {
    exists p <- previous :: p.name == n
  }

  predicate DistinctPriors(previous: seq<Prior>) {
    forall i, j :: 0 <= i < j < |previous| ==> previous[i].name != previous[j].name
  }

  /** The roll-back: names without an outcome get back what they held, or go. */
  lemma {:induction false} ForgetSpecs(records: seq<Record>, previous: seq<Prior>, outcomes: seq<StartOutcome>, nowMs: nat)
    requires TableOk(records) && |records| + |previous| < U32_MAX
    requires DistinctPriors(previous) && forall p <- previous :: p.spec.Some? ==> p.spec.value.name == p.name
    ensures var after := ForgetUnlaunched(records, previous, outcomes, nowMs);
            && (forall p <- previous :: SpecOf(after, p.name) == if Outcome(outcomes, p.name) then SpecOf(records, p.name) else p.spec)
            && (forall n :: !InPriors(previous, n) ==> SpecOf(after, n) == SpecOf(records, n))
    decreases |previous|
  {
    if previous != [] {
      var prior := previous[0];
      var rest := previous[1..];
      assert previous == [prior] + rest;
      var undone :=
        if Outcome(outcomes, prior.name) then records
        else if prior.spec.Some? then Upsert(records, prior.spec.value, nowMs)
        else Remove(records, prior.name);
      UndoOne(records, prior, outcomes, nowMs);
      hide TableOk;
      ForgetSpecs(undone, rest, outcomes, nowMs);
      hide Upsert, Remove, SpecOf;
      var after := ForgetUnlaunched(records, previous, outcomes, nowMs);
      assert after == ForgetUnlaunched(undone, rest, outcomes, nowMs);
      forall p <- rest ensures p.name != prior.name {
        var i :| 0 <= i < |rest| && rest[i] == p;
        assert previous[0].name != previous[i + 1].name;
      }
      assert !InPriors(rest, prior.name);
      forall p <- previous ensures SpecOf(after, p.name) == if Outcome(outcomes, p.name) then SpecOf(records, p.name) else p.spec {
        if p != prior {
          assert p in rest;
        }
      }
      forall n | !InPriors(previous, n) ensures SpecOf(after, n) == SpecOf(records, n) {
        assert prior in previous;
        assert !InPriors(rest, n);
      }
    }
  }

  lemma UndoOne(records: seq<Record>, prior: Prior, outcomes: seq<StartOutcome>, nowMs: nat)
    requires TableOk(records) && |records| + 1 < U32_MAX
    requires prior.spec.Some? ==> prior.spec.value.name == prior.name
    ensures var undone :=
              if Outcome(outcomes, prior.name) then records
              else if prior.spec.Some? then Upsert(records, prior.spec.value, nowMs)
              else Remove(records, prior.name);
            && TableOk(undone) && |undone| <= |records| + 1
            && SpecOf(undone, prior.name) == (if Outcome(outcomes, prior.name) then SpecOf(records, prior.name) else prior.spec)
            && forall n :: n != prior.name ==> SpecOf(undone, n) == SpecOf(records, n)
  {
    if !Outcome(outcomes, prior.name) {
      if prior.spec.Some? {
        UpsertKeepsTable(records, prior.spec.value, nowMs);
      } else {
        RemoveKeepsTable(records, prior.name);
        RemoveIsShorter(records, prior.name);
      }
    }
  }

  // ----- closed and acyclic, whatever became of the batch -----

  function IndexOf(order: seq<Name>, n: Name): (i: nat)
    requires n in order
    ensures i < |order| && order[i] == n
  {
    if order[0] == n then 0 else 1 + IndexOf(order[1..], n)
  }

  /** A prefix of the batch order is the batch part of a prefix of the full order. */
  lemma {:induction false} BatchPrefix(full: seq<Name>, specs: seq<Spec>, k: nat) returns (p: nat)
    requires k <= |InBatch(full, specs)|
    ensures p <= |full| && forall n :: n in InBatch(full, specs)[..k] <==> n in full[..p] && NamesInclude(specs, n)
  {
    if k == 0 {
      p := 0;
    } else if NamesInclude(specs, full[0]) {
      var q := BatchPrefix(full[1..], specs, k - 1);
      p := q + 1;
      assert full[..p] == [full[0]] + full[1..][..q];
      assert InBatch(full, specs)[..k] == [full[0]] + InBatch(full[1..], specs)[..k - 1];
    } else {
      var q := BatchPrefix(full[1..], specs, k);
      p := q + 1;
      assert full[..p] == [full[0]] + full[1..][..q];
    }
  }

  /**
   * The mixed table: names before position `p` of the new order carry their merged declaration, the
   * others the old one if they had any.
   */
  ghost predicate Mixed(records: seq<Record>, specs: seq<Spec>, full: seq<Name>, p: nat, after: seq<Record>)
    requires p <= |full|
  {
    forall n :: SpecOf(after, n) == if n in full[..p] then MergedSpec(records, specs, n) else SpecOf(records, n)
  }

  /** A closed acyclic table can be ordered by itself, as a merge with an empty batch. */
  lemma TableSorts(records: seq<Record>)
    requires TableOk(records) && SoundGraph(records)
    ensures DepGraph.TopoSort(MergedNodes(records, [])).Ordered?
  {
    MergedEdges(records, []);
    TableGraphEdges(records);
    var nodes := MergedNodes(records, []);
    var g := DepGraph.GraphOf(nodes);
    DepGraph.TopoSortExact(nodes);
    DepGraph.GraphOfNodes(nodes);
    hide TableOk, MergedNodes, DepGraph.GraphOf, DepGraph.TopoSort, TableGraph;
    forall a, b ensures Edge(g, a, b) ==> Edge(TableGraph(records), a, b) {
      assert MergedSpec(records, [], a) == SpecOf(records, a);
    }
    forall a, b | Edge(g, a, b) ensures b in g {
      assert Edge(TableGraph(records), a, b);
      assert b in TableGraph(records);
      assert MergedSpec(records, [], b) == SpecOf(records, b);
      assert DepGraph.Known(nodes, b);
    }
    SubgraphIsAcyclic(TableGraph(records), g);
  }

  lemma MergedNameKnown(records: seq<Record>, specs: seq<Spec>, full: seq<Name>, n: Name)
    requires TableOk(records) && DistinctSpecs(specs)
    requires DepGraph.TopoSort(MergedNodes(records, specs)) == DepGraph.Ordered(full)
    ensures n in full <==> MergedSpec(records, specs, n).Some?
  {
    MergedEdges(records, specs);
    DepGraph.TopoSortExact(MergedNodes(records, specs));
  }

  lemma MergedEdgeFalls(records: seq<Record>, specs: seq<Spec>, full: seq<Name>, p: nat, a: Name, b: Name)
    requires TableOk(records) && DistinctSpecs(specs)
    requires DepGraph.TopoSort(MergedNodes(records, specs)) == DepGraph.Ordered(full)
    requires p <= |full| && a in full[..p]
    requires MergedSpec(records, specs, a).Some? && b in MergedSpec(records, specs, a).value.dependsOn
    ensures b in full[..p] && IndexOf(full, b) < IndexOf(full, a) && MergedSpec(records, specs, b).Some?
  {
    MergedEdges(records, specs);
    DepGraph.TopoSortExact(MergedNodes(records, specs));
    MergedNameKnown(records, specs, full, b);
    var g := DepGraph.GraphOf(MergedNodes(records, specs));
    hide TableOk, DistinctSpecs, MergedNodes, DepGraph.GraphOf, DepGraph.TopoSort, MergedSpec;
    assert Edge(g, a, b);
    EarlierInOrder(g, full, p, a, b);
  }

  lemma EarlierInOrder(g: Graph, full: seq<Name>, p: nat, a: Name, b: Name)
    requires NoDup(full) && forall i, d :: 0 <= i < |full| && Edge(g, full[i], d) ==> d in full[..i]
    requires p <= |full| && a in full[..p] && Edge(g, a, b)
    ensures b in full[..p] && IndexOf(full, b) < IndexOf(full, a)
  {
    var i := IndexOf(full, a);
    var k :| 0 <= k < p && full[..p][k] == a;
    assert full[k] == full[i] && i == k;
    var j :| 0 <= j < i && full[..i][j] == b;
    assert full[j] == full[IndexOf(full, b)] && IndexOf(full, b) == j;
    assert full[..p][j] == b;
  }

  /** One edge of the mixed table: it ends at a record and falls in the combined rank. */
  lemma MixedEdgeFalls(records: seq<Record>, specs: seq<Spec>, full: seq<Name>, p: nat, after: seq<Record>,
                       oldOrder: seq<Name>, a: Name, b: Name)
    requires TableOk(records) && DistinctSpecs(specs) && SoundGraph(records)
    requires DepGraph.TopoSort(MergedNodes(records, specs)) == DepGraph.Ordered(full)
    requires DepGraph.TopoSort(MergedNodes(records, [])) == DepGraph.Ordered(oldOrder)
    requires p <= |full| && Mixed(records, specs, full, p, after)
    requires SpecOf(after, a).Some? && b in SpecOf(after, a).value.dependsOn
    ensures SpecOf(after, b).Some?
    ensures a in full[..p] ==> b in full[..p] && IndexOf(full, b) < IndexOf(full, a)
    ensures a !in full[..p] ==> a in oldOrder && b in oldOrder && IndexOf(oldOrder, b) < IndexOf(oldOrder, a)
  {
    assert SpecOf(after, a) == if a in full[..p] then MergedSpec(records, specs, a) else SpecOf(records, a);
    assert SpecOf(after, b) == if b in full[..p] then MergedSpec(records, specs, b) else SpecOf(records, b);
    if b in full[..p] {
      MergedNameKnown(records, specs, full, b);
    }
    if a in full[..p] {
      MergedEdgeFalls(records, specs, full, p, a, b);
    } else {
      assert MergedSpec(records, [], a) == SpecOf(records, a) && MergedSpec(records, [], b) == SpecOf(records, b);
      MergedNameKnown(records, [], oldOrder, a);
      assert oldOrder[..|oldOrder|] == oldOrder;
      MergedEdgeFalls(records, [], oldOrder, |oldOrder|, a, b);
    }
  }

  lemma MixedIsSound(records: seq<Record>, specs: seq<Spec>, full: seq<Name>, p: nat, after: seq<Record>)
    requires TableOk(records) && DistinctSpecs(specs) && SoundGraph(records)
    requires DepGraph.TopoSort(MergedNodes(records, specs)) == DepGraph.Ordered(full)
    requires p <= |full| && Mixed(records, specs, full, p, after)
    ensures SoundGraph(after)
  {
    TableSorts(records);
    TableGraphEdges(after);
    var oldOrder := DepGraph.TopoSort(MergedNodes(records, [])).order;
    hide TableOk, DistinctSpecs, MergedNodes, DepGraph.TopoSort, Mixed, TableGraph;
    var g := TableGraph(after);
    var rank: map<Name, nat> :=
      map n | n in Elems(full[..p]) + Elems(oldOrder) :: if n in full[..p] then IndexOf(full, n) else |full| + IndexOf(oldOrder, n);
    forall a, b | Edge(g, a, b) ensures b in g && a in rank && b in rank && rank[b] < rank[a] {
      MixedEdgeFalls(records, specs, full, p, after, oldOrder, a, b);
    }
    RankForbidsCycles(g, rank);
  }

  /**
   * `start_apps` on distinct names keeps a closed acyclic table closed and acyclic: refused, completed,
   * or stopped midway with the launched prefix on its new declarations and the rest put back.
   */
  lemma StartAppsKeepsGraph(s: State, specs: seq<Spec>, ports: Ports)
    requires TableOk(s.records) && RoomFor(s, |specs|) && DistinctSpecs(specs) && SoundGraph(s.records)
    ensures SoundGraph(StartApps(s, specs, ports).0.records)
  {
    var accepted := AcceptedOrder(s.records, specs, ports);
    if accepted.Some? {
      var full := DepGraph.TopoSort(MergedNodes(s.records, specs)).order;
      var order := accepted.value;
      var nowMs := ports.now(s.tick);
      UpsertAllSpecs(s.records, specs, nowMs);
      UpsertAllTable(s.records, specs, nowMs);
      var (registered, previous) := UpsertAll(s.records, specs, nowMs);
      var ready := Tick(s.(records := registered));
      BatchNamesHeld(s.records, registered, order, specs);
      LaunchBatchSpecs(ready, order, specs, {}, ports);
      LaunchBatchTable(ready, order, specs, {}, ports);
      var (tried, report) := LaunchBatch(ready, order, specs, {}, ports);
      var k := |report.outcomes|;
      var p := BatchPrefix(full, specs, k);
      var after := StartApps(s, specs, ports).0.records;
      if report.failed {
        RolledBackIsMixed(s.records, specs, full, p, tried.records, previous, report.outcomes, nowMs);
        MixedIsSound(s.records, specs, full, p, after);
      } else {
        assert after == tried.records;
        CompleteIsMixed(s.records, specs, full, after);
        MixedIsSound(s.records, specs, full, |full|, after);
      }
    }
  }

  lemma BatchNamesHeld(records: seq<Record>, registered: seq<Record>, order: seq<Name>, specs: seq<Spec>)
    requires forall n <- order :: NamesInclude(specs, n)
    requires forall n :: SpecOf(registered, n) == MergedSpec(records, specs, n)
    ensures AllHave(registered, order)
  {
    forall n <- order ensures Has(registered, n) {
      var spec :| spec in specs && spec.name == n;
      var i :| 0 <= i < |specs| && specs[i] == spec;
      assert specs[i].name == n;
      assert SpecOf(registered, n) == MergedSpec(records, specs, n);
    }
  }

  lemma {:induction false} UpsertAllTable(records: seq<Record>, specs: seq<Spec>, nowMs: nat)
    requires TableOk(records) && |records| + |specs| < U32_MAX
    ensures TableOk(UpsertAll(records, specs, nowMs).0)
    ensures |UpsertAll(records, specs, nowMs).0| <= |records| + |specs|
    decreases |specs|
  {
    if specs != [] {
      UpsertKeepsTable(records, specs[0], nowMs);
      UpsertAllTable(Upsert(records, specs[0], nowMs), specs[1..], nowMs);
    }
  }

  lemma LaunchKeepsTable(s: State, name: Name, ports: Ports)
    requires TableOk(s.records) && Has(s.records, name)
    ensures TableOk(LaunchOne(s, name, true, ports).0.records)
    ensures |LaunchOne(s, name, true, ports).0.records| == |s.records|
  {
    var next, outcome := LaunchOne(s, name, true, ports).0, LaunchOne(s, name, true, ports).1;
    if outcome.Some? {
      var updated := LaunchEdits(s, name, true, ports);
      hide LaunchOne;
      PutKeepsTable(s.records, name, updated);
    }
  }

  lemma {:induction false} LaunchBatchTable(s: State, order: seq<Name>, specs: seq<Spec>, waiting: set<Name>, ports: Ports)
    requires TableOk(s.records) && AllHave(s.records, order)
    ensures TableOk(LaunchBatch(s, order, specs, waiting, ports).0.records)
    ensures |LaunchBatch(s, order, specs, waiting, ports).0.records| == |s.records|
    decreases |order|
  {
    if order != [] {
      var name := order[0];
      if WaitingDependencies(DependsOnOf(specs, name), waiting) != [] {
        LaunchBatchTable(s, order[1..], specs, waiting + {name}, ports);
      } else {
        LaunchKeepsTable(s, name, ports);
        LaunchKeepsSpecs(s, name, true, ports);
        var (tried, outcome) := LaunchOne(s, name, true, ports);
        if outcome.Some? {
          SameSpecsHave(s.records, tried.records, order);
          LaunchBatchTable(tried, order[1..], specs,
                           if AwaitsReady(tried.records, name) then waiting + {name} else waiting, ports);
        }
      }
    }
  }

  lemma CompleteIsMixed(records: seq<Record>, specs: seq<Spec>, full: seq<Name>, after: seq<Record>)
    requires TableOk(records) && DistinctSpecs(specs)
    requires DepGraph.TopoSort(MergedNodes(records, specs)) == DepGraph.Ordered(full)
    requires forall n :: SpecOf(after, n) == MergedSpec(records, specs, n)
    ensures Mixed(records, specs, full, |full|, after)
  {
    MergedEdges(records, specs);
    DepGraph.TopoSortExact(MergedNodes(records, specs));
    assert full[..|full|] == full;
    forall n ensures SpecOf(after, n) == if n in full then MergedSpec(records, specs, n) else SpecOf(records, n) {
      if n !in full {
        assert MergedSpec(records, specs, n).None?;
      }
    }
  }

  lemma OutcomeIsPrefix(outcomes: seq<StartOutcome>, order: seq<Name>, n: Name)
    requires |outcomes| <= |order| && forall i :: 0 <= i < |outcomes| ==> outcomes[i].name == order[i]
    ensures Outcome(outcomes, n) <==> n in order[..|outcomes|]
  {
    if n in order[..|outcomes|] {
      var i :| 0 <= i < |outcomes| && order[..|outcomes|][i] == n;
      assert outcomes[i] in outcomes;
    }
  }

  lemma RolledBackIsMixed(records: seq<Record>, specs: seq<Spec>, full: seq<Name>, p: nat, tried: seq<Record>,
                          previous: seq<Prior>, outcomes: seq<StartOutcome>, nowMs: nat)
    requires TableOk(records) && DistinctSpecs(specs) && TableOk(tried) && |tried| + |specs| < U32_MAX
    requires forall n :: SpecOf(tried, n) == MergedSpec(records, specs, n)
    requires |previous| == |specs|
    requires forall i :: 0 <= i < |specs| ==> previous[i] == Prior(specs[i].name, SpecOf(records, specs[i].name))
    requires p <= |full| && |outcomes| <= |InBatch(full, specs)|
    requires forall i :: 0 <= i < |outcomes| ==> outcomes[i].name == InBatch(full, specs)[i]
    requires forall n :: n in InBatch(full, specs)[..|outcomes|] <==> n in full[..p] && NamesInclude(specs, n)
    ensures Mixed(records, specs, full, p, ForgetUnlaunched(tried, previous, outcomes, nowMs))
  {
    var after := ForgetUnlaunched(tried, previous, outcomes, nowMs);
    forall q <- previous | q.spec.Some? ensures q.spec.value.name == q.name {
      var i :| 0 <= i < |previous| && previous[i] == q;
      assert RecordOk(Find(records, q.name).value);
    }
    ForgetSpecs(tried, previous, outcomes, nowMs);
    forall n ensures SpecOf(after, n) == if n in full[..p] then MergedSpec(records, specs, n) else SpecOf(records, n) {
      OutcomeIsPrefix(outcomes, InBatch(full, specs), n);
      assert SpecOf(tried, n) == MergedSpec(records, specs, n);
      if exists i :: 0 <= i < |specs| && specs[i].name == n {
        var i :| 0 <= i < |specs| && specs[i].name == n;
        assert specs[i] in specs && NamesInclude(specs, n);
        assert previous[i] in previous && previous[i].name == n;
      } else {
        assert !InPriors(previous, n);
      }
    }
  }

  // ----- the commands -----

  lemma {:induction false} WatchAllRecords(s: State, outcomes: seq<StartOutcome>)
    ensures WatchAll(s, outcomes).records == s.records
    decreases |outcomes|
  {
    if outcomes != [] {
      WatchAllRecords(Watch(s, outcomes[0]), outcomes[1..]);
    }
  }

  lemma {:induction false} SettleStartedRecords(s: State, outcomes: seq<StartOutcome>, ports: Ports)
    ensures SettleStarted(s, outcomes, ports).records == s.records
    decreases |outcomes|
  {
    if outcomes != [] {
      var cancelled := CancelQueuedRestart(s, outcomes[0].name);
      SettleStartedRecords(
        if outcomes[0].kind.Deferred? then cancelled else ArmTimerFor(cancelled, outcomes[0].name, ports),
        outcomes[1..], ports);
    }
  }

  /** The start command keeps the graph of the table closed and acyclic. */
  lemma StartKeepsGraph(w: World, services: seq<Name>, ports: Ports)
    requires Inv(w) && Enabled(w, StartServices(services)) && NoDup(services) && SoundGraph(w.sup.records)
    ensures SoundGraph(Step(w, StartServices(services), ports).sup.records)
  {
    var s := Begun(w);
    PrepareAllKeeps(s, services, ports, w.outstanding, |w.sup.launched|);
    HandleStart(s, services, ports);
    hide Handle, Coherent, SoundGraph, StartApps, PrepareAll, WatchAll, SettleStarted, AddPending, WatchesIn;
    var (asked, specs) := PrepareAll(s, services, ports);
    if specs.Some? {
      StartAppsKeepsGraph(asked, specs.value, ports);
      var (started, report) := StartApps(asked, specs.value, ports);
      WatchAllRecords(started, report.outcomes);
      var watched := WatchAll(started, report.outcomes);
      SettleStartedRecords(watched.(waiters := AddPending(watched.waiters, report.pending)), report.outcomes, ports);
    }
  }

  lemma DeadStepSpecs(s: State, dead: seq<Name>)
    requires dead != []
    ensures SameSpecs(s.records, DeadStep(s, dead).0.records)
  {
    hide ForgetWaiter;
  }

  lemma {:induction false} FailDeadSpecs(s: State, dead: seq<Name>)
    ensures SameSpecs(s.records, FailDead(s, dead).0.records)
    decreases |s.waiters|, |dead|
  {
    if dead != [] {
      var (cut, longer) := DeadStep(s, dead);
      DeadStepShrinks(s, dead);
      DeadStepSpecs(s, dead);
      hide SameSpecs, DeadStep;
      FailDeadSpecs(cut, longer);
      SameSpecsThen(s.records, cut.records, FailDead(cut, longer).0.records);
    }
  }

  lemma RetireSpecs(s: State, n: Name, pid: Option<nat>, token: Option<string>)
    ensures SameSpecs(s.records, Retire(s, n, pid, token).records)
  {
    var cancelled := CancelQueuedRestart(Disarm(s, n), n);
    var forgotten := cancelled.(readyFailed := s.readyFailed - {n}, waiters := ForgetWaiter(s.waiters, n));
    FailDeadSpecs(forgotten.(waiters := forgotten.waiters - {n}), WaitersOf(forgotten.waiters, n));
  }

  lemma CoverSpecs(s: State, selector: Selector)
    ensures SameSpecs(s.records, CoverDraining(s, selector).records)
  {
    var found := FindBy(s.records, selector);
    if found.Some? {
      hide Retire;
      RetireSpecs(s, found.value.runtime.name, found.value.runtime.pid, found.value.runtime.Token());
    }
  }

  lemma RequestStopSpecs(s: State, n: Name, ports: Ports)
    ensures SameSpecs(s.records, RequestStop(s, n, ports).0.records)
  {
    hide Find, Put;
  }

  /** Removing a record nobody depends on leaves the rest closed and acyclic. */
  lemma RemoveKeepsGraph(records: seq<Record>, n: Name)
    requires TableOk(records) && SoundGraph(records) && !HasDependents(records, n)
    ensures SoundGraph(Remove(records, n))
  {
    RemoveKeepsTable(records, n);
    var after := Remove(records, n);
    TableGraphEdges(records);
    TableGraphEdges(after);
    forall a, b | Edge(TableGraph(after), a, b) ensures Edge(TableGraph(records), a, b) && b in TableGraph(after) {
      assert a != n;
      assert Edge(TableGraph(records), a, b);
      FindIsExact(records, a);
      assert b != n;
    }
    SubgraphIsAcyclic(TableGraph(records), TableGraph(after));
  }

  lemma DependentsBySpecs(records: seq<Record>, next: seq<Record>, n: Name)
    requires TableOk(records) && TableOk(next) && SameSpecs(records, next) && !HasDependents(records, n)
    ensures !HasDependents(next, n)
  {
    forall r <- next ensures n !in r.spec.dependsOn {
      FindIsUnique(next, r);
      assert SpecOf(next, r.runtime.name) == SpecOf(records, r.runtime.name);
      FindIsExact(records, r.runtime.name);
    }
  }

  lemma DeleteCommandKeepsGraph(s: State, selector: Selector, ports: Ports, before: set<ExitWatch>, from: nat)
    requires Coherent(s, before, from, []) && !selector.All? && SoundGraph(s.records)
    ensures SoundGraph(Delete(s, selector, ports).records)
  {
    var (tried, outcome) := DeleteApp(s, selector, ports);
    DeleteAppKeepsGraph(s, selector, ports, before, from);
    hide DeleteApp, SoundGraph, Coherent, Retire, CoverDraining, SameSpecs, TokenBy;
    if outcome.None? {
      CoverSpecs(tried, selector);
      SameSpecsSameGraph(tried.records, CoverDraining(tried, selector).records);
    } else {
      var retired := Retire(tried, outcome.value.name, outcome.value.forceKillPid, TokenBy(s, selector));
      RetireSpecs(tried, outcome.value.name, outcome.value.forceKillPid, TokenBy(s, selector));
      SameSpecsSameGraph(tried.records, retired.records);
    }
  }

  /** A single delete keeps the graph closed and acyclic, whether it is refused, succeeds or is undone. */
  lemma DeleteKeepsGraph(w: World, selector: Selector, ports: Ports)
    requires Inv(w) && !selector.All? && SoundGraph(w.sup.records)
    ensures SoundGraph(Step(w, DeleteService(selector), ports).sup.records)
  {
    hide Delete, SoundGraph, Coherent, Watched;
    DeleteCommandKeepsGraph(Begun(w), selector, ports, w.outstanding, |w.sup.launched|);
  }

  lemma FoundAlikeSpecs(records: seq<Record>, next: seq<Record>)
    requires forall n :: Find(next, n) == Find(records, n)
    ensures SameSpecs(records, next)
  {
    hide Find;
  }

  lemma DeleteOneKeepsGraph(s: State, n: Name, ports: Ports, before: set<ExitWatch>, from: nat)
    requires Coherent(s, before, from, []) && SoundGraph(s.records) && Has(s.records, n) && !HasDependents(s.records, n)
    ensures SoundGraph(DeleteOne(s, n, ports).0.records)
  {
    StopKeeps(s, n, ports, before, from);
    CoherentKnows(s, before, from, []);
    var (asked, outcome) := RequestStop(s, n, ports);
    CoherentKnows(asked, before, from, []);
    RequestStopSpecs(s, n, ports);
    hide SoundGraph, RequestStop, Find, Remove, HasDependents, SameSpecs, WatchesIn, Coherent, TableOk;
    SameSpecsSameGraph(s.records, asked.records);
    if outcome.Some? {
      SameNamesHave(s, asked);
      DependentsBySpecs(s.records, asked.records, n);
      RemoveKeepsGraph(asked.records, n);
      RestoreKeeps(asked, n, before, from);
      var restored := Remove(asked.records, n) + [Find(asked.records, n).value];
      FoundAlikeSpecs(asked.records, restored);
      SameSpecsSameGraph(asked.records, restored);
    }
  }

  lemma DeleteAppKeepsGraph(s: State, selector: Selector, ports: Ports, before: set<ExitWatch>, from: nat)
    requires Coherent(s, before, from, []) && SoundGraph(s.records)
    ensures SoundGraph(DeleteApp(s, selector, ports).0.records)
  {
    CoherentKnows(s, before, from, []);
    hide SoundGraph, DeleteOne, HasDependents, Coherent;
    var found := FindBy(s.records, selector);
    if found.Some? && !HasDependents(s.records, found.value.runtime.name) {
      FindByIsFind(s.records, selector);
      DeleteOneKeepsGraph(s, found.value.runtime.name, ports, before, from);
    }
  }
}
