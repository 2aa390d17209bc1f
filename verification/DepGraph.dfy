/** Start order of services: the layered topological sort of entities/src/process/depgraph.rs. */
module DepGraph {
  import opened Graphs

  datatype Node = Node(name: Name, dependsOn: seq<Name>)

  datatype TopoResult =
    | Ordered(order: seq<Name>)
    | UnknownDependency(app: Name, dependency: Name)
    | Cycle(involved: seq<Name>)

  ghost function NamesOf(nodes: seq<Node>): set<Name> {
    set node <- nodes :: node.name
  }

  predicate DistinctNames(nodes: seq<Node>) {
    forall i, j :: 0 <= i < j < |nodes| ==> nodes[i].name != nodes[j].name
  }

  /** The dependency graph: an edge leads from a service to each service it depends on. */
  ghost function GraphOf(nodes: seq<Node>): Graph {
    if nodes == [] then map[]
    else GraphOf(nodes[1..])[nodes[0].name := nodes[0].dependsOn]
  }

  predicate Known(nodes: seq<Node>, name: Name) {
    exists node <- nodes :: node.name == name
  }

  function FirstUnknown(deps: seq<Name>, nodes: seq<Node>): (r: seq<Name>)
    ensures r == [] <==> forall d <- deps :: Known(nodes, d)
    ensures r != [] ==> r[0] in deps && !Known(nodes, r[0])
  {
    if deps == [] then []
    else if !Known(nodes, deps[0]) then deps
    else FirstUnknown(deps[1..], nodes)
  }

  function EnsureKnown(rest: seq<Node>, nodes: seq<Node>): (r: TopoResult)
    ensures r.Ordered? || r.UnknownDependency?
    ensures r.Ordered? <==> forall node <- rest :: forall d <- node.dependsOn :: Known(nodes, d)
    ensures r.UnknownDependency? ==>
              !Known(nodes, r.dependency)
              && exists node <- rest :: node.name == r.app && r.dependency in node.dependsOn
  {
    if rest == [] then Ordered([])
    else
      var unknown := FirstUnknown(rest[0].dependsOn, nodes);
      if unknown != [] then
        assert rest[0] in rest;
        UnknownDependency(rest[0].name, unknown[0])
      else EnsureKnown(rest[1..], nodes)
  }

  predicate IsReady(node: Node, order: seq<Name>) {
    node.name !in order && forall d <- node.dependsOn :: d in order
  }

  lemma NoDupConcatIf(name: Name, rest: seq<Name>)
    ensures NoDup(rest) && name !in rest ==> NoDup([name] + rest)
  {
    if NoDup(rest) && name !in rest {
      NoDupConcat([name], rest);
    }
  }

  function NextReadyNames(nodes: seq<Node>, order: seq<Name>): (ready: seq<Name>)
    ensures forall x :: x in ready <==> exists node <- nodes :: node.name == x && IsReady(node, order)
    ensures DistinctNames(nodes) ==> NoDup(ready)
  {
    if nodes == [] then []
    else
      var rest := NextReadyNames(nodes[1..], order);
      if IsReady(nodes[0], order) then
        assert nodes[0] in nodes;
        assert DistinctNames(nodes) ==> forall node <- nodes[1..] :: node.name != nodes[0].name;
        NoDupConcatIf(nodes[0].name, rest);
        [nodes[0].name] + rest
      else rest
  }

  function DependenciesOf(nodes: seq<Node>, name: Name): seq<Name> {
    if nodes == [] then []
    else if nodes[0].name == name then nodes[0].dependsOn
    else DependenciesOf(nodes[1..], name)
  }

  ghost function Unvisited(nodes: seq<Node>, visited: seq<Name>): set<Name> {
    set node <- nodes | node.name !in visited :: node.name
  }

  /** The worklist of `reaches_itself`, popping from the back. */
  function Walk(origin: Name, nodes: seq<Node>, visited: seq<Name>, pending: seq<Name>): bool
    requires forall node <- nodes :: forall d <- node.dependsOn :: Known(nodes, d)
    requires forall x <- pending :: Known(nodes, x)
    decreases |Unvisited(nodes, visited)|, |pending|
  {
    if pending == [] then false
    else
      var name := pending[|pending| - 1];
      var left := pending[..|pending| - 1];
      if name == origin then true
      else if name in visited then Walk(origin, nodes, visited, left)
      else
        assert name in pending;
        VisitShrinks(nodes, visited, name);
        DependenciesKnown(nodes, nodes, name);
        Walk(origin, nodes, visited + [name], left + DependenciesOf(nodes, name))
  }

  lemma VisitShrinks(nodes: seq<Node>, visited: seq<Name>, name: Name)
    requires Known(nodes, name) && name !in visited
    ensures |Unvisited(nodes, visited + [name])| < |Unvisited(nodes, visited)|
  {
    assert name in Unvisited(nodes, visited);
    assert Unvisited(nodes, visited + [name]) == Unvisited(nodes, visited) - {name};
  }

  lemma DependenciesKnown(part: seq<Node>, nodes: seq<Node>, name: Name)
    requires forall node <- part :: forall d <- node.dependsOn :: Known(nodes, d)
    ensures forall d <- DependenciesOf(part, name) :: Known(nodes, d)
  {
  }

  function CycleMembers(rest: seq<Node>, nodes: seq<Node>, order: seq<Name>): (involved: seq<Name>)
    requires forall node <- nodes :: forall d <- node.dependsOn :: Known(nodes, d)
    requires forall node <- rest :: node in nodes
  {
    if rest == [] then []
    else
      var tail := CycleMembers(rest[1..], nodes, order);
      assert rest[0] in nodes;
      if rest[0].name !in order && Walk(rest[0].name, nodes, [], rest[0].dependsOn) then
        [rest[0].name] + tail
      else tail
  }

  function Layers(nodes: seq<Node>, order: seq<Name>): TopoResult
    requires forall node <- nodes :: forall d <- node.dependsOn :: Known(nodes, d)
    decreases |nodes| - |order|
  {
    if |order| >= |nodes| then Ordered(order)
    else
      var ready := NextReadyNames(nodes, order);
      if ready == [] then Cycle(CycleMembers(nodes, nodes, order))
      else Layers(nodes, order + ready)
  }

  function TopoSort(nodes: seq<Node>): TopoResult {
    var known := EnsureKnown(nodes, nodes);
    if known.UnknownDependency? then known else Layers(nodes, [])
  }

  // ----- the graph behind the node list -----

  lemma {:induction false} GraphOfNodes(nodes: seq<Node>)
    requires DistinctNames(nodes)
    ensures GraphOf(nodes).Keys == NamesOf(nodes)
    ensures forall node <- nodes :: GraphOf(nodes)[node.name] == node.dependsOn
  {
    if nodes != [] {
      GraphOfNodes(nodes[1..]);
      assert nodes == [nodes[0]] + nodes[1..];
    }
  }

  lemma {:induction false} DependenciesAreEdges(nodes: seq<Node>, name: Name)
    ensures forall d :: d in DependenciesOf(nodes, name) <==> Edge(GraphOf(nodes), name, d)
  {
    if nodes != [] {
      DependenciesAreEdges(nodes[1..], name);
    }
  }

  ghost predicate AllKnown(nodes: seq<Node>) {
    forall node <- nodes :: forall d <- node.dependsOn :: Known(nodes, d)
  }

  // ----- the depth-first walk decides reachability -----

  /** Everything the walk has met or still holds is reached from the origin. */
  ghost predicate WalkSound(g: Graph, origin: Name, visited: seq<Name>, pending: seq<Name>) {
    (forall x <- visited :: Reaches(g, origin, x) && x != origin)
    && (forall x <- pending :: Reaches(g, origin, x))
  }

  /** Nothing reached is lost: the successors of every visited name are visited or pending. */
  ghost predicate WalkComplete(g: Graph, origin: Name, visited: seq<Name>, pending: seq<Name>) {
    (forall y :: Edge(g, origin, y) ==> y in visited || y in pending)
    && (forall x <- visited, y | Edge(g, x, y) :: y in visited || y in pending)
  }

  lemma {:induction false} WalkDecides(origin: Name, nodes: seq<Node>, visited: seq<Name>, pending: seq<Name>)
    requires AllKnown(nodes) && forall x <- pending :: Known(nodes, x)
    requires WalkSound(GraphOf(nodes), origin, visited, pending)
    requires WalkComplete(GraphOf(nodes), origin, visited, pending)
    ensures Walk(origin, nodes, visited, pending) <==> Reaches(GraphOf(nodes), origin, origin)
    decreases |Unvisited(nodes, visited)|, |pending|
  {
    var g := GraphOf(nodes);
    if pending == [] {
      if Reaches(g, origin, origin) {
        ClosedSetHolds(g, (iset x | x in visited), origin, origin);
      }
    } else {
      var name := pending[|pending| - 1];
      var left := pending[..|pending| - 1];
      assert pending == left + [name];
      assert name in pending;
      if name != origin {
        if name in visited {
          WalkDecides(origin, nodes, visited, left);
        } else {
          VisitShrinks(nodes, visited, name);
          DependenciesKnown(nodes, nodes, name);
          DependenciesAreEdges(nodes, name);
          var deps := DependenciesOf(nodes, name);
          forall d <- deps ensures Reaches(g, origin, d) {
            ReachesThenEdge(g, origin, name, d);
          }
          WalkDecides(origin, nodes, visited + [name], left + deps);
        }
      }
    }
  }

  lemma ReachesItselfExact(nodes: seq<Node>, node: Node)
    requires AllKnown(nodes) && DistinctNames(nodes) && node in nodes
    ensures Walk(node.name, nodes, [], node.dependsOn) <==> Reaches(GraphOf(nodes), node.name, node.name)
  {
    GraphOfNodes(nodes);
    forall d <- node.dependsOn ensures Reaches(GraphOf(nodes), node.name, d) {
      EdgeReaches(GraphOf(nodes), node.name, d);
    }
    WalkDecides(node.name, nodes, [], node.dependsOn);
  }

  // ----- the layers -----

  /** The part already ordered: known distinct names, each after everything it depends on. */
  ghost predicate Layered(nodes: seq<Node>, order: seq<Name>) {
    && NoDup(order)
    && (forall x <- order :: Known(nodes, x))
    && forall i, d :: 0 <= i < |order| && Edge(GraphOf(nodes), order[i], d) ==> d in order[..i]
  }

  lemma ReadyExtends(nodes: seq<Node>, order: seq<Name>)
    requires DistinctNames(nodes) && Layered(nodes, order)
    ensures Layered(nodes, order + NextReadyNames(nodes, order))
  {
    GraphOfNodes(nodes);
    var ready := NextReadyNames(nodes, order);
    var longer := order + ready;
    NoDupConcat(order, ready);
    forall i, d | 0 <= i < |longer| && Edge(GraphOf(nodes), longer[i], d) ensures d in longer[..i] {
      if i < |order| {
        assert longer[..i] == order[..i];
      } else {
        assert longer[i] in ready;
        assert order <= longer[..i];
      }
    }
    forall x <- longer ensures Known(nodes, x) {
      if x !in order {
        assert x in ready;
      }
    }
  }

  /** What lies in the ordered part lies on no cycle. */
  lemma OrderedPartIsAcyclic(nodes: seq<Node>, order: seq<Name>, x: Name)
    requires DistinctNames(nodes) && Layered(nodes, order) && x in order
    ensures !Reaches(GraphOf(nodes), x, x)
  {
    var g := GraphOf(nodes);
    if Reaches(g, x, x) {
      var p :| Connects(g, p, x, x);
      var i :| 0 <= i < |order| && order[i] == x;
      PathFallsBack(nodes, order, p, i, |p| - 1);
      assert false;
    }
  }

  lemma {:induction false} PathFallsBack(nodes: seq<Node>, order: seq<Name>, p: seq<Name>, i: nat, k: nat)
    requires Layered(nodes, order)
    requires 1 <= k < |p| && Path(GraphOf(nodes), p) && i < |order| && p[0] == order[i]
    ensures p[k] in order[..i]
  {
    assert Edge(GraphOf(nodes), p[k - 1], p[k - 1 + 1]);
    if k > 1 {
      PathFallsBack(nodes, order, p, i, k - 1);
      var j :| 0 <= j < i && order[j] == p[k - 1];
      assert p[k] in order[..j];
    }
  }

  lemma {:induction false} CycleMembersExact(rest: seq<Node>, nodes: seq<Node>, order: seq<Name>)
    requires AllKnown(nodes) && DistinctNames(nodes) && forall node <- rest :: node in nodes
    ensures forall x :: x in CycleMembers(rest, nodes, order) <==>
              x !in order && Known(rest, x) && Reaches(GraphOf(nodes), x, x)
  {
    if rest != [] {
      CycleMembersExact(rest[1..], nodes, order);
      ReachesItselfExact(nodes, rest[0]);
      assert rest == [rest[0]] + rest[1..];
    }
  }

  /** A stuck sort leaves services that all wait on one another, so a cycle is among them. */
  lemma StuckMeansCycle(nodes: seq<Node>, order: seq<Name>) returns (x: Name)
    requires AllKnown(nodes) && DistinctNames(nodes) && Layered(nodes, order) && |order| < |nodes|
    requires NextReadyNames(nodes, order) == []
    ensures x !in order && Known(nodes, x) && Reaches(GraphOf(nodes), x, x)
  {
    GraphOfNodes(nodes);
    var left := Unvisited(nodes, order);
    forall a | a in left ensures HasSuccessor(GraphOf(nodes), left, a) {
      var node :| node in nodes && node.name == a;
      assert IsReady(node, order) ==> node.name in NextReadyNames(nodes, order);
      var d :| d in node.dependsOn && d !in order;
      assert Known(nodes, d);
      assert d in left && Edge(GraphOf(nodes), a, d);
    }
    var start := SomeoneLeft(nodes, order);
    x := CycleInside(GraphOf(nodes), left, [start]);
  }

  lemma SomeoneLeft(nodes: seq<Node>, order: seq<Name>) returns (x: Name)
    requires DistinctNames(nodes) && |order| < |nodes|
    ensures x in Unvisited(nodes, order)
  {
    if forall node <- nodes :: node.name in order {
      var names := seq(|nodes|, i requires 0 <= i < |nodes| => nodes[i].name);
      forall n <- names ensures n in Elems(order) {
        var i :| 0 <= i < |names| && names[i] == n;
        assert nodes[i] in nodes;
      }
      DistinctFits(names, Elems(order));
      SetOfSeqIsSmall(order);
      assert false;
    }
    var node :| node in nodes && node.name !in order;
    x := node.name;
  }

  lemma SetOfSeqIsSmall(s: seq<Name>)
    ensures |Elems(s)| <= |s|
  {
    if s != [] {
      SetOfSeqIsSmall(s[1..]);
      assert Elems(s) == {s[0]} + Elems(s[1..]);
    }
  }

  /** The exact answer of a sort: which of the three results, and what each says. */
  ghost predicate ExactAnswer(nodes: seq<Node>, r: TopoResult) {
    match r
    case Ordered(order) =>
      && Acyclic(GraphOf(nodes))
      && |order| == |nodes|
      && NoDup(order)
      && (forall x :: x in order <==> Known(nodes, x))
      && forall i, d :: 0 <= i < |order| && Edge(GraphOf(nodes), order[i], d) ==> d in order[..i]
    case UnknownDependency(app, dependency) =>
      Edge(GraphOf(nodes), app, dependency) && !Known(nodes, dependency)
    case Cycle(involved) =>
      && involved != []
      && forall x :: x in involved <==> Reaches(GraphOf(nodes), x, x)
  }

  lemma {:induction false} LayersExact(nodes: seq<Node>, order: seq<Name>)
    requires AllKnown(nodes) && DistinctNames(nodes) && Layered(nodes, order)
    ensures !Layers(nodes, order).UnknownDependency?
    ensures ExactAnswer(nodes, Layers(nodes, order))
    decreases |nodes| - |order|
  {
    GraphOfNodes(nodes);
    if |order| >= |nodes| {
      forall node <- nodes ensures node.name in order {
        if node.name !in order {
          OrderFits(nodes, order, node.name);
        }
      }
      forall x ensures !Reaches(GraphOf(nodes), x, x) {
        if Reaches(GraphOf(nodes), x, x) {
          SourceIsNode(GraphOf(nodes), x, x);
          OrderedPartIsAcyclic(nodes, order, x);
        }
      }
      OrderFits(nodes, order, "");
    } else {
      var ready := NextReadyNames(nodes, order);
      if ready == [] {
        CycleMembersExact(nodes, nodes, order);
        var x := StuckMeansCycle(nodes, order);
        forall x | Reaches(GraphOf(nodes), x, x) ensures x !in order && Known(nodes, x) {
          SourceIsNode(GraphOf(nodes), x, x);
          if x in order {
            OrderedPartIsAcyclic(nodes, order, x);
          }
        }
      } else {
        ReadyExtends(nodes, order);
        LayersExact(nodes, order + ready);
      }
    }
  }

  lemma SourceIsNode(g: Graph, a: Name, b: Name)
    requires Reaches(g, a, b)
    ensures a in g
  {
    var p :| Connects(g, p, a, b);
    assert Edge(g, p[0], p[0 + 1]);
  }

  /** A distinct order of known names is no longer than the node list, and leaves no room for `extra`. */
  lemma OrderFits(nodes: seq<Node>, order: seq<Name>, extra: Name)
    requires NoDup(order) && forall x <- order :: Known(nodes, x)
    ensures |order| <= |nodes|
    ensures extra !in order && Known(nodes, extra) ==> |order| < |nodes|
  {
    var pool := NamesOf(nodes);
    NamesAreFew(nodes);
    DistinctFits(order, pool);
    if extra !in order && Known(nodes, extra) {
      DistinctFits(order + [extra], pool);
    }
  }

  lemma NamesAreFew(nodes: seq<Node>)
    ensures |NamesOf(nodes)| <= |nodes|
  {
    if nodes != [] {
      NamesAreFew(nodes[1..]);
      assert NamesOf(nodes) == {nodes[0].name} + NamesOf(nodes[1..]);
    }
  }

  /**
   * `topo_sort` is exact on distinct names: it reports an unknown dependency if and only if one is
   * missing, otherwise a cycle if and only if one exists, naming precisely the services on a cycle,
   * and otherwise a permutation in which every dependency comes strictly earlier.
   */
  lemma TopoSortExact(nodes: seq<Node>)
    requires DistinctNames(nodes)
    ensures ExactAnswer(nodes, TopoSort(nodes))
    ensures TopoSort(nodes).UnknownDependency? <==> !Closed(GraphOf(nodes))
    ensures TopoSort(nodes).Cycle? <==> Closed(GraphOf(nodes)) && !Acyclic(GraphOf(nodes))
    ensures TopoSort(nodes).Ordered? <==> Closed(GraphOf(nodes)) && Acyclic(GraphOf(nodes))
  {
    GraphOfNodes(nodes);
    var g := GraphOf(nodes);
    var r := EnsureKnown(nodes, nodes);
    if r.UnknownDependency? {
      assert Edge(g, r.app, r.dependency);
    } else {
      assert AllKnown(nodes);
      LayersExact(nodes, []);
      forall a, b | Edge(g, a, b) ensures b in g {
        var node :| node in nodes && node.name == a;
        assert Known(nodes, b);
      }
      if TopoSort(nodes).Cycle? {
        assert TopoSort(nodes).involved[0] in TopoSort(nodes).involved;
      }
    }
  }

  // ----- the loops of the source -----

  /** `reaches_itself`: the loop over `visited` and `pending`. */
  method ReachesItself(origin: Node, nodes: seq<Node>) returns (found: bool)
    requires AllKnown(nodes) && origin in nodes
    ensures found == Walk(origin.name, nodes, [], origin.dependsOn)
  {
    var visited: seq<Name> := [];
    var pending := origin.dependsOn;
    while pending != []
      invariant forall x <- pending :: Known(nodes, x)
      invariant Walk(origin.name, nodes, visited, pending) == Walk(origin.name, nodes, [], origin.dependsOn)
      decreases |Unvisited(nodes, visited)|, |pending|
    {
      var name := pending[|pending| - 1];
      assert name in pending;
      pending := pending[..|pending| - 1];
      if name == origin.name {
        return true;
      }
      if name in visited {
        continue;
      }
      VisitShrinks(nodes, visited, name);
      DependenciesKnown(nodes, nodes, name);
      visited := visited + [name];
      pending := pending + DependenciesOf(nodes, name);
    }
    return false;
  }

  method CycleMembersOf(nodes: seq<Node>, order: seq<Name>) returns (involved: seq<Name>)
    requires AllKnown(nodes)
    ensures involved == CycleMembers(nodes, nodes, order)
  {
    involved := [];
    for i := 0 to |nodes|
      invariant involved + CycleMembers(nodes[i..], nodes, order) == CycleMembers(nodes, nodes, order)
    {
      assert nodes[i..][1..] == nodes[i + 1..];
      if nodes[i].name !in order {
        var found := ReachesItself(nodes[i], nodes);
        if found {
          involved := involved + [nodes[i].name];
        }
      }
    }
  }

  /** `topo_sort`: the loop that extends `order` layer by layer. */
  method Sort(nodes: seq<Node>) returns (r: TopoResult)
    ensures r == TopoSort(nodes)
    ensures DistinctNames(nodes) ==> ExactAnswer(nodes, r)
  {
    if DistinctNames(nodes) {
      TopoSortExact(nodes);
    }
    var known := EnsureKnown(nodes, nodes);
    if known.UnknownDependency? {
      return known;
    }
    var order: seq<Name> := [];
    while |order| < |nodes|
      invariant Layers(nodes, order) == TopoSort(nodes)
    {
      var ready := NextReadyNames(nodes, order);
      if ready == [] {
        var involved := CycleMembersOf(nodes, order);
        return Cycle(involved);
      }
      order := order + ready;
    }
    return Ordered(order);
  }
}
