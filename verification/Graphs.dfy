/** Finite directed graphs over service names, and what it means for one name to reach another. */
module Graphs {
  type Name = string
  type Graph = map<Name, seq<Name>>

  ghost predicate Edge(g: Graph, a: Name, b: Name) {
    a in g && b in g[a]
  }

  ghost predicate Path(g: Graph, p: seq<Name>) {
    forall i :: 0 <= i < |p| - 1 ==> Edge(g, p[i], p[i + 1])
  }

  ghost predicate Connects(g: Graph, p: seq<Name>, a: Name, b: Name) {
    |p| >= 2 && Path(g, p) && p[0] == a && p[|p| - 1] == b
  }

  /** `b` is reached from `a` in one step or more. */
  ghost predicate Reaches(g: Graph, a: Name, b: Name) {
    exists p :: Connects(g, p, a, b)
  }

  ghost predicate Acyclic(g: Graph) {
    forall x :: !Reaches(g, x, x)
  }

  /** Every edge ends at a node of the graph. */
  ghost predicate Closed(g: Graph) {
    forall a, b :: Edge(g, a, b) ==> b in g
  }

  predicate NoDup<T(==)>(s: seq<T>) {
    forall i, j :: 0 <= i < j < |s| ==> s[i] != s[j]
  }

  function Elems<T(==)>(s: seq<T>): set<T> {
    set x | x in s
  }

  lemma EdgeReaches(g: Graph, a: Name, b: Name)
    requires Edge(g, a, b)
    ensures Reaches(g, a, b)
  {
    assert Connects(g, [a, b], a, b);
  }

  lemma ReachesThenEdge(g: Graph, a: Name, b: Name, c: Name)
    requires Reaches(g, a, b) && Edge(g, b, c)
    ensures Reaches(g, a, c)
  {
    var p :| Connects(g, p, a, b);
    assert Connects(g, p + [c], a, c);
  }

  /** A set that holds the successors of `a` and is closed under edges holds all `a` reaches. */
  lemma ClosedSetHolds(g: Graph, held: iset<Name>, a: Name, b: Name)
    requires forall x :: Edge(g, a, x) ==> x in held
    requires forall x, y :: x in held && Edge(g, x, y) ==> y in held
    requires Reaches(g, a, b)
    ensures b in held
  {
    var p :| Connects(g, p, a, b);
    PathStaysInside(g, held, p, |p| - 1);
  }

  lemma {:induction false} PathStaysInside(g: Graph, held: iset<Name>, p: seq<Name>, k: nat)
    requires 1 <= k < |p| && Path(g, p)
    requires forall x :: Edge(g, p[0], x) ==> x in held
    requires forall x, y :: x in held && Edge(g, x, y) ==> y in held
    ensures p[k] in held
  {
    assert Edge(g, p[k - 1], p[k - 1 + 1]);
    if k > 1 {
      PathStaysInside(g, held, p, k - 1);
    }
  }

  /** A rank that falls along every edge rules cycles out. */
  lemma RankForbidsCycles(g: Graph, rank: map<Name, nat>)
    requires forall a, b :: Edge(g, a, b) ==> a in rank && b in rank && rank[b] < rank[a]
    ensures Acyclic(g)
  {
    forall x ensures !Reaches(g, x, x) {
      if Reaches(g, x, x) {
        var p :| Connects(g, p, x, x);
        RankFalls(g, rank, p, |p| - 1);
        assert false;
      }
    }
  }

  lemma {:induction false} RankFalls(g: Graph, rank: map<Name, nat>, p: seq<Name>, k: nat)
    requires forall a, b :: Edge(g, a, b) ==> a in rank && b in rank && rank[b] < rank[a]
    requires 1 <= k < |p| && Path(g, p)
    ensures p[0] in rank && p[k] in rank && rank[p[k]] < rank[p[0]]
  {
    assert Edge(g, p[k - 1], p[k - 1 + 1]);
    if k > 1 {
      RankFalls(g, rank, p, k - 1);
    }
  }

  lemma DistinctFits(p: seq<Name>, pool: set<Name>)
    requires NoDup(p) && forall x :: x in p ==> x in pool
    ensures |p| <= |pool|
    decreases |p|
  {
    if p != [] {
      var last := p[|p| - 1];
      assert last in p;
      forall x | x in p[..|p| - 1] ensures x in pool - {last} {
        assert x in p;
      }
      DistinctFits(p[..|p| - 1], pool - {last});
    }
  }

  lemma PathLoops(g: Graph, p: seq<Name>, i: nat, next: Name)
    requires Path(g, p) && i < |p| && p[i] == next && Edge(g, p[|p| - 1], next)
    ensures Reaches(g, next, next)
  {
    var tail := p[i..];
    forall k | 0 <= k < |tail| - 1 ensures Edge(g, tail[k], tail[k + 1]) {
      assert Edge(g, p[i + k], p[i + k + 1]);
    }
    assert Connects(g, tail + [next], next, next);
  }

  lemma NoDupConcat<T>(a: seq<T>, b: seq<T>)
    requires NoDup(a) && NoDup(b) && forall x :: x in a ==> x !in b
    ensures NoDup(a + b)
  {
    forall i, j | 0 <= i < j < |a + b| ensures (a + b)[i] != (a + b)[j] {
      if i < |a| <= j {
        assert (a + b)[i] in a && (a + b)[j] in b;
      }
    }
  }

  lemma NoDupCons<T>(x: T, s: seq<T>)
    ensures NoDup([x] + s) <==> x !in s && NoDup(s)
  {
    if NoDup([x] + s) {
      forall i | 0 <= i < |s| ensures s[i] != x {
        assert ([x] + s)[0] != ([x] + s)[i + 1];
      }
      forall i, j | 0 <= i < j < |s| ensures s[i] != s[j] {
        assert ([x] + s)[i + 1] != ([x] + s)[j + 1];
      }
    } else if NoDup(s) && x !in s {
      NoDupConcat([x], s);
    }
  }

  ghost predicate HasSuccessor(g: Graph, pool: set<Name>, a: Name) {
    exists b :: b in pool && Edge(g, a, b)
  }

  /** Pigeonhole: a non-empty finite set whose every member has a successor inside it holds a cycle. */
  lemma CycleInside(g: Graph, pool: set<Name>, p: seq<Name>) returns (x: Name)
    requires forall a {:trigger HasSuccessor(g, pool, a)} :: a in pool ==> HasSuccessor(g, pool, a)
    requires p != [] && NoDup(p) && Path(g, p) && forall a :: a in p ==> a in pool
    ensures x in pool && Reaches(g, x, x)
    decreases |pool| - |p|
  {
    DistinctFits(p, pool);
    var last := p[|p| - 1];
    assert last in p;
    assert HasSuccessor(g, pool, last);
    var next :| next in pool && Edge(g, last, next);
    if next in p {
      var i :| 0 <= i < |p| && p[i] == next;
      PathLoops(g, p, i, next);
      x := next;
    } else {
      DistinctFits(p + [next], pool);
      x := CycleInside(g, pool, p + [next]);
    }
  }
}
