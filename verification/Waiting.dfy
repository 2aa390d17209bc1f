/**
 * The waiter graph of usecases/src/supervisor_ready.rs: what failing a service downstream reaches,
 * and what a service becoming ready releases.
 */
module Waiting {
  import opened Graphs
  import opened Model
  import opened ProcessTable
  import opened Handlers
  import opened Coherence

  // ----- fail_downstream reaches exactly what waits, directly or not -----

  ghost predicate Doomed(g: Graph, dead: seq<Name>, x: Name) {
    x in dead || exists d :: d in dead && Reaches(g, d, x)
  }

  lemma DoomedIsClosed(g: Graph, dead: seq<Name>, x: Name, y: Name)
    requires Doomed(g, dead, x) && Edge(g, x, y)
    ensures Doomed(g, dead, y)
  {
    if x in dead {
      EdgeReaches(g, x, y);
    } else {
      var d :| d in dead && Reaches(g, d, x);
      ReachesThenEdge(g, d, x, y);
    }
  }

  /** A set holding the dead and closed under edges holds all that is doomed. */
  lemma ClosedHoldsDoomed(g: Graph, dead: seq<Name>, held: iset<Name>, x: Name)
    requires forall d <- dead :: d in held
    requires forall a, b :: a in held && Edge(g, a, b) ==> b in held
    requires Doomed(g, dead, x)
    ensures x in held
  {
    if x !in dead {
      var d :| d in dead && Reaches(g, d, x);
      ClosedSetHolds(g, held, d, x);
    }
  }

  /** The graph one turn of the loop leaves: no edge into or out of the doomed service. */
  lemma TurnCutsEdges(g: Graph, doomed: Name)
    ensures var next := ForgetWaiter(g, doomed) - {doomed};
            forall a, b :: Edge(next, a, b) <==> Edge(g, a, b) && a != doomed && b != doomed
  {
    var forgotten := ForgetWaiter(g, doomed);
    forall a, b | Edge(g, a, b) && a != doomed && b != doomed ensures Edge(forgotten - {doomed}, a, b) {
      assert b in Without(g[a], doomed);
    }
  }

  lemma TurnKeepsDoomed(g: Graph, dead: seq<Name>, x: Name)
    requires dead != []
    ensures var doomed := dead[|dead| - 1];
            var forgotten := ForgetWaiter(g, doomed);
            var longer := dead[..|dead| - 1] + WaitersOf(forgotten, doomed);
            Doomed(g, dead, x) <==> x == doomed || Doomed(forgotten - {doomed}, longer, x)
  {
    var doomed := dead[|dead| - 1];
    var forgotten := ForgetWaiter(g, doomed);
    var next := forgotten - {doomed};
    var longer := dead[..|dead| - 1] + WaitersOf(forgotten, doomed);
    TurnCutsEdges(g, doomed);
    var held := iset y | y == doomed || Doomed(next, longer, y);
    var all := iset y | Doomed(g, dead, y);
    if Doomed(g, dead, x) {
      forall a, b | a in held && Edge(g, a, b) ensures b in held {
        if b != doomed {
          if a == doomed {
            assert b in Without(g[doomed], doomed);
            assert b in WaitersOf(forgotten, doomed);
          } else {
            DoomedIsClosed(next, longer, a, b);
          }
        }
      }
      ClosedHoldsDoomed(g, dead, held, x);
    }
    if Doomed(next, longer, x) {
      assert doomed in dead;
      forall d <- longer ensures d in all {
        if d !in dead {
          assert Edge(g, doomed, d);
          DoomedIsClosed(g, dead, doomed, d);
        }
      }
      forall a, b | a in all && Edge(next, a, b) ensures b in all {
        DoomedIsClosed(g, dead, a, b);
      }
      ClosedHoldsDoomed(next, longer, all, x);
    }
  }

  predicate ErroredIfSettled(records: seq<Record>, x: Name) {
    Has(records, x) && Find(records, x).value.runtime.status.IsSettled() ==>
      Find(records, x).value.runtime.status.Errored?
  }

  /** What is left of a record once its service has failed: a settled one is errored, a live one stands. */
  function FallenRecord(record: Record): Record {
    if record.runtime.status != Stopped && record.runtime.status != Errored then record
    else Record(record.spec, record.runtime.(status := Errored, pid := None, startedAtMs := None, identity := None))
  }

  function Fallen(records: seq<Record>, x: Name): Option<Record> {
    if Has(records, x) then Some(FallenRecord(Find(records, x).value)) else None
  }

  lemma {:induction false} FailDeadExact(s: State, dead: seq<Name>)
    ensures var (next, failed) := FailDead(s, dead);
            && (forall x :: x in failed <==> Doomed(s.waiters, dead, x))
            && (forall a, b :: Edge(next.waiters, a, b) <==>
                  Edge(s.waiters, a, b) && !Doomed(s.waiters, dead, a) && !Doomed(s.waiters, dead, b))
            && (forall key <- next.waiters :: key in s.waiters && !Doomed(s.waiters, dead, key))
    decreases |s.waiters|, |dead|
  {
    if dead == [] {
    } else {
      var doomed := dead[|dead| - 1];
      var forgotten := ForgetWaiter(s.waiters, doomed);
      var marked := MarkErroredIfSettled(s.(waiters := forgotten), doomed);
      var cut := marked.(waiters := forgotten - {doomed});
      var longer := dead[..|dead| - 1] + WaitersOf(forgotten, doomed);
      ForgetShrinks(s.waiters, doomed);
      ForgetShrinks(forgotten, doomed);
      FailDeadExact(cut, longer);
      TurnCutsEdges(s.waiters, doomed);
      forall x ensures Doomed(s.waiters, dead, x) <==> x == doomed || Doomed(cut.waiters, longer, x) {
        TurnKeepsDoomed(s.waiters, dead, x);
      }
    }
  }

  /** What becomes of a record: errored if it was settled and failed, untouched otherwise. */
  lemma {:induction false} FailDeadMarks(s: State, dead: seq<Name>, x: Name)
    ensures var (next, failed) := FailDead(s, dead);
            Find(next.records, x) == if x in failed then Fallen(s.records, x) else Find(s.records, x)
    decreases |s.waiters|, |dead|
  {
    hide Find, MarkErroredIfSettled, ForgetWaiter, FallenRecord;
    if dead != [] {
      var doomed := dead[|dead| - 1];
      var trimmed := s.(waiters := ForgetWaiter(s.waiters, doomed));
      var (next, left) := DeadStep(s, dead);
      DeadStepShrinks(s, dead);
      ErrorMarks(trimmed, doomed, x);
      FailDeadMarks(next, left, x);
      FallsOnce(s.records, next.records, x);
    }
  }

  /** A record falls once: failing it again changes nothing. */
  lemma FallsOnce(records: seq<Record>, next: seq<Record>, x: Name)
    ensures Find(next, x) == Fallen(records, x) || Find(next, x) == Find(records, x) ==> Fallen(next, x) == Fallen(records, x)
  {
    hide Find;
  }

  /** Failing touches nothing but the table and the waiters. */
  lemma {:induction false} FailDeadIsLocal(s: State, dead: seq<Name>)
    ensures var next := FailDead(s, dead).0;
            next == s.(records := next.records, waiters := next.waiters, panicked := next.panicked)
    decreases |s.waiters|, |dead|
  {
    hide ForgetWaiter, Find, Put;
    if dead != [] {
      DeadStepShrinks(s, dead);
      var (next, left) := DeadStep(s, dead);
      FailDeadIsLocal(next, left);
    }
  }

  lemma ErrorMarks(s: State, doomed: Name, x: Name)
    ensures var marked := MarkErroredIfSettled(s, doomed);
            && Find(marked.records, x) == (if x == doomed then Fallen(s.records, x) else Find(s.records, x))
            && (x != doomed || Unsettled(s.records, x) ==> Find(marked.records, x) == Find(s.records, x))
            && (Unsettled(marked.records, x) <==> Unsettled(s.records, x))
  {
  }

  /**
   * `fail_downstream(n)`, on any waiter graph, cyclic ones included: as a set it returns exactly the
   * services reached from `n`; the graph left is the old one without `n`'s key and without every edge
   * into or out of them; every settled one is errored, and nobody else's record changes.
   */
  lemma FailDownstreamExact(s: State, n: Name)
    ensures var (next, failed) := FailDownstream(s, n);
            && (forall x :: x in failed <==> Reaches(s.waiters, n, x))
            && n !in next.waiters
            && (forall key <- next.waiters :: key !in failed)
            && (forall a, b :: Edge(next.waiters, a, b) <==>
                  Edge(s.waiters, a, b) && a != n && a !in failed && b !in failed)
            && (forall x :: Find(next.records, x) == if x in failed then Fallen(s.records, x) else Find(s.records, x))
            && (forall x <- failed :: ErroredIfSettled(next.records, x))
            && (forall x :: x !in failed || Unsettled(s.records, x) ==> Find(next.records, x) == Find(s.records, x))
  {
    hide FailDownstream, Reaches, ErroredIfSettled;
    FailDownstreamCuts(s, n);
    var (next, failed) := FailDownstream(s, n);
    forall x
      ensures Find(next.records, x) == if x in failed then Fallen(s.records, x) else Find(s.records, x)
      ensures x in failed ==> ErroredIfSettled(next.records, x)
      ensures x !in failed || Unsettled(s.records, x) ==> Find(next.records, x) == Find(s.records, x) {
      FailDownstreamMarks(s, n, x);
    }
  }

  lemma FailDownstreamMarks(s: State, n: Name, x: Name)
    ensures var (next, failed) := FailDownstream(s, n);
            && Find(next.records, x) == (if x in failed then Fallen(s.records, x) else Find(s.records, x))
            && (x in failed ==> ErroredIfSettled(next.records, x))
            && (x !in failed || Unsettled(s.records, x) ==> Find(next.records, x) == Find(s.records, x))
  {
    hide FailDead;
    FailDeadMarks(s.(waiters := s.waiters - {n}), WaitersOf(s.waiters, n), x);
  }

  lemma FailDownstreamCuts(s: State, n: Name)
    ensures var (next, failed) := FailDownstream(s, n);
            && (forall x :: x in failed <==> Reaches(s.waiters, n, x))
            && n !in next.waiters
            && (forall key <- next.waiters :: key !in failed)
            && (forall a, b :: Edge(next.waiters, a, b) <==>
                  Edge(s.waiters, a, b) && a != n && a !in failed && b !in failed)
  {
    hide FailDead, Doomed, Reaches;
    var taken := s.(waiters := s.waiters - {n});
    var dead := WaitersOf(s.waiters, n);
    FailDeadExact(taken, dead);
    forall x ensures Doomed(taken.waiters, dead, x) <==> Reaches(s.waiters, n, x) {
      DoomedIsReached(s.waiters, n, x);
    }
  }

  lemma DoomedIsReached(g: Graph, n: Name, x: Name)
    ensures Doomed(g - {n}, WaitersOf(g, n), x) <==> Reaches(g, n, x)
  {
    var dead := WaitersOf(g, n);
    var held := iset y | Doomed(g - {n}, dead, y);
    var reached := iset y | Reaches(g, n, y);
    if Reaches(g, n, x) {
      forall a, b | a in held && Edge(g, a, b) ensures b in held {
        if a != n {
          DoomedIsClosed(g - {n}, dead, a, b);
        }
      }
      ClosedSetHolds(g, held, n, x);
    }
    if Doomed(g - {n}, dead, x) {
      forall d <- dead ensures d in reached {
        EdgeReaches(g, n, d);
      }
      forall a, b | a in reached && Edge(g - {n}, a, b) ensures b in reached {
        ReachesThenEdge(g, n, a, b);
      }
      ClosedHoldsDoomed(g - {n}, dead, reached, x);
    }
  }
}
