/**
 * The supervisor's timers as the object the source mutates (usecases/src/timer_state.rs); `Timers` in
 * Handlers is its value.
 */
module TimerBook {
  import opened Graphs
  import opened Model
  import opened Handlers

  class TimerState {
    var fires: map<Name, nat>
    var restarts: set<Name>
    var generations: map<Name, nat>
    var nextGeneration: nat

    function Value(): Timers
      reads this
    {
      Timers(fires, restarts, generations, nextGeneration)
    }

    constructor ()
      ensures Value() == Timers(map[], {}, map[], 0)
    {
      fires, restarts, generations, nextGeneration := map[], {}, map[], 0;
    }

    method Arm(name: Name, at: nat)
      modifies this
      ensures Value() == old(Value()).(fires := old(fires)[name := at])
    {
      fires := fires[name := at];
    }

    method Disarm(name: Name)
      modifies this
      ensures Value() == old(Value()).(fires := old(fires) - {name})
    {
      fires := fires - {name};
    }

    /** Drains every armed fire. */
    method DisarmAll() returns (names: set<Name>)
      modifies this
      ensures names == old(fires).Keys
      ensures Value() == old(Value()).(fires := map[])
    {
      names := fires.Keys;
      fires := map[];
    }

    method QueueRestart(name: Name)
      modifies this
      ensures Value() == old(Value()).(restarts := old(restarts) + {name})
    {
      restarts := restarts + {name};
    }

    /** A queued restart is claimed at most once. */
    method ClaimRestart(name: Name) returns (claimed: bool)
      modifies this
      ensures claimed <==> name in old(restarts)
      ensures Value() == old(Value()).(restarts := old(restarts) - {name})
    {
      claimed := name in restarts;
      restarts := restarts - {name};
    }

    method CancelAllRestarts() returns (names: set<Name>)
      modifies this
      ensures names == old(restarts)
      ensures Value() == old(Value()).(restarts := {})
    {
      names := restarts;
      restarts := {};
    }

    /**
     * The generation of the name's next watch. Below the end of the counter it outdates every event of the
     * name's past and nobody else's.
     */
    method Bump(name: Name) returns (generation: nat)
      modifies this
      ensures Value() == old(Value()).Bump(name) && generation == nextGeneration
      ensures Value().IsCurrent(name, generation)
      ensures forall other :: other != name ==> Value().CurrentGeneration(other) == old(Value()).CurrentGeneration(other)
      ensures Issued(old(Value())) && old(nextGeneration) < U64_MAX ==>
                Issued(Value()) && forall older: nat :: older <= old(nextGeneration) ==> !Value().IsCurrent(name, older)
    {
      if Issued(Value()) && nextGeneration < U64_MAX {
        BumpOutdates(Value(), name, name, 0);
      }
      nextGeneration := SaturatingInc(nextGeneration, U64_MAX);
      generations := generations[name := nextGeneration];
      generation := nextGeneration;
    }
  }

  /** No name has a generation the counter has not reached. */
  ghost predicate Issued(timers: Timers) {
    forall n :: timers.CurrentGeneration(n) <= timers.nextGeneration
  }

  /**
   * Below the end of the counter a new generation outdates every event of the name's past, and nobody
   * else's.
   */
  lemma BumpOutdates(timers: Timers, name: Name, other: Name, generation: nat)
    requires Issued(timers) && timers.nextGeneration < U64_MAX
    ensures Issued(timers.Bump(name))
    ensures generation <= timers.nextGeneration ==> !timers.Bump(name).IsCurrent(name, generation)
    ensures other != name ==> (timers.Bump(name).IsCurrent(other, generation) <==> timers.IsCurrent(other, generation))
  {
    var bumped := timers.Bump(name);
    forall n ensures bumped.CurrentGeneration(n) <= bumped.nextGeneration {
      assert n != name ==> bumped.CurrentGeneration(n) == timers.CurrentGeneration(n);
    }
  }

  /** At the end of the counter the guard is gone: a new watch shares the generation of the last one. */
  lemma FullCounterReusesGenerations(timers: Timers, name: Name)
    requires timers.nextGeneration == U64_MAX
    ensures timers.Bump(name).IsCurrent(name, timers.nextGeneration)
  {
  }
}
