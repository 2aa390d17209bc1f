/**
 * The daemon's actor (frameworks/src/daemon/actor.rs) as an object: one event at a time drives the
 * supervisor, whose effects then go to the board. It is proved to follow the transition system of
 * Daemon, and so inherits every whole-run result about it.
 */
module Actors {
  import opened Graphs
  import opened Model
  import opened ProcessTable
  import opened Handlers
  import opened Supervision
  import opened TaskBoards
  import Batches
  import Coherence
  import CommandCoherence
  import D = Daemon
  import EveryTurn
  import P = Promises
  import Releases
  import Replies
  import Samples

  class Actor {
    const supervisor: Supervisor
    const board: TaskBoard
    ghost var outstanding: set<ExitWatch>

    ghost function Value(): D.World
      reads this, supervisor, supervisor.table, supervisor.timers
    {
      D.World(supervisor.Value(), outstanding)
    }

    constructor ()
      ensures fresh(supervisor) && fresh(supervisor.table) && fresh(supervisor.timers) && fresh(board)
      ensures Value() == D.World(State([], Timers(map[], {}, map[], 0), map[], {}, [], [], 0, false), {})
      ensures board.Value() == EMPTY_BOARD
    {
      supervisor := new Supervisor();
      board := new TaskBoard();
      outstanding := {};
    }

    method Dispatch(event: D.Event, ports: Ports)
      modifies supervisor, supervisor.table, supervisor.timers
      ensures supervisor.Value() == D.Handle(old(supervisor.Value()), event, ports)
    {
      hide Start, StopAll, RestartCommand, Delete, Reset, OnExit, OnRestart, OnFire, OnReady, OnReadyTimeout;
      hide OnMemorySample, OnLivenessSample, PrepareShutdown, Handlers.Stop, TableOk, NamesOf, NoDup;
      hide P.ExitTaken, P.ClaimedOnce, P.FiredOnce, P.Readied, P.TimedOut, P.StoppedForGood, Coherence.WaitersKnown;
      hide Batches.StartedServices, Samples.MemorySampled, Samples.Sampled, Releases.ReadyAnswered, CommandCoherence.RoomFor;
      hide Replies.StoppedEverything, Replies.StopAnswered, Replies.DeletedAll, Replies.DeletedOne, Replies.RestartedInTurn;
      hide Replies.RestartedOne, Replies.ResetAnswered;
      match event
      case StartServices(services) => supervisor.Start(services, ports);
      case StopService(selector) => var _ := supervisor.Stop(selector, ports);
      case StopEverything => supervisor.StopAll(ports);
      case RestartService(selector) => supervisor.Restart(selector, ports);
      case DeleteService(selector) => supervisor.Delete(selector, ports);
      case ResetService(selector) => supervisor.Reset(selector);
      case Exited(watch, outcome) => supervisor.OnExit(watch.name, watch.generation, outcome, ports);
      case RestartDue(name) => supervisor.OnRestart(name, ports);
      case FireDue(name, at) => supervisor.OnFire(name, at, ports);
      case BecameReady(name, generation) => supervisor.OnReady(name, generation, ports);
      case ReadyTimedOut(name, generation) => supervisor.OnReadyTimeout(name, generation, ports);
      case SampleMemory => supervisor.OnMemorySample(ports);
      case SampleLiveness(threshold) => supervisor.OnLivenessSample(threshold, ports);
      case Shutdown => supervisor.PrepareShutdown();
    }

    /** `apply`: one turn, then its effects. */
    method Apply(event: D.Event, ports: Ports)
      modifies this, supervisor, supervisor.table, supervisor.timers, board
      ensures Value() == D.Step(old(Value()), event, ports)
      ensures board.Value() == ApplyAll(old(board.Value()), Value().sup.effects)
      ensures EveryTurn.IsAnswered(old(Value()), Value(), event, ports)
    {
      EveryTurn.TurnIsAnswered(Value(), event, ports);
      hide D.Handle, ApplyAll, EveryTurn.IsAnswered;
      supervisor.effects := [];
      Dispatch(event, ports);
      outstanding := (outstanding - D.Answered(event)) + Elems(WatchesIn(supervisor.effects));
      board.ApplyEach(supervisor.effects);
    }

    /**
     * `run`: the events in order. From a coherent world whose board agrees with its timers, the last
     * world is sound, every live process has its one current watch, and the board still agrees.
     */
    method Run(events: seq<D.Event>, ports: Ports)
      modifies this, supervisor, supervisor.table, supervisor.timers, board
      ensures Value() == D.Run(old(Value()), events, ports)
      ensures D.Inv(old(Value())) && D.EnabledRun(old(Value()), events, ports) ==>
                && D.Inv(Value()) && D.Sound(Value())
                && (D.FewLaunches(Value()) ==> forall n :: Unsettled(n) ==> D.WatchedOnce(Value(), n))
      ensures BoardAgrees(old(Value()), old(board.Value())) ==> BoardAgrees(Value(), board.Value())
    {
      hide D.Step, D.Inv, D.Sound, D.WatchedOnce, D.EnabledRun, ApplyAll, BoardAgrees;
      ghost var w, b := Value(), board.Value();
      assert events[0..] == events;
      for i := 0 to |events|
        invariant D.Run(Value(), events[i..], ports) == D.Run(w, events, ports)
        invariant BoardAfter(Value(), board.Value(), events[i..], ports) == BoardAfter(w, b, events, ports)
      {
        assert events[i..][1..] == events[i + 1..];
        Apply(events[i], ports);
      }
      assert events[|events|..] == [];
      if D.Inv(w) && D.EnabledRun(w, events, ports) {
        D.RunKeeps(w, events, ports);
        D.EveryRunIsSound(w, events, ports);
      }
      if BoardAgrees(w, b) {
        BoardNeverDrifts(w, b, events, ports);
      }
    }

    predicate Unsettled(name: Name)
      reads this, supervisor, supervisor.table
    {
      Has(supervisor.table.records, name) && !Find(supervisor.table.records, name).value.runtime.status.IsSettled()
    }
  }
}
