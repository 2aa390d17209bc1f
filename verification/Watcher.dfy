/**
 * Waiting for processes that are not children of the daemon (adapters/src/process/watcher.rs): any
 * number of waiters share one polling task, which starts with the first waiter and stops once nobody
 * is left. Each section under the lock is one atomic step; everything between steps may interleave.
 */
module Watcher {
  import opened Model
  import opened Judge

  /** One registration; `id` stands for its channel. */
  datatype Waiter = Waiter(id: nat, token: Option<string>)

  type Watchlist = map<nat, seq<Waiter>>

  datatype WatchState = WatchState(polling: bool, watched: Watchlist)

  function At(list: Watchlist, pid: nat): seq<Waiter> {
    if pid in list then list[pid] else []
  }

  // ----- the sections under the lock -----

  /** `until_gone`, up to the release of the lock: the flag says whether a poller must be started. */
  function Registered(s: WatchState, pid: nat, waiter: Waiter): (WatchState, bool) {
    (WatchState(true, s.watched[pid := At(s.watched, pid) + [waiter]]), !s.polling)
  }

  /** `roster`: the pids to probe, or the end of the poller. */
  function Rostered(s: WatchState): (WatchState, Option<set<nat>>) {
    if s.watched.Keys == {} then (s.(polling := false), None) else (s, Some(s.watched.Keys))
  }

  /** `still_running`: an unreadable or missing answer never counts as an exit. */
  predicate StillRunning(token: Option<string>, seen: Option<Liveness>) {
    match seen
    case None => true
    case Some(Unreadable) => true
    case Some(Gone) => false
    case Some(Alive(reported)) => token.None? || token.value == reported
  }

  function SeenOf(seen: map<nat, Liveness>, pid: nat): Option<Liveness> {
    if pid in seen then Some(seen[pid]) else None
  }

  /** `partition`: those to be released, and those who keep waiting, each in order. */
  function Part(waiters: seq<Waiter>, seen: Option<Liveness>, running: bool): seq<Waiter> {
    if waiters == [] then []
    else (if StillRunning(waiters[0].token, seen) == running then [waiters[0]] else [])
         + Part(waiters[1..], seen, running)
  }

  function PartAt(list: Watchlist, seen: map<nat, Liveness>, running: bool, pid: nat): seq<Waiter> {
    Part(At(list, pid), SeenOf(seen, pid), running)
  }

  /** The non-empty parts of the entries among `pids`. */
  function Parts(list: Watchlist, seen: map<nat, Liveness>, running: bool, pids: set<nat>): Watchlist {
    map pid | pid in list && pid in pids && PartAt(list, seen, running, pid) != [] :: PartAt(list, seen, running, pid)
  }

  lemma PartsGrow(list: Watchlist, seen: map<nat, Liveness>, running: bool, pids: set<nat>, pid: nat)
    requires pid in list
    ensures var part := PartAt(list, seen, running, pid);
            Parts(list, seen, running, pids + {pid}) ==
              if part == [] then Parts(list, seen, running, pids) else Parts(list, seen, running, pids)[pid := part]
  {
    hide PartAt;
  }

  lemma AtParts(list: Watchlist, seen: map<nat, Liveness>, running: bool, pid: nat)
    ensures At(Parts(list, seen, running, list.Keys), pid) == PartAt(list, seen, running, pid)
  {
  }

  /** `release`: those whose process left or was replaced depart. */
  function Released(s: WatchState, seen: map<nat, Liveness>): (WatchState, Watchlist) {
    (s.(watched := Parts(s.watched, seen, true, s.watched.Keys)), Parts(s.watched, seen, false, s.watched.Keys))
  }

  class AdoptedWatch {
    var polling: bool
    var watched: Watchlist

    function State(): WatchState
      reads this
    {
      WatchState(polling, watched)
    }

    constructor ()
      ensures State() == WatchState(false, map[])
    {
      polling, watched := false, map[];
    }

    /** The waiter stands last on its pid's list, no other list changes, and a poller is asked for iff none runs. */
    method Register(pid: nat, waiter: Waiter) returns (startPoller: bool)
      modifies this
      ensures (State(), startPoller) == Registered(old(State()), pid, waiter)
      ensures At(watched, pid) == At(old(watched), pid) + [waiter]
      ensures forall other :: other != pid ==> At(watched, other) == At(old(watched), other)
      ensures polling && (startPoller <==> !old(polling))
    {
      if pid !in watched {
        watched := watched[pid := []];
      }
      watched := watched[pid := watched[pid] + [waiter]];
      startPoller := !polling;
      polling := true;
      assert watched == old(watched)[pid := At(old(watched), pid) + [waiter]];
    }

    /** The poller goes on exactly as long as somebody waits, and then probes every pid somebody waits for. */
    method Roster() returns (pids: Option<set<nat>>)
      modifies this
      ensures (State(), pids) == Rostered(old(State()))
      ensures watched == old(watched)
      ensures pids.Some? ==> polling == old(polling) && forall pid: nat :: At(watched, pid) != [] ==> pid in pids.value
      ensures pids.None? ==> !polling && forall pid: nat :: At(watched, pid) == []
    {
      if watched.Keys == {} {
        polling := false;
        return None;
      }
      pids := Some(watched.Keys);
    }

    /** The list is taken out, partitioned pid by pid in any order, and the rest put back. */
    method Release(seen: map<nat, Liveness>) returns (departed: Watchlist)
      modifies this
      ensures (State(), departed) == Released(old(State()), seen)
    {
      hide Parts, Part;
      var taken := watched;
      watched := map[];
      var kept: Watchlist := map[];
      departed := map[];
      var left := taken.Keys;
      NoParts(taken, seen);
      while left != {}
        invariant left <= taken.Keys && polling == old(polling)
        invariant kept == Parts(taken, seen, true, taken.Keys - left)
        invariant departed == Parts(taken, seen, false, taken.Keys - left)
        decreases |left|
      {
        var pid :| pid in left;
        PartsGrow(taken, seen, true, taken.Keys - left, pid);
        PartsGrow(taken, seen, false, taken.Keys - left, pid);
        assert taken.Keys - left + {pid} == taken.Keys - (left - {pid});
        var gone := Part(taken[pid], SeenOf(seen, pid), false);
        var waiting := Part(taken[pid], SeenOf(seen, pid), true);
        left := left - {pid};
        if gone != [] {
          departed := departed[pid := gone];
        }
        if waiting != [] {
          kept := kept[pid := waiting];
        }
      }
      assert taken.Keys - {} == taken.Keys;
      watched := kept;
    }
  }

  lemma NoParts(list: Watchlist, seen: map<nat, Liveness>)
    ensures forall running :: Parts(list, seen, running, list.Keys - list.Keys) == map[]
  {
  }

  // ----- the protocol -----

  /** Where a polling task stands: about to take the roster, or about to release on what it saw. */
  datatype Phase = TakingRoster | Probing(asked: set<nat>) | Releasing(seen: map<nat, Liveness>)

  datatype Event =
    | Register(pid: nat, token: Option<string>)
    | TakeRoster(poller: nat)
    | Probe(poller: nat, seen: map<nat, Liveness>)
    | Release(poller: nat)

  /** The shared state, the polling tasks alive, and what was registered and departed so far. */
  datatype World = World(state: WatchState, pollers: seq<Phase>, joined: Watchlist, departed: Watchlist, nextId: nat)

  predicate Enabled(w: World, e: Event) {
    match e
    case Register(_, _) => true
    case TakeRoster(i) => i < |w.pollers| && w.pollers[i].TakingRoster?
    case Probe(i, _) => i < |w.pollers| && w.pollers[i].Probing?
    case Release(i) => i < |w.pollers| && w.pollers[i].Releasing?
  }

  function Joining(list: Watchlist, more: Watchlist): Watchlist {
    map pid | pid in list.Keys + more.Keys :: At(list, pid) + At(more, pid)
  }

  function Step(w: World, e: Event): World
    requires Enabled(w, e)
  {
    match e
    case Register(pid, token) =>
      var waiter := Waiter(w.nextId, token);
      var (state, start) := Registered(w.state, pid, waiter);
      World(state, if start then w.pollers + [TakingRoster] else w.pollers,
            w.joined[pid := At(w.joined, pid) + [waiter]], w.departed, w.nextId + 1)
    case TakeRoster(i) =>
      var (state, pids) := Rostered(w.state);
      if pids.None? then w.(state := state, pollers := w.pollers[..i] + w.pollers[i + 1..])
      else w.(state := state, pollers := w.pollers[i := Probing(pids.value)])
    case Probe(i, seen) => w.(pollers := w.pollers[i := Releasing(seen)])
    case Release(i) =>
      var (state, departed) := Released(w.state, w.pollers[i].seen);
      w.(state := state, pollers := w.pollers[i := TakingRoster], departed := Joining(w.departed, departed))
  }

  const QUIET := World(WatchState(false, map[]), [], map[], map[], 0)

  /** Waiters are conserved: each registered one is waiting or has departed, and never both or twice. */
  ghost predicate Conserved(w: World, pid: nat) {
    && multiset(At(w.state.watched, pid)) + multiset(At(w.departed, pid)) == multiset(At(w.joined, pid))
    && (forall i, j :: 0 <= i < j < |At(w.joined, pid)| ==> At(w.joined, pid)[i].id < At(w.joined, pid)[j].id)
    && (forall waiter <- At(w.joined, pid) :: waiter.id < w.nextId)
  }

  ghost predicate Inv(w: World) {
    && |w.pollers| == (if w.state.polling then 1 else 0)
    && (w.state.watched != map[] ==> w.state.polling)
    && (forall pid <- w.state.watched :: w.state.watched[pid] != [])
    && (forall pid :: Conserved(w, pid))
  }

  lemma {:induction false} PartsAreWhole(waiters: seq<Waiter>, seen: Option<Liveness>)
    ensures multiset(Part(waiters, seen, true)) + multiset(Part(waiters, seen, false)) == multiset(waiters)
  {
    if waiters != [] {
      PartsAreWhole(waiters[1..], seen);
      assert waiters == [waiters[0]] + waiters[1..];
    }
  }

  lemma {:induction false} PartHolds(waiters: seq<Waiter>, seen: Option<Liveness>, running: bool, waiter: Waiter)
    ensures waiter in Part(waiters, seen, running) <==> waiter in waiters && StillRunning(waiter.token, seen) == running
  {
    if waiters != [] {
      PartHolds(waiters[1..], seen, running, waiter);
      assert waiters == [waiters[0]] + waiters[1..];
    }
  }

  lemma AtJoined(list: Watchlist, more: Watchlist, pid: nat)
    ensures At(Joining(list, more), pid) == At(list, pid) + At(more, pid)
  {
  }

  /** A release splits every list in two: those who stay and those who join the departed. */
  lemma ReleaseSplits(w: World, i: nat, pid: nat)
    requires Enabled(w, Release(i))
    ensures var seen, next := w.pollers[i].seen, Step(w, Release(i));
            && At(next.state.watched, pid) == PartAt(w.state.watched, seen, true, pid)
            && At(next.departed, pid) == At(w.departed, pid) + PartAt(w.state.watched, seen, false, pid)
  {
    hide At, Parts, PartAt, Joining;
    var seen := w.pollers[i].seen;
    AtParts(w.state.watched, seen, true, pid);
    AtParts(w.state.watched, seen, false, pid);
    AtJoined(w.departed, Parts(w.state.watched, seen, false, w.state.watched.Keys), pid);
  }

  lemma ReleaseConserves(w: World, i: nat, pid: nat)
    requires Inv(w) && Enabled(w, Release(i))
    ensures Conserved(Step(w, Release(i)), pid)
  {
    hide At, Part;
    var seen, next := w.pollers[i].seen, Step(w, Release(i));
    assert Conserved(w, pid);
    ReleaseSplits(w, i, pid);
    PartsAreWhole(At(w.state.watched, pid), SeenOf(seen, pid));
  }

  lemma RegisterConserves(w: World, to: nat, token: Option<string>, pid: nat)
    requires Inv(w)
    ensures Conserved(Step(w, Register(to, token)), pid)
  {
    assert Conserved(w, pid);
    hide At, Inv, Step;
    RegisterAppends(w, to, token, pid);
    if pid == to {
      AppendsConserve(w, Step(w, Register(to, token)), pid, Waiter(w.nextId, token));
    } else {
      LaterConserves(w, Step(w, Register(to, token)), pid);
    }
  }

  lemma AppendsConserve(w: World, next: World, pid: nat, waiter: Waiter)
    requires Conserved(w, pid) && waiter.id == w.nextId && next.nextId == w.nextId + 1 && next.departed == w.departed
    requires At(next.state.watched, pid) == At(w.state.watched, pid) + [waiter]
    requires At(next.joined, pid) == At(w.joined, pid) + [waiter]
    ensures Conserved(next, pid)
  {
    hide At;
    JoinsInOrder(At(w.joined, pid), waiter);
  }

  lemma LaterConserves(w: World, next: World, pid: nat)
    requires Conserved(w, pid) && next.nextId >= w.nextId && next.departed == w.departed
    requires At(next.state.watched, pid) == At(w.state.watched, pid) + []
    requires At(next.joined, pid) == At(w.joined, pid) + []
    ensures Conserved(next, pid)
  {
    assert At(w.state.watched, pid) + [] == At(w.state.watched, pid) && At(w.joined, pid) + [] == At(w.joined, pid);
    hide At;
  }

  lemma RegisterAppends(w: World, to: nat, token: Option<string>, pid: nat)
    ensures var next, more := Step(w, Register(to, token)), if pid == to then [Waiter(w.nextId, token)] else [];
            && At(next.state.watched, pid) == At(w.state.watched, pid) + more
            && At(next.joined, pid) == At(w.joined, pid) + more
            && next.departed == w.departed && next.nextId == w.nextId + 1
  {
    hide At;
    var waiter := Waiter(w.nextId, token);
    AtUpdated(w.state.watched, to, At(w.state.watched, to) + [waiter], pid);
    AtUpdated(w.joined, to, At(w.joined, to) + [waiter], pid);
  }

  lemma AtUpdated(list: Watchlist, to: nat, waiters: seq<Waiter>, pid: nat)
    ensures At(list[to := waiters], pid) == if pid == to then waiters else At(list, pid)
  {
  }

  lemma JoinsInOrder(list: seq<Waiter>, waiter: Waiter)
    requires forall i, j :: 0 <= i < j < |list| ==> list[i].id < list[j].id
    requires forall other <- list :: other.id < waiter.id
    ensures var longer := list + [waiter];
            && (forall i, j :: 0 <= i < j < |longer| ==> longer[i].id < longer[j].id)
            && (forall other <- longer :: other.id < waiter.id + 1)
  {
    forall i, j | 0 <= i < j < |list + [waiter]| ensures (list + [waiter])[i].id < (list + [waiter])[j].id {
      assert list[i] in list;
    }
  }

  /** Every step keeps one poller per need, and conserves the waiters. */
  lemma StepKeeps(w: World, e: Event)
    requires Inv(w) && Enabled(w, e)
    ensures Inv(Step(w, e))
  {
    hide Conserved, Part;
    var next := Step(w, e);
    forall pid ensures Conserved(next, pid) {
      match e
      case Register(to, token) => RegisterConserves(w, to, token, pid);
      case Release(i) => ReleaseConserves(w, i, pid);
      case _ => AsideConserves(w, next, pid);
    }
  }

  lemma AsideConserves(w: World, next: World, pid: nat)
    requires Conserved(w, pid)
    requires next.state.watched == w.state.watched && next.joined == w.joined && next.departed == w.departed
    requires next.nextId == w.nextId
    ensures Conserved(next, pid)
  {
  }

  predicate EnabledRun(w: World, events: seq<Event>)
    decreases |events|
  {
    events != [] ==> Enabled(w, events[0]) && EnabledRun(Step(w, events[0]), events[1..])
  }

  function Run(w: World, events: seq<Event>): World
    requires EnabledRun(w, events)
    decreases |events|
  {
    if events == [] then w else Run(Step(w, events[0]), events[1..])
  }

  lemma {:induction false} RunKeeps(w: World, events: seq<Event>)
    requires Inv(w) && EnabledRun(w, events)
    ensures Inv(Run(w, events))
    decreases |events|
  {
    if events != [] {
      StepKeeps(w, events[0]);
      RunKeeps(Step(w, events[0]), events[1..]);
    }
  }

  /**
   * Under every interleaving from the start: at most one poller lives, and one does whenever a pid is
   * watched; each waiter ever registered is waiting or has departed, exactly once in all.
   */
  lemma OnePollerServesEveryWaiter(events: seq<Event>)
    requires EnabledRun(QUIET, events)
    ensures var w := Run(QUIET, events);
            && |w.pollers| <= 1
            && (w.state.watched != map[] ==> |w.pollers| == 1)
            && forall pid ::
                 multiset(At(w.state.watched, pid)) + multiset(At(w.departed, pid)) == multiset(At(w.joined, pid))
    ensures var w := Run(QUIET, events);
            forall pid, waiter :: waiter in At(w.joined, pid) ==>
              multiset(At(w.state.watched, pid))[waiter] + multiset(At(w.departed, pid))[waiter] == 1
  {
    hide Run, EnabledRun;
    assert Inv(QUIET);
    RunKeeps(QUIET, events);
    var w := Run(QUIET, events);
    forall pid
      ensures multiset(At(w.state.watched, pid)) + multiset(At(w.departed, pid)) == multiset(At(w.joined, pid))
    {
      assert Conserved(w, pid);
    }
    forall pid, waiter | waiter in At(w.joined, pid)
      ensures multiset(At(w.state.watched, pid))[waiter] + multiset(At(w.departed, pid))[waiter] == 1
    {
      assert Conserved(w, pid);
      OnceInIncreasing(At(w.joined, pid), waiter);
    }
  }

  lemma {:induction false} OnceInIncreasing(list: seq<Waiter>, waiter: Waiter)
    requires forall i, j :: 0 <= i < j < |list| ==> list[i].id < list[j].id
    requires waiter in list
    ensures multiset(list)[waiter] == 1
  {
    assert list == [list[0]] + list[1..];
    if waiter == list[0] {
      assert waiter !in list[1..];
      assert waiter !in multiset(list[1..]);
    } else {
      OnceInIncreasing(list[1..], waiter);
    }
  }

  /** What a probe must show for a waiter to leave: its process gone, or the pid under another token. */
  predicate ShowsExit(seen: Option<Liveness>, token: Option<string>) {
    && seen.Some?
    && (seen.value.Gone? || (seen.value.Alive? && token.Some? && token.value != seen.value.token))
  }

  /** A waiting waiter departs in a step exactly when that step releases on a probe that shows its exit. */
  lemma DepartureIsExact(w: World, e: Event, pid: nat, waiter: Waiter)
    requires Inv(w) && Enabled(w, e) && waiter in At(w.state.watched, pid)
    ensures var next := Step(w, e);
            waiter !in At(next.state.watched, pid) <==>
              e.Release? && ShowsExit(SeenOf(w.pollers[e.poller].seen, pid), waiter.token)
    ensures var next := Step(w, e);
            waiter !in At(next.state.watched, pid) ==> waiter in At(next.departed, pid)
  {
    hide Part, Conserved;
    if e.Release? {
      hide Step;
      var seen := w.pollers[e.poller].seen;
      ReleaseSplits(w, e.poller, pid);
      PartHolds(At(w.state.watched, pid), SeenOf(seen, pid), true, waiter);
      PartHolds(At(w.state.watched, pid), SeenOf(seen, pid), false, waiter);
    }
  }

  /** Nothing any probe of the run reports about `pid` shows the exit of a process with this token. */
  predicate NeverShown(events: seq<Event>, pid: nat, token: Option<string>) {
    forall e <- events :: e.Probe? ==> !ShowsExit(SeenOf(e.seen, pid), token)
  }

  ghost predicate NothingPending(w: World, pid: nat, token: Option<string>) {
    forall phase <- w.pollers :: phase.Releasing? ==> !ShowsExit(SeenOf(phase.seen, pid), token)
  }

  /** Over a whole run a waiter stays on the list, with a live poller, until some probe shows its exit. */
  lemma {:induction false} WaitsUntilShown(w: World, events: seq<Event>, pid: nat, waiter: Waiter)
    requires Inv(w) && EnabledRun(w, events)
    requires waiter in At(w.state.watched, pid)
    requires NeverShown(events, pid, waiter.token) && NothingPending(w, pid, waiter.token)
    ensures waiter in At(Run(w, events).state.watched, pid) && |Run(w, events).pollers| == 1
    decreases |events|
  {
    hide ShowsExit, Conserved;
    if events != [] {
      var e := events[0];
      var next := Step(w, e);
      assert e in events;
      forall f <- events[1..] ensures f in events {
      }
      if e.Release? {
        assert w.pollers[e.poller] in w.pollers;
      }
      DepartureIsExact(w, e, pid, waiter);
      StepKeeps(w, e);
      PendingStays(w, e, pid, waiter.token);
      WaitsUntilShown(next, events[1..], pid, waiter);
    }
  }

  lemma PendingStays(w: World, e: Event, pid: nat, token: Option<string>)
    requires Enabled(w, e) && NothingPending(w, pid, token)
    requires e.Probe? ==> !ShowsExit(SeenOf(e.seen, pid), token)
    ensures NothingPending(Step(w, e), pid, token)
  {
    hide ShowsExit, Released, Registered;
    var next := Step(w, e);
    forall phase <- next.pollers | phase.Releasing? ensures !ShowsExit(SeenOf(phase.seen, pid), token) {
      assert phase in w.pollers || (e.Probe? && phase == Releasing(e.seen));
    }
  }

  // ----- probes taken before a waiter registered -----

  /** The waiter a registration in `w` adds. */
  function Newcomer(w: World, token: Option<string>): Waiter { Waiter(w.nextId, token) }

  lemma RegisterListsLast(w: World, pid: nat, token: Option<string>)
    requires Inv(w)
    ensures var next := Step(w, Register(pid, token));
            && Newcomer(w, token) in At(next.state.watched, pid)
            && (NothingPending(w, pid, token) ==> NothingPending(next, pid, token))
            && w.pollers <= next.pollers
  {
    hide ShowsExit, Conserved;
    if NothingPending(w, pid, token) {
      PendingStays(w, Register(pid, token), pid, token);
    }
  }

  /** Released by what was seen before it came: the run of one release, without any probe. */
  lemma StaleRelease(w: World, pid: nat, token: Option<string>) returns (i: nat)
    requires Inv(w) && !NothingPending(w, pid, token)
    ensures var registered := Step(w, Register(pid, token));
            && EnabledRun(registered, [Release(i)]) && NeverShown([Release(i)], pid, token)
            && Newcomer(w, token) !in At(Run(registered, [Release(i)]).state.watched, pid)
  {
    hide ShowsExit, Step, Inv, At, Run, EnabledRun;
    var phase :| phase in w.pollers && phase.Releasing? && ShowsExit(SeenOf(phase.seen, pid), token);
    i :| 0 <= i < |w.pollers| && w.pollers[i] == phase;
    RegisterListsLast(w, pid, token);
    StepKeeps(w, Register(pid, token));
    var registered := Step(w, Register(pid, token));
    assert registered.pollers[i] == phase;
    DepartureIsExact(registered, Release(i), pid, Newcomer(w, token));
    OneStep(registered, Release(i));
  }

  lemma OneStep(w: World, e: Event)
    requires Enabled(w, e)
    ensures EnabledRun(w, [e]) && Run(w, [e]) == Step(w, e)
  {
    assert [e][1..] == [];
  }

  /** No run without a probe that shows its exit after it registered takes the newcomer off its list. */
  ghost predicate OnlyLaterProbesRelease(w: World, pid: nat, token: Option<string>) {
    var registered := Step(w, Register(pid, token));
    forall events | EnabledRun(registered, events) && NeverShown(events, pid, token) ::
      Newcomer(w, token) in At(Run(registered, events).state.watched, pid)
  }

  /**
   * A waiter departs on a probe made after it registered, in every continuation, if and only if no
   * poller stood between its probe and its release with a sight that shows the exit when it registered.
   */
  lemma LaterProbesExactly(w: World, pid: nat, token: Option<string>)
    requires Inv(w)
    ensures OnlyLaterProbesRelease(w, pid, token) <==> NothingPending(w, pid, token)
  {
    hide ShowsExit, Step, Inv, NothingPending, NeverShown;
    var registered := Step(w, Register(pid, token));
    if NothingPending(w, pid, token) {
      RegisterListsLast(w, pid, token);
      StepKeeps(w, Register(pid, token));
      forall events | EnabledRun(registered, events) && NeverShown(events, pid, token)
        ensures Newcomer(w, token) in At(Run(registered, events).state.watched, pid)
      {
        WaitsUntilShown(registered, events, pid, Newcomer(w, token));
      }
    } else {
      var i := StaleRelease(w, pid, token);
    }
  }

  function StaleEvents(pid: nat): seq<Event> {
    [Register(pid, None), TakeRoster(0), Probe(0, map[pid := Gone])]
  }

  /** From the start, three steps reach a state in which the next waiter for the pid is released unseen. */
  lemma StaleProbeHappens(pid: nat, token: Option<string>)
    ensures EnabledRun(QUIET, StaleEvents(pid)) && Inv(Run(QUIET, StaleEvents(pid)))
    ensures !OnlyLaterProbesRelease(Run(QUIET, StaleEvents(pid)), pid, token)
  {
    StalePolls(pid, token);
    RunKeeps(QUIET, StaleEvents(pid));
    hide Inv, Run, EnabledRun, NothingPending, OnlyLaterProbesRelease, StaleEvents;
    LaterProbesExactly(Run(QUIET, StaleEvents(pid)), pid, token);
  }

  lemma StalePolls(pid: nat, token: Option<string>)
    ensures EnabledRun(QUIET, StaleEvents(pid)) && Inv(QUIET)
    ensures !NothingPending(Run(QUIET, StaleEvents(pid)), pid, token)
  {
    var seen: map<nat, Liveness> := map[pid := Gone];
    var first := Step(QUIET, Register(pid, None));
    assert first.pollers == [TakingRoster] && pid in first.state.watched;
    var second := Step(first, TakeRoster(0));
    var third := Step(second, Probe(0, seen));
    hide Step, Inv, ShowsExit;
    assert third.pollers == [Releasing(seen)] && Releasing(seen) in third.pollers;
    assert ShowsExit(SeenOf(seen, pid), token) by { GoneShows(pid, token); }
    OneStep(second, Probe(0, seen));
    assert StaleEvents(pid)[1..] == [TakeRoster(0), Probe(0, seen)] && StaleEvents(pid)[1..][1..] == [Probe(0, seen)];
  }

  lemma GoneShows(pid: nat, token: Option<string>)
    ensures ShowsExit(SeenOf(map[pid := Gone], pid), token)
  {
  }
}
