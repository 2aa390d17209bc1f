/**
 * What a service becoming ready releases (usecases/src/supervisor_ready.rs): in which passes every
 * waiter is launched after everything it waited for, and in which it is not.
 */
module Readiness {
  import opened Graphs
  import opened Model
  import opened ProcessTable
  import opened Handlers
  import opened Coherence
  import opened Waiting

  /** A released dependency: a running service, or a registered scheduled task, whose schedule is armed. */
  predicate IsReadyNow(records: seq<Record>, d: Name) {
    Has(records, d) && (Find(records, d).value.runtime.status.Online? || IsRegisteredTask(Find(records, d).value))
  }

  predicate IsRegisteredTask(record: Record) {
    record.spec.IsScheduledTask() && record.runtime.scheduleArmed
  }

  /** Everything `x` waited for in `waiters` is `root` or ready. */
  predicate DependenciesReady(waiters: Graph, records: seq<Record>, root: Name, x: Name) {
    forall d <- waiters :: x in waiters[d] ==> d == root || IsReadyNow(records, d)
  }

  // ----- the launches of a pass -----

  /** A launch the pass attempts, and the state it is attempted in. */
  datatype Site = Site(name: Name, at: State)

  /** The state after the waiters of one list. */
  function ListState(s: State, list: seq<Name>, ports: Ports): State
    decreases |list|
  {
    if list == [] then s
    else if StillWaiting(s.waiters, list[0]) then ListState(s, list[1..], ports)
    else ListState(LaunchWaiter(s, list[0], ports).0, list[1..], ports)
  }

  function ListSites(s: State, list: seq<Name>, ports: Ports): seq<Site>
    decreases |list|
  {
    if list == [] then []
    else if StillWaiting(s.waiters, list[0]) then ListSites(s, list[1..], ports)
    else [Site(list[0], s)] + ListSites(LaunchWaiter(s, list[0], ports).0, list[1..], ports)
  }

  lemma {:induction false} ListStateIsLaunchList(s: State, list: seq<Name>, queue: seq<Name>, ports: Ports)
    ensures LaunchList(s, list, queue, ports).0 == ListState(s, list, ports)
    decreases |list|
  {
    hide LaunchWaiter, StillWaiting;
    if list != [] {
      var (next, released) := LaunchWaiter(s, list[0], ports);
      ListStateIsLaunchList(s, list[1..], queue, ports);
      ListStateIsLaunchList(next, list[1..], if released then queue + [list[0]] else queue, ports);
    }
  }

  function QueueSites(s: State, queue: seq<Name>, ports: Ports): seq<Site>
    decreases |s.waiters|, |queue|
  {
    if queue == [] then []
    else
      var ready, left := queue[|queue| - 1], queue[..|queue| - 1];
      if ready !in s.waiters then QueueSites(s, left, ports)
      else
        var taken := s.(waiters := s.waiters - {ready});
        ForgetShrinks(s.waiters, ready);
        LaunchListShrinks(taken, s.waiters[ready], left, ports);
        var (next, longer) := LaunchList(taken, s.waiters[ready], left, ports);
        ListSites(taken, s.waiters[ready], ports) + QueueSites(next, longer, ports)
  }

  /** Every launch `launch_waiters(n)` attempts, in order. */
  function Attempts(s: State, n: Name, ports: Ports): seq<Site> {
    QueueSites(s, [n], ports)
  }

  /** What an attempt adds to the processes taken charge of. */
  function SpawnedAt(site: Site, ports: Ports): seq<Launch> {
    var next := LaunchOne(site.at, site.name, true, ports).0;
    if |site.at.launched| <= |next.launched| then next.launched[|site.at.launched|..] else []
  }

  function SpawnedAll(sites: seq<Site>, ports: Ports): seq<Launch> {
    if sites == [] then [] else SpawnedAt(sites[0], ports) + SpawnedAll(sites[1..], ports)
  }

  lemma {:induction false} SpawnedSplits(a: seq<Site>, b: seq<Site>, ports: Ports)
    ensures SpawnedAll(a + b, ports) == SpawnedAll(a, ports) + SpawnedAll(b, ports)
  {
    hide SpawnedAt;
    if a == [] {
      assert a + b == b;
    } else {
      assert (a + b)[1..] == a[1..] + b;
      SpawnedSplits(a[1..], b, ports);
    }
  }

  lemma {:induction false} FailDeadLogsNothing(s: State, dead: seq<Name>)
    ensures FailDead(s, dead).0.launched == s.launched && FailDead(s, dead).0.tick == s.tick
    decreases |s.waiters|, |dead|
  {
    hide ForgetWaiter, Find;
    if dead != [] {
      DeadStepShrinks(s, dead);
      var (next, left) := DeadStep(s, dead);
      FailDeadLogsNothing(next, left);
    }
  }

  lemma LaunchLogs(s: State, waiter: Name, ports: Ports)
    ensures var tried := LaunchOne(s, waiter, true, ports).0;
            s.launched <= tried.launched && s.tick <= tried.tick
  {
    hide Find, Put;
  }

  lemma WatchLogsNothing(s: State, o: StartOutcome)
    ensures Watch(s, o).launched == s.launched && Watch(s, o).tick == s.tick
  {
    hide Find;
  }

  lemma ArmLogsNothing(s: State, name: Name, ports: Ports)
    ensures ArmTimerFor(s, name, ports).launched == s.launched && s.tick <= ArmTimerFor(s, name, ports).tick
  {
    hide Find;
  }

  lemma WaiterLogs(s: State, waiter: Name, ports: Ports)
    ensures var next := LaunchWaiter(s, waiter, ports).0;
            && next.launched == s.launched + SpawnedAt(Site(waiter, s), ports)
            && s.tick < next.tick
  {
    hide LaunchOne, Watch, ArmTimerFor, MarkErroredIfSettled, FailDead, Find;
    var (tried, outcome) := LaunchOne(s, waiter, true, ports);
    LaunchLogs(s, waiter, ports);
    if outcome.None? {
      var marked := MarkErroredIfSettled(tried, waiter);
      ErrorLogsNothing(tried, waiter);
      FailDeadLogsNothing(marked.(waiters := marked.waiters - {waiter}), WaitersOf(marked.waiters, waiter));
    } else {
      WatchLogsNothing(tried, outcome.value);
      ArmLogsNothing(Watch(tried, outcome.value), waiter, ports);
    }
  }

  lemma ErrorLogsNothing(s: State, name: Name)
    ensures var next := MarkErroredIfSettled(s, name); next.launched == s.launched && next.tick == s.tick
  {
    hide Find, Put;
  }

  lemma {:induction false} ListLogs(s: State, list: seq<Name>, ports: Ports)
    ensures var next := ListState(s, list, ports);
            next.launched == s.launched + SpawnedAll(ListSites(s, list, ports), ports) && s.tick <= next.tick
    decreases |list|
  {
    hide LaunchWaiter, StillWaiting, SpawnedAt;
    if list != [] {
      if StillWaiting(s.waiters, list[0]) {
        ListLogs(s, list[1..], ports);
      } else {
        var next := LaunchWaiter(s, list[0], ports).0;
        WaiterLogs(s, list[0], ports);
        ListLogs(next, list[1..], ports);
      }
    }
  }

  lemma {:induction false} QueueLogs(s: State, queue: seq<Name>, ports: Ports)
    ensures var next := LaunchQueue(s, queue, ports);
            next.launched == s.launched + SpawnedAll(QueueSites(s, queue, ports), ports) && s.tick <= next.tick
    decreases |s.waiters|, |queue|
  {
    hide LaunchList, ListSites, SpawnedAt, ListState;
    if queue != [] {
      var ready, left := queue[|queue| - 1], queue[..|queue| - 1];
      if ready !in s.waiters {
        QueueLogs(s, left, ports);
      } else {
        var taken := s.(waiters := s.waiters - {ready});
        var list := s.waiters[ready];
        ForgetShrinks(s.waiters, ready);
        LaunchListShrinks(taken, list, left, ports);
        QueueUnfolds(s, queue, ports);
        hide LaunchQueue, QueueSites, SpawnedAll;
        var (next, longer) := LaunchList(taken, list, left, ports);
        ListStateIsLaunchList(taken, list, left, ports);
        ListLogs(taken, list, ports);
        QueueLogs(next, longer, ports);
        SpawnedSplits(ListSites(taken, list, ports), QueueSites(next, longer, ports), ports);
      }
    }
  }

  /** The last of the queue goes first, and its list with it. */
  lemma QueueUnfolds(s: State, queue: seq<Name>, ports: Ports)
    requires queue != [] && queue[|queue| - 1] in s.waiters
    ensures var ready, left := queue[|queue| - 1], queue[..|queue| - 1];
            var taken, list := s.(waiters := s.waiters - {ready}), s.waiters[ready];
            var (next, longer) := LaunchList(taken, list, left, ports);
            && LaunchQueue(s, queue, ports) == LaunchQueue(next, longer, ports)
            && QueueSites(s, queue, ports) == ListSites(taken, list, ports) + QueueSites(next, longer, ports)
  {
    hide LaunchList, ListSites;
  }

  /** What the pass spawns is what its attempts spawn, in order: no launch goes unaccounted. */
  lemma AttemptsAreTheLaunches(s: State, n: Name, ports: Ports)
    ensures var next := LaunchWaiters(s, n, ports);
            next.launched == s.launched + SpawnedAll(Attempts(s, n, ports), ports) && s.tick <= next.tick
  {
    QueueLogs(s, [n], ports);
  }

  // ----- readiness is never lost in a pass -----

  lemma ReadyAfterPut(records: seq<Record>, m: Name, updated: Record)
    requires Has(records, m) && updated.runtime.name == m && updated.spec == Find(records, m).value.spec
    requires Find(records, m).value.runtime.status.Online? ==> updated.runtime.status.Online?
    requires Find(records, m).value.runtime.scheduleArmed ==> updated.runtime.scheduleArmed
    ensures forall d :: IsReadyNow(records, d) ==> IsReadyNow(Put(records, m, updated), d)
    ensures forall d :: Has(Put(records, m, updated), d) <==> Has(records, d)
  {
  }

  ghost predicate KeepsReady(records: seq<Record>, next: seq<Record>) {
    && (forall d :: IsReadyNow(records, d) ==> IsReadyNow(next, d))
    && (forall d :: Has(next, d) <==> Has(records, d))
  }

  lemma LaunchOneKeepsReady(s: State, waiter: Name, ports: Ports)
    requires Has(s.records, waiter)
    ensures var (next, outcome) := LaunchOne(s, waiter, true, ports);
            && KeepsReady(s.records, next.records)
            && (outcome.Some? && outcome.value.kind.Scheduled? ==>
                  Has(next.records, waiter) && IsRegisteredTask(Find(next.records, waiter).value))
  {
    if LaunchOne(s, waiter, true, ports).1.Some? {
      var updated := LaunchEdits(s, waiter, true, ports);
      hide LaunchOne, Find, Put;
      ReadyAfterPut(s.records, waiter, updated);
    }
  }

  lemma ErrorKeepsReady(s: State, name: Name)
    requires Has(s.records, name)
    ensures KeepsReady(s.records, MarkErroredIfSettled(s, name).records)
  {
    var record := Find(s.records, name).value;
    if record.runtime.status.IsSettled() {
      var updated := record.With(record.runtime.MarkExited(Errored));
      hide Put, Find;
      ReadyAfterPut(s.records, name, updated);
    }
  }

  lemma {:induction false} FailDeadKeepsReady(s: State, dead: seq<Name>)
    requires AllHave(s.records, dead) && WaitersKnown(s.records, s.waiters)
    ensures KeepsReady(s.records, FailDead(s, dead).0.records)
    decreases |s.waiters|, |dead|
  {
    hide IsReadyNow, Find;
    if dead != [] {
      var doomed := dead[|dead| - 1];
      var forgotten := ForgetWaiter(s.waiters, doomed);
      var trimmed := s.(waiters := forgotten);
      DeadStepShrinks(s, dead);
      var (next, left) := DeadStep(s, dead);
      assert doomed in dead;
      ErrorKeepsReady(trimmed, doomed);
      assert next.records == MarkErroredIfSettled(trimmed, doomed).records;
      forall d <- left ensures Has(next.records, d) {
        if d !in dead {
          assert d in s.waiters[doomed];
          assert AllHave(s.records, s.waiters[doomed]);
        }
      }
      forall key <- next.waiters ensures AllHave(next.records, next.waiters[key]) {
        assert AllHave(s.records, s.waiters[key]);
      }
      FailDeadKeepsReady(next, left);
    }
  }

  lemma FailKeepsReady(s: State, name: Name)
    requires WaitersKnown(s.records, s.waiters)
    ensures KeepsReady(s.records, FailDownstream(s, name).0.records)
  {
    hide IsReadyNow;
    var taken := s.(waiters := s.waiters - {name});
    if name in s.waiters {
      assert AllHave(s.records, s.waiters[name]);
    }
    forall key <- taken.waiters ensures AllHave(taken.records, taken.waiters[key]) {
      assert AllHave(s.records, s.waiters[key]);
    }
    FailDeadKeepsReady(taken, WaitersOf(s.waiters, name));
  }

  lemma ReleaseIsReady(records: seq<Record>, waiter: Name, o: StartOutcome)
    requires Has(records, waiter)
    requires o.kind.Scheduled? ==> IsRegisteredTask(Find(records, waiter).value)
    ensures o.kind.Scheduled? || Find(records, waiter).value.runtime.status.Online? ==> IsReadyNow(records, waiter)
  {
  }

  /** A launch that is not refused changes no waiter, makes nobody unready, and releases only the ready. */
  lemma AcceptedLaunch(s: State, waiter: Name, ports: Ports)
    requires Has(s.records, waiter) && LaunchOne(s, waiter, true, ports).1.Some?
    ensures var (next, released) := LaunchWaiter(s, waiter, ports);
            && next.waiters == s.waiters && KeepsReady(s.records, next.records)
            && (released ==> IsReadyNow(next.records, waiter))
            && next.records == LaunchOne(s, waiter, true, ports).0.records
  {
    LaunchOneKeepsReady(s, waiter, ports);
    var (tried, outcome) := LaunchOne(s, waiter, true, ports);
    hide LaunchOne, IsReadyNow, Watch, ArmTimerFor, Find;
    ReleaseIsReady(tried.records, waiter, outcome.value);
  }

  /** A refused launch fails what waits for it, releases nobody and makes nobody unready. */
  lemma RefusedLaunch(s: State, waiter: Name, ports: Ports)
    requires Has(s.records, waiter) && LaunchOne(s, waiter, true, ports).1.None? && WaitersKnown(s.records, s.waiters)
    ensures var (next, released) := LaunchWaiter(s, waiter, ports);
            && !released && KeepsReady(s.records, next.records)
            && (forall d, x :: Edge(next.waiters, d, x) <==>
                  Edge(s.waiters, d, x) && d != waiter && !Reaches(s.waiters, waiter, d) && !Reaches(s.waiters, waiter, x))
            && next.waiters == FailDownstream(MarkErroredIfSettled(Tick(s), waiter), waiter).0.waiters
            && next.records == FailDownstream(MarkErroredIfSettled(Tick(s), waiter), waiter).0.records
  {
    assert LaunchOne(s, waiter, true, ports).0 == Tick(s) by { RefusalOnlyTicks(s, waiter, ports); }
    hide LaunchOne, IsReadyNow, MarkErroredIfSettled, FailDownstream, Find, Reaches;
    var marked := MarkErroredIfSettled(Tick(s), waiter);
    ErrorKeepsReady(Tick(s), waiter);
    forall key <- marked.waiters ensures AllHave(marked.records, marked.waiters[key]) {
      assert AllHave(s.records, s.waiters[key]);
    }
    FailKeepsReady(marked, waiter);
    FailDownstreamExact(marked, waiter);
  }

  lemma RefusalOnlyTicks(s: State, waiter: Name, ports: Ports)
    requires Has(s.records, waiter) && LaunchOne(s, waiter, true, ports).1.None?
    ensures LaunchOne(s, waiter, true, ports).0 == Tick(s) && ports.spawn(s.tick).None?
  {
    hide Find, Put;
  }

  // ----- when every waiter comes after what it waited for -----

  /** No name of the list stands before one it reaches. */
  ghost predicate OrderedList(g: Graph, list: seq<Name>) {
    list == [] || ((forall y <- list[1..] :: !Reaches(g, list[0], y)) && OrderedList(g, list[1..]))
  }

  /** In no list does a service stand before one that waits, directly or not, for it as well. */
  ghost predicate OrderedLists(waiters: Graph) {
    forall r <- waiters :: OrderedList(waiters - {r}, waiters[r])
  }

  /** The launch of `a` is refused, which dooms a service further down the list being gone through. */
  ghost predicate Dooms(s: State, a: Name, rest: seq<Name>, ports: Ports) {
    LaunchOne(s, a, true, ports).1.None? && exists x <- rest :: Reaches(s.waiters, a, x)
  }

  ghost predicate DoomsListed(s: State, list: seq<Name>, ports: Ports)
    decreases |list|
  {
    list != [] && (if StillWaiting(s.waiters, list[0]) then DoomsListed(s, list[1..], ports)
                   else Dooms(s, list[0], list[1..], ports)
                        || DoomsListed(LaunchWaiter(s, list[0], ports).0, list[1..], ports))
  }

  /** Some refusal of the pass dooms a service the same list still holds. */
  ghost predicate DoomsInPass(s: State, queue: seq<Name>, ports: Ports)
    decreases |s.waiters|, |queue|
  {
    queue != [] &&
    var ready, left := queue[|queue| - 1], queue[..|queue| - 1];
    if ready !in s.waiters then DoomsInPass(s, left, ports)
    else
      var taken := s.(waiters := s.waiters - {ready});
      ForgetShrinks(s.waiters, ready);
      LaunchListShrinks(taken, s.waiters[ready], left, ports);
      var (next, longer) := LaunchList(taken, s.waiters[ready], left, ports);
      DoomsListed(taken, s.waiters[ready], ports) || DoomsInPass(next, longer, ports)
  }

  /** No spawn is refused at a position between two ticks. */
  ghost predicate NoRefusal(ports: Ports, from: nat, to: nat) {
    forall t: nat :: from <= t < to ==> ports.spawn(t).Some?
  }

  /** `x` waits for `d` still, or `d` is the root or ready. */
  ghost predicate Accounted(first: Graph, s: State, root: Name, x: Name) {
    forall d <- first | x in first[d] :: Edge(s.waiters, d, x) || d == root || IsReadyNow(s.records, d)
  }

  /** Inside a pass: the graph only shrank, and whoever still waits is accounted for. */
  ghost predicate Passing(first: Graph, s: State, root: Name, list: seq<Name>, queue: seq<Name>, ordered: bool) {
    && WaitersKnown(s.records, s.waiters) && AllHave(s.records, list)
    && (forall d, x :: Edge(s.waiters, d, x) ==> Edge(first, d, x))
    && (ordered ==> forall d <- s.waiters :: OrderedList(first - {d}, s.waiters[d]))
    && (forall x :: StillWaiting(s.waiters, x) || x in list ==> Accounted(first, s, root, x))
    && (forall key <- queue :: key == root || IsReadyNow(s.records, key))
  }

  lemma {:induction false} WithoutStaysOrdered(g: Graph, list: seq<Name>, name: Name)
    requires OrderedList(g, list)
    ensures OrderedList(g, Without(list, name))
  {
    hide Reaches;
    if list != [] {
      WithoutStaysOrdered(g, list[1..], name);
      var rest := Without(list[1..], name);
      if list[0] != name {
        assert ([list[0]] + rest)[1..] == rest;
      }
    }
  }

  lemma {:induction false} FailDeadStaysOrdered(first: Graph, s: State, dead: seq<Name>)
    requires forall d <- s.waiters :: OrderedList(first - {d}, s.waiters[d])
    ensures var next := FailDead(s, dead).0; forall d <- next.waiters :: OrderedList(first - {d}, next.waiters[d])
    decreases |s.waiters|, |dead|
  {
    hide MarkErroredIfSettled, OrderedList;
    if dead != [] {
      DeadStepShrinks(s, dead);
      var (next, left) := DeadStep(s, dead);
      forall d <- next.waiters ensures OrderedList(first - {d}, next.waiters[d]) {
        WithoutStaysOrdered(first - {d}, s.waiters[d], dead[|dead| - 1]);
      }
      FailDeadStaysOrdered(first, next, left);
    }
  }

  lemma ReachesInLarger(small: Graph, large: Graph, a: Name, b: Name)
    requires forall x, y :: Edge(small, x, y) ==> Edge(large, x, y)
    requires Reaches(small, a, b)
    ensures Reaches(large, a, b)
  {
    var p :| Connects(small, p, a, b);
    assert Connects(large, p, a, b);
  }

  /** Whoever survives a refused launch is accounted for as before. */
  lemma SurvivorIsAccounted(first: Graph, s: State, next: State, root: Name, a: Name, x: Name)
    requires Accounted(first, s, root, x) && KeepsReady(s.records, next.records)
    requires forall d, y :: Edge(next.waiters, d, y) <==>
               Edge(s.waiters, d, y) && d != a && !Reaches(s.waiters, a, d) && !Reaches(s.waiters, a, y)
    requires !Reaches(s.waiters, a, x)
    ensures Accounted(first, next, root, x)
  {
    hide IsReadyNow;
    forall d <- first | x in first[d] ensures Edge(next.waiters, d, x) || d == root || IsReadyNow(next.records, d) {
      if Edge(s.waiters, d, x) {
        if d == a {
          EdgeReaches(s.waiters, a, x);
        } else if Reaches(s.waiters, a, d) {
          ReachesThenEdge(s.waiters, a, d, x);
        }
      }
    }
  }

  lemma StaysAccounted(first: Graph, s: State, next: State, root: Name, x: Name)
    requires Accounted(first, s, root, x) && next.waiters == s.waiters && KeepsReady(s.records, next.records)
    ensures Accounted(first, next, root, x)
  {
    hide IsReadyNow;
  }

  lemma AcceptedPasses(first: Graph, s: State, root: Name, list: seq<Name>, queue: seq<Name>, ports: Ports, ordered: bool)
    requires list != [] && Passing(first, s, root, list, queue, ordered)
    requires LaunchOne(s, list[0], true, ports).1.Some?
    ensures var (next, released) := LaunchWaiter(s, list[0], ports);
            Passing(first, next, root, list[1..], if released then queue + [list[0]] else queue, ordered)
  {
    assert Has(s.records, list[0]) by { assert list[0] in list; }
    hide LaunchWaiter, LaunchOne, IsReadyNow, OrderedList, StillWaiting, Accounted;
    AcceptedLaunch(s, list[0], ports);
    var (next, released) := LaunchWaiter(s, list[0], ports);
    WaitersStayKnown(s.records, next.records, s.waiters);
    forall x | StillWaiting(s.waiters, x) || x in list ensures Accounted(first, next, root, x) {
      StaysAccounted(first, s, next, root, x);
    }
  }

  lemma RefusedAccounts(first: Graph, s: State, root: Name, list: seq<Name>, queue: seq<Name>, ports: Ports,
                        ordered: bool, x: Name)
    requires list != [] && Passing(first, s, root, list, queue, ordered) && !Dooms(s, list[0], list[1..], ports)
    requires LaunchOne(s, list[0], true, ports).1.None?
    requires var next := LaunchWaiter(s, list[0], ports).0; StillWaiting(next.waiters, x) || x in list[1..]
    ensures Accounted(first, LaunchWaiter(s, list[0], ports).0, root, x)
  {
    var a := list[0];
    assert Has(s.records, a) by { assert a in list; }
    RefusedLaunch(s, a, ports);
    hide LaunchWaiter, LaunchOne, IsReadyNow, Reaches, OrderedList, Accounted;
    var next := LaunchWaiter(s, a, ports).0;
    if x in list[1..] {
      assert x in list;
    } else {
      var key :| key in next.waiters && x in next.waiters[key];
      assert Edge(next.waiters, key, x);
      assert Edge(s.waiters, key, x);
    }
    SurvivorIsAccounted(first, s, next, root, a, x);
  }

  lemma RefusedOrders(first: Graph, s: State, a: Name, ports: Ports)
    requires WaitersKnown(s.records, s.waiters) && Has(s.records, a) && LaunchOne(s, a, true, ports).1.None?
    requires forall d <- s.waiters :: OrderedList(first - {d}, s.waiters[d])
    ensures var next := LaunchWaiter(s, a, ports).0; forall d <- next.waiters :: OrderedList(first - {d}, next.waiters[d])
  {
    hide LaunchWaiter, LaunchOne, OrderedList, MarkErroredIfSettled, FailDead, Reaches;
    RefusedLaunch(s, a, ports);
    FailDeadStaysOrdered(first, MarkErroredIfSettled(Tick(s), a).(waiters := s.waiters - {a}), WaitersOf(s.waiters, a));
  }

  lemma RefusedPasses(first: Graph, s: State, root: Name, list: seq<Name>, queue: seq<Name>, ports: Ports,
                      ordered: bool, r: Name)
    requires list != [] && Passing(first, s, root, list, queue, ordered) && r !in s.waiters
    requires LaunchOne(s, list[0], true, ports).1.None? && !Dooms(s, list[0], list[1..], ports)
    ensures var (next, released) := LaunchWaiter(s, list[0], ports);
            !released && r !in next.waiters && Passing(first, next, root, list[1..], queue, ordered)
  {
    var a := list[0];
    assert Has(s.records, a) by { assert a in list; }
    var next := LaunchWaiter(s, a, ports).0;
    RefusedLaunch(s, a, ports);
    if ordered {
      RefusedOrders(first, s, a, ports);
    }
    forall x | StillWaiting(next.waiters, x) || x in list[1..] ensures Accounted(first, next, root, x) {
      RefusedAccounts(first, s, root, list, queue, ports, ordered, x);
    }
    hide LaunchWaiter, LaunchOne, IsReadyNow, Reaches, OrderedList, MarkErroredIfSettled, FailDead, Accounted, StillWaiting;
    KeysKeepEdges(s, a, ports, r);
    RefusedStaysKnown(s, a, ports);
  }

  lemma OrderedDoomsNobody(first: Graph, s: State, list: seq<Name>, r: Name, ports: Ports)
    requires list != [] && OrderedList(first - {r}, list)
    requires r !in s.waiters && forall d, y :: Edge(s.waiters, d, y) ==> Edge(first, d, y)
    ensures !Dooms(s, list[0], list[1..], ports)
  {
    hide Reaches, LaunchOne;
    forall x <- list[1..] ensures !Reaches(s.waiters, list[0], x) {
      if Reaches(s.waiters, list[0], x) {
        ReachesInLarger(s.waiters, first - {r}, list[0], x);
      }
    }
  }

  lemma {:induction false} FailDeadKeys(s: State, dead: seq<Name>, r: Name)
    requires r !in s.waiters
    ensures r !in FailDead(s, dead).0.waiters
    decreases |s.waiters|, |dead|
  {
    hide MarkErroredIfSettled;
    if dead != [] {
      DeadStepShrinks(s, dead);
      var (next, left) := DeadStep(s, dead);
      FailDeadKeys(next, left, r);
    }
  }

  lemma KeysKeepEdges(s: State, a: Name, ports: Ports, r: Name)
    requires Has(s.records, a) && LaunchOne(s, a, true, ports).1.None? && WaitersKnown(s.records, s.waiters)
    requires r !in s.waiters
    ensures r !in LaunchWaiter(s, a, ports).0.waiters
  {
    hide LaunchOne, MarkErroredIfSettled, FailDead, LaunchWaiter;
    RefusedLaunch(s, a, ports);
    var marked := MarkErroredIfSettled(Tick(s), a);
    FailDeadKeys(marked.(waiters := marked.waiters - {a}), WaitersOf(marked.waiters, a), r);
  }

  lemma RefusedStaysKnown(s: State, a: Name, ports: Ports)
    requires Has(s.records, a) && LaunchOne(s, a, true, ports).1.None? && WaitersKnown(s.records, s.waiters)
    ensures var next := LaunchWaiter(s, a, ports).0; WaitersKnown(next.records, next.waiters)
  {
    hide LaunchOne, LaunchWaiter, Reaches;
    RefusedLaunch(s, a, ports);
    var next := LaunchWaiter(s, a, ports).0;
    forall key <- next.waiters ensures AllHave(next.records, next.waiters[key]) {
      forall x <- next.waiters[key] ensures Has(next.records, x) {
        assert Edge(next.waiters, key, x);
        assert Edge(s.waiters, key, x);
        assert AllHave(s.records, s.waiters[key]);
      }
    }
  }

  ghost predicate SafeSites(first: Graph, root: Name, sites: seq<Site>) {
    forall site <- sites :: DependenciesReady(first, site.at.records, root, site.name)
  }

  lemma {:induction false} ListIsSafe(first: Graph, s: State, root: Name, list: seq<Name>, queue: seq<Name>, r: Name,
                                      ports: Ports, ordered: bool)
    requires Passing(first, s, root, list, queue, ordered) && r !in s.waiters
    requires if ordered then OrderedList(first - {r}, list) else !DoomsListed(s, list, ports)
    ensures SafeSites(first, root, ListSites(s, list, ports))
    ensures var (next, longer) := LaunchList(s, list, queue, ports); Passing(first, next, root, [], longer, ordered)
    decreases |list|
  {
    hide LaunchWaiter, LaunchOne, StillWaiting, IsReadyNow, Reaches, Passing, Dooms;
    if list == [] {
    } else if StillWaiting(s.waiters, list[0]) {
      PassingDrops(first, s, root, list, queue, ordered);
      ListIsSafe(first, s, root, list[1..], queue, r, ports, ordered);
    } else {
      HeadIsSafe(first, s, root, list, queue, ordered);
      var (next, released) := LaunchWaiter(s, list[0], ports);
      var longer := if released then queue + [list[0]] else queue;
      if LaunchOne(s, list[0], true, ports).1.Some? {
        AcceptedPasses(first, s, root, list, queue, ports, ordered);
        AcceptedKeys(first, s, root, list, queue, ports, ordered, r);
      } else {
        if ordered {
          PassingShrinks(first, s, root, list, queue, ordered);
          OrderedDoomsNobody(first, s, list, r, ports);
        }
        RefusedPasses(first, s, root, list, queue, ports, ordered, r);
      }
      ListIsSafe(first, next, root, list[1..], longer, r, ports, ordered);
    }
  }

  lemma PassingShrinks(first: Graph, s: State, root: Name, list: seq<Name>, queue: seq<Name>, ordered: bool)
    requires Passing(first, s, root, list, queue, ordered)
    ensures forall d, x :: Edge(s.waiters, d, x) ==> Edge(first, d, x)
  {
  }

  lemma NoRefusalLater(ports: Ports, from: nat, later: nat, end: nat)
    requires from <= later
    ensures NoRefusal(ports, from, end) ==> NoRefusal(ports, later, end)
  {
  }

  lemma TickFits(s: State, list: seq<Name>, ports: Ports, end: nat)
    requires list != [] && !StillWaiting(s.waiters, list[0]) && ListState(s, list, ports).tick <= end
    ensures var next := LaunchWaiter(s, list[0], ports).0; s.tick < next.tick <= end
    ensures ListState(LaunchWaiter(s, list[0], ports).0, list[1..], ports).tick <= end
  {
    hide LaunchWaiter;
    WaiterLogs(s, list[0], ports);
    ListLogs(LaunchWaiter(s, list[0], ports).0, list[1..], ports);
  }

  lemma AcceptedKeys(first: Graph, s: State, root: Name, list: seq<Name>, queue: seq<Name>, ports: Ports,
                     ordered: bool, r: Name)
    requires list != [] && Passing(first, s, root, list, queue, ordered) && r !in s.waiters
    requires LaunchOne(s, list[0], true, ports).1.Some?
    ensures r !in LaunchWaiter(s, list[0], ports).0.waiters
  {
    hide LaunchOne, LaunchWaiter;
    assert Has(s.records, list[0]) by { assert list[0] in list; }
    AcceptedLaunch(s, list[0], ports);
  }

  lemma PassingDrops(first: Graph, s: State, root: Name, list: seq<Name>, queue: seq<Name>, ordered: bool)
    requires list != [] && Passing(first, s, root, list, queue, ordered)
    ensures Passing(first, s, root, list[1..], queue, ordered)
  {
    hide Accounted, OrderedList, StillWaiting, IsReadyNow;
  }

  lemma HeadIsSafe(first: Graph, s: State, root: Name, list: seq<Name>, queue: seq<Name>, ordered: bool)
    requires list != [] && Passing(first, s, root, list, queue, ordered) && !StillWaiting(s.waiters, list[0])
    ensures DependenciesReady(first, s.records, root, list[0])
  {
    hide OrderedList, IsReadyNow;
    assert list[0] in list;
    assert Accounted(first, s, root, list[0]);
    forall d <- first | list[0] in first[d] ensures d == root || IsReadyNow(s.records, d) {
      assert !Edge(s.waiters, d, list[0]);
    }
  }

  /** Taking the list of a released service off the graph. */
  lemma TakingPasses(first: Graph, s: State, root: Name, queue: seq<Name>, ordered: bool)
    requires queue != [] && Passing(first, s, root, [], queue, ordered) && queue[|queue| - 1] in s.waiters
    ensures var ready, left := queue[|queue| - 1], queue[..|queue| - 1];
            Passing(first, s.(waiters := s.waiters - {ready}), root, s.waiters[ready], left, ordered)
  {
    hide OrderedList, IsReadyNow;
    var ready := queue[|queue| - 1];
    var taken := s.(waiters := s.waiters - {ready});
    assert ready in queue;
    assert AllHave(s.records, s.waiters[ready]);
    forall key <- taken.waiters ensures AllHave(taken.records, taken.waiters[key]) {
      assert AllHave(s.records, s.waiters[key]);
    }
    forall x | StillWaiting(taken.waiters, x) || x in s.waiters[ready] ensures Accounted(first, taken, root, x) {
      assert StillWaiting(s.waiters, x);
      assert Accounted(first, s, root, x);
      forall d <- first | x in first[d] ensures Edge(taken.waiters, d, x) || d == root || IsReadyNow(taken.records, d) {
        assert Edge(s.waiters, d, x) && d != ready ==> Edge(taken.waiters, d, x);
      }
    }
  }

  lemma PassingSkips(first: Graph, s: State, root: Name, queue: seq<Name>, ordered: bool)
    requires queue != [] && Passing(first, s, root, [], queue, ordered)
    ensures Passing(first, s, root, [], queue[..|queue| - 1], ordered)
  {
    hide Accounted, OrderedList, StillWaiting, IsReadyNow;
  }

  lemma {:induction false} QueueIsSafe(first: Graph, s: State, root: Name, queue: seq<Name>, ports: Ports, ordered: bool)
    requires Passing(first, s, root, [], queue, ordered)
    requires ordered || !DoomsInPass(s, queue, ports)
    ensures SafeSites(first, root, QueueSites(s, queue, ports))
    decreases |s.waiters|, |queue|
  {
    hide LaunchList, ListSites, ListState, Passing, DependenciesReady, DoomsListed;
    if queue != [] {
      var ready, left := queue[|queue| - 1], queue[..|queue| - 1];
      if ready !in s.waiters {
        PassingSkips(first, s, root, queue, ordered);
        QueueIsSafe(first, s, root, left, ports, ordered);
      } else {
        var taken := s.(waiters := s.waiters - {ready});
        var list := s.waiters[ready];
        ForgetShrinks(s.waiters, ready);
        LaunchListShrinks(taken, list, left, ports);
        var (next, longer) := LaunchList(taken, list, left, ports);
        TakingPasses(first, s, root, queue, ordered);
        ListWasOrdered(first, s, root, queue, ordered, ready);
        ListIsSafe(first, taken, root, list, left, ready, ports, ordered);
        QueueIsSafe(first, next, root, longer, ports, ordered);
      }
    }
  }

  lemma ListWasOrdered(first: Graph, s: State, root: Name, queue: seq<Name>, ordered: bool, ready: Name)
    requires Passing(first, s, root, [], queue, ordered) && ready in s.waiters
    ensures ordered ==> OrderedList(first - {ready}, s.waiters[ready])
  {
  }

  lemma PassBegins(s: State, n: Name, ordered: bool)
    requires WaitersKnown(s.records, s.waiters) && (ordered ==> OrderedLists(s.waiters))
    ensures Passing(s.waiters, s, n, [], [n], ordered)
  {
    hide OrderedList, IsReadyNow;
  }

  /** Every launch the pass attempts comes after everything the service waited for. */
  ghost predicate SafePass(s: State, n: Name, ports: Ports) {
    SafeSites(s.waiters, n, Attempts(s, n, ports))
  }

  /**
   * Whatever the launcher refuses: when in no list a service stands before one that waits for it as
   * well, readiness starts every waiter after everything it waited for, at the moment it is launched.
   */
  lemma OrderedListsAreSafe(s: State, n: Name, ports: Ports)
    requires WaitersKnown(s.records, s.waiters) && OrderedLists(s.waiters)
    ensures SafePass(s, n, ports)
  {
    hide LaunchQueue, QueueSites, Passing;
    PassBegins(s, n, true);
    QueueIsSafe(s.waiters, s, n, [n], ports, true);
  }

  lemma {:induction false} NoRefusalDoomsListed(s: State, list: seq<Name>, ports: Ports, end: nat)
    requires WaitersKnown(s.records, s.waiters) && AllHave(s.records, list)
    requires ListState(s, list, ports).tick <= end && NoRefusal(ports, s.tick, end)
    ensures !DoomsListed(s, list, ports)
    ensures var next := ListState(s, list, ports); WaitersKnown(next.records, next.waiters)
    decreases |list|
  {
    hide LaunchWaiter, LaunchOne, StillWaiting, IsReadyNow, Reaches, NoRefusal;
    if list != [] {
      forall d <- list[1..] ensures d in list {
      }
      assert Has(s.records, list[0]) by { assert list[0] in list; }
      if StillWaiting(s.waiters, list[0]) {
        NoRefusalDoomsListed(s, list[1..], ports, end);
      } else {
        TickFits(s, list, ports, end);
        AcceptsAll(s, list[0], ports, end);
        AcceptedLaunch(s, list[0], ports);
        var next := LaunchWaiter(s, list[0], ports).0;
        WaitersStayKnown(s.records, next.records, s.waiters);
        NoRefusalLater(ports, s.tick, next.tick, end);
        NoRefusalDoomsListed(next, list[1..], ports, end);
      }
    }
  }

  lemma AcceptsAll(s: State, a: Name, ports: Ports, end: nat)
    requires Has(s.records, a) && NoRefusal(ports, s.tick, end) && s.tick < end
    ensures LaunchOne(s, a, true, ports).1.Some?
  {
    hide LaunchOne;
    if LaunchOne(s, a, true, ports).1.None? {
      RefusalOnlyTicks(s, a, ports);
    }
  }

  lemma {:induction false} NoRefusalDoomsNobody(s: State, queue: seq<Name>, ports: Ports, end: nat)
    requires WaitersKnown(s.records, s.waiters)
    requires LaunchQueue(s, queue, ports).tick <= end && NoRefusal(ports, s.tick, end)
    ensures !DoomsInPass(s, queue, ports)
    decreases |s.waiters|, |queue|
  {
    hide LaunchList, ListState, DoomsListed, NoRefusal;
    if queue != [] {
      var ready, left := queue[|queue| - 1], queue[..|queue| - 1];
      if ready !in s.waiters {
        NoRefusalDoomsNobody(s, left, ports, end);
      } else {
        var taken := s.(waiters := s.waiters - {ready});
        var list := s.waiters[ready];
        ForgetShrinks(s.waiters, ready);
        LaunchListShrinks(taken, list, left, ports);
        var (next, longer) := LaunchList(taken, list, left, ports);
        TakenKnown(s, ready);
        ListStateIsLaunchList(taken, list, left, ports);
        ListLogs(taken, list, ports);
        QueueLogs(next, longer, ports);
        NoRefusalLater(ports, s.tick, next.tick, end);
        NoRefusalDoomsListed(taken, list, ports, end);
        NoRefusalDoomsNobody(next, longer, ports, end);
      }
    }
  }

  /** On any waiter graph the same holds of a pass in which no spawn is refused. */
  lemma WaitersStartAfterTheirDependencies(s: State, n: Name, ports: Ports)
    requires WaitersKnown(s.records, s.waiters)
    requires NoRefusal(ports, s.tick, LaunchWaiters(s, n, ports).tick)
    ensures SafePass(s, n, ports)
  {
    hide LaunchQueue, QueueSites, Passing;
    PassBegins(s, n, false);
    NoRefusalDoomsNobody(s, [n], ports, LaunchQueue(s, [n], ports).tick);
    QueueIsSafe(s.waiters, s, n, [n], ports, false);
  }

  // ----- who is launched, and who stays online -----

  lemma LaunchNames(site: Site, ports: Ports)
    ensures forall l <- SpawnedAt(site, ports) :: l.name == site.name
  {
    hide Find, Put;
  }

  ghost predicate AllReached(g: Graph, n: Name, sites: seq<Site>) {
    forall site <- sites :: Reaches(g, n, site.name)
  }

  lemma {:induction false} ReachedLaunches(g: Graph, n: Name, sites: seq<Site>, ports: Ports)
    requires AllReached(g, n, sites)
    ensures forall l <- SpawnedAll(sites, ports) :: Reaches(g, n, l.name)
  {
    hide SpawnedAt, Reaches;
    if sites != [] {
      assert sites[0] in sites;
      LaunchNames(sites[0], ports);
      ReachedLaunches(g, n, sites[1..], ports);
    }
  }

  /** Launching a waiter adds no edge. */
  lemma LaunchAddsNoEdge(s: State, waiter: Name, ports: Ports)
    ensures var next := LaunchWaiter(s, waiter, ports).0; forall d, x :: Edge(next.waiters, d, x) ==> Edge(s.waiters, d, x)
  {
    hide LaunchOne, Watch, ArmTimerFor, MarkErroredIfSettled, FailDownstream, Find;
    var (tried, outcome) := LaunchOne(s, waiter, true, ports);
    if outcome.None? {
      FailDownstreamExact(MarkErroredIfSettled(tried, waiter), waiter);
    }
  }

  lemma {:induction false} ListReaches(first: Graph, s: State, n: Name, list: seq<Name>, queue: seq<Name>, ports: Ports)
    requires forall d, x :: Edge(s.waiters, d, x) ==> Edge(first, d, x)
    requires (forall x <- list :: Reaches(first, n, x)) && (forall q <- queue :: q == n || Reaches(first, n, q))
    ensures AllReached(first, n, ListSites(s, list, ports))
    ensures var (next, longer) := LaunchList(s, list, queue, ports);
            && (forall d, x :: Edge(next.waiters, d, x) ==> Edge(first, d, x))
            && (forall q <- longer :: q == n || Reaches(first, n, q))
    decreases |list|
  {
    hide LaunchWaiter, StillWaiting, Reaches;
    if list != [] {
      assert list[0] in list;
      if StillWaiting(s.waiters, list[0]) {
        ListReaches(first, s, n, list[1..], queue, ports);
      } else {
        LaunchAddsNoEdge(s, list[0], ports);
        var (next, released) := LaunchWaiter(s, list[0], ports);
        ListReaches(first, next, n, list[1..], if released then queue + [list[0]] else queue, ports);
      }
    }
  }

  lemma {:induction false} QueueReaches(first: Graph, s: State, n: Name, queue: seq<Name>, ports: Ports)
    requires forall d, x :: Edge(s.waiters, d, x) ==> Edge(first, d, x)
    requires forall q <- queue :: q == n || Reaches(first, n, q)
    ensures AllReached(first, n, QueueSites(s, queue, ports))
    decreases |s.waiters|, |queue|
  {
    hide LaunchList, ListSites, Reaches;
    if queue != [] {
      var ready, left := queue[|queue| - 1], queue[..|queue| - 1];
      assert ready in queue;
      if ready !in s.waiters {
        QueueReaches(first, s, n, left, ports);
      } else {
        var taken, list := s.(waiters := s.waiters - {ready}), s.waiters[ready];
        forall x <- list ensures Reaches(first, n, x) {
          assert Edge(s.waiters, ready, x);
          if ready == n {
            EdgeReaches(first, n, x);
          } else {
            ReachesThenEdge(first, n, ready, x);
          }
        }
        ForgetShrinks(s.waiters, ready);
        LaunchListShrinks(taken, list, left, ports);
        ListReaches(first, taken, n, list, left, ports);
        var (next, longer) := LaunchList(taken, list, left, ports);
        QueueReaches(first, next, n, longer, ports);
      }
    }
  }

  /** A pass launches nobody but services that waited for the ready one, directly or not. */
  lemma OnlyWaitersAreLaunched(s: State, n: Name, ports: Ports)
    ensures var next := LaunchWaiters(s, n, ports);
            && s.launched <= next.launched
            && forall i :: |s.launched| <= i < |next.launched| ==> Reaches(s.waiters, n, next.launched[i].name)
  {
    hide LaunchWaiters, QueueSites, Reaches, SpawnedAll;
    AttemptsAreTheLaunches(s, n, ports);
    QueueReaches(s.waiters, s, n, [n], ports);
    ReachedLaunches(s.waiters, n, Attempts(s, n, ports), ports);
    hide Attempts, Edge;
    var next := LaunchWaiters(s, n, ports);
    var more := SpawnedAll(Attempts(s, n, ports), ports);
    forall i | |s.launched| <= i < |next.launched| ensures Reaches(s.waiters, n, next.launched[i].name) {
      assert next.launched[i] == more[i - |s.launched|];
    }
  }

  predicate IsOnline(records: seq<Record>, x: Name) {
    Has(records, x) && Find(records, x).value.runtime.status.Online?
  }

  lemma ErrorStaysOnline(s: State, m: Name, x: Name)
    requires IsOnline(s.records, x)
    ensures IsOnline(MarkErroredIfSettled(s, m).records, x)
  {
    hide Find, Put;
  }

  lemma {:induction false} FailDeadStaysOnline(s: State, dead: seq<Name>, x: Name)
    requires IsOnline(s.records, x)
    ensures IsOnline(FailDead(s, dead).0.records, x)
    decreases |s.waiters|, |dead|
  {
    hide ForgetWaiter, MarkErroredIfSettled, IsOnline;
    if dead != [] {
      DeadStepShrinks(s, dead);
      var (next, left) := DeadStep(s, dead);
      ErrorStaysOnline(s.(waiters := ForgetWaiter(s.waiters, dead[|dead| - 1])), dead[|dead| - 1], x);
      FailDeadStaysOnline(next, left, x);
    }
  }

  lemma LaunchStaysOnline(s: State, waiter: Name, register: bool, ports: Ports, x: Name)
    requires IsOnline(s.records, x)
    ensures IsOnline(LaunchOne(s, waiter, register, ports).0.records, x)
  {
    hide Find, Put;
  }

  lemma WaiterStaysOnline(s: State, waiter: Name, ports: Ports, x: Name)
    requires IsOnline(s.records, x)
    ensures IsOnline(LaunchWaiter(s, waiter, ports).0.records, x)
  {
    LaunchStaysOnline(s, waiter, true, ports, x);
    var (tried, outcome) := LaunchOne(s, waiter, true, ports);
    if outcome.None? {
      var marked := MarkErroredIfSettled(tried, waiter);
      assert IsOnline(marked.records, x);
      hide LaunchOne, FailDead, IsOnline, MarkErroredIfSettled;
      FailDeadStaysOnline(marked.(waiters := marked.waiters - {waiter}), WaitersOf(marked.waiters, waiter), x);
    }
    hide LaunchOne, IsOnline, Watch, ArmTimerFor, FailDownstream;
  }

  lemma {:induction false} ListStaysOnline(s: State, list: seq<Name>, queue: seq<Name>, ports: Ports, x: Name)
    requires IsOnline(s.records, x)
    ensures IsOnline(LaunchList(s, list, queue, ports).0.records, x)
    decreases |list|
  {
    hide LaunchWaiter, StillWaiting, IsOnline;
    if list != [] {
      if StillWaiting(s.waiters, list[0]) {
        ListStaysOnline(s, list[1..], queue, ports, x);
      } else {
        WaiterStaysOnline(s, list[0], ports, x);
        var (next, released) := LaunchWaiter(s, list[0], ports);
        ListStaysOnline(next, list[1..], if released then queue + [list[0]] else queue, ports, x);
      }
    }
  }

  /** No pass takes a running service down. */
  lemma {:induction false} OnlineStays(s: State, queue: seq<Name>, ports: Ports, x: Name)
    requires IsOnline(s.records, x)
    ensures IsOnline(LaunchQueue(s, queue, ports).records, x)
    decreases |s.waiters|, |queue|
  {
    hide LaunchList, IsOnline;
    if queue != [] {
      var ready, left := queue[|queue| - 1], queue[..|queue| - 1];
      if ready !in s.waiters {
        OnlineStays(s, left, ports, x);
      } else {
        var taken := s.(waiters := s.waiters - {ready});
        ForgetShrinks(s.waiters, ready);
        LaunchListShrinks(taken, s.waiters[ready], left, ports);
        ListStaysOnline(taken, s.waiters[ready], left, ports, x);
        var (next, longer) := LaunchList(taken, s.waiters[ready], left, ports);
        OnlineStays(next, longer, ports, x);
      }
    }
  }

  // ----- outside that, some refusal breaks it -----

  /** Ready to be launched: on record, settled, and not a scheduled task, which is only registered. */
  predicate IsIdle(records: seq<Record>, x: Name) {
    Has(records, x) && !Unsettled(records, x) && !Find(records, x).value.spec.IsScheduledTask()
  }

  /** The ports with a launcher that refuses at most one position. */
  function RefusingAt(ports: Ports, at: Option<nat>): Ports {
    ports.(spawn := (t: nat) => if at == Some(t) then None else Some(Spawned(1, 0, None)))
  }

  /** A launch touches the record of no other service. */
  lemma LaunchTouchesOne(s: State, waiter: Name, ports: Ports, y: Name)
    requires y != waiter
    ensures Find(LaunchOne(s, waiter, true, ports).0.records, y) == Find(s.records, y)
  {
    if Has(s.records, waiter) && LaunchOne(s, waiter, true, ports).1.Some? {
      var updated := LaunchEdits(s, waiter, true, ports);
    }
  }

  /** As long as no spawn is refused, a list leaves the graph alone and touches only those it launches. */
  lemma {:induction false} AcceptedList(s: State, list: seq<Name>, ports: Ports, y: Name)
    requires AllHave(s.records, list) && (y !in list || StillWaiting(s.waiters, y))
    requires NoRefusal(ports, s.tick, ListState(s, list, ports).tick)
    ensures var next := ListState(s, list, ports);
            && next.waiters == s.waiters && Find(next.records, y) == Find(s.records, y)
            && (forall d :: Has(next.records, d) <==> Has(s.records, d))
    decreases |list|
  {
    hide LaunchWaiter, LaunchOne, StillWaiting, Find;
    if list != [] {
      var w := list[0];
      forall d <- list[1..] ensures d in list {
      }
      if StillWaiting(s.waiters, w) {
        AcceptedList(s, list[1..], ports, y);
      } else {
        var next := LaunchWaiter(s, w, ports).0;
        assert Has(s.records, w) by { assert w in list; }
        TickFits(s, list, ports, ListState(s, list, ports).tick);
        if LaunchOne(s, w, true, ports).1.None? {
          RefusalOnlyTicks(s, w, ports);
        } else {
          AcceptedLaunch(s, w, ports);
          LaunchTouchesOne(s, w, ports, y);
          AcceptedList(next, list[1..], ports, y);
        }
      }
    }
  }

  /** Two launchers that agree below a tick lead to the same state, as long as it is not reached. */
  lemma AgreeOnWaiter(s: State, waiter: Name, ports: Ports, at: Option<nat>, other: Option<nat>)
    requires (at == Some(s.tick)) == (other == Some(s.tick))
    ensures LaunchWaiter(s, waiter, RefusingAt(ports, at)) == LaunchWaiter(s, waiter, RefusingAt(ports, other))
  {
    hide Watch, MarkErroredIfSettled, FailDownstream, Find, Put;
    var (tried, outcome) := LaunchOne(s, waiter, true, RefusingAt(ports, at));
    assert LaunchOne(s, waiter, true, RefusingAt(ports, at)) == LaunchOne(s, waiter, true, RefusingAt(ports, other));
    if outcome.Some? {
      ArmAgrees(Watch(tried, outcome.value), waiter, ports, at, other);
    }
  }

  lemma ArmAgrees(s: State, name: Name, ports: Ports, at: Option<nat>, other: Option<nat>)
    ensures ArmTimerFor(s, name, RefusingAt(ports, at)) == ArmTimerFor(s, name, RefusingAt(ports, other))
  {
  }

  lemma {:induction false} AgreeOnList(s: State, list: seq<Name>, ports: Ports, end: nat)
    requires ListState(s, list, RefusingAt(ports, None)).tick <= end
    ensures ListState(s, list, RefusingAt(ports, Some(end))) == ListState(s, list, RefusingAt(ports, None))
    decreases |list|
  {
    hide LaunchWaiter, StillWaiting, RefusingAt;
    if list != [] {
      if StillWaiting(s.waiters, list[0]) {
        AgreeOnList(s, list[1..], ports, end);
      } else {
        TickFits(s, list, RefusingAt(ports, None), end);
        AgreeOnWaiter(s, list[0], ports, None, Some(end));
        AgreeOnList(LaunchWaiter(s, list[0], RefusingAt(ports, None)).0, list[1..], ports, end);
      }
    }
  }

  lemma {:induction false} ListSplits(s: State, a: seq<Name>, b: seq<Name>, ports: Ports)
    ensures ListState(s, a + b, ports) == ListState(ListState(s, a, ports), b, ports)
    ensures ListSites(s, a + b, ports) == ListSites(s, a, ports) + ListSites(ListState(s, a, ports), b, ports)
    decreases |a|
  {
    hide LaunchWaiter, StillWaiting;
    if a == [] {
      assert a + b == b;
    } else {
      assert (a + b)[1..] == a[1..] + b && (a + b)[0] == a[0];
      if StillWaiting(s.waiters, a[0]) {
        ListSplits(s, a[1..], b, ports);
      } else {
        ListSplits(LaunchWaiter(s, a[0], ports).0, a[1..], b, ports);
      }
    }
  }

  /** The last step of a path. */
  lemma LastEdge(g: Graph, a: Name, x: Name) returns (d: Name)
    requires Reaches(g, a, x)
    ensures Edge(g, d, x) && (d == a || Reaches(g, a, d))
  {
    var p :| Connects(g, p, a, x);
    var k := |p| - 2;
    d := p[k];
    assert Edge(g, p[k], p[k + 1]);
    if k > 0 {
      assert Connects(g, p[..k + 1], a, d);
    }
  }

  /** `a` stands before a service that waits for it as well, and everything in question can be launched. */
  ghost predicate Blocks(s: State, n: Name, i: nat, j: nat) {
    && WaitersKnown(s.records, s.waiters) && n in s.waiters && NoDup(s.waiters[n])
    && i < j < |s.waiters[n]|
    && var h, list := s.waiters - {n}, s.waiters[n];
       && Reaches(h, list[i], list[j])
       && !StillWaiting(h, list[i]) && IsIdle(s.records, list[i])
       && (forall y :: Reaches(h, list[i], y) ==> IsIdle(s.records, y))
       && (forall k :: i < k < j ==> !Reaches(h, list[i], list[k]))
  }

  /** The state in which the blocking service is launched, everything before it having been accepted. */
  function BeforeBlocker(s: State, n: Name, i: nat, ports: Ports): State
    requires n in s.waiters && i <= |s.waiters[n]|
  {
    ListState(s.(waiters := s.waiters - {n}), s.waiters[n][..i], RefusingAt(ports, None))
  }

  lemma TakenKnown(s: State, n: Name)
    requires WaitersKnown(s.records, s.waiters) && n in s.waiters
    ensures AllHave(s.records, s.waiters[n]) && WaitersKnown(s.records, s.waiters - {n})
  {
    var h := s.waiters - {n};
    forall key <- h ensures AllHave(s.records, h[key]) {
      assert h[key] == s.waiters[key];
      assert AllHave(s.records, s.waiters[key]);
    }
  }

  /** Up to the blocking service nothing it reaches, nor itself, is touched. */
  lemma BlockerUntouched(s: State, n: Name, i: nat, j: nat, ports: Ports, y: Name)
    requires Blocks(s, n, i, j)
    requires var h := s.waiters - {n}; y == s.waiters[n][i] || Reaches(h, s.waiters[n][i], y)
    ensures var t := BeforeBlocker(s, n, i, ports);
            && t.waiters == s.waiters - {n} && Find(t.records, y) == Find(s.records, y)
            && (forall d :: Has(t.records, d) <==> Has(s.records, d))
  {
    hide LaunchWaiter, IsIdle, Find;
    var taken, list := s.(waiters := s.waiters - {n}), s.waiters[n];
    TakenKnown(s, n);
    forall d <- list[..i] ensures Has(s.records, d) {
      assert d in list;
    }
    if y != list[i] {
      var d := LastEdge(taken.waiters, list[i], y);
      assert StillWaiting(taken.waiters, y);
    }
    AcceptedList(taken, list[..i], RefusingAt(ports, None), y);
  }

  lemma RefusedAtBlocker(t: State, a: Name, ports: Ports)
    requires IsIdle(t.records, a)
    ensures LaunchOne(t, a, true, RefusingAt(ports, Some(t.tick))).1.None?
  {
    hide Find, Put;
  }

  lemma LaunchesIdle(t: State, x: Name, ports: Ports)
    requires IsIdle(t.records, x) && ports.spawn(t.tick).Some?
    ensures LaunchOne(t, x, true, ports).1.Some? && SpawnedAt(Site(x, t), ports) == [Launch(x, ports.spawn(t.tick).value.pid)]
  {
    hide Find, Put;
  }

  lemma {:induction false} FailDeadStaysIdle(s: State, dead: seq<Name>, y: Name)
    requires IsIdle(s.records, y)
    ensures IsIdle(FailDead(s, dead).0.records, y)
    decreases |s.waiters|, |dead|
  {
    hide ForgetWaiter;
    if dead != [] {
      DeadStepShrinks(s, dead);
      var (next, left) := DeadStep(s, dead);
      ErrorStaysIdle(s.(waiters := ForgetWaiter(s.waiters, dead[|dead| - 1])), dead[|dead| - 1], y);
      FailDeadStaysIdle(next, left, y);
    }
  }

  lemma ErrorStaysIdle(s: State, name: Name, y: Name)
    requires IsIdle(s.records, y)
    ensures IsIdle(MarkErroredIfSettled(s, name).records, y)
  {
  }

  /** After the refusal: the blocker and all it reaches are still idle, and none of them waits any more. */
  lemma AfterRefusal(t: State, a: Name, ports: Ports, y: Name)
    requires WaitersKnown(t.records, t.waiters) && IsIdle(t.records, a) && IsIdle(t.records, y)
    requires y == a || Reaches(t.waiters, a, y)
    requires !StillWaiting(t.waiters, a)
    ensures var next := LaunchWaiter(t, a, RefusingAt(ports, Some(t.tick))).0;
            && IsIdle(next.records, y) && !StillWaiting(next.waiters, y)
            && WaitersKnown(next.records, next.waiters) && t.tick < next.tick
            && (forall d :: Has(next.records, d) <==> Has(t.records, d))
  {
    var refusing := RefusingAt(ports, Some(t.tick));
    RefusedAtBlocker(t, a, ports);
    RefusedLaunch(t, a, refusing);
    WaiterLogs(t, a, refusing);
    hide LaunchWaiter, LaunchOne, MarkErroredIfSettled, FailDead, IsIdle, Reaches, RefusingAt;
    IdleHas(t.records, a);
    RefusedStaysKnown(t, a, refusing);
    var marked := MarkErroredIfSettled(Tick(t), a);
    ErrorStaysIdle(Tick(t), a, y);
    FailDeadStaysIdle(marked.(waiters := marked.waiters - {a}), WaitersOf(marked.waiters, a), y);
    NobodyWaitsFor(t.waiters, LaunchWaiter(t, a, refusing).0.waiters, a, y);
  }

  lemma NobodyWaitsFor(before: Graph, after: Graph, a: Name, y: Name)
    requires y == a || Reaches(before, a, y)
    requires !StillWaiting(before, a)
    requires forall d, x :: Edge(after, d, x) ==> Edge(before, d, x) && !Reaches(before, a, x)
    ensures !StillWaiting(after, y)
  {
    hide Reaches;
    forall key <- after ensures y !in after[key] {
      assert y in after[key] ==> Edge(after, key, y);
    }
  }

  lemma IdleHas(records: seq<Record>, x: Name)
    requires IsIdle(records, x)
    ensures Has(records, x) && !IsReadyNow(records, x)
  {
  }

  /** After the blocker the launcher accepts everything, so nothing the blocker reaches changes before `j`. */
  lemma UntouchedBetween(f: State, list: seq<Name>, ports: Ports, refused: nat, y: Name)
    requires AllHave(f.records, list) && y !in list && refused < f.tick && IsIdle(f.records, y)
    ensures var next := ListState(f, list, RefusingAt(ports, Some(refused)));
            next.waiters == f.waiters && IsIdle(next.records, y) && f.tick <= next.tick
  {
    hide LaunchWaiter;
    ListLogs(f, list, RefusingAt(ports, Some(refused)));
    AcceptedList(f, list, RefusingAt(ports, Some(refused)), y);
  }

  /** The state in which the blocked service is launched although a service it waited for just failed. */
  function AtBlocked(s: State, n: Name, i: nat, j: nat, ports: Ports): State
    requires n in s.waiters && i < j <= |s.waiters[n]|
  {
    var t := BeforeBlocker(s, n, i, ports);
    var refusing := RefusingAt(ports, Some(t.tick));
    ListState(LaunchWaiter(t, s.waiters[n][i], refusing).0, s.waiters[n][i + 1..j], refusing)
  }

  lemma BlockedIsIdle(s: State, n: Name, i: nat, j: nat, ports: Ports, y: Name)
    requires Blocks(s, n, i, j)
    requires y == s.waiters[n][i] || Reaches(s.waiters - {n}, s.waiters[n][i], y)
    ensures var t := AtBlocked(s, n, i, j, ports);
            IsIdle(t.records, y) && !StillWaiting(t.waiters, y) && BeforeBlocker(s, n, i, ports).tick < t.tick
  {
    var list := s.waiters[n];
    var t := BeforeBlocker(s, n, i, ports);
    var between := list[i + 1..j];
    BlockerUntouched(s, n, i, j, ports, list[i]);
    BlockerUntouched(s, n, i, j, ports, y);
    hide LaunchWaiter, Reaches, BeforeBlocker, RefusingAt;
    TakenKnown(s, n);
    WaitersStayKnown(s.records, t.records, t.waiters);
    AfterRefusal(t, list[i], ports, y);
    var f := LaunchWaiter(t, list[i], RefusingAt(ports, Some(t.tick))).0;
    forall d <- between ensures d in list {
    }
    NotBetween(s, n, i, j, y);
    UntouchedBetween(f, between, ports, t.tick, y);
  }

  lemma NotBetween(s: State, n: Name, i: nat, j: nat, y: Name)
    requires Blocks(s, n, i, j)
    requires y == s.waiters[n][i] || Reaches(s.waiters - {n}, s.waiters[n][i], y)
    ensures y !in s.waiters[n][i + 1..j]
  {
    hide Reaches, IsIdle, StillWaiting;
  }

  /** A list is gone through up to any of its places, and on from there. */
  lemma ListCut(s: State, list: seq<Name>, k: nat, ports: Ports)
    requires k < |list|
    ensures ListSites(s, list, ports)
            == ListSites(s, list[..k], ports) + ListSites(ListState(s, list[..k], ports), list[k..], ports)
  {
    hide ListState, ListSites;
    assert list == list[..k] + list[k..];
    ListSplits(s, list[..k], list[k..], ports);
  }

  lemma HeadSite(s: State, list: seq<Name>, ports: Ports)
    requires list != [] && !StillWaiting(s.waiters, list[0])
    ensures ListSites(s, list, ports) == [Site(list[0], s)] + ListSites(LaunchWaiter(s, list[0], ports).0, list[1..], ports)
  {
    hide LaunchWaiter, StillWaiting;
  }

  lemma SiteInCut(s: State, list: seq<Name>, i: nat, j: nat, ports: Ports, t: State, at: State)
    requires i < j < |list|
    requires t == ListState(s, list[..i], ports) && !StillWaiting(t.waiters, list[i])
    requires at == ListState(LaunchWaiter(t, list[i], ports).0, list[i + 1..j], ports) && !StillWaiting(at.waiters, list[j])
    ensures Site(list[j], at) in ListSites(s, list, ports)
  {
    hide LaunchWaiter, StillWaiting, ListState, ListSites;
    var f := LaunchWaiter(t, list[i], ports).0;
    ListCut(s, list, i, ports);
    HeadSite(t, list[i..], ports);
    assert list[i..][1..] == list[i + 1..] && list[i + 1..][..j - i - 1] == list[i + 1..j];
    assert list[i + 1..][j - i - 1..] == list[j..];
    ListCut(f, list[i + 1..], j - i - 1, ports);
    HeadSite(at, list[j..], ports);
  }

  /** The attempt at the blocked service is one of the pass. */
  lemma BlockedIsAttempted(s: State, n: Name, i: nat, j: nat, ports: Ports)
    requires Blocks(s, n, i, j)
    ensures var refusing := RefusingAt(ports, Some(BeforeBlocker(s, n, i, ports).tick));
            Site(s.waiters[n][j], AtBlocked(s, n, i, j, ports)) in Attempts(s, n, refusing)
  {
    var list, taken := s.waiters[n], s.(waiters := s.waiters - {n});
    var t := BeforeBlocker(s, n, i, ports);
    var refusing := RefusingAt(ports, Some(t.tick));
    AgreeOnList(taken, list[..i], ports, t.tick);
    BlockerUntouched(s, n, i, j, ports, list[i]);
    BlockedIsIdle(s, n, i, j, ports, list[j]);
    var at := AtBlocked(s, n, i, j, ports);
    hide LaunchWaiter, Reaches, IsIdle, RefusingAt, StillWaiting, ListState, ListSites, Attempts;
    SiteInCut(taken, list, i, j, refusing, t, at);
    QueueStarts(s, n, refusing, Site(list[j], at));
  }

  lemma QueueStarts(s: State, n: Name, ports: Ports, site: Site)
    requires n in s.waiters && site in ListSites(s.(waiters := s.waiters - {n}), s.waiters[n], ports)
    ensures site in Attempts(s, n, ports)
  {
    hide LaunchList, ListSites;
    assert [n][..0] == [];
  }

  /**
   * Outside that, some launcher breaks it: when a service that waits nowhere else stands before one that
   * waits for it as well, refusing just that one launch starts a service in the same pass although a
   * service it waited for is neither running nor going to be.
   */
  lemma UnorderedListsBreak(s: State, n: Name, i: nat, j: nat, ports: Ports)
    requires Blocks(s, n, i, j)
    ensures var refusing := RefusingAt(ports, Some(BeforeBlocker(s, n, i, ports).tick));
            var site := Site(s.waiters[n][j], AtBlocked(s, n, i, j, ports));
            && site in Attempts(s, n, refusing) && SpawnedAt(site, refusing) != []
            && !DependenciesReady(s.waiters, site.at.records, n, site.name)
            && !SafePass(s, n, refusing)
  {
    hide LaunchWaiter, Reaches, IsIdle, LaunchOne, IsReadyNow, SpawnedAt, Attempts, AtBlocked, BeforeBlocker;
    var list := s.waiters[n];
    BlockedIsAttempted(s, n, i, j, ports);
    var t := AtBlocked(s, n, i, j, ports);
    BlockedIsIdle(s, n, i, j, ports, list[j]);
    LaunchesIdle(t, list[j], RefusingAt(ports, Some(BeforeBlocker(s, n, i, ports).tick)));
    var d := LastEdge(s.waiters - {n}, list[i], list[j]);
    BlockedIsIdle(s, n, i, j, ports, d);
    IdleHas(t.records, d);
    assert d in s.waiters && list[j] in s.waiters[d] && d != n;
  }

  // ----- exactly which passes are safe -----

  ghost predicate DistinctLists(waiters: Graph) {
    forall r <- waiters :: NoDup(waiters[r])
  }

  /** Nobody who waits is ready already, and no list repeats a name. */
  ghost predicate Fresh(s: State) {
    && WaitersKnown(s.records, s.waiters) && DistinctLists(s.waiters)
    && (forall y :: StillWaiting(s.waiters, y) ==> !IsReadyNow(s.records, y))
  }

  /** Inside a pass, with `small` what the graph was once the list of the root was taken. */
  ghost predicate Shrunk(small: Graph, s: State) {
    Fresh(s) && forall d, x :: Edge(s.waiters, d, x) ==> Edge(small, d, x)
  }

  /** The launch is attempted although something it waited for is not ready. */
  ghost predicate TooEarly(small: Graph, site: Site) {
    exists d :: Edge(small, d, site.name) && !IsReadyNow(site.at.records, d)
  }

  ghost predicate SomeTooEarly(small: Graph, sites: seq<Site>) {
    exists site <- sites :: TooEarly(small, site)
  }

  lemma ErrorReadiesNobody(s: State, name: Name, y: Name)
    requires !IsReadyNow(s.records, y)
    ensures !IsReadyNow(MarkErroredIfSettled(s, name).records, y)
  {
  }

  lemma {:induction false} FailDeadReadiesNobody(s: State, dead: seq<Name>, y: Name)
    requires !IsReadyNow(s.records, y)
    ensures !IsReadyNow(FailDead(s, dead).0.records, y)
    decreases |s.waiters|, |dead|
  {
    hide ForgetWaiter, IsReadyNow;
    if dead != [] {
      DeadStepShrinks(s, dead);
      var (next, left) := DeadStep(s, dead);
      ErrorReadiesNobody(s.(waiters := ForgetWaiter(s.waiters, dead[|dead| - 1])), dead[|dead| - 1], y);
      FailDeadReadiesNobody(next, left, y);
    }
  }

  /** Only the service that is launched can become ready, and not if it is refused. */
  lemma OthersStayUnready(s: State, w: Name, ports: Ports, y: Name)
    requires WaitersKnown(s.records, s.waiters) && Has(s.records, w) && !IsReadyNow(s.records, y)
    requires y != w || LaunchOne(s, w, true, ports).1.None?
    ensures !IsReadyNow(LaunchWaiter(s, w, ports).0.records, y)
  {
    hide LaunchWaiter, LaunchOne, MarkErroredIfSettled, FailDead;
    if LaunchOne(s, w, true, ports).1.Some? {
      AcceptedLaunch(s, w, ports);
      LaunchTouchesOne(s, w, ports, y);
    } else {
      RefusedLaunch(s, w, ports);
      hide IsReadyNow;
      ErrorReadiesNobody(Tick(s), w, y);
      var marked := MarkErroredIfSettled(Tick(s), w);
      FailDeadReadiesNobody(marked.(waiters := marked.waiters - {w}), WaitersOf(marked.waiters, w), y);
    }
  }

  /** Who cannot be spawned is settled and no scheduled task. */
  lemma RefusedIsUnready(s: State, a: Name, ports: Ports)
    requires Has(s.records, a) && LaunchOne(s, a, true, ports).1.None?
    ensures !IsReadyNow(s.records, a)
  {
    hide Find, Put;
  }

  lemma {:induction false} WithoutStaysDistinct(list: seq<Name>, name: Name)
    requires NoDup(list)
    ensures NoDup(Without(list, name))
  {
    if list != [] {
      WithoutStaysDistinct(list[1..], name);
      if list[0] != name {
        NoDupCons(list[0], Without(list[1..], name));
        assert list == [list[0]] + list[1..];
        NoDupCons(list[0], list[1..]);
      }
    }
  }

  lemma {:induction false} FailDeadStaysDistinct(s: State, dead: seq<Name>)
    requires DistinctLists(s.waiters)
    ensures DistinctLists(FailDead(s, dead).0.waiters)
    decreases |s.waiters|, |dead|
  {
    hide MarkErroredIfSettled;
    if dead != [] {
      DeadStepShrinks(s, dead);
      var (next, left) := DeadStep(s, dead);
      forall r <- next.waiters ensures NoDup(next.waiters[r]) {
        WithoutStaysDistinct(s.waiters[r], dead[|dead| - 1]);
      }
      hide DistinctLists;
      FailDeadStaysDistinct(next, left);
    }
  }

  lemma WaiterStaysDistinct(s: State, w: Name, ports: Ports)
    requires WaitersKnown(s.records, s.waiters) && Has(s.records, w) && DistinctLists(s.waiters)
    ensures DistinctLists(LaunchWaiter(s, w, ports).0.waiters)
  {
    hide LaunchWaiter, LaunchOne, MarkErroredIfSettled, FailDead, IsReadyNow, Reaches;
    if LaunchOne(s, w, true, ports).1.Some? {
      AcceptedLaunch(s, w, ports);
    } else {
      RefusedLaunch(s, w, ports);
      FailDeadStaysDistinct(MarkErroredIfSettled(Tick(s), w).(waiters := s.waiters - {w}), WaitersOf(s.waiters, w));
    }
  }

  lemma WaiterShrinks(s: State, w: Name, ports: Ports)
    requires WaitersKnown(s.records, s.waiters) && Has(s.records, w)
    ensures var next := LaunchWaiter(s, w, ports).0;
            && WaitersKnown(next.records, next.waiters) && KeepsReady(s.records, next.records)
            && (forall d, x :: Edge(next.waiters, d, x) ==> Edge(s.waiters, d, x))
  {
    hide LaunchWaiter, LaunchOne, IsReadyNow, Reaches;
    if LaunchOne(s, w, true, ports).1.Some? {
      AcceptedLaunch(s, w, ports);
      WaitersStayKnown(s.records, LaunchWaiter(s, w, ports).0.records, s.waiters);
    } else {
      RefusedLaunch(s, w, ports);
      RefusedStaysKnown(s, w, ports);
    }
  }

  lemma FewerWait(before: Graph, after: Graph, y: Name)
    requires forall d, x :: Edge(after, d, x) ==> Edge(before, d, x)
    ensures StillWaiting(after, y) ==> StillWaiting(before, y)
  {
    if StillWaiting(after, y) {
      var key :| key in after && y in after[key];
      assert Edge(after, key, y);
    }
  }

  lemma WaiterStaysShrunk(small: Graph, s: State, w: Name, ports: Ports)
    requires Shrunk(small, s) && Has(s.records, w) && !StillWaiting(s.waiters, w)
    ensures Shrunk(small, LaunchWaiter(s, w, ports).0)
  {
    hide LaunchWaiter, LaunchOne, IsReadyNow, StillWaiting, DistinctLists;
    WaiterShrinks(s, w, ports);
    WaiterStaysDistinct(s, w, ports);
    var next := LaunchWaiter(s, w, ports).0;
    forall y | StillWaiting(next.waiters, y) ensures !IsReadyNow(next.records, y) {
      FewerWait(s.waiters, next.waiters, y);
      OthersStayUnready(s, w, ports, y);
    }
  }

  /** A name nobody holds back is attempted at its place, and what stands elsewhere is as unready as before. */
  lemma {:induction false} AttemptedTooEarly(small: Graph, s: State, list: seq<Name>, j: nat, d: Name, ports: Ports)
    requires WaitersKnown(s.records, s.waiters) && AllHave(s.records, list) && j < |list|
    requires !StillWaiting(s.waiters, list[j]) && d !in list[..j] && !IsReadyNow(s.records, d) && Edge(small, d, list[j])
    ensures SomeTooEarly(small, ListSites(s, list, ports))
    decreases |list|
  {
    hide LaunchWaiter, IsReadyNow, StillWaiting;
    if j == 0 {
      HeadSite(s, list, ports);
      var site := Site(list[0], s);
      assert site in ListSites(s, list, ports) && TooEarly(small, site);
    } else {
      forall x <- list[1..] ensures x in list {
      }
      assert list[1..][j - 1] == list[j] && list[..j][1..] == list[1..][..j - 1] && list[..j][0] == list[0];
      assert d !in list[1..][..j - 1];
      if StillWaiting(s.waiters, list[0]) {
        AttemptedTooEarly(small, s, list[1..], j - 1, d, ports);
      } else {
        assert Has(s.records, list[0]) by { assert list[0] in list; }
        assert list[0] in list[..j];
        HeadSite(s, list, ports);
        WaiterShrinks(s, list[0], ports);
        OthersStayUnready(s, list[0], ports, d);
        var next := LaunchWaiter(s, list[0], ports).0;
        FewerWait(s.waiters, next.waiters, list[j]);
        AttemptedTooEarly(small, next, list[1..], j - 1, d, ports);
        MoreSites(small, [Site(list[0], s)], ListSites(next, list[1..], ports));
      }
    }
  }

  lemma MoreSites(small: Graph, a: seq<Site>, b: seq<Site>)
    ensures SomeTooEarly(small, a) || SomeTooEarly(small, b) ==> SomeTooEarly(small, a + b)
  {
    hide TooEarly;
  }

  lemma FirstReached(g: Graph, a: Name, list: seq<Name>) returns (j: nat)
    requires exists x <- list :: Reaches(g, a, x)
    ensures j < |list| && Reaches(g, a, list[j]) && forall k :: 0 <= k < j ==> !Reaches(g, a, list[k])
  {
    hide Reaches;
    j := 0;
    while !Reaches(g, a, list[j])
      invariant j < |list|
      invariant forall k :: 0 <= k < j ==> !Reaches(g, a, list[k])
      decreases |list| - j
    {
      if j + 1 == |list| {
        var x :| x in list && Reaches(g, a, x);
        var k :| 0 <= k < |list| && list[k] == x;
      }
      j := j + 1;
    }
  }

  /** The doomed service is attempted all the same, although what it waited for has just failed. */
  lemma DoomedTooEarly(small: Graph, s: State, a: Name, rest: seq<Name>, ports: Ports)
    requires Shrunk(small, s) && Has(s.records, a) && AllHave(s.records, rest) && a !in rest
    requires Dooms(s, a, rest, ports)
    ensures SomeTooEarly(small, ListSites(LaunchWaiter(s, a, ports).0, rest, ports))
  {
    hide LaunchWaiter, LaunchOne, IsReadyNow, NoDup, Reaches, StillWaiting;
    var j := FirstReached(s.waiters, a, rest);
    var d := LastEdge(s.waiters, a, rest[j]);
    RefusedIsUnready(s, a, ports);
    if d != a {
      ReachedIsWaiting(s.waiters, a, d);
    }
    OthersStayUnready(s, a, ports, d);
    RefusedLaunch(s, a, ports);
    WaiterShrinks(s, a, ports);
    var next := LaunchWaiter(s, a, ports).0;
    DoomedIsFree(s.waiters, next.waiters, a, rest[j]);
    AttemptedTooEarly(small, next, rest, j, d, ports);
  }

  lemma DoomedIsFree(before: Graph, after: Graph, a: Name, y: Name)
    requires Reaches(before, a, y)
    requires forall d, x :: Edge(after, d, x) ==> !Reaches(before, a, x)
    ensures !StillWaiting(after, y)
  {
    hide Reaches;
    forall key <- after ensures y !in after[key] {
      assert y in after[key] ==> Edge(after, key, y);
    }
  }

  lemma {:induction false} DoomedInList(small: Graph, s: State, list: seq<Name>, ports: Ports)
    requires Shrunk(small, s) && AllHave(s.records, list) && NoDup(list)
    ensures DoomsListed(s, list, ports) ==> SomeTooEarly(small, ListSites(s, list, ports))
    ensures Shrunk(small, ListState(s, list, ports))
    decreases |list|
  {
    hide LaunchWaiter, StillWaiting, Shrunk, SomeTooEarly, Dooms;
    if list != [] {
      forall x <- list[1..] ensures x in list && x != list[0] {
      }
      assert Has(s.records, list[0]) by { assert list[0] in list; }
      if StillWaiting(s.waiters, list[0]) {
        DoomedInList(small, s, list[1..], ports);
      } else {
        var next := LaunchWaiter(s, list[0], ports).0;
        WaiterStaysShrunk(small, s, list[0], ports);
        ShrunkMeans(small, s);
        WaiterShrinks(s, list[0], ports);
        if Dooms(s, list[0], list[1..], ports) {
          DoomedTooEarly(small, s, list[0], list[1..], ports);
        }
        DoomedInList(small, next, list[1..], ports);
        MoreSites(small, [Site(list[0], s)], ListSites(next, list[1..], ports));
      }
    }
  }

  lemma ShrunkMeans(small: Graph, s: State)
    requires Shrunk(small, s)
    ensures WaitersKnown(s.records, s.waiters) && DistinctLists(s.waiters)
    ensures forall d, x :: Edge(s.waiters, d, x) ==> Edge(small, d, x)
  {
  }

  lemma TakingStaysShrunk(small: Graph, s: State, ready: Name)
    requires Shrunk(small, s)
    ensures Shrunk(small, s.(waiters := s.waiters - {ready}))
  {
    hide IsReadyNow, NoDup;
    var taken := s.(waiters := s.waiters - {ready});
    forall key <- taken.waiters ensures AllHave(taken.records, taken.waiters[key]) {
      assert AllHave(s.records, s.waiters[key]);
    }
    forall y | StillWaiting(taken.waiters, y) ensures !IsReadyNow(taken.records, y) {
      WaitingInLarger(s.waiters, ready, y);
    }
  }

  lemma {:induction false} DoomedInQueue(small: Graph, s: State, queue: seq<Name>, ports: Ports)
    requires Shrunk(small, s) && DoomsInPass(s, queue, ports)
    ensures SomeTooEarly(small, QueueSites(s, queue, ports))
    decreases |s.waiters|, |queue|
  {
    hide LaunchList, ListSites, DoomsListed, Shrunk, SomeTooEarly, ListState;
    var ready, left := queue[|queue| - 1], queue[..|queue| - 1];
    if ready !in s.waiters {
      DoomedInQueue(small, s, left, ports);
    } else {
      var taken, list := s.(waiters := s.waiters - {ready}), s.waiters[ready];
      ForgetShrinks(s.waiters, ready);
      LaunchListShrinks(taken, list, left, ports);
      var (next, longer) := LaunchList(taken, list, left, ports);
      ShrunkMeans(small, s);
      TakenKnown(s, ready);
      TakingStaysShrunk(small, s, ready);
      DoomedInList(small, taken, list, ports);
      ListStateIsLaunchList(taken, list, left, ports);
      if !DoomsListed(taken, list, ports) {
        DoomedInQueue(small, next, longer, ports);
      }
      MoreSites(small, ListSites(taken, list, ports), QueueSites(next, longer, ports));
    }
  }

  /** The first list of a pass is that of its root, which nobody is held to after that. */
  lemma DoomedInPass(s: State, n: Name, ports: Ports)
    requires Fresh(s) && DoomsInPass(s, [n], ports)
    ensures SomeTooEarly(s.waiters - {n}, Attempts(s, n, ports))
  {
    hide LaunchList, ListSites, DoomsListed, SomeTooEarly, ListState, IsReadyNow, NoDup;
    var small, taken, list := s.waiters - {n}, s.(waiters := s.waiters - {n}), s.waiters[n];
    assert [n][..0] == [];
    assert Shrunk(s.waiters, s);
    TakingStaysShrunk(s.waiters, s, n);
    assert Shrunk(small, taken);
    hide Shrunk;
    TakenKnown(s, n);
    DoomedInList(small, taken, list, ports);
    ListStateIsLaunchList(taken, list, [], ports);
    var (next, longer) := LaunchList(taken, list, [], ports);
    if !DoomsListed(taken, list, ports) {
      DoomedInQueue(small, next, longer, ports);
    }
    MoreSites(small, ListSites(taken, list, ports), QueueSites(next, longer, ports));
  }

  /**
   * Exactly when a pass is safe: on every waiter graph and under every launcher, each waiter is launched
   * after everything it waited for if and only if no launch is refused in a list that still holds a
   * service which waits, directly or not, for the refused one.
   */
  lemma ReadinessIsExact(s: State, n: Name, ports: Ports)
    requires Fresh(s)
    ensures SafePass(s, n, ports) <==> !DoomsInPass(s, [n], ports)
  {
    hide DoomsInPass, Attempts, QueueSites, Passing, IsReadyNow, TooEarly;
    if DoomsInPass(s, [n], ports) {
      DoomedInPass(s, n, ports);
      var site :| site in Attempts(s, n, ports) && TooEarly(s.waiters - {n}, site);
      EarlyIsUnsafe(s, n, site);
    } else {
      PassBegins(s, n, false);
      QueueIsSafe(s.waiters, s, n, [n], ports, false);
      AttemptsAreQueue(s, n, ports);
    }
  }

  lemma EarlyIsUnsafe(s: State, n: Name, site: Site)
    requires TooEarly(s.waiters - {n}, site)
    ensures !DependenciesReady(s.waiters, site.at.records, n, site.name)
  {
    hide IsReadyNow;
    var d :| Edge(s.waiters - {n}, d, site.name) && !IsReadyNow(site.at.records, d);
    assert d in s.waiters && site.name in s.waiters[d];
  }

  lemma AttemptsAreQueue(s: State, n: Name, ports: Ports)
    ensures Attempts(s, n, ports) == QueueSites(s, [n], ports)
  {
    hide QueueSites;
  }

  /** Every waiter can be launched, no list repeats a name, and who blocks another in a list waits only there. */
  ghost predicate Plain(s: State) {
    && WaitersKnown(s.records, s.waiters)
    && (forall r <- s.waiters :: NoDup(s.waiters[r]))
    && (forall y :: StillWaiting(s.waiters, y) ==> IsIdle(s.records, y))
    && (forall r, i, j | r in s.waiters && 0 <= i < j < |s.waiters[r]| ::
          Reaches(s.waiters - {r}, s.waiters[r][i], s.waiters[r][j]) ==> !StillWaiting(s.waiters - {r}, s.waiters[r][i]))
  }

  /** A list that is not ordered holds a first pair out of order. */
  lemma {:induction false} FirstBlocked(g: Graph, list: seq<Name>) returns (i: nat, j: nat)
    requires !OrderedList(g, list)
    ensures i < j < |list| && Reaches(g, list[i], list[j])
    ensures forall k :: i < k < j ==> !Reaches(g, list[i], list[k])
  {
    hide Reaches;
    if exists y :: y in list[1..] && Reaches(g, list[0], y) {
      i, j := 0, 1;
      while !Reaches(g, list[0], list[j])
        invariant 1 <= j <= |list|
        invariant forall k :: 0 < k < j ==> !Reaches(g, list[0], list[k])
        invariant j < |list|
        decreases |list| - j
      {
        if j + 1 == |list| {
          var y :| y in list[1..] && Reaches(g, list[0], y);
          var k :| 0 <= k < |list[1..]| && list[1..][k] == y;
          assert list[k + 1] == y;
        }
        j := j + 1;
      }
    } else {
      var k, l := FirstBlocked(g, list[1..]);
      i, j := k + 1, l + 1;
      forall m | i < m < j ensures !Reaches(g, list[i], list[m]) {
        assert list[1..][m - 1] == list[m];
      }
    }
  }

  lemma ReachedIsWaiting(g: Graph, a: Name, y: Name)
    requires Reaches(g, a, y)
    ensures StillWaiting(g, y)
  {
    var d := LastEdge(g, a, y);
  }

  lemma UnorderedBlocks(s: State, r: Name) returns (i: nat, j: nat)
    requires Plain(s) && r in s.waiters && !OrderedList(s.waiters - {r}, s.waiters[r])
    ensures Blocks(s, r, i, j)
  {
    hide IsIdle, Reaches;
    var h, list := s.waiters - {r}, s.waiters[r];
    i, j := FirstBlocked(h, list);
    assert StillWaiting(s.waiters, list[i]);
    forall y | Reaches(h, list[i], y) ensures IsIdle(s.records, y) {
      ReachedIsWaiting(h, list[i], y);
      WaitingInLarger(s.waiters, r, y);
    }
  }

  lemma WaitingInLarger(waiters: Graph, r: Name, y: Name)
    requires StillWaiting(waiters - {r}, y)
    ensures StillWaiting(waiters, y)
  {
    var key :| key in waiters - {r} && y in (waiters - {r})[key];
    assert y in waiters[key];
  }

  /**
   * Exactly when readiness is safe whatever is refused: on such a waiter graph every pass, under every launcher, starts each
   * waiter after everything it waited for if and only if in no list a service stands before one that
   * waits, directly or not, for it as well.
   */
  lemma OrderIsExact(s: State)
    requires Plain(s)
    ensures (forall n, ports :: SafePass(s, n, ports)) <==> OrderedLists(s.waiters)
  {
    hide SafePass, OrderedList, Plain, Blocks, RefusingAt;
    assert WaitersKnown(s.records, s.waiters) by { PlainIsKnown(s); }
    if OrderedLists(s.waiters) {
      forall n, ports ensures SafePass(s, n, ports) {
        OrderedListsAreSafe(s, n, ports);
      }
    } else {
      var r :| r in s.waiters && !OrderedList(s.waiters - {r}, s.waiters[r]);
      var i, j := UnorderedBlocks(s, r);
      var ports := AnyPorts();
      BlocksBounds(s, r, i, j);
      UnorderedListsBreak(s, r, i, j, ports);
      assert !SafePass(s, r, RefusingAt(ports, Some(BeforeBlocker(s, r, i, ports).tick)));
    }
  }

  lemma PlainIsKnown(s: State)
    requires Plain(s)
    ensures WaitersKnown(s.records, s.waiters)
  {
  }

  lemma BlocksBounds(s: State, n: Name, i: nat, j: nat)
    requires Blocks(s, n, i, j)
    ensures n in s.waiters && i < j < |s.waiters[n]|
  {
  }

  function AnyPorts(): Ports {
    Ports(spec => true, (t, name) => None, t => None, t => true, t => true, t => 0, t => None, t => map[], t => true, t => [])
  }

  /**
   * The refused case: `a` and `x` wait for `n`, `x` also waits for `a`, and `a` cannot be spawned.
   * The failure takes `x` off every list, so the same pass goes on to spawn `x` although its
   * dependency `a` has just failed.
   */
  lemma RefusedDependencyStillStarts(s: State, n: Name, a: Name, x: Name, ports: Ports)
    requires n != a && n != x && a != x
    requires s.waiters == map[n := [a, x], a := [x]]
    requires forall m <- {a, x} :: Has(s.records, m) && !Unsettled(s.records, m)
                                   && !Find(s.records, m).value.spec.IsScheduledTask()
    requires ports.spawn(s.tick).None? && forall t :: t > s.tick ==> ports.spawn(t).Some?
    ensures var next := LaunchWaiters(s, n, ports);
            && (exists i :: |s.launched| <= i < |next.launched| && next.launched[i].name == x)
            && Find(next.records, a).Some? && Find(next.records, a).value.runtime.status.Errored?
            && !DependenciesReady(s.waiters, next.records, n, x)
  {
    hide LaunchWaiter, LaunchWaiters, Find;
    var taken := s.(waiters := s.waiters - {n});
    assert taken.waiters == map[a := [x]];
    RefusalDoomsBoth(taken, a, x, ports);
    var first := LaunchWaiter(taken, a, ports).0;
    assert x in {a, x} && a in {a, x};
    LaunchesLeaf(first, x, a, ports);
    PassOfTwo(s, n, a, x, ports);
    var second := LaunchWaiter(first, x, ports).0;
    assert second.launched[|s.launched|].name == x;
    assert x in s.waiters[a] && !IsReadyNow(second.records, a);
  }

  /** How a pass over `[a, x]` unfolds when `a` releases nobody and empties the graph. */
  lemma PassOfTwo(s: State, n: Name, a: Name, x: Name, ports: Ports)
    requires n != a && s.waiters == map[n := [a, x], a := [x]]
    requires var (first, released) := LaunchWaiter(s.(waiters := s.waiters - {n}), a, ports);
             !released && first.waiters == map[] && LaunchWaiter(first, x, ports).0.waiters == map[]
    requires a != x
    ensures LaunchWaiters(s, n, ports) == LaunchWaiter(LaunchWaiter(s.(waiters := s.waiters - {n}), a, ports).0, x, ports).0
  {
    hide LaunchWaiter;
    var taken := s.(waiters := s.waiters - {n});
    assert taken.waiters == map[a := [x]];
    var first := LaunchWaiter(taken, a, ports).0;
    var (second, released) := LaunchWaiter(first, x, ports);
    assert !StillWaiting(taken.waiters, a) && !StillWaiting(first.waiters, x);
    var rest := if released then [x] else [];
    assert [x][1..] == [] && [a, x][1..] == [x] && [] + [x] == [x];
    assert LaunchList(first, [x], [], ports) == LaunchList(second, [], rest, ports);
    assert LaunchList(taken, [a, x], [], ports) == (second, rest);
    EmptyQueueStops(second, rest, ports);
    assert [n][..0] == [];
    assert LaunchQueue(s, [n], ports) == LaunchQueue(second, rest, ports);
  }

  /** The refused launch of `a` errors it and the service that waits for it, and empties the graph. */
  lemma RefusalDoomsBoth(s: State, a: Name, x: Name, ports: Ports)
    requires a != x && s.waiters == map[a := [x]]
    requires forall m <- {a, x} :: Has(s.records, m) && !Unsettled(s.records, m)
                                   && !Find(s.records, m).value.spec.IsScheduledTask()
    requires ports.spawn(s.tick).None?
    ensures var (first, released) := LaunchWaiter(s, a, ports);
            && !released
            && first.waiters == map[] && first.tick == s.tick + 2 && first.launched == s.launched
            && (forall m <- {a, x} :: Has(first.records, m) && Find(first.records, m).value.runtime.status.Errored?
                                      && !Find(first.records, m).value.spec.IsScheduledTask())
  {
    assert a in {a, x} && x in {a, x};
    var refused := LaunchOne(s, a, true, ports).0;
    assert refused == Tick(s);
    var marked := MarkErroredIfSettled(refused, a);
    var cut := marked.(waiters := marked.waiters - {a});
    assert cut.waiters == map[];
    FailOneLeaf(cut, x);
    assert WaitersOf(marked.waiters, a) == [x];
  }

  lemma FailOneLeaf(s: State, x: Name)
    requires s.waiters == map[] && Has(s.records, x)
    ensures var next := FailDead(s, [x]).0;
            && next.waiters == map[] && next.tick == s.tick && next.launched == s.launched
            && next.records == MarkErroredIfSettled(s, x).records
  {
    assert ForgetWaiter(s.waiters, x) == map[];
    var marked := MarkErroredIfSettled(s.(waiters := map[]), x);
    assert FailDead(s, [x]).0 == FailDead(marked.(waiters := map[]), []).0;
  }

  lemma LaunchesLeaf(s: State, x: Name, other: Name, ports: Ports)
    requires Has(s.records, x) && !Unsettled(s.records, x) && !Find(s.records, x).value.spec.IsScheduledTask()
    requires ports.spawn(s.tick).Some? && x != other
    ensures var next := LaunchWaiter(s, x, ports).0;
            && next.launched == s.launched + [Launch(x, ports.spawn(s.tick).value.pid)]
            && next.waiters == s.waiters
            && Find(next.records, other) == Find(s.records, other)
  {
    var (tried, outcome) := LaunchOne(s, x, true, ports);
    WatchLogsNothing(tried, outcome.value);
    ArmTimerIsAside(Watch(tried, outcome.value), x, ports);
    hide Watch, ArmTimerFor, WatchesIn;
  }

  lemma EmptyQueueStops(s: State, queue: seq<Name>, ports: Ports)
    requires s.waiters == map[] && |queue| <= 1
    ensures LaunchQueue(s, queue, ports) == s
  {
    if queue != [] {
      assert LaunchQueue(s, queue, ports) == LaunchQueue(s, [], ports);
    }
  }
}
