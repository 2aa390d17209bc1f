/**
 * What every handler of the supervisor keeps: a sound table, no failed lookup, waiters that all have
 * a record, and exactly one outstanding exit watch, under the current generation and with the
 * record's pid, for every process that is not settled.
 */
module Coherence {
  import opened Graphs
  import opened Model
  import opened ProcessTable
  import opened Handlers

  ghost predicate AllHave(records: seq<Record>, names: seq<Name>) {
    forall n <- names :: Has(records, n)
  }

  ghost predicate WaitersKnown(records: seq<Record>, waiters: Graph) {
    forall key <- waiters :: AllHave(records, waiters[key])
  }

  predicate MustWatch(o: StartOutcome) {
    o.kind.NeedsWatching()
  }

  ghost predicate MustWatchName(os: seq<StartOutcome>, name: Name) {
    exists o <- os :: MustWatch(o) && o.name == name
  }

  predicate Holds(records: seq<Record>, o: StartOutcome) {
    && Has(records, o.name)
    && !Find(records, o.name).value.runtime.status.IsSettled()
    && o.pid.Some?
    && Find(records, o.name).value.runtime.pid == o.pid
  }

  /** Every outcome still to be watched names a running record with the same pid. */
  ghost predicate OutcomesHold(records: seq<Record>, os: seq<StartOutcome>) {
    forall o <- os :: MustWatch(o) ==> Holds(records, o)
  }

  function LaunchesOf(watches: seq<ExitWatch>): (launches: seq<Launch>)
    ensures |launches| == |watches|
    ensures forall i :: 0 <= i < |watches| ==> launches[i] == Launch(watches[i].name, watches[i].pid)
  {
    if watches == [] then [] else [Launch(watches[0].name, watches[0].pid)] + LaunchesOf(watches[1..])
  }

  function OwedLaunches(os: seq<StartOutcome>): seq<Launch> {
    if os == [] then []
    else (if MustWatch(os[0]) && os[0].pid.Some? then [Launch(os[0].name, os[0].pid.value)] else [])
         + OwedLaunches(os[1..])
  }

  /**
   * Since position `from`, the processes taken charge of are those watched, in order, then those owed;
   * and no generation was used without a process.
   */
  ghost predicate Balanced(s: State, from: nat, os: seq<StartOutcome>) {
    && from <= |s.launched|
    && s.timers.nextGeneration + |OwedLaunches(os)| <= |s.launched|
    && s.launched[from..] == LaunchesOf(WatchesIn(s.effects)) + OwedLaunches(os)
  }

  ghost function LiveWatches(s: State, before: set<ExitWatch>): set<ExitWatch> {
    before + Elems(WatchesIn(s.effects))
  }

  ghost predicate Watched(s: State, live: set<ExitWatch>, name: Name) {
    var runtime := if Has(s.records, name) then Some(Find(s.records, name).value.runtime) else None;
    runtime.Some? && runtime.value.pid.Some?
    && ExitWatch(name, s.timers.CurrentGeneration(name), runtime.value.pid.value) in live
  }

  predicate Unsettled(records: seq<Record>, name: Name) {
    Has(records, name) && !Find(records, name).value.runtime.status.IsSettled()
  }

  ghost predicate GenerationsOk(timers: Timers, live: set<ExitWatch>) {
    && (forall w <- live :: 1 <= w.generation <= timers.nextGeneration)
    && (forall w <- live, v <- live :: w.generation == v.generation ==> w == v)
    && (forall n :: timers.CurrentGeneration(n) <= timers.nextGeneration)
  }

  ghost predicate WatchesOk(s: State, live: set<ExitWatch>, os: seq<StartOutcome>) {
    && GenerationsOk(s.timers, live)
    && forall n :: Unsettled(s.records, n) ==> Watched(s, live, n) || MustWatchName(os, n)
  }

  /**
   * The invariant inside a handler: `before` are the watches outstanding when it began, `from` is
   * where its launches begin, and `os` are outcomes it has not watched yet.
   */
  ghost predicate Coherent(s: State, before: set<ExitWatch>, from: nat, os: seq<StartOutcome>) {
    && !s.panicked
    && TableOk(s.records)
    && WaitersKnown(s.records, s.waiters)
    && OutcomesHold(s.records, os)
    && Balanced(s, from, os)
    && (s.timers.nextGeneration < U64_MAX ==> WatchesOk(s, LiveWatches(s, before), os))
  }

  predicate SameNames(s: State, next: State) {
    NamesOf(next.records) == NamesOf(s.records)
  }

  lemma HasIsMember(records: seq<Record>, name: Name)
    ensures Has(records, name) <==> name in NamesOf(records)
  {
    FindIsExact(records, name);
    if Has(records, name) {
      NamesHold(records, Find(records, name).value);
    }
  }

  lemma SameNamesHave(s: State, next: State)
    requires SameNames(s, next)
    ensures forall n :: Has(next.records, n) <==> Has(s.records, n)
  {
    forall n ensures Has(next.records, n) <==> Has(s.records, n) {
      HasIsMember(s.records, n);
      HasIsMember(next.records, n);
    }
  }

  // ----- small steps -----

  /** A record may change as long as a process it still claims is the one it claimed. */
  ghost predicate HonestEdit(s: State, name: Name, updated: Record, os: seq<StartOutcome>) {
    && Has(s.records, name)
    && RecordOk(updated)
    && updated.runtime.name == name
    && updated.runtime.pmId == Find(s.records, name).value.runtime.pmId
    && (!updated.runtime.status.IsSettled() ==>
          Unsettled(s.records, name) && updated.runtime.pid == Find(s.records, name).value.runtime.pid)
    && (updated.runtime.status.IsSettled() ==> !MustWatchName(os, name))
  }

  lemma EditKeeps(s: State, name: Name, updated: Record, before: set<ExitWatch>, from: nat, os: seq<StartOutcome>)
    requires Coherent(s, before, from, os) && HonestEdit(s, name, updated, os)
    ensures Coherent(SetRecord(s, name, updated), before, from, os)
    ensures SameNames(s, SetRecord(s, name, updated))
  {
    var next := SetRecord(s, name, updated);
    PutKeepsTable(s.records, name, updated);
    SameNamesHave(s, next);
    WaitersStayKnown(s.records, next.records, s.waiters);
    forall o <- os | MustWatch(o) ensures Holds(next.records, o) {
      assert Holds(s.records, o);
    }
    if next.timers.nextGeneration < U64_MAX {
      forall n | Unsettled(next.records, n) ensures ClaimsTheSame(s.records, next.records, n) {
      }
      ClaimsKeepWatches(s, next, LiveWatches(s, before), os);
    }
  }

  lemma WaitersStayKnown(records: seq<Record>, next: seq<Record>, waiters: Graph)
    requires WaitersKnown(records, waiters) && forall n :: Has(records, n) ==> Has(next, n)
    ensures WaitersKnown(next, waiters)
  {
    forall key <- waiters ensures AllHave(next, waiters[key]) {
      assert AllHave(records, waiters[key]);
    }
  }

  /** A process still claimed by `name` is the one claimed before. */
  predicate ClaimsTheSame(records: seq<Record>, next: seq<Record>, name: Name) {
    && Unsettled(records, name)
    && Has(next, name)
    && Find(next, name).value.runtime.pid == Find(records, name).value.runtime.pid
  }

  lemma ClaimsKeepWatches(s: State, next: State, live: set<ExitWatch>, os: seq<StartOutcome>)
    requires WatchesOk(s, live, os) && next.timers == s.timers
    requires forall n :: Unsettled(next.records, n) ==> ClaimsTheSame(s.records, next.records, n)
    ensures WatchesOk(next, live, os)
  {
    forall n | Unsettled(next.records, n) ensures Watched(next, live, n) || MustWatchName(os, n) {
      assert ClaimsTheSame(s.records, next.records, n);
      assert Watched(s, live, n) || MustWatchName(os, n);
    }
  }

  /** A step that touches neither the table nor the generations, and starts no watch. */
  predicate Aside(s: State, next: State) {
    && next.records == s.records
    && next.timers.generations == s.timers.generations
    && next.timers.nextGeneration == s.timers.nextGeneration
    && WatchesIn(next.effects) == WatchesIn(s.effects)
    && next.launched == s.launched
    && next.panicked == s.panicked
  }

  lemma AsideKeeps(s: State, next: State, before: set<ExitWatch>, from: nat, os: seq<StartOutcome>)
    requires Coherent(s, before, from, os) && Aside(s, next)
    requires WaitersKnown(s.records, next.waiters)
    ensures Coherent(next, before, from, os) && SameNames(s, next)
  {
    assert forall n :: next.timers.CurrentGeneration(n) == s.timers.CurrentGeneration(n);
    if next.timers.nextGeneration < U64_MAX {
      forall n | Unsettled(next.records, n) ensures Watched(next, LiveWatches(next, before), n) || MustWatchName(os, n) {
        assert Watched(s, LiveWatches(s, before), n) || MustWatchName(os, n);
      }
    }
  }

  lemma ArmTimerIsAside(s: State, name: Name, ports: Ports)
    ensures Aside(s, ArmTimerFor(s, name, ports))
  {
    var disarmed := Disarm(s, name);
    assert Aside(s, disarmed);
    assert ArmTimerFor(s, name, ports) != disarmed ==> Aside(disarmed, ArmTimerFor(s, name, ports));
  }

  // ----- watching -----

  lemma WatchKeeps(s: State, o: StartOutcome, before: set<ExitWatch>, from: nat, os: seq<StartOutcome>)
    requires Coherent(s, before, from, [o] + os)
    ensures Coherent(Watch(s, o), before, from, os) && SameNames(s, Watch(s, o))
  {
    var next := Watch(s, o);
    var all := [o] + os;
    assert o in all;
    OutcomesDrop(s.records, o, os);
    if MustWatch(o) {
      assert Holds(s.records, o);
      var w := WatchEffect(s, o);
      BalanceShifts(s, next, from, o, w, os);
      if next.timers.nextGeneration < U64_MAX {
        BumpKeeps(s, next, o, w, before, os);
      }
    } else {
      assert next == s;
      OwedSplit(o, os);
      if next.timers.nextGeneration < U64_MAX {
        forall n | Unsettled(s.records, n) ensures Watched(s, LiveWatches(s, before), n) || MustWatchName(os, n) {
          assert Watched(s, LiveWatches(s, before), n) || MustWatchName(all, n);
        }
      }
    }
  }

  lemma OutcomesDrop(records: seq<Record>, o: StartOutcome, os: seq<StartOutcome>)
    requires OutcomesHold(records, [o] + os)
    ensures OutcomesHold(records, os)
  {
    forall p <- os ensures p in [o] + os {
    }
  }

  lemma WatchEffect(s: State, o: StartOutcome) returns (w: ExitWatch)
    requires MustWatch(o) && o.pid.Some?
    ensures var next := Watch(s, o);
            && next.timers == s.timers.Bump(o.name)
            && next.launched == s.launched
            && (Has(s.records, o.name) ==> next.panicked == s.panicked)
            && w == ExitWatch(o.name, next.timers.nextGeneration, o.pid.value)
            && WatchesIn(next.effects) == WatchesIn(s.effects) + [w]
  {
    hide WatchesIn;
    w := ExitWatch(o.name, s.timers.Bump(o.name).nextGeneration, o.pid.value);
    var bumped := s.(timers := s.timers.Bump(o.name));
    var watched := Emit(bumped, WatchExit(o.name, w.generation, w.pid, IdentityToken(s, o.name)));
    assert WatchesIn(watched.effects) == WatchesIn(s.effects) + [w];
    assert Watch(s, o) == AwaitReadyIfProbing(watched, o.name, w.generation);
  }

  lemma OwedSplit(o: StartOutcome, os: seq<StartOutcome>)
    ensures OwedLaunches([o] + os) ==
              (if MustWatch(o) && o.pid.Some? then [Launch(o.name, o.pid.value)] else []) + OwedLaunches(os)
  {
    assert ([o] + os)[1..] == os;
  }

  lemma BalanceShifts(s: State, next: State, from: nat, o: StartOutcome, w: ExitWatch, os: seq<StartOutcome>)
    requires Balanced(s, from, [o] + os) && MustWatch(o) && o.pid.Some?
    requires next.launched == s.launched && w.name == o.name && w.pid == o.pid.value
    requires next.timers == s.timers.Bump(o.name)
    requires WatchesIn(next.effects) == WatchesIn(s.effects) + [w]
    ensures Balanced(next, from, os)
  {
    hide WatchesIn, LaunchesOf, OwedLaunches;
    OwedSplit(o, os);
    LaunchesAppend(WatchesIn(s.effects), w);
    var watched, owed := LaunchesOf(WatchesIn(s.effects)), OwedLaunches(os);
    assert watched + ([Launch(w.name, w.pid)] + owed) == (watched + [Launch(w.name, w.pid)]) + owed;
  }

  lemma BalanceGrows(s: State, next: State, from: nat, o: StartOutcome, os: seq<StartOutcome>)
    requires Balanced(s, from, os) && MustWatch(o) && o.pid.Some?
    requires next.launched == s.launched + [Launch(o.name, o.pid.value)] && next.effects == s.effects
    requires next.timers == s.timers
    ensures Balanced(next, from, os + [o])
  {
    hide WatchesIn, LaunchesOf, OwedLaunches;
    OwedAppend(os, o);
    var watched, owed := LaunchesOf(WatchesIn(s.effects)), OwedLaunches(os);
    assert next.launched[from..] == s.launched[from..] + [Launch(o.name, o.pid.value)];
    assert (watched + owed) + [Launch(o.name, o.pid.value)] == watched + (owed + [Launch(o.name, o.pid.value)]);
  }

  lemma LaunchesAppend(watches: seq<ExitWatch>, w: ExitWatch)
    ensures LaunchesOf(watches + [w]) == LaunchesOf(watches) + [Launch(w.name, w.pid)]
  {
  }

  lemma BumpKeeps(s: State, next: State, o: StartOutcome, w: ExitWatch, before: set<ExitWatch>, os: seq<StartOutcome>)
    requires WatchesOk(s, LiveWatches(s, before), [o] + os)
    requires MustWatch(o) && Holds(s.records, o)
    requires s.timers.nextGeneration + 1 < U64_MAX
    requires next.timers == s.timers.Bump(o.name) && next.records == s.records
    requires w == ExitWatch(o.name, s.timers.nextGeneration + 1, o.pid.value)
    requires WatchesIn(next.effects) == WatchesIn(s.effects) + [w]
    ensures WatchesOk(next, LiveWatches(next, before), os)
  {
    assert LiveWatches(next, before) == LiveWatches(s, before) + {w};
    forall n ensures next.timers.CurrentGeneration(n) ==
        if n == o.name then s.timers.nextGeneration + 1 else s.timers.CurrentGeneration(n) {
    }
    forall n | Unsettled(next.records, n) ensures Watched(next, LiveWatches(next, before), n) || MustWatchName(os, n) {
      if n != o.name {
        assert Watched(s, LiveWatches(s, before), n) || MustWatchName([o] + os, n);
      }
    }
  }

  lemma {:induction false} WatchAllKeeps(s: State, before: set<ExitWatch>, from: nat, os: seq<StartOutcome>)
    requires Coherent(s, before, from, os)
    ensures Coherent(WatchAll(s, os), before, from, []) && SameNames(s, WatchAll(s, os))
    ensures WatchAll(s, os).waiters == s.waiters
    decreases |os|
  {
    if os != [] {
      assert os == [os[0]] + os[1..];
      WatchKeeps(s, os[0], before, from, os[1..]);
      WatchAllKeeps(Watch(s, os[0]), before, from, os[1..]);
    }
  }

  // ----- launching and stopping one service -----

  lemma {:induction false} OwedAppend(os: seq<StartOutcome>, o: StartOutcome)
    ensures OwedLaunches(os + [o]) ==
              OwedLaunches(os) + if MustWatch(o) && o.pid.Some? then [Launch(o.name, o.pid.value)] else []
  {
    if os != [] {
      assert (os + [o])[1..] == os[1..] + [o];
      OwedAppend(os[1..], o);
    }
  }

  lemma UnwatchedAppend(s: State, before: set<ExitWatch>, from: nat, os: seq<StartOutcome>, o: StartOutcome)
    requires Coherent(s, before, from, os) && !MustWatch(o)
    ensures Coherent(s, before, from, os + [o])
  {
    OwedAppend(os, o);
    forall n | MustWatchName(os, n) ensures MustWatchName(os + [o], n) {
      var p :| p in os && MustWatch(p) && p.name == n;
      assert p in os + [o];
    }
  }

  /** A launch that is not refused rewrites one record in place. */
  lemma LaunchEdits(s: State, name: Name, register: bool, ports: Ports) returns (updated: Record)
    requires Has(s.records, name) && LaunchOne(s, name, register, ports).1.Some?
    ensures var (next, outcome) := LaunchOne(s, name, register, ports);
            var record := Find(s.records, name).value;
            && next.records == Put(s.records, name, updated)
            && updated.spec == record.spec
            && updated.runtime.name == name && updated.runtime.pmId == record.runtime.pmId
            && (RecordOk(record) ==> RecordOk(updated))
            && (record.runtime.status.Online? ==> updated.runtime.status.Online?)
            && updated.runtime.scheduleArmed
            && (outcome.value.kind.Scheduled? ==> record.spec.IsScheduledTask())
            && s.launched <= next.launched
            && (forall i :: |s.launched| <= i < |next.launched| ==> next.launched[i].name == name)
  {
    hide Find, Put;
    var record := Find(s.records, name).value;
    var runtime := record.runtime;
    if !runtime.status.IsSettled() {
      var armed := runtime.ArmSchedule();
      updated := record.With(if runtime.status.IsShuttingDown() then armed.RequestRestart() else armed);
    } else if register && record.spec.IsScheduledTask() {
      updated := record.With(runtime.ArmSchedule());
    } else {
      var spawned := ports.spawn(s.tick).value;
      var launching := runtime.ArmSchedule().MarkLaunched(spawned.pid, spawned.nowMs);
      var online := if record.spec.readyProbe.None? then launching.MarkOnline() else launching;
      updated := record.With(online.RecordIdentity(spawned.identity));
    }
  }

  /** What coherence says of one record. */
  lemma RecordIsSound(s: State, name: Name, before: set<ExitWatch>, from: nat, os: seq<StartOutcome>)
    requires Coherent(s, before, from, os) && Has(s.records, name)
    ensures RecordOk(Find(s.records, name).value) && (MustWatchName(os, name) ==> Unsettled(s.records, name))
  {
  }

  /** A launch that spawns nothing is an edit of the record. */
  lemma GuardKeeps(s: State, name: Name, updated: Record, o: StartOutcome,
                   before: set<ExitWatch>, from: nat, os: seq<StartOutcome>)
    requires Coherent(s, before, from, os) && HonestEdit(s, name, updated, os) && !MustWatch(o)
    ensures SameNames(s, SetRecord(s, name, updated)) && Coherent(SetRecord(s, name, updated), before, from, os + [o])
  {
    EditKeeps(s, name, updated, before, from, os);
    UnwatchedAppend(SetRecord(s, name, updated), before, from, os, o);
    hide Coherent;
  }

  lemma LaunchKeeps(s: State, name: Name, register: bool, ports: Ports,
                    before: set<ExitWatch>, from: nat, os: seq<StartOutcome>)
    requires Coherent(s, before, from, os) && Has(s.records, name)
    ensures var (next, outcome) := LaunchOne(s, name, register, ports);
            && SameNames(s, next)
            && Coherent(next, before, from, if outcome.Some? then os + [outcome.value] else os)
            && (outcome.Some? ==> outcome.value.name == name)
  {
    RecordIsSound(s, name, before, from, os);
    hide Coherent, MustWatchName, Put, Find;
    var (next, outcome) := LaunchOne(s, name, register, ports);
    var record := Find(s.records, name).value;
    var runtime := record.runtime;
    if !runtime.status.IsSettled() {
      var armed := runtime.ArmSchedule();
      var kept := if runtime.status.IsShuttingDown() then armed.RequestRestart() else armed;
      GuardKeeps(s, name, record.With(kept), outcome.value, before, from, os);
    } else if register && record.spec.IsScheduledTask() {
      GuardKeeps(s, name, record.With(runtime.ArmSchedule()), outcome.value, before, from, os);
    } else if outcome.None? {
      CoherentKnows(s, before, from, os);
      AsideKeeps(s, next, before, from, os);
    } else {
      FreshKeeps(s, name, register, ports, before, from, os);
    }
  }

  lemma FreshKeeps(s: State, name: Name, register: bool, ports: Ports,
                   before: set<ExitWatch>, from: nat, os: seq<StartOutcome>)
    requires Coherent(s, before, from, os) && Has(s.records, name) && !Unsettled(s.records, name)
    requires ports.spawn(s.tick).Some? && !(register && Find(s.records, name).value.spec.IsScheduledTask())
    ensures var (next, outcome) := LaunchOne(s, name, register, ports);
            && SameNames(s, next) && outcome.Some? && Coherent(next, before, from, os + [outcome.value])
  {
    RecordIsSound(s, name, before, from, os);
    CoherentIsCalm(s, before, from, os);
    hide Coherent, MustWatchName, Put, Find;
    var (next, outcome) := LaunchOne(s, name, register, ports);
    SpawnKeeps(s, next, name, Find(next.records, name).value, outcome.value, before, from, os);
  }

  lemma CoherentIsCalm(s: State, before: set<ExitWatch>, from: nat, os: seq<StartOutcome>)
    requires Coherent(s, before, from, os)
    ensures !s.panicked
  {
  }

  lemma CoherentKnows(s: State, before: set<ExitWatch>, from: nat, os: seq<StartOutcome>)
    requires Coherent(s, before, from, os)
    ensures WaitersKnown(s.records, s.waiters) && TableOk(s.records)
  {
  }

  lemma SpawnKeeps(s: State, next: State, name: Name, updated: Record, o: StartOutcome,
                   before: set<ExitWatch>, from: nat, os: seq<StartOutcome>)
    requires Coherent(s, before, from, os) && Has(s.records, name) && !Unsettled(s.records, name)
    requires next.records == Put(s.records, name, updated) && Holds(next.records, o)
    requires RecordOk(updated) && updated.runtime.name == name
    requires updated.runtime.pmId == Find(s.records, name).value.runtime.pmId
    requires o.kind.Fresh? && o.name == name && next.launched == s.launched + [Launch(name, o.pid.value)]
    requires next.timers == s.timers && next.waiters == s.waiters && next.effects == s.effects && !next.panicked
    ensures Coherent(next, before, from, os + [o]) && SameNames(s, next)
  {
    PutKeepsTable(s.records, name, updated);
    SameNamesHave(s, next);
    WaitersStayKnown(s.records, next.records, s.waiters);
    BalanceGrows(s, next, from, o, os);
    assert o in os + [o];
    forall p <- os + [o] | MustWatch(p) ensures Holds(next.records, p) {
      if p in os {
        assert Holds(s.records, p);
      }
    }
    if next.timers.nextGeneration < U64_MAX {
      SpawnKeepsWatches(s, next, name, o, LiveWatches(s, before), os);
    }
  }

  lemma SpawnKeepsWatches(s: State, next: State, name: Name, o: StartOutcome, live: set<ExitWatch>, os: seq<StartOutcome>)
    requires WatchesOk(s, live, os) && next.timers == s.timers
    requires MustWatch(o) && o.name == name
    requires forall n :: n != name ==> Find(next.records, n) == Find(s.records, n)
    ensures WatchesOk(next, live, os + [o])
  {
    assert o in os + [o];
    forall n | Unsettled(next.records, n) ensures Watched(next, live, n) || MustWatchName(os + [o], n) {
      if n != name {
        assert Watched(s, live, n) || MustWatchName(os, n);
        if MustWatchName(os, n) {
          var p :| p in os && MustWatch(p) && p.name == n;
          assert p in os + [o];
        }
      }
    }
  }

  lemma StopKeeps(s: State, name: Name, ports: Ports, before: set<ExitWatch>, from: nat)
    requires Coherent(s, before, from, []) && Has(s.records, name)
    ensures var (next, outcome) := RequestStop(s, name, ports);
            && Coherent(next, before, from, []) && SameNames(s, next)
            && next.waiters == s.waiters
            && (outcome.Some? ==> outcome.value.name == name)
  {
    var (next, outcome) := RequestStop(s, name, ports);
    var record := Find(s.records, name).value;
    if record.runtime.LivePid().None? {
      EditKeeps(s, name, record.With(record.runtime.MarkExited(Stopped)), before, from, []);
    } else {
      AsideKeeps(s, Tick(s), before, from, []);
      if outcome.Some? {
        EditKeeps(Tick(s), name, record.With(record.runtime.MarkStopping()), before, from, []);
      }
    }
  }

  lemma FindByIsFind(records: seq<Record>, selector: Selector)
    requires TableOk(records) && FindBy(records, selector).Some?
    ensures Find(records, FindBy(records, selector).value.runtime.name) == FindBy(records, selector)
  {
    FindIsUnique(records, FindBy(records, selector).value);
  }

  lemma RestartAppKeeps(s: State, selector: Selector, ports: Ports, before: set<ExitWatch>, from: nat)
    requires Coherent(s, before, from, [])
    ensures var (next, outcome) := RestartApp(s, selector, ports);
            && SameNames(s, next)
            && next.waiters == s.waiters
            && Coherent(next, before, from, if outcome.Started? then [outcome.started] else [])
            && (selector.ByName? && outcome.Started? ==> outcome.started.name == selector.name)
            && (selector.ByName? && outcome.AwaitingExit? ==> outcome.stopped.name == selector.name)
            && (outcome.Started? ==> Has(s.records, outcome.started.name))
            && (outcome.AwaitingExit? ==> Has(s.records, outcome.stopped.name))
  {
    var (next, outcome) := RestartApp(s, selector, ports);
    if FindBy(s.records, selector).Some? {
      CoherentKnows(s, before, from, []);
      FindByIsFind(s.records, selector);
      hide Find, Put, FindBy, Coherent, TableOk, WatchesIn;
      var record := FindBy(s.records, selector).value;
      var name := record.runtime.name;
      if record.runtime.status.IsSettled() {
        LaunchKeeps(s, name, false, ports, before, from, []);
        hide LaunchOne;
        var (launched, started) := LaunchOne(s, name, false, ports);
        if started.Some? {
          assert [] + [started.value] == [started.value];
          CoherentKnows(launched, before, from, [started.value]);
          AsideKeeps(launched, next, before, from, [started.value]);
        }
      } else {
        RequestKeeps(s, name, ports, before, from);
        hide RequestStop, RequestRestartOf;
        var (asked, stopped) := RequestStop(s, name, ports);
        if stopped.Some? {
          CoherentKnows(RequestRestartOf(asked, name), before, from, []);
          AsideKeeps(RequestRestartOf(asked, name), next, before, from, []);
        }
      }
    }
  }

  /** Asking a live service to leave, and to come back when it has. */
  lemma RequestKeeps(s: State, name: Name, ports: Ports, before: set<ExitWatch>, from: nat)
    requires Coherent(s, before, from, []) && Has(s.records, name)
    ensures var (asked, stopped) := RequestStop(s, name, ports);
            var requested := RequestRestartOf(asked, name);
            && Coherent(asked, before, from, []) && SameNames(s, asked) && asked.waiters == s.waiters
            && Coherent(requested, before, from, []) && SameNames(s, requested) && requested.waiters == s.waiters
            && (stopped.Some? ==> stopped.value.name == name)
  {
    StopKeeps(s, name, ports, before, from);
    var (asked, stopped) := RequestStop(s, name, ports);
    hide RequestStop, Coherent, Find, Put;
    SameNamesHave(s, asked);
    RecordIsSound(asked, name, before, from, []);
    var now := Find(asked.records, name).value;
    EditKeeps(asked, name, now.With(now.runtime.RequestRestart()), before, from, []);
  }

  lemma DispatchKeeps(s: State, outcome: RestartOutcome, before: set<ExitWatch>, from: nat)
    requires !outcome.Refused?
    requires Coherent(s, before, from, if outcome.Started? then [outcome.started] else [])
    ensures var (next, name) := DispatchRestart(s, outcome);
            && Coherent(next, before, from, []) && SameNames(s, next) && next.waiters == s.waiters
  {
    hide Coherent, WatchesIn, Find;
    if outcome.Started? {
      assert [outcome.started] + [] == [outcome.started];
      WatchKeeps(s, outcome.started, before, from, []);
    } else {
      CoherentKnows(s, before, from, []);
      AsideKeeps(s, DispatchRestart(s, outcome).0, before, from, []);
    }
  }

  lemma ArmKeeps(s: State, name: Name, ports: Ports, before: set<ExitWatch>, from: nat)
    requires Coherent(s, before, from, [])
    ensures Coherent(ArmTimerFor(s, name, ports), before, from, []) && SameNames(s, ArmTimerFor(s, name, ports))
  {
    ArmTimerIsAside(s, name, ports);
    AsideKeeps(s, ArmTimerFor(s, name, ports), before, from, []);
  }

  lemma RestartNowKeeps(s: State, name: Name, ports: Ports, before: set<ExitWatch>, from: nat)
    requires Coherent(s, before, from, [])
    ensures Coherent(RestartNow(s, name, ports), before, from, [])
    ensures SameNames(s, RestartNow(s, name, ports)) && RestartNow(s, name, ports).waiters == s.waiters
  {
    var cancelled := CancelQueuedRestart(s, name);
    AsideKeeps(s, cancelled, before, from, []);
    RestartAppKeeps(cancelled, ByName(name), ports, before, from);
    var (tried, outcome) := RestartApp(cancelled, ByName(name), ports);
    if outcome.Refused? {
      ArmKeeps(tried, name, ports, before, from);
    } else {
      DispatchKeeps(tried, outcome, before, from);
      var (dispatched, restarted) := DispatchRestart(tried, outcome);
      ArmKeeps(dispatched, restarted, ports, before, from);
    }
  }

  // ----- readiness -----

  lemma ErrorKeeps(s: State, name: Name, before: set<ExitWatch>, from: nat)
    requires Coherent(s, before, from, []) && Has(s.records, name)
    ensures Coherent(MarkErroredIfSettled(s, name), before, from, []) && SameNames(s, MarkErroredIfSettled(s, name))
  {
    var record := Find(s.records, name).value;
    if record.runtime.status.IsSettled() {
      EditKeeps(s, name, record.With(record.runtime.MarkExited(Errored)), before, from, []);
    }
  }

  lemma {:induction false} FailDeadKeeps(s: State, dead: seq<Name>, before: set<ExitWatch>, from: nat)
    requires Coherent(s, before, from, []) && AllHave(s.records, dead)
    ensures Coherent(FailDead(s, dead).0, before, from, []) && SameNames(s, FailDead(s, dead).0)
    decreases |s.waiters|, |dead|
  {
    if dead != [] {
      var doomed := dead[|dead| - 1];
      var left := dead[..|dead| - 1];
      var forgotten := ForgetWaiter(s.waiters, doomed);
      var trimmed := s.(waiters := forgotten);
      AsideKeeps(s, trimmed, before, from, []);
      ErrorKeeps(trimmed, doomed, before, from);
      var marked := MarkErroredIfSettled(trimmed, doomed);
      SameNamesHave(s, marked);
      ForgetShrinks(s.waiters, doomed);
      ForgetShrinks(forgotten, doomed);
      var next := marked.(waiters := forgotten - {doomed});
      AsideKeeps(marked, next, before, from, []);
      FailDeadKeeps(next, left + WaitersOf(forgotten, doomed), before, from);
    }
  }

  lemma FailKeeps(s: State, name: Name, before: set<ExitWatch>, from: nat)
    requires Coherent(s, before, from, [])
    ensures Coherent(FailDownstream(s, name).0, before, from, []) && SameNames(s, FailDownstream(s, name).0)
  {
    var taken := s.(waiters := s.waiters - {name});
    AsideKeeps(s, taken, before, from, []);
    FailDeadKeeps(taken, WaitersOf(s.waiters, name), before, from);
  }

  lemma CancelReadyKeeps(s: State, name: Name, before: set<ExitWatch>, from: nat)
    requires Coherent(s, before, from, [])
    ensures Coherent(CancelReadyOf(s, name), before, from, []) && SameNames(s, CancelReadyOf(s, name))
  {
    var forgotten := s.(readyFailed := s.readyFailed - {name}, waiters := ForgetWaiter(s.waiters, name));
    AsideKeeps(s, forgotten, before, from, []);
    FailKeeps(forgotten, name, before, from);
    AsideKeeps(FailDownstream(forgotten, name).0, CancelReadyOf(s, name), before, from, []);
  }

  lemma LaunchWaiterKeeps(s: State, waiter: Name, ports: Ports, before: set<ExitWatch>, from: nat)
    requires Coherent(s, before, from, []) && Has(s.records, waiter)
    ensures Coherent(LaunchWaiter(s, waiter, ports).0, before, from, [])
    ensures SameNames(s, LaunchWaiter(s, waiter, ports).0)
  {
    LaunchKeeps(s, waiter, true, ports, before, from, []);
    var (tried, outcome) := LaunchOne(s, waiter, true, ports);
    SameNamesHave(s, tried);
    if outcome.None? {
      ErrorKeeps(tried, waiter, before, from);
      var marked := MarkErroredIfSettled(tried, waiter);
      FailKeeps(marked, waiter, before, from);
      AsideKeeps(FailDownstream(marked, waiter).0, Tick(FailDownstream(marked, waiter).0), before, from, []);
    } else {
      var o := outcome.value;
      assert [] + [o] == [o] + [];
      WatchKeeps(tried, o, before, from, []);
      ArmKeeps(Watch(tried, o), waiter, ports, before, from);
      var armed := ArmTimerFor(Watch(tried, o), waiter, ports);
      AsideKeeps(armed, Tick(armed), before, from, []);
    }
  }

  lemma {:induction false} LaunchListKeeps(s: State, list: seq<Name>, queue: seq<Name>, ports: Ports,
                                           before: set<ExitWatch>, from: nat)
    requires Coherent(s, before, from, []) && AllHave(s.records, list)
    ensures Coherent(LaunchList(s, list, queue, ports).0, before, from, [])
    ensures SameNames(s, LaunchList(s, list, queue, ports).0)
    decreases |list|
  {
    if list != [] {
      if StillWaiting(s.waiters, list[0]) {
        LaunchListKeeps(s, list[1..], queue, ports, before, from);
      } else {
        LaunchWaiterKeeps(s, list[0], ports, before, from);
        var (next, released) := LaunchWaiter(s, list[0], ports);
        SameNamesHave(s, next);
        LaunchListKeeps(next, list[1..], if released then queue + [list[0]] else queue, ports, before, from);
      }
    }
  }

  lemma {:induction false} LaunchQueueKeeps(s: State, queue: seq<Name>, ports: Ports, before: set<ExitWatch>, from: nat)
    requires Coherent(s, before, from, [])
    ensures Coherent(LaunchQueue(s, queue, ports), before, from, []) && SameNames(s, LaunchQueue(s, queue, ports))
    decreases |s.waiters|, |queue|
  {
    if queue != [] {
      var ready := queue[|queue| - 1];
      var left := queue[..|queue| - 1];
      if ready !in s.waiters {
        LaunchQueueKeeps(s, left, ports, before, from);
      } else {
        var taken := s.(waiters := s.waiters - {ready});
        AsideKeeps(s, taken, before, from, []);
        ForgetShrinks(s.waiters, ready);
        LaunchListShrinks(taken, s.waiters[ready], left, ports);
        LaunchListKeeps(taken, s.waiters[ready], left, ports, before, from);
        var (next, longer) := LaunchList(taken, s.waiters[ready], left, ports);
        LaunchQueueKeeps(next, longer, ports, before, from);
      }
    }
  }

  lemma OnReadyKeeps(s: State, name: Name, generation: nat, ports: Ports, before: set<ExitWatch>, from: nat)
    requires Coherent(s, before, from, [])
    ensures Coherent(OnReady(s, name, generation, ports), before, from, [])
    ensures SameNames(s, OnReady(s, name, generation, ports))
  {
    if AwaitsReadyAt(s, name, generation) {
      var record := Find(s.records, name).value;
      var online := SetRecord(s, name, record.With(record.runtime.MarkOnline()));
      EditKeeps(s, name, record.With(record.runtime.MarkOnline()), before, from, []);
      AsideKeeps(online, Tick(online), before, from, []);
      LaunchQueueKeeps(Tick(online), [name], ports, before, from);
    }
  }

  lemma OnReadyTimeoutKeeps(s: State, name: Name, generation: nat, ports: Ports, before: set<ExitWatch>, from: nat)
    requires Coherent(s, before, from, [])
    ensures Coherent(OnReadyTimeout(s, name, generation, ports), before, from, [])
    ensures SameNames(s, OnReadyTimeout(s, name, generation, ports))
  {
    if AwaitsReadyAt(s, name, generation) {
      var record := Find(s.records, name).value;
      var marked := s.(readyFailed := s.readyFailed + {name});
      AsideKeeps(s, marked, before, from, []);
      var updated := record.With(record.runtime.MarkStopping());
      EditKeeps(marked, name, updated, before, from, []);
      var stopping := SetRecord(marked, name, updated);
      var asked := ScheduleForceKillOf(Tick(stopping), name, record.runtime.pid, record.runtime.Token());
      AsideKeeps(stopping, asked, before, from, []);
      FailKeeps(asked, name, before, from);
      AsideKeeps(FailDownstream(asked, name).0, Tick(FailDownstream(asked, name).0), before, from, []);
    }
  }

  // ----- exits, restarts, fires and samples -----

  lemma ClassifyIsHonest(record: Record, outcome: ExitOutcome, nowMs: nat)
    ensures var settled := ClassifyExit(record, outcome, nowMs).0;
            && settled.spec == record.spec
            && settled.runtime.name == record.runtime.name
            && settled.runtime.pmId == record.runtime.pmId
            && settled.runtime.status.IsSettled()
  {
  }

  lemma OnExitKeeps(s: State, name: Name, generation: nat, outcome: ExitOutcome, ports: Ports,
                    before: set<ExitWatch>, from: nat)
    requires Coherent(s, before, from, [])
    ensures var next := OnExit(s, name, generation, outcome, ports);
            && Coherent(next, before, from, []) && SameNames(s, next)
            && (s.timers.IsCurrent(name, generation) ==> !Unsettled(next.records, name))
  {
    if s.timers.IsCurrent(name, generation) {
      var cancelled := Emit(s, CancelForceKill(name));
      AsideKeeps(s, cancelled, before, from, []);
      if Has(s.records, name) {
        var record := Find(s.records, name).value;
        if name in s.readyFailed {
          var taken := cancelled.(readyFailed := s.readyFailed - {name});
          AsideKeeps(cancelled, taken, before, from, []);
          SavedEditKeeps(taken, name, record.With(record.runtime.MarkExited(Errored)), before, from);
        } else {
          ClassifyIsHonest(record, outcome, ports.now(s.tick));
          var (settled, action) := ClassifyExit(record, outcome, ports.now(s.tick));
          SavedEditKeeps(cancelled, name, settled, before, from);
          AfterExitKeeps(Tick(SetRecord(cancelled, name, settled)), name, action, before, from);
        }
      }
    }
  }

  lemma SavedEditKeeps(s: State, name: Name, updated: Record, before: set<ExitWatch>, from: nat)
    requires Coherent(s, before, from, []) && HonestEdit(s, name, updated, []) && updated.runtime.status.IsSettled()
    ensures var saved := Tick(SetRecord(s, name, updated));
            Coherent(saved, before, from, []) && SameNames(s, saved) && !Unsettled(saved.records, name)
  {
    EditKeeps(s, name, updated, before, from, []);
    AsideKeeps(SetRecord(s, name, updated), Tick(SetRecord(s, name, updated)), before, from, []);
  }

  /** What `on_exit` does once the record is settled: queue a restart or fail the services downstream. */
  lemma AfterExitKeeps(saved: State, name: Name, action: ExitAction, before: set<ExitWatch>, from: nat)
    requires Coherent(saved, before, from, []) && !Unsettled(saved.records, name)
    ensures var next := match action
              case RestartAfter(delayMs) => QueueRestart(saved, name, delayMs)
              case Settled(_) => FailDownstream(saved, name).0;
            Coherent(next, before, from, []) && SameNames(saved, next) && !Unsettled(next.records, name)
  {
    match action
    case RestartAfter(delayMs) =>
      AsideKeeps(saved, QueueRestart(saved, name, delayMs), before, from, []);
    case Settled(_) =>
      FailKeeps(saved, name, before, from);
      FailLeavesSettled(saved, name, name);
  }

  lemma ErrorLeavesSettled(s: State, errored: Name, name: Name)
    ensures Unsettled(MarkErroredIfSettled(s, errored).records, name) <==> Unsettled(s.records, name)
  {
  }

  /** Failing the services downstream unsettles nothing. */
  lemma {:induction false} FailDeadLeavesSettled(s: State, dead: seq<Name>, name: Name)
    ensures Unsettled(FailDead(s, dead).0.records, name) <==> Unsettled(s.records, name)
    decreases |s.waiters|, |dead|
  {
    if dead != [] {
      var doomed := dead[|dead| - 1];
      var forgotten := ForgetWaiter(s.waiters, doomed);
      var marked := MarkErroredIfSettled(s.(waiters := forgotten), doomed);
      ErrorLeavesSettled(s.(waiters := forgotten), doomed, name);
      ForgetShrinks(s.waiters, doomed);
      ForgetShrinks(forgotten, doomed);
      FailDeadLeavesSettled(marked.(waiters := forgotten - {doomed}),
                            dead[..|dead| - 1] + WaitersOf(forgotten, doomed), name);
    }
  }

  lemma FailLeavesSettled(s: State, failed: Name, name: Name)
    ensures Unsettled(FailDownstream(s, failed).0.records, name) <==> Unsettled(s.records, name)
  {
    FailDeadLeavesSettled(s.(waiters := s.waiters - {failed}), WaitersOf(s.waiters, failed), name);
  }

  lemma OnRestartKeeps(s: State, name: Name, ports: Ports, before: set<ExitWatch>, from: nat)
    requires Coherent(s, before, from, [])
    ensures Coherent(OnRestart(s, name, ports), before, from, []) && SameNames(s, OnRestart(s, name, ports))
  {
    if name in s.timers.restarts {
      var claimed := s.(timers := s.timers.(restarts := s.timers.restarts - {name}));
      AsideKeeps(s, claimed, before, from, []);
      RestartNowKeeps(claimed, name, ports, before, from);
    }
  }

  lemma HandKeeps(s: State, name: Name, before: set<ExitWatch>, from: nat)
    requires Coherent(s, before, from, []) && Has(s.records, name)
    ensures Coherent(HandToTheBreaker(s, name), before, from, []) && SameNames(s, HandToTheBreaker(s, name))
  {
    var record := Find(s.records, name).value;
    if record.runtime.pendingRestart {
      EditKeeps(s, name, record.With(record.runtime.RequestSupervisedRestart()), before, from, []);
    }
  }

  lemma {:induction false} KillBreachesKeeps(s: State, names: seq<Name>, ports: Ports, before: set<ExitWatch>, from: nat)
    requires Coherent(s, before, from, []) && AllHave(s.records, names)
    ensures Coherent(KillBreaches(s, names, ports), before, from, []) && SameNames(s, KillBreaches(s, names, ports))
    decreases |names|
  {
    if names != [] {
      RestartNowKeeps(s, names[0], ports, before, from);
      var restarted := RestartNow(s, names[0], ports);
      SameNamesHave(s, restarted);
      HandKeeps(restarted, names[0], before, from);
      SameNamesHave(restarted, HandToTheBreaker(restarted, names[0]));
      KillBreachesKeeps(HandToTheBreaker(restarted, names[0]), names[1..], ports, before, from);
    }
  }

  lemma RecordsHave(records: seq<Record>)
    ensures forall r <- records :: Has(records, r.runtime.name)
    ensures AllHave(records, NamesOf(records))
  {
    forall r <- records ensures Has(records, r.runtime.name) {
      FindIsExact(records, r.runtime.name);
    }
    forall n <- NamesOf(records) ensures Has(records, n) {
      HasIsMember(records, n);
    }
  }

  lemma OnMemoryKeeps(s: State, ports: Ports, before: set<ExitWatch>, from: nat)
    requires Coherent(s, before, from, [])
    ensures Coherent(OnMemorySample(s, ports), before, from, []) && SameNames(s, OnMemorySample(s, ports))
  {
    var asked := Tick(Emit(s, ScheduleMemorySample));
    AsideKeeps(s, asked, before, from, []);
    RecordsHave(s.records);
    KillBreachesKeeps(asked, BreachesOf(s.records, ports.residentMemory(s.tick)), ports, before, from);
  }

  lemma CheckStepKeeps(s: State, name: Name, threshold: nat, ports: Ports, before: set<ExitWatch>, from: nat)
    requires Coherent(s, before, from, []) && Has(s.records, name)
    ensures Coherent(CheckStep(s, name, threshold, ports), before, from, [])
    ensures SameNames(s, CheckStep(s, name, threshold, ports))
  {
    ChecksKeep(s, name, before, from);
    CheckCases(s, name, threshold, ports);
    hide Coherent, RestartNow, Passed, Noted, CheckStep, HandToTheBreaker, Has, NamesOf;
    var noted := Noted(s, name);
    SameNamesHave(s, noted);
    RestartNowKeeps(noted, name, ports, before, from);
    SameNamesHave(s, RestartNow(noted, name, ports));
    HandKeeps(RestartNow(noted, name, ports), name, before, from);
  }

  /** The check of `name` passed, or failed and was counted. */
  function Passed(s: State, name: Name): State
    requires Has(s.records, name)
  {
    var record := Find(s.records, name).value;
    SetRecord(Tick(s), name, record.With(record.runtime.PassLiveness()))
  }

  function Noted(s: State, name: Name): State
    requires Has(s.records, name)
  {
    var record := Find(s.records, name).value;
    SetRecord(Tick(s), name, record.With(record.runtime.FailLiveness()))
  }

  lemma CheckCases(s: State, name: Name, threshold: nat, ports: Ports)
    requires Has(s.records, name)
    ensures var next := CheckStep(s, name, threshold, ports);
            || next == Passed(s, name) || next == Noted(s, name)
            || next == HandToTheBreaker(RestartNow(Noted(s, name), name, ports), name)
  {
    hide Find, Put, RestartNow, HandToTheBreaker;
  }

  lemma ChecksKeep(s: State, name: Name, before: set<ExitWatch>, from: nat)
    requires Coherent(s, before, from, []) && Has(s.records, name)
    ensures Coherent(Passed(s, name), before, from, []) && SameNames(s, Passed(s, name))
    ensures Coherent(Noted(s, name), before, from, []) && SameNames(s, Noted(s, name))
  {
    var record := Find(s.records, name).value;
    RecordIsSound(s, name, before, from, []);
    CoherentKnows(s, before, from, []);
    AsideKeeps(s, Tick(s), before, from, []);
    hide Coherent, Put;
    EditKeeps(Tick(s), name, record.With(record.runtime.PassLiveness()), before, from, []);
    EditKeeps(Tick(s), name, record.With(record.runtime.FailLiveness()), before, from, []);
  }

  lemma {:induction false} CheckLivenessKeeps(s: State, names: seq<Name>, threshold: nat, ports: Ports,
                                              before: set<ExitWatch>, from: nat)
    requires Coherent(s, before, from, []) && AllHave(s.records, names)
    ensures Coherent(CheckLiveness(s, names, threshold, ports), before, from, [])
    ensures SameNames(s, CheckLiveness(s, names, threshold, ports))
    decreases |names|
  {
    hide Coherent, CheckStep;
    if names != [] {
      var checked := CheckStep(s, names[0], threshold, ports);
      CheckStepKeeps(s, names[0], threshold, ports, before, from);
      SameNamesHave(s, checked);
      CheckLivenessKeeps(checked, names[1..], threshold, ports, before, from);
    }
  }

  lemma SettleStableKeeps(s: State, nowMs: nat, before: set<ExitWatch>, from: nat)
    requires Coherent(s, before, from, [])
    ensures Coherent(s.(records := SettleStability(s.records, nowMs)), before, from, [])
  {
    var next := s.(records := SettleStability(s.records, nowMs));
    SameNamesHave(s, next);
    WaitersStayKnown(s.records, next.records, s.waiters);
    if next.timers.nextGeneration < U64_MAX {
      forall n | Unsettled(next.records, n) ensures ClaimsTheSame(s.records, next.records, n) {
      }
      ClaimsKeepWatches(s, next, LiveWatches(s, before), []);
    }
  }

  lemma OnLivenessKeeps(s: State, threshold: nat, ports: Ports, before: set<ExitWatch>, from: nat)
    requires Coherent(s, before, from, [])
    ensures Coherent(OnLivenessSample(s, threshold, ports), before, from, [])
    ensures SameNames(s, OnLivenessSample(s, threshold, ports))
  {
    var asked := Emit(s, ScheduleLivenessSample);
    AsideKeeps(s, asked, before, from, []);
    RecordsHave(s.records);
    CheckLivenessKeeps(asked, LivenessWatchList(s.records), threshold, ports, before, from);
    var checked := CheckLiveness(asked, LivenessWatchList(s.records), threshold, ports);
    SettleStableKeeps(checked, ports.now(checked.tick), before, from);
    var settled := checked.(records := SettleStability(checked.records, ports.now(checked.tick)));
    AsideKeeps(settled, Tick(settled), before, from, []);
  }
}
