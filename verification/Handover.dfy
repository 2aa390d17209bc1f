/**
 * Handing the services over to a new daemon: the saved document (adapters/src/persistence/dto.rs and
 * yaml_store.rs), the comparison of the two tables (usecases/src/handover.rs), and the round trip
 * through save, load and take-over.
 */
module Handover {
  import opened Graphs
  import opened Model
  import opened ProcessTable
  import opened Handlers
  import opened Judge
  import opened Resurrect

  // ----- the saved document -----

  datatype RuntimeDto = RuntimeDto(
    pmId: nat, status: string, restartTime: nat, unstableRestarts: nat, createdAtMs: nat,
    pid: Option<nat>, startedAtMs: Option<nat>, identity: Option<Identity>,
    pendingRestart: bool, supervisedRestart: bool, livenessFailures: nat, scheduleArmed: bool)

  datatype StateDto = StateDto(name: Name, runtime: RuntimeDto)

  datatype Document = Document(services: seq<StateDto>, boot: Option<string>)

  function StatusText(status: Status): string {
    match status
    case Launching => "launching"
    case Online => "online"
    case Stopping => "stopping"
    case Stopped => "stopped"
    case Errored => "errored"
  }

  function ParseStatus(raw: string): Option<Status> {
    if raw == "launching" then Some(Launching)
    else if raw == "online" then Some(Online)
    else if raw == "stopping" then Some(Stopping)
    else if raw == "stopped" then Some(Stopped)
    else if raw == "errored" then Some(Errored)
    else None
  }

  lemma StatusRoundTrip(status: Status)
    ensures ParseStatus(StatusText(status)) == Some(status)
  {
    assert |"launching"| == 9 && |"online"| == 6 && |"stopping"| == 8;
    assert "stopped"[0] == 's' && "errored"[0] == 'e';
  }

  function EncodeState(record: Record): StateDto {
    var r := record.runtime;
    StateDto(r.name, RuntimeDto(r.pmId, StatusText(r.status), r.restartTime, r.unstableRestarts, r.createdAtMs,
      r.pid, r.startedAtMs, r.identity, r.pendingRestart, r.supervisedRestart, r.livenessFailures, r.scheduleArmed))
  }

  function EncodeAll(records: seq<Record>): seq<StateDto> {
    if records == [] then [] else [EncodeState(records[0])] + EncodeAll(records[1..])
  }

  datatype Decoded = Decoded(runtime: Runtime) | UnknownStatus | Inconsistent

  function DecodeState(dto: StateDto): Decoded {
    var d := dto.runtime;
    match ParseStatus(d.status)
    case None => UnknownStatus
    case Some(status) =>
      var runtime := Runtime(d.pmId, dto.name, d.pid, status, d.restartTime, d.unstableRestarts, d.createdAtMs,
        d.startedAtMs, d.identity, d.pendingRestart, d.supervisedRestart, d.livenessFailures, d.scheduleArmed);
      if runtime.IsConsistent() then Decoded(runtime) else Inconsistent
  }

  /** A saved state reads back as itself, unless it claims to run without a pid. */
  lemma DecodeUndoesEncode(record: Record)
    ensures DecodeState(EncodeState(record)) ==
              if record.runtime.IsConsistent() then Decoded(record.runtime) else Inconsistent
  {
    StatusRoundTrip(record.runtime.status);
  }

  /** A state that can be read is saved again exactly as it was. */
  lemma EncodeUndoesDecode(dto: StateDto, spec: Spec)
    requires DecodeState(dto).Decoded?
    ensures EncodeState(Record(spec, DecodeState(dto).runtime)) == dto
  {
  }

  // ----- loading -----

  /** What the service file of a name yields. */
  datatype Resolution = Found(spec: Spec) | EnvironmentUnreadable | Unusable

  datatype Rejoined = Rejoin(record: Record) | Strand(stranded: Stranded) | Blocked

  datatype Loaded = Loaded(contents: Contents) | LoadFailed

  function StrandedOf(dto: StateDto): Stranded {
    Stranded(dto.name, dto.runtime.pid,
             if dto.runtime.identity.Some? then Some(dto.runtime.identity.value.token) else None)
  }

  function RejoinOne(dto: StateDto, resolve: Name -> Resolution): Rejoined {
    match DecodeState(dto)
    case Decoded(runtime) =>
      (match resolve(runtime.name)
       case Found(spec) => Rejoin(Record(spec, runtime))
       case EnvironmentUnreadable => Blocked
       case Unusable => Strand(StrandedOf(dto)))
    case _ => Strand(StrandedOf(dto))
  }

  /** `load`: a missing file is an empty table; an unreadable environment blocks the take-over. */
  function LoadServices(services: seq<StateDto>, boot: Option<string>, resolve: Name -> Resolution): Loaded {
    if services == [] then Loaded(Contents([], [], boot))
    else
      match RejoinOne(services[0], resolve)
      case Blocked => LoadFailed
      case Rejoin(record) =>
        (match LoadServices(services[1..], boot, resolve)
         case LoadFailed => LoadFailed
         case Loaded(c) => Loaded(c.(records := [record] + c.records)))
      case Strand(stranded) =>
        match LoadServices(services[1..], boot, resolve)
        case LoadFailed => LoadFailed
        case Loaded(c) => Loaded(c.(stranded := [stranded] + c.stranded))
  }

  function Load(document: Option<Document>, resolve: Name -> Resolution): Loaded {
    match document
    case None => Loaded(Contents([], [], None))
    case Some(doc) => LoadServices(doc.services, doc.boot, resolve)
  }

  ghost predicate ResolvesAs(records: seq<Record>, resolve: Name -> Resolution) {
    forall r <- records :: resolve(r.runtime.name) == Found(r.spec)
  }

  lemma RejoinsItself(record: Record, resolve: Name -> Resolution)
    requires resolve(record.runtime.name) == Found(record.spec) && record.runtime.IsConsistent()
    ensures RejoinOne(EncodeState(record), resolve) == Rejoin(record)
  {
    hide EncodeState, DecodeState;
    DecodeUndoesEncode(record);
  }

  /** What is kept of a saved state that cannot be taken up: its name, its pid and its token. */
  function KeptOf(dto: StateDto): Stranded {
    Stranded(dto.name, dto.runtime.pid, match dto.runtime.identity case None => None case Some(identity) => Some(identity.token))
  }

  /** Some readable state's environment cannot be read. */
  ghost predicate IsBlocked(services: seq<StateDto>, resolve: Name -> Resolution) {
    exists dto <- services :: DecodeState(dto).Decoded? && resolve(dto.name).EnvironmentUnreadable?
  }

  /** The state ended as a record or stranded, whichever it should. */
  ghost predicate IsAccounted(contents: Contents, dto: StateDto, resolve: Name -> Resolution) {
    if CanBeTakenUp(dto, resolve) then exists r <- contents.records :: IsTakenUp(dto, r, resolve)
    else KeptOf(dto) in contents.stranded
  }

  ghost predicate ComesFrom(services: seq<StateDto>, r: Record, resolve: Name -> Resolution) {
    exists dto <- services :: IsTakenUp(dto, r, resolve)
  }

  ghost predicate IsLeftOf(services: seq<StateDto>, o: Stranded, resolve: Name -> Resolution) {
    exists dto <- services :: !CanBeTakenUp(dto, resolve) && o == KeptOf(dto)
  }

  /**
   * Loading in full: it fails exactly when the environment of a readable state cannot be read. Otherwise a
   * readable state whose declaration is found is a record, which would be saved as that state, and any
   * other is stranded; there is nothing else.
   */
  ghost predicate LoadedExactly(services: seq<StateDto>, boot: Option<string>, resolve: Name -> Resolution, loaded: Loaded) {
    if IsBlocked(services, resolve) then loaded == LoadFailed
    else
      && loaded.Loaded? && loaded.contents.boot == boot
      && |loaded.contents.records| + |loaded.contents.stranded| == |services|
      && (forall r <- loaded.contents.records :: ComesFrom(services, r, resolve))
      && (forall o <- loaded.contents.stranded :: IsLeftOf(services, o, resolve))
      && (forall dto <- services :: IsAccounted(loaded.contents, dto, resolve))
  }

  ghost predicate IsTakenUp(dto: StateDto, r: Record, resolve: Name -> Resolution) {
    EncodeState(r) == dto && DecodeState(dto).Decoded? && resolve(dto.name) == Found(r.spec)
  }

  ghost predicate CanBeTakenUp(dto: StateDto, resolve: Name -> Resolution) {
    DecodeState(dto).Decoded? && resolve(dto.name).Found?
  }

  lemma RejoinsExactly(dto: StateDto, resolve: Name -> Resolution)
    ensures match RejoinOne(dto, resolve)
            case Blocked => DecodeState(dto).Decoded? && resolve(dto.name).EnvironmentUnreadable?
            case Rejoin(r) => IsTakenUp(dto, r, resolve) && CanBeTakenUp(dto, resolve)
            case Strand(o) => o == KeptOf(dto) && !CanBeTakenUp(dto, resolve)
                              && !(DecodeState(dto).Decoded? && resolve(dto.name).EnvironmentUnreadable?)
  {
    if CanBeTakenUp(dto, resolve) {
      EncodeUndoesDecode(dto, resolve(dto.name).spec);
    }
    hide ParseStatus, StatusText;
  }

  lemma {:induction false} LoadIsExact(services: seq<StateDto>, boot: Option<string>, resolve: Name -> Resolution)
    ensures LoadedExactly(services, boot, resolve, LoadServices(services, boot, resolve))
  {
    hide RejoinOne, IsTakenUp, CanBeTakenUp, KeptOf, DecodeState;
    if services != [] {
      var first, rest := services[0], services[1..];
      assert services == [first] + rest;
      RejoinsExactly(first, resolve);
      LoadIsExact(rest, boot, resolve);
      OneMoreLoaded(first, rest, boot, resolve, LoadServices(rest, boot, resolve), LoadServices(services, boot, resolve));
    }
  }

  lemma OneMoreLoaded(first: StateDto, rest: seq<StateDto>, boot: Option<string>, resolve: Name -> Resolution, more: Loaded, all: Loaded)
    requires LoadedExactly(rest, boot, resolve, more)
    requires match RejoinOne(first, resolve)
             case Blocked => DecodeState(first).Decoded? && resolve(first.name).EnvironmentUnreadable? && all == LoadFailed
             case Rejoin(r) =>
               && IsTakenUp(first, r, resolve) && CanBeTakenUp(first, resolve)
               && all == (if more.LoadFailed? then LoadFailed else Loaded(more.contents.(records := [r] + more.contents.records)))
             case Strand(o) =>
               && o == KeptOf(first) && !CanBeTakenUp(first, resolve)
               && !(DecodeState(first).Decoded? && resolve(first.name).EnvironmentUnreadable?)
               && all == (if more.LoadFailed? then LoadFailed else Loaded(more.contents.(stranded := [o] + more.contents.stranded)))
    ensures LoadedExactly([first] + rest, boot, resolve, all)
  {
    hide RejoinOne;
    var services := [first] + rest;
    BlockedFirstOrLater(first, rest, resolve);
    if !IsBlocked(services, resolve) {
      hide IsBlocked;
      var was, now := more.contents, all.contents;
      forall r <- now.records ensures ComesFrom(services, r, resolve) {
        ComesFirstOrLater(first, rest, r, resolve);
      }
      forall o <- now.stranded ensures IsLeftOf(services, o, resolve) {
        LeftFirstOrLater(first, rest, o, resolve);
      }
      forall dto <- services ensures IsAccounted(now, dto, resolve) {
        if dto in rest {
          StaysAccounted(was, now, dto, resolve);
        }
      }
    }
  }

  lemma BlockedFirstOrLater(first: StateDto, rest: seq<StateDto>, resolve: Name -> Resolution)
    ensures IsBlocked([first] + rest, resolve) <==>
              (DecodeState(first).Decoded? && resolve(first.name).EnvironmentUnreadable?) || IsBlocked(rest, resolve)
  {
    hide DecodeState;
    assert forall dto :: dto in [first] + rest <==> dto == first || dto in rest;
  }

  lemma ComesFirstOrLater(first: StateDto, rest: seq<StateDto>, r: Record, resolve: Name -> Resolution)
    ensures IsTakenUp(first, r, resolve) || ComesFrom(rest, r, resolve) ==> ComesFrom([first] + rest, r, resolve)
  {
    hide IsTakenUp;
    assert forall dto :: dto in [first] + rest <==> dto == first || dto in rest;
  }

  lemma LeftFirstOrLater(first: StateDto, rest: seq<StateDto>, o: Stranded, resolve: Name -> Resolution)
    ensures (!CanBeTakenUp(first, resolve) && o == KeptOf(first)) || IsLeftOf(rest, o, resolve) ==> IsLeftOf([first] + rest, o, resolve)
  {
    hide CanBeTakenUp, KeptOf;
    assert forall dto :: dto in [first] + rest <==> dto == first || dto in rest;
  }

  lemma StaysAccounted(was: Contents, now: Contents, dto: StateDto, resolve: Name -> Resolution)
    requires IsAccounted(was, dto, resolve)
    requires forall r <- was.records :: r in now.records
    requires forall o <- was.stranded :: o in now.stranded
    ensures IsAccounted(now, dto, resolve)
  {
    hide CanBeTakenUp, IsTakenUp, KeptOf;
  }

  /** A consistent table survives being saved and loaded. */
  lemma {:induction false} SaveLoadRoundTrip(records: seq<Record>, boot: Option<string>, resolve: Name -> Resolution)
    requires ResolvesAs(records, resolve)
    requires forall r <- records :: r.runtime.IsConsistent()
    ensures LoadServices(EncodeAll(records), boot, resolve) == Loaded(Contents(records, [], boot))
  {
    hide EncodeState, RejoinOne;
    if records != [] {
      assert records[0] in records;
      RejoinsItself(records[0], resolve);
      forall r <- records[1..] ensures r in records {
      }
      SaveLoadRoundTrip(records[1..], boot, resolve);
      assert EncodeAll(records)[1..] == EncodeAll(records[1..]);
      assert [records[0]] + records[1..] == records;
    }
  }

  // ----- comparing the two tables -----

  datatype Snapshot = Snapshot(name: Name, pid: Option<nat>)

  datatype HandoverChange = WasAdopted | WasRestarted | WasLost | WasIdle

  datatype Comparison = Comparison(adopted: seq<Name>, restarted: seq<Name>, lost: seq<Name>)

  function RowOf(rows: seq<Snapshot>, name: Name): Option<Snapshot> {
    if rows == [] then None else if rows[0].name == name then Some(rows[0]) else RowOf(rows[1..], name)
  }

  /** `classify_handover`. */
  function Classify(before: Option<nat>, after: Option<Snapshot>): HandoverChange {
    match after
    case None => WasLost
    case Some(survivor) =>
      if before.Some? && survivor.pid == before then WasAdopted
      else if survivor.pid.Some? then WasRestarted
      else if before.Some? then WasLost
      else WasIdle
  }

  /** The names of the rows that ended one way, in their order. */
  function Ended(before: seq<Snapshot>, after: seq<Snapshot>, change: HandoverChange): seq<Name> {
    if before == [] then []
    else (if Classify(before[0].pid, RowOf(after, before[0].name)) == change then [before[0].name] else [])
         + Ended(before[1..], after, change)
  }

  lemma EndedStep(before: seq<Snapshot>, after: seq<Snapshot>, change: HandoverChange, i: nat, done: seq<Name>)
    requires i < |before|
    ensures var hit := Classify(before[i].pid, RowOf(after, before[i].name)) == change;
            done + Ended(before[i..], after, change) ==
            (if hit then done + [before[i].name] else done) + Ended(before[i + 1..], after, change)
  {
    assert before[i..][1..] == before[i + 1..];
  }

  /** `compare_handover`: the loop over the rows saved before. */
  method CompareHandover(before: seq<Snapshot>, after: seq<Snapshot>) returns (comparison: Comparison)
    ensures comparison.adopted == Ended(before, after, WasAdopted)
    ensures comparison.restarted == Ended(before, after, WasRestarted)
    ensures comparison.lost == Ended(before, after, WasLost)
  {
    hide Classify, RowOf, Ended;
    comparison := Comparison([], [], []);
    assert before[0..] == before;
    for i := 0 to |before|
      invariant comparison.adopted + Ended(before[i..], after, WasAdopted) == Ended(before, after, WasAdopted)
      invariant comparison.restarted + Ended(before[i..], after, WasRestarted) == Ended(before, after, WasRestarted)
      invariant comparison.lost + Ended(before[i..], after, WasLost) == Ended(before, after, WasLost)
    {
      EndedStep(before, after, WasAdopted, i, comparison.adopted);
      EndedStep(before, after, WasRestarted, i, comparison.restarted);
      EndedStep(before, after, WasLost, i, comparison.lost);
      match Classify(before[i].pid, RowOf(after, before[i].name))
      case WasAdopted => comparison := comparison.(adopted := comparison.adopted + [before[i].name]);
      case WasRestarted => comparison := comparison.(restarted := comparison.restarted + [before[i].name]);
      case WasLost => comparison := comparison.(lost := comparison.lost + [before[i].name]);
      case WasIdle =>
    }
    NothingEnded(after);
    assert before[|before|..] == [];
    assert forall names: seq<Name> :: names + [] == names;
  }

  lemma NothingEnded(after: seq<Snapshot>)
    ensures forall change :: Ended([], after, change) == []
  {
  }

  /** What each list says about a service that had one row before. */
  lemma ComparisonIsExact(before: seq<Snapshot>, after: seq<Snapshot>, row: Snapshot)
    requires row in before && forall other <- before :: other.name == row.name ==> other == row
    ensures var survivor := RowOf(after, row.name);
            && (row.name in Ended(before, after, WasAdopted) <==>
                  survivor.Some? && row.pid.Some? && survivor.value.pid == row.pid)
            && (row.name in Ended(before, after, WasRestarted) <==>
                  survivor.Some? && survivor.value.pid.Some? && survivor.value.pid != row.pid)
            && (row.name in Ended(before, after, WasLost) <==>
                  survivor.None? || (row.pid.Some? && survivor.value.pid.None?))
  {
    EndedHolds(before, after, WasAdopted, row);
    EndedHolds(before, after, WasRestarted, row);
    EndedHolds(before, after, WasLost, row);
  }

  lemma {:induction false} EndedHolds(before: seq<Snapshot>, after: seq<Snapshot>, change: HandoverChange, row: Snapshot)
    requires forall other <- before :: other.name == row.name ==> other == row
    ensures row.name in Ended(before, after, change) <==>
              row in before && Classify(row.pid, RowOf(after, row.name)) == change
  {
    hide Classify, RowOf;
    if before != [] {
      assert before[0] in before;
      forall other <- before[1..] ensures other in before {
      }
      EndedHolds(before[1..], after, change, row);
      assert before == [before[0]] + before[1..];
    }
  }

  function Snapshots(records: seq<Record>): seq<Snapshot> {
    if records == [] then []
    else [Snapshot(records[0].runtime.name, records[0].runtime.pid)] + Snapshots(records[1..])
  }

  function NamesWithPid(rows: seq<Snapshot>): seq<Name> {
    if rows == [] then []
    else (if rows[0].pid.Some? then [rows[0].name] else []) + NamesWithPid(rows[1..])
  }

  predicate RowsAgree(rows: seq<Snapshot>, all: seq<Snapshot>) {
    forall row <- rows :: RowOf(all, row.name) == Some(row)
  }

  lemma {:induction false} NothingChanged(rows: seq<Snapshot>, all: seq<Snapshot>)
    requires RowsAgree(rows, all)
    ensures Ended(rows, all, WasAdopted) == NamesWithPid(rows)
    ensures Ended(rows, all, WasRestarted) == [] && Ended(rows, all, WasLost) == []
  {
    hide RowOf;
    if rows != [] {
      assert rows[0] in rows;
      forall row <- rows[1..] ensures row in rows {
      }
      NothingChanged(rows[1..], all);
    }
  }

  // ----- the round trip -----

  /** A table ready to be handed over: nothing is stopping, and everything that runs is provably unchanged. */
  ghost predicate HandsOver(records: seq<Record>, host: Host) {
    forall r <- records :: WasSupposedToRun(r) ==>
      r.runtime.status.IsRunning() && TokenMatched(r, host) && Unchanged(r, host)
  }

  lemma EveryVerdictAdopts(records: seq<Record>, host: Host, name: Name)
    requires HandsOver(records, host) && name in JudgeAll(records, Kept, host)
    ensures KeptAsIs(JudgeAll(records, Kept, host), name)
  {
    hide JudgeAll, JudgeVerdict, TokenMatched, Unchanged;
    var r := JudgedOwn(records, Kept, host, name);
    AdoptionIsExact(r, Kept, host);
  }

  /** Taking such a table over sends no signal and starts nothing. */
  lemma HandoverIsQuiet(moves: seq<Move>, contents: Contents, scene: Scene, m: Move)
    requires HandsOver(contents.records, scene.host) && contents.stranded == []
    requires IsTrace(moves, contents, Kept, scene) && m in moves
    ensures !m.IsSignal() && !m.Respawning?
  {
    hide IsTrace, StalePlans, Evict, JudgeAll, HandsOver;
    TraceMoves(moves, contents, Kept, scene, m);
    if m.Evicting? {
      var plans := StalePlans(contents.records, Kept, scene.host);
      QuietHandoverPlans(contents.records, scene.host, plans[m.plan]);
    } else if m.IsRecovery() {
      TraceRecoveries(moves, contents, Kept, scene, m);
      EveryVerdictAdopts(contents.records, scene.host, m.name);
    }
  }

  lemma QuietHandoverPlans(records: seq<Record>, host: Host, plan: Plan)
    requires HandsOver(records, host)
    ensures plan !in StalePlans(records, Kept, host)
  {
    hide JudgeAll, HandsOver, Plans, OrderOf;
    if plan in StalePlans(records, Kept, host) {
      PlanHasOwner(OrderOf(records, Kept, host), JudgeAll(records, Kept, host), plan);
      EveryVerdictAdopts(records, host, plan.name);
    }
  }

  function PidOf(records: seq<Record>, name: Name): Option<Option<nat>> {
    if Has(records, name) then Some(Find(records, name).value.runtime.pid) else None
  }

  ghost predicate SamePids(records: seq<Record>, next: seq<Record>) {
    forall n :: PidOf(next, n) == PidOf(records, n)
  }

  /** An adopted record counts as running unless it still awaits its probe. */
  function AdoptedRecord(record: Record): Record {
    record.With(if record.AwaitsReady() then record.runtime else record.runtime.MarkOnline())
  }

  /** What becomes of a record in a handover: nothing but a pending restart is forgotten. */
  function HandedOver(record: Record): Record {
    var known := record.With(record.runtime.(pendingRestart := false));
    if WasSupposedToRun(record) then AdoptedRecord(known) else known
  }

  ghost predicate TakenOverAs(records: seq<Record>, next: seq<Record>) {
    forall n :: Find(next, n) == if Has(records, n) then Some(HandedOver(Find(records, n).value)) else None
  }

  lemma AdoptsItself(s: State, name: Name, n: Name)
    requires Has(s.records, name) ==> Find(s.records, name).value.runtime.pid.Some?
    ensures var (next, o) := AdoptOne(s, name);
            && (o.Some? ==> o.value.kind.Adopted?)
            && Find(next.records, n) ==
                 if n == name && Has(s.records, n) then Some(AdoptedRecord(Find(s.records, n).value)) else Find(s.records, n)
  {
  }

  /** Recovering in a handover adopts, of those judged, each one that comes up, and touches nobody else. */
  lemma {:induction false} RecoverAdopts(s: State, os: seq<StartOutcome>, order: seq<Name>,
                                         judged: map<Name, Judged>, ports: Ports, n: Name)
    requires forall m <- judged :: KeptAsIs(judged, m) && (Has(s.records, m) ==> Find(s.records, m).value.runtime.pid.Some?)
    requires forall o <- os :: o.kind.Adopted?
    ensures var (last, all) := Recover(s, os, order, judged, ports);
            && (forall o <- all :: o.kind.Adopted?)
            && Find(last.records, n) ==
                 if n in order && n in judged && Has(s.records, n) then Some(AdoptedRecord(Find(s.records, n).value))
                 else Find(s.records, n)
    decreases |order|
  {
    hide AdoptOne, LaunchOne, Find;
    if order != [] {
      var (next, o) := RecoverOne(s, order[0], judged, ports);
      if order[0] in judged {
        assert KeptAsIs(judged, order[0]);
        AdoptsItself(s, order[0], n);
        forall m <- judged ensures Has(next.records, m) ==> Find(next.records, m).value.runtime.pid.Some? {
          AdoptsItself(s, order[0], m);
        }
      }
      RecoverAdopts(next, AddOutcome(os, o), order[1..], judged, ports, n);
    }
  }

  /** The whole take-over of a table ready for it, record by record. */
  lemma HandoverRecords(s: State, records: seq<Record>, host: Host, ports: Ports)
    requires TableOk(records) && HandsOver(records, host)
    ensures var (taken, os) := TakeOver(s, records, Kept, host, ports);
            TakenOverAs(records, taken.records) && forall o <- os :: o.kind.Adopted?
  {
    hide JudgeAll, Recover, DependencyOrder, TokenMatched, Unchanged, HandsOver, HandedOver;
    var judged := JudgeAll(records, Kept, host);
    var known := ForgetAll(records, judged);
    forall r <- records ensures r.runtime.pmId >= 1 && r.spec.name == r.runtime.name {
      FindIsUnique(records, r);
    }
    ForgottenTableOk(records, Kept, host);
    OrderCoversTable(known);
    forall m <- judged ensures KeptAsIs(judged, m) && (Has(known, m) ==> Find(known, m).value.runtime.pid.Some?) {
      EveryVerdictAdopts(records, host, m);
      FindForgotten(records, judged, m);
    }
    var (taken, os) := TakeOver(s, records, Kept, host, ports);
    forall n
      ensures Find(taken.records, n) == if Has(records, n) then Some(HandedOver(Find(records, n).value)) else None
    {
      RecoverAdopts(s.(records := known), [], DependencyOrder(known), judged, ports, n);
      FindForgotten(records, judged, n);
      if Has(records, n) {
        ForgottenAlike(records, host, n);
      }
    }
    RecoverAdopts(s.(records := known), [], DependencyOrder(known), judged, ports, "");
  }

  lemma ForgottenAlike(records: seq<Record>, host: Host, n: Name)
    requires NoDup(NamesOf(records)) && HandsOver(records, host) && Has(records, n)
    ensures var judged, r := JudgeAll(records, Kept, host), Find(records, n).value;
            && HandedOver(r) == if n in judged then AdoptedRecord(Forget(r, judged)) else Forget(r, judged)
  {
    hide JudgeAll, JudgeVerdict, TokenMatched, Unchanged;
    var judged := JudgeAll(records, Kept, host);
    FindIsExact(records, n);
    var r := Find(records, n).value;
    JudgedRecords(records, Kept, host, n);
    if WasSupposedToRun(r) {
      assert r in records && r.runtime.name == n;
      EveryVerdictAdopts(records, host, n);
    } else if n in judged {
      var own := JudgedOwn(records, Kept, host, n);
      FindIsUnique(records, own);
    }
  }

  lemma TakenOverKeepsPids(records: seq<Record>, next: seq<Record>)
    requires TakenOverAs(records, next)
    ensures SamePids(records, next)
  {
  }

  lemma {:induction false} SnapshotAt(records: seq<Record>, i: nat)
    requires i < |records|
    ensures |Snapshots(records)| == |records|
    ensures Snapshots(records)[i] == Snapshot(records[i].runtime.name, records[i].runtime.pid)
  {
    if i > 0 {
      SnapshotAt(records[1..], i - 1);
    } else if |records| > 1 {
      SnapshotAt(records[1..], 0);
    }
  }

  lemma {:induction false} RowOfSnapshots(records: seq<Record>, name: Name)
    ensures RowOf(Snapshots(records), name) ==
              if PidOf(records, name).Some? then Some(Snapshot(name, PidOf(records, name).value)) else None
  {
    if records != [] {
      RowOfSnapshots(records[1..], name);
      assert Snapshots(records)[1..] == Snapshots(records[1..]);
    }
  }

  /** A table whose names are distinct agrees row by row with any table of the same pids. */
  lemma SamePidsSameRows(records: seq<Record>, next: seq<Record>)
    requires NoDup(NamesOf(records)) && SamePids(records, next)
    ensures RowsAgree(Snapshots(records), Snapshots(next))
  {
    hide Snapshots, RowOf;
    var rows := Snapshots(records);
    forall row <- rows ensures RowOf(Snapshots(next), row.name) == Some(row) {
      SnapshotCount(records);
      var i :| 0 <= i < |rows| && rows[i] == row;
      SnapshotAt(records, i);
      FindIsUnique(records, records[i]);
      RowOfSnapshots(next, row.name);
    }
  }

  lemma {:induction false} SnapshotCount(records: seq<Record>)
    ensures |Snapshots(records)| == |records|
  {
    if records != [] {
      SnapshotCount(records[1..]);
    }
  }

  /**
   * The handover round trip: a sound table with nothing stopping and every running service identified,
   * unchanged and still alive under its token, saved, loaded and taken over on the same boot, keeps
   * every record field by field, but for a pending restart forgotten and what runs counted as online;
   * it adopts exactly what runs, and the comparison reports nothing restarted and nothing lost.
   */
  lemma HandoverRoundTrip(s: State, records: seq<Record>, boot: Option<string>, resolve: Name -> Resolution,
                          host: Host, ports: Ports)
    requires TableOk(records) && HandsOver(records, host) && ResolvesAs(records, resolve)
    ensures Load(Some(Document(EncodeAll(records), boot)), resolve) == Loaded(Contents(records, [], boot))
    ensures var (taken, os) := TakeOver(s, records, Kept, host, ports);
            var before, after := Snapshots(records), Snapshots(taken.records);
            && NamesOf(taken.records) == NamesOf(records)
            && TakenOverAs(records, taken.records)
            && (forall o <- os :: o.kind.Adopted?)
            && Ended(before, after, WasAdopted) == NamesWithPid(before)
            && Ended(before, after, WasRestarted) == []
            && Ended(before, after, WasLost) == []
  {
    hide JudgeAll, Snapshots, PidOf, TokenMatched, Unchanged, EncodeAll, Ended, NamesWithPid, TakeOver;
    forall r <- records ensures r.runtime.IsConsistent() {
      FindIsUnique(records, r);
    }
    SaveLoadRoundTrip(records, boot, resolve);
    HandoverRecords(s, records, host, ports);
    TakeOverKeepsNames(s, records, Kept, host, ports);
    hide TakenOverAs;
    var (taken, os) := TakeOver(s, records, Kept, host, ports);
    TakenOverKeepsPids(records, taken.records);
    SamePidsSameRows(records, taken.records);
    NothingChanged(Snapshots(records), Snapshots(taken.records));
  }
}
