/**
 * Deciding what a saved process is after the daemon was away, and stopping the ones that may not stay:
 * usecases/src/resurrect.rs, usecases/src/resurrect/judge.rs and `pid_was_recycled` of
 * usecases/src/fingerprint.rs.
 */
module Judge {
  import opened Graphs
  import opened Model
  import Fingerprint

  datatype Liveness = Alive(token: string) | Gone | Unreadable

  datatype Trust = Kept | Lost

  datatype Change = Unknown | Vanished | Illegible | Reused | Launch | Binary | Rebooted | Restart {
    function EvictionScope(): Scope {
      if Unknown? || Illegible? then SinglePid else ProcessGroup
    }
  }

  datatype Scope = ProcessGroup | SinglePid

  datatype Verdict = Adopt | Settle(stale: Option<nat>) | Respawn(change: Change, stale: Option<nat>)

  /** What the host answers while the daemon takes over. */
  datatype Host = Host(
    seen: map<nat, Liveness>,
    digest: string -> string,
    fileDigest: string -> Option<string>)

  /** `PidTrust::of`: pids mean nothing once both boot tokens are known and differ. */
  function TrustOf(stored: Option<string>, current: Option<string>): Trust {
    if stored.None? || current.None? || stored == current then Kept else Lost
  }

  /** Recorded pids are trusted unless the host is known to have booted since they were recorded. */
  lemma TrustIsExact(stored: Option<string>, current: Option<string>)
    ensures TrustOf(stored, current).Kept? <==>
              forall before: string, now: string :: stored == Some(before) && current == Some(now) ==> before == now
  {
    assert stored.Some? && current.Some? ==> (stored == current <==> stored.value == current.value);
  }

  predicate PidWasRecycled(observed: Liveness, expected: Option<string>) {
    observed.Alive? && expected.Some? && observed.token != expected.value
  }

  function Observed(seen: map<nat, Liveness>, pid: nat): Liveness {
    if pid in seen then seen[pid] else Unreadable
  }

  function SurvivingPid(pid: Option<nat>, expected: Option<string>, trust: Trust, seen: map<nat, Liveness>): Option<nat> {
    if pid.None? || trust.Lost? then None
    else if Observed(seen, pid.value).Gone? || PidWasRecycled(Observed(seen, pid.value), expected) then None
    else pid
  }

  /** `judge_verdict`. */
  function JudgeVerdict(record: Record, trust: Trust, host: Host): Verdict {
    var runtime := record.runtime;
    if runtime.status.IsShuttingDown() then
      var stale := SurvivingPid(runtime.pid, runtime.Token(), trust, host.seen);
      if runtime.pendingRestart then Respawn(Restart, stale) else Settle(stale)
    else if trust.Lost? then Respawn(Rebooted, None)
    else if runtime.pid.None? || runtime.identity.None? then
      Respawn(Unknown, SurvivingPid(runtime.pid, None, trust, host.seen))
    else
      var pid, identity := runtime.pid.value, runtime.identity.value;
      match Observed(host.seen, pid)
      case Gone => Respawn(Vanished, None)
      case Unreadable => Respawn(Illegible, Some(pid))
      case Alive(token) =>
        if token != identity.token then Respawn(Reused, None)
        else if host.digest(Fingerprint.RenderIdentity(record.spec)) != identity.launchDigest then
          Respawn(Launch, Some(pid))
        else
          match host.fileDigest(record.spec.script)
          case None => Adopt
          case Some(binary) => if binary != identity.binaryDigest then Respawn(Binary, Some(pid)) else Adopt
  }

  predicate WasSupposedToRun(record: Record) { !record.runtime.status.IsSettled() }

  datatype Judged = Judged(verdict: Verdict, expected: Option<string>)

  /** `judge_all`: a verdict for every record that was supposed to run; a later record wins a name. */
  function JudgeAll(stored: seq<Record>, trust: Trust, host: Host): map<Name, Judged> {
    if stored == [] then map[]
    else
      var earlier := JudgeAll(stored[..|stored| - 1], trust, host);
      var record := stored[|stored| - 1];
      if !WasSupposedToRun(record) then earlier
      else earlier[record.runtime.name := Judged(JudgeVerdict(record, trust, host), record.runtime.Token())]
  }

  // ----- what a verdict means -----

  /** The recorded process is the one observed, under the recorded token. */
  predicate TokenMatched(record: Record, host: Host) {
    var runtime := record.runtime;
    && runtime.pid.Some? && runtime.identity.Some?
    && Observed(host.seen, runtime.pid.value) == Alive(runtime.identity.value.token)
  }

  /** Neither the launch parameters nor, as far as it can be read, the program changed. */
  predicate Unchanged(record: Record, host: Host)
    requires record.runtime.identity.Some?
  {
    var identity := record.runtime.identity.value;
    && host.digest(Fingerprint.RenderIdentity(record.spec)) == identity.launchDigest
    && (host.fileDigest(record.spec.script).Some? ==>
          host.fileDigest(record.spec.script).value == identity.binaryDigest)
  }

  /** A process is kept exactly when it was meant to run, is provably the same one, and nothing changed. */
  lemma AdoptionIsExact(record: Record, trust: Trust, host: Host)
    ensures JudgeVerdict(record, trust, host).Adopt? <==>
              && !record.runtime.status.IsShuttingDown() && trust.Kept?
              && TokenMatched(record, host) && Unchanged(record, host)
  {
    hide Fingerprint.RenderIdentity;
  }

  function StaleOf(verdict: Verdict): Option<nat> {
    match verdict
    case Adopt => None
    case Settle(stale) => stale
    case Respawn(_, stale) => stale
  }

  /** `eviction_plan`'s scope. */
  function ScopeOf(verdict: Verdict): Scope {
    if verdict.Respawn? then verdict.change.EvictionScope() else ProcessGroup
  }

  /**
   * Only the record's own pid is ever evicted, never after a reboot, never when it was seen gone or
   * under another token; and a process meant to run is evicted with its group only when its token
   * matched.
   */
  lemma StaleIsCareful(record: Record, trust: Trust, host: Host)
    requires WasSupposedToRun(record)
    ensures var verdict := JudgeVerdict(record, trust, host);
            StaleOf(verdict).Some? ==>
              && trust.Kept? && record.runtime.pid == StaleOf(verdict)
              && !Observed(host.seen, StaleOf(verdict).value).Gone?
              && !PidWasRecycled(Observed(host.seen, StaleOf(verdict).value), record.runtime.Token())
              && (record.runtime.status.IsRunning() && ScopeOf(verdict).ProcessGroup? ==> TokenMatched(record, host))
  {
    hide Fingerprint.RenderIdentity;
  }

  /** Nothing the host shows says that the process a record was left with is gone or another's. */
  predicate MayLive(record: Record, trust: Trust, host: Host) {
    var runtime := record.runtime;
    && trust.Kept? && runtime.pid.Some?
    && (runtime.pid.value in host.seen ==>
          match host.seen[runtime.pid.value]
          case Gone => false
          case Unreadable => true
          case Alive(token) => runtime.identity.Some? ==> token == runtime.identity.value.token)
  }

  /**
   * What becomes of a record that was meant to run: it is settled exactly when it was being stopped for
   * good, and started again unless it is that or adopted. Whatever is not adopted is evicted first if its
   * process may still live, and then alone only when it was meant to run and its token did not match.
   */
  lemma VerdictIsExact(record: Record, trust: Trust, host: Host)
    requires WasSupposedToRun(record)
    ensures var verdict := JudgeVerdict(record, trust, host);
            && (verdict.Settle? <==> record.runtime.status.Stopping? && !record.runtime.pendingRestart)
            && (!verdict.Adopt? ==> StaleOf(verdict) == if MayLive(record, trust, host) then record.runtime.pid else None)
            && (StaleOf(verdict).Some? ==>
                  (ScopeOf(verdict).SinglePid? <==> !record.runtime.status.Stopping? && !TokenMatched(record, host)))
  {
    hide Fingerprint.RenderIdentity;
  }

  lemma {:induction false} JudgedRecords(stored: seq<Record>, trust: Trust, host: Host, name: Name)
    ensures name in JudgeAll(stored, trust, host) <==>
              exists r <- stored :: r.runtime.name == name && WasSupposedToRun(r)
    ensures name in JudgeAll(stored, trust, host) ==>
              exists r <- stored :: r.runtime.name == name && WasSupposedToRun(r)
                && JudgeAll(stored, trust, host)[name] == Judged(JudgeVerdict(r, trust, host), r.runtime.Token())
  {
    hide JudgeVerdict;
    if stored != [] {
      var earlier, record := stored[..|stored| - 1], stored[|stored| - 1];
      assert stored == earlier + [record];
      JudgedRecords(earlier, trust, host, name);
    }
  }

  lemma JudgedOwn(stored: seq<Record>, trust: Trust, host: Host, name: Name) returns (r: Record)
    requires name in JudgeAll(stored, trust, host)
    ensures r in stored && r.runtime.name == name && WasSupposedToRun(r)
    ensures JudgeAll(stored, trust, host)[name] == Judged(JudgeVerdict(r, trust, host), r.runtime.Token())
  {
    hide JudgeVerdict, JudgeAll;
    JudgedRecords(stored, trust, host, name);
    r :| r in stored && r.runtime.name == name && WasSupposedToRun(r)
         && JudgeAll(stored, trust, host)[name] == Judged(JudgeVerdict(r, trust, host), r.runtime.Token());
  }

  // ----- evicting one pid -----

  datatype Plan = Plan(name: Name, stale: nat, expected: Option<string>, scope: Scope)

  /** What the host shows while one pid is evicted. */
  datatype Answers = Answers(first: Liveness, waited: Liveness, groupGone: bool)

  datatype Act =
    | Saw(pid: nat, liveness: Liveness)
    | SawGroup(pid: nat, gone: bool)
    | Terminated(pid: nat, scope: Scope)
    | Killed(pid: nat, scope: Scope)
  {
    predicate IsSignal() { Terminated? || Killed? }
  }

  /** `force_lingering_group`. */
  function ForceLingering(plan: Plan, groupGone: bool): seq<Act> {
    if plan.scope.SinglePid? then []
    else if groupGone then [SawGroup(plan.stale, true)]
    else [SawGroup(plan.stale, false), Killed(plan.stale, plan.scope)]
  }

  predicate LeftOrRecycled(plan: Plan, liveness: Liveness) {
    liveness.Gone? || PidWasRecycled(liveness, plan.expected)
  }

  /** The acts of `left_or_recycled`. */
  function AfterLeaving(plan: Plan, liveness: Liveness, groupGone: bool): seq<Act> {
    if liveness.Gone? then ForceLingering(plan, groupGone) else []
  }

  /** `evict_pid`: everything it observes and sends, in order. */
  function Evict(plan: Plan, answers: Answers): seq<Act> {
    if LeftOrRecycled(plan, answers.first) then
      [Saw(plan.stale, answers.first)] + AfterLeaving(plan, answers.first, answers.groupGone)
    else
      [Saw(plan.stale, answers.first), Terminated(plan.stale, plan.scope), Saw(plan.stale, answers.waited)]
      + if LeftOrRecycled(plan, answers.waited) then AfterLeaving(plan, answers.waited, answers.groupGone)
        else [Killed(plan.stale, plan.scope)]
  }

  /** The latest sight of the pid before position `k`. */
  function LastSeen(acts: seq<Act>, k: nat): Option<Liveness>
    requires k <= |acts|
  {
    if k == 0 then None
    else if acts[k - 1].Saw? then Some(acts[k - 1].liveness)
    else LastSeen(acts, k - 1)
  }

  /**
   * A signal goes to the planned pid in the planned scope, and only while the latest sight of that pid
   * does not show another process. After the pid left, only its own lingering group is killed; otherwise
   * a kill follows a request to terminate.
   */
  ghost predicate SignalIsCareful(plan: Plan, acts: seq<Act>, k: nat)
    requires k < |acts|
  {
    acts[k].IsSignal() ==>
      && acts[k].pid == plan.stale && acts[k].scope == plan.scope
      && LastSeen(acts, k).Some?
      && !PidWasRecycled(LastSeen(acts, k).value, plan.expected)
      && (acts[k].Terminated? ==> !LastSeen(acts, k).value.Gone?)
      && (acts[k].Killed? && LastSeen(acts, k).value.Gone? ==>
            plan.scope.ProcessGroup? && k > 0 && acts[k - 1] == SawGroup(plan.stale, false))
      && (acts[k].Killed? && !LastSeen(acts, k).value.Gone? ==>
            exists j :: 0 <= j < k && acts[j] == Terminated(plan.stale, plan.scope))
  }

  lemma EvictionIsCareful(plan: Plan, answers: Answers, k: nat)
    requires k < |Evict(plan, answers)|
    ensures SignalIsCareful(plan, Evict(plan, answers), k)
  {
    var acts := Evict(plan, answers);
    assert acts[0] == Saw(plan.stale, answers.first);
    assert LastSeen(acts, 1) == Some(answers.first);
    if LeftOrRecycled(plan, answers.first) {
      assert k == 2 ==> LastSeen(acts, 2) == LastSeen(acts, 1);
    } else {
      assert acts[1] == Terminated(plan.stale, plan.scope) && acts[2] == Saw(plan.stale, answers.waited);
      assert LastSeen(acts, 3) == Some(answers.waited);
      assert k == 4 ==> LastSeen(acts, 4) == LastSeen(acts, 3);
    }
  }

  /**
   * An eviction looks first. Whoever still holds the pid under the expected token, or under none known, is
   * asked to leave and looked at again. A kill follows exactly when the last sight shows them still there,
   * or gone with their own group lingering; it is the last act.
   */
  lemma EvictionIsExact(plan: Plan, answers: Answers, act: Act)
    ensures var acts := Evict(plan, answers);
            var left := answers.first.Gone? || PidWasRecycled(answers.first, plan.expected);
            var last := if left then answers.first else answers.waited;
            && acts[0] == Saw(plan.stale, answers.first) && LastSeen(acts, |acts|) == Some(last)
            && (act.Terminated? && act in acts <==> !left && act == Terminated(plan.stale, plan.scope))
            && (!left ==> |acts| > 2 && acts[1] == Terminated(plan.stale, plan.scope) && acts[2] == Saw(plan.stale, answers.waited))
            && (act.Killed? && act in acts <==> act == acts[|acts| - 1] == Killed(plan.stale, plan.scope))
            && (acts[|acts| - 1] == Killed(plan.stale, plan.scope) <==>
                  if last.Gone? then plan.scope.ProcessGroup? && !answers.groupGone else !PidWasRecycled(last, plan.expected))
  {
    var acts := Evict(plan, answers);
    assert LastSeen(acts, 1) == Some(answers.first);
    if LeftOrRecycled(plan, answers.first) {
      assert 2 <= |acts| ==> LastSeen(acts, 2) == LastSeen(acts, 1);
      assert 3 <= |acts| ==> LastSeen(acts, 3) == LastSeen(acts, 2);
    } else {
      assert LastSeen(acts, 3) == Some(answers.waited);
      assert 4 <= |acts| ==> LastSeen(acts, 4) == LastSeen(acts, 3);
      assert 5 <= |acts| ==> LastSeen(acts, 5) == LastSeen(acts, 4);
    }
  }
}
