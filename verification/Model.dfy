/** The data the supervisor works on: declarations, runtime state, records, and the answers of its ports. */
module Model {
  import opened Graphs
  import DepGraph

  datatype Option<+T> = None | Some(value: T)

  const U32_MAX: nat := 0xFFFF_FFFF
  const U64_MAX: nat := 0xFFFF_FFFF_FFFF_FFFF

  function SaturatingInc(x: nat, max: nat): nat {
    if x + 1 > max then max else x + 1
  }

  datatype Status = Launching | Online | Stopping | Stopped | Errored {
    predicate IsRunning() { Launching? || Online? }
    predicate IsShuttingDown() { Stopping? }
    predicate IsSettled() { Stopped? || Errored? }
  }

  datatype EnvScope = Injected | Global | App
  datatype EnvValue = EnvValue(key: string, value: string, scope: EnvScope)

  datatype SandboxMode = ReadOnly | WorkspaceWrite | DangerFullAccess
  datatype ReadScope = Full | Minimal

  datatype SandboxPolicy = SandboxPolicy(
    mode: SandboxMode,
    read: ReadScope,
    network: bool,
    writableRoots: seq<string>,
    readableRoots: seq<string>,
    derivedReadableRoots: seq<string>,
    derivedRoots: seq<string>,
    unreadableRoots: seq<string>)

  datatype Spec = Spec(
    name: Name,
    script: string,
    args: seq<string>,
    cwd: string,
    env: seq<EnvValue>,
    autorestart: bool,
    minUptimeMs: nat,
    maxRestarts: nat,
    restartDelayMs: nat,
    maxRestartDelayMs: nat,
    schedule: Option<string>,
    dependsOn: seq<Name>,
    maxMemoryKib: Option<nat>,
    readyProbe: Option<string>,
    livenessProbe: Option<string>,
    stopExitCodes: seq<int>,
    sandbox: SandboxPolicy)
  {
    predicate IsScheduledTask() { !autorestart && schedule.Some? }

    function DependencyNode(): DepGraph.Node { DepGraph.Node(name, dependsOn) }
  }

  datatype Identity = Identity(token: string, launchDigest: string, binaryDigest: string)

  /** `ProcessRuntime`: each mutator of the source is a function to the updated value. */
  datatype Runtime = Runtime(
    pmId: nat,
    name: Name,
    pid: Option<nat>,
    status: Status,
    restartTime: nat,
    unstableRestarts: nat,
    createdAtMs: nat,
    startedAtMs: Option<nat>,
    identity: Option<Identity>,
    pendingRestart: bool,
    supervisedRestart: bool,
    livenessFailures: nat,
    scheduleArmed: bool)
  {
    function Token(): Option<string> {
      if identity.Some? then Some(identity.value.token) else None
    }

    function LivePid(): Option<nat> {
      if status.IsSettled() then None else pid
    }

    function SinceStart(nowMs: nat): Option<nat> {
      if startedAtMs.Some? && nowMs >= startedAtMs.value then Some(nowMs - startedAtMs.value) else None
    }

    function ElapsedSinceLaunchMs(nowMs: nat): Option<nat> {
      if status.IsSettled() then None else SinceStart(nowMs)
    }

    predicate IsConsistent() { status.IsRunning() ==> pid.Some? }

    function MarkLaunched(newPid: nat, nowMs: nat): Runtime {
      this.(status := Launching, pid := Some(newPid), startedAtMs := Some(nowMs), identity := None,
            livenessFailures := 0)
    }

    function PassLiveness(): Runtime { this.(livenessFailures := 0) }

    function FailLiveness(): Runtime { this.(livenessFailures := SaturatingInc(livenessFailures, U32_MAX)) }

    function RecordIdentity(seen: Option<Identity>): Runtime { this.(identity := seen) }

    function MarkOnline(): Runtime { this.(status := Online) }

    function MarkStopping(): Runtime { this.(status := Stopping) }

    function MarkExited(settled: Status): Runtime {
      this.(status := settled, pid := None, startedAtMs := None, identity := None)
    }

    function CountRestart(unstable: nat): Runtime {
      this.(restartTime := SaturatingInc(restartTime, U32_MAX), unstableRestarts := unstable)
    }

    function ResetRestarts(): Runtime {
      this.(restartTime := 0, unstableRestarts := 0, status := if status.Errored? then Stopped else status)
    }

    function SettleStability(): Runtime { this.(unstableRestarts := 0) }

    function RequestRestart(): Runtime { this.(pendingRestart := true) }

    function RequestSupervisedRestart(): Runtime { this.(pendingRestart := true, supervisedRestart := true) }

    function CancelRestart(): Runtime { this.(pendingRestart := false, supervisedRestart := false) }

    function ArmSchedule(): Runtime { this.(scheduleArmed := true) }

    function DisarmSchedule(): Runtime { this.(scheduleArmed := false) }

    predicate TakesTheBreaker() { pendingRestart && supervisedRestart }
  }

  function NewRuntime(pmId: nat, name: Name, createdAtMs: nat): Runtime {
    Runtime(pmId, name, None, Stopped, 0, 0, createdAtMs, None, None, false, false, 0, false)
  }

  datatype Record = Record(spec: Spec, runtime: Runtime) {
    predicate AwaitsReady() { spec.readyProbe.Some? && runtime.status.Launching? }

    function With(updated: Runtime): Record { Record(spec, updated) }
  }

  datatype ExitOutcome = Code(code: int) | Signalled | Unobserved {
    predicate Failed() {
      match this
      case Code(code) => code != 0
      case Signalled => true
      case Unobserved => false
    }
  }

  datatype Selector = All | Id(id: nat) | ByName(name: Name)

  /** What a spawn yields: the pid, the clock reading and the captured identity, if any. */
  datatype Spawned = Spawned(pid: nat, nowMs: nat, identity: Option<Identity>)

  /**
   * The world outside: every port call is answered by its position in the run, so one value of this
   * type is one complete, arbitrary behaviour of the operating system, the clock and the disk.
   */
  datatype Ports = Ports(
    accepts: Spec -> bool,
    prepare: (nat, Name) -> Option<Spec>,
    spawn: nat -> Option<Spawned>,
    terminate: nat -> bool,
    save: nat -> bool,
    now: nat -> nat,
    nextFire: nat -> Option<nat>,
    residentMemory: nat -> map<nat, nat>,
    isReady: nat -> bool,
    trackedPids: nat -> seq<nat>)
}
