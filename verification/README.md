# A verified model of pm3

pm3 is a process supervisor. Its daemon is a single-threaded actor: it takes one event at a time, changes a
process table, its timers, its exit-watch generations and its graph of services waiting for readiness, and
emits effects that its `TaskBoard` turns into later events. This project models that actor and the algorithms
around it, and proves what they keep over every run.

- `Handlers`, `Model`, `ProcessTable` and `DepGraph` say what every handler does to the state, as functions.
  `TimerBook.TimerState`, `Tables.Table`, `Supervision.Supervisor`, `TaskBoards.TaskBoard` and `Actors.Actor`
  are the objects the daemon mutates; each of their methods is proved to compute its function, with the loops
  of the source. `Recovery` does the same for taking over a predecessor's processes.
- `Promises`, `Batches`, `Samples`, `Releases` and `Replies` say what each operation means for a caller, on the state
  before and after and in every case, refusals included; the methods of `Supervisor` carry that too. `EveryTurn`
  puts it together: every event of every run is answered as its operation promises.
- `Coherence`, `CommandCoherence`, `Daemon`, `Sticky`, `StickyStop`, `Orphans`, `Waiting`, `Readiness`, `Refusals`,
  `Requests`, `BatchGraph`, `Breaker`, `Commands` and `TaskBoards` hold the results about whole runs: every process is
  watched exactly once, a stop sticks, the dependency graph stays closed and acyclic, failures spread to exactly
  the services they should, timers and tasks never drift apart.
- `Judge`, `Resurrect`, `TakeOvers`, `Handover` and `Fingerprint` cover a daemon taking over the processes its
  predecessor left: what it may and must signal, what it adopts, and that a handover loses nothing. Booting establishes the
  invariant that `Daemon` preserves.
- `Cron`, `RandomExpand`, `LogTail`, `Quoting`, `Placeholders`, `Watcher`, `Roots` and `Sandbox` verify the
  self-contained algorithms; `Text` and `Graphs` hold what several modules share.

The outside world is a value of type `Ports`: every call is answered by its position in the run, so a
statement for all `ports` covers every behaviour of the operating system, the clock and the disk. A lookup
the source guards with `expect` sets `panicked` when it fails, and `Daemon.EveryRunIsSound` proves that it
never does. Counters of 32 and 64 bits saturate as in the source; where uniqueness of generations or ids
matters, "fewer than 2^64 - 1 launches" or "fewer than 2^32 - 1 records" is a hypothesis.

Seven statements that look true are false of the code. Each is kept as it is, with a failing input and the exact
condition under which it holds:

- A stop does not stick when an exit watch outlived the deletion of the same name. It sticks if and only if
  there is no such watch (`StickyStop.StopSticksUnlessOrphaned`, `StickyStop.StopAllSticksUnlessOrphaned`);
  `Orphans.OrphansHappen` is a run from a boot that reaches one.
- A service can start although its dependency has just failed to launch, in the pass where that launch was
  refused; `Refusals.RefusalsHappen` is a run from a boot that reaches it. A pass is safe if and only if no launch
  is refused in a list that still holds a service waiting for the refused one (`Readiness.ReadinessIsExact`); no
  launcher can bring that about while no list holds a service before one that waits for it too
  (`Readiness.OrderedListsAreSafe`, `Readiness.OrderIsExact`).
- A service stopped for a failed probe can come back at once in its next life: if and only if a restart by hand
  was standing when it left (`Requests.LeftoverRequestIsExact`). As long as no event asks for it between the
  timeout and the exit, that is so if and only if one was standing at the timeout already
  (`Requests.FailedProbeStaysDown`); an event that asks can leave one (`Requests.LeftoverIsReached`), and it
  outlives the next launch.
- A waiter can be released by a probe taken before it registered, which `Watcher.StaleProbeHappens` reaches from
  the start. Every departure rests on a later probe if and only if no poller stood before its release with a sight
  of the exit when the waiter came (`Watcher.LaterProbesExactly`).
- Clearing the tally of a stable process can change a later answer of the breaker: unless the breaker answers
  the process's own exit, or the policy makes tallies immaterial (`Breaker.SettlingIsInvisible`,
  `Breaker.SettlingShowsAfterARestart`).
- Two different environments have one identity exactly when they render to the same sorted lines, which a key
  with an equals sign makes possible (`Fingerprint.RenderingSeesLines`, `Fingerprint.EqualsSignHides`).
- Sorting grants by depth does not always put the outer grant first: not when it is the root directory and the
  inner one a top-level directory listed earlier (`Sandbox.NestedGrantsMountInside`,
  `Sandbox.AcceptedGrantsMountInside`, `Sandbox.RootTiesWithTopLevel`).

## Model

| member | source | states |
|---|---|---|
| DepGraph.TopoSortExact | entities/src/process/depgraph.rs:18-88 | For distinct names the sort answers exactly: an unknown dependency if and only if the graph is not closed, a cycle if and only if it is closed and cyclic, with `involved` non-empty and equal to the nodes on a cycle, else a permutation with every dependency strictly earlier |
| DepGraph.ReachesItselfExact | entities/src/process/depgraph.rs:70-88 | The depth-first search finds a node if and only if the node lies on a cycle |
| DepGraph.ReachesItself | entities/src/process/depgraph.rs:70-88 | The loop over the stack of pending names decides the same question and terminates |
| DepGraph.CycleMembersOf | entities/src/process/depgraph.rs:61-68 | The loop collects exactly the cycle members among the unordered nodes |
| DepGraph.Sort | entities/src/process/depgraph.rs:18-32 | The layering loop computes the exact answer above |
| ProcessTable.LowestFreeIsLeast | usecases/src/table.rs:98-115 | A new id is at least 1, unused, and every smaller one from 1 up is taken |
| ProcessTable.UpsertKeepsTable | usecases/src/table.rs:87-96 | Registering keeps names and ids distinct and every record consistent |
| ProcessTable.RemoveKeepsTable | usecases/src/table.rs:117-123 | Removing keeps names and ids distinct and every record consistent |
| ProcessTable.FindIsExact | usecases/src/table.rs:81-85 | A name is found if and only if a record carries it |
| Tables.Table.Upsert | usecases/src/table.rs:87-96 | The in-place change is the registration of the table's value, and the returned id is the record's |
| Tables.Table.LowestFreePmId | usecases/src/table.rs:98-115 | The scan over the sorted ids stops at the first gap |
| Tables.Table.Remove | usecases/src/table.rs:117-123 | The first record of the name, and only it, is taken out and returned |
| Tables.Table.Replace | usecases/src/table.rs:61-65 | A change through a found record leaves every other record where it is |
| Tables.Table.DependencyOrder | usecases/src/table.rs:146-154 | The sorted names, or the table's own order when they cannot be sorted |
| TimerBook.TimerState.Bump | usecases/src/timer_state.rs:51-57 | The new generation is current for the name; below the end of the counter no event of the name's past is, and every other name keeps its generation |
| TimerBook.TimerState.ClaimRestart | usecases/src/timer_state.rs:43-45 | True if and only if a restart was queued, and it is queued no more |
| TimerBook.TimerState.DisarmAll | usecases/src/timer_state.rs:35-37 | Every armed name is returned and none stays armed |
| TimerBook.BumpOutdates | usecases/src/timer_state.rs:51-66 | Below the end of the counter a new generation outdates every earlier one of the name and none of another |
| TimerBook.FullCounterReusesGenerations | usecases/src/timer_state.rs:51-57 | At the end of the counter a new watch shares the previous generation |
| Daemon.EveryRunIsSound | frameworks/src/daemon/actor.rs:169-206 | In every run no internal error occurs, names and ids stay distinct, every unsettled record has a pid, every waiter has a record, and (below 2^64 - 1 launches) exactly one outstanding watch is current for each unsettled record and carries its pid |
| Daemon.StepKeeps | frameworks/src/daemon/actor.rs:169-212 | Every event keeps the invariant |
| Daemon.EveryLaunchIsWatched | usecases/src/supervisor.rs:431-454 | In every turn the watches started are, in order, exactly the processes spawned or adopted |
| Daemon.ExitSettlesItsProcess | usecases/src/supervisor.rs:152-188 | An exit under a stale generation or of a deleted name changes no record. A current one leaves its record settled, launches nothing, touches no other live process and queues a restart exactly when the policy answers with one; an unsettled record it settles has the watch's own pid, a settled one was reached by the watch of an older process |
| EveryTurn.EveryRunIsAnswered | frameworks/src/daemon/actor.rs:169-212 | In every run, whatever the order of events and the answers of the outside, every command, exit, timer, probe and sample is answered in full as its operation promises: the rows of `Promises`, `Batches`, `Samples`, `Releases` and `Replies` hold of every turn |
| EveryTurn.EveryEventIsAnswered | usecases/src/supervisor.rs:100-150 | The same for any event that can come in any world the invariant allows |
| Coherence.WatchKeeps | usecases/src/supervisor.rs:441-454 | Watching an outcome pays the watch owed for it and keeps everything else |
| Coherence.LaunchKeeps | usecases/src/start.rs:253-306 | A launch owes one more watch exactly when it spawned, and never spawns over a live process |
| Coherence.OnExitKeeps | usecases/src/supervisor.rs:152-188 | An exit keeps the invariant and leaves no unsettled record under its generation |
| Coherence.FailDeadKeeps | usecases/src/supervisor_ready.rs:172-184 | The failure worklist keeps the invariant |
| Coherence.OnReadyKeeps | usecases/src/supervisor_ready.rs:18-39 | Readiness and the launches it releases keep the invariant |
| CommandCoherence.StartKeeps | usecases/src/supervisor_handlers.rs:25-79 | The start command keeps the invariant whatever launches, defers or fails |
| CommandCoherence.DeleteKeeps | usecases/src/supervisor_handlers.rs:182-225 | Deleting one or all keeps the invariant even when a signal or a save is refused |
| CommandCoherence.StopAllKeeps | usecases/src/supervisor_handlers.rs:263-287 | Stopping everything keeps the invariant |
| CommandCoherence.RestartCommandKeeps | usecases/src/supervisor_handlers.rs:103-180 | Restarting one or all keeps the invariant, the declaration being replaced first |
| StickyStop.StopIsSticky | usecases/src/supervisor_handlers.rs:81-101 | After a successful stop no event sequence that does not start or restart the service by name spawns it, stale events included, unless an exit watch outlived a deletion of the name |
| StickyStop.StopSticksUnlessOrphaned | usecases/src/supervisor_handlers.rs:81-101 | With a launcher that never refuses, a stopped service can come back unasked if and only if it was settled, restarts automatically and had such an orphaned watch |
| StickyStop.OrphanIsRevived | usecases/src/timer_state.rs:59-66 | The two events that revive it |
| StickyStop.StopAllIsSticky | usecases/src/supervisor_handlers.rs:263-287 | Stopping everything sticks for every service that had no orphaned watch before |
| StickyStop.StopAllSticksUnlessOrphaned | usecases/src/supervisor_handlers.rs:263-287 | With a launcher that never refuses, a service can come back unasked after everything was stopped if and only if it was settled, restarts automatically and had an orphaned watch before |
| Orphans.OrphansHappen | usecases/src/delete.rs:24-42 | Orphaned watches happen: booted on an empty store, a daemon told to start a service, delete it while its process drains, and start it again behind a dependency that awaits its probe reaches such a world |
| StickyStop.StepStaysDormant | usecases/src/supervise.rs:57-78 | No event that avoids a dormant service by name wakes it |
| Waiting.FailDownstreamExact | usecases/src/supervisor_ready.rs:172-203 | On any waiter graph, cyclic ones included, the failed names are exactly those reached, no key or member of the set and no key of the name is left, nothing else is cut, the settled ones are errored and no other record changes |
| Readiness.WaitersStartAfterTheirDependencies | usecases/src/supervisor_ready.rs:105-124 | On any waiter graph, a pass in whose own ticks no spawn is refused attempts each launch only when everything the service waited for is the ready one, online or a registered task |
| Readiness.AttemptsAreTheLaunches | usecases/src/supervisor_ready.rs:105-153 | What a pass spawns is what its attempts spawn, in order: no launch of the pass is left out of these statements |
| Readiness.OrderedListsAreSafe | usecases/src/supervisor_ready.rs:105-153 | Whatever the launcher refuses, the same holds when in no list a service stands before one that waits for it too, directly or not |
| Readiness.UnorderedListsBreak | usecases/src/supervisor_ready.rs:105-153 | When a launchable service that waits nowhere else stands before one that waits for it too, refusing its launch alone makes the same pass spawn a service whose dependency is neither running nor coming |
| Readiness.ReadinessIsExact | usecases/src/supervisor_ready.rs:105-153 | On every waiter graph and under every launcher, a pass attempts each launch only after everything the service waited for if and only if no launch is refused in a list that still holds a service waiting, directly or not, for the refused one |
| Readiness.OrderIsExact | usecases/src/supervisor_ready.rs:105-153 | Where every waiter can be launched and a service that blocks another in a list waits only there, every pass under every launcher is safe if and only if no list holds a service before one that waits for it too |
| Readiness.OnlyWaitersAreLaunched | usecases/src/supervisor_ready.rs:105-124 | A pass launches nobody but services that waited for the ready one, directly or not |
| Readiness.RefusedDependencyStillStarts | usecases/src/supervisor_ready.rs:116-147 | The smallest such pass: of two waiters one waits for the other, its launch is refused, and the other is spawned all the same |
| Releases.ReadyAnswer | usecases/src/supervisor_ready.rs:18-39 | Readiness under a stale generation, or of a service not launching, changes nothing; otherwise the service is online and a complete pass opened by it follows |
| Releases.QueueCompletes | usecases/src/supervisor_ready.rs:105-124 | A pass is complete on any waiter graph and under any launcher: its turns follow one another with nothing between, each on a service that waits for nothing any more; whatever is opened has nobody left waiting for it; an edge is lost only when its dependency is opened or its waiter fails with a refused one; and whoever waited waits for something else, was tried, or failed |
| Releases.WaiterPromise | usecases/src/supervisor_ready.rs:126-153 | A waiter tried is launched and watched, awaited if it probes, only registered if it is a scheduled task, kept if it runs, and its schedule armed; one that cannot be spawned is errored with whatever waits for it; it releases its own waiters exactly when it is online at once or merely registered |
| Refusals.RefusalsHappen | usecases/src/supervisor_ready.rs:105-153 | Such passes happen: booted on an empty store, a daemon told to start three services declared as a triangle, and refused the launch of the middle one once the first is ready, spawns the third although the middle one it waited for is errored |
| Requests.LeftoverRequestIsExact | usecases/src/supervise.rs:44-78 | The exit of a service that failed its probe leaves it errored; every exit of its next life is then restarted at once and uncounted, whatever its code, if a restart by hand was standing on it before, and no exit of that life is otherwise; the request outlives the launch, so that life can fail its probe and leave it behind again |
| Requests.LeftoverIsReached | usecases/src/supervisor_ready.rs:41-81 | From every sound world where a service awaits its probe under a current outstanding watch and no supervised restart stands on it, the timeout, a restart by name while it is being stopped, and its exit leave such a request, if the declaration can be read and the process can be signalled |
| Requests.FailedProbeStaysDown | usecases/src/supervise.rs:19-42 | Over every run from the timeout to the exit in which no event asks for the service, the exit leaves it errored and queues no restart, and a restart request, by hand or supervised, stands on it then if and only if the same one stood on it at the timeout |
| Requests.RunLeaves | usecases/src/supervise.rs:57-78 | No run without an event that asks for a service leaves a restart request on it once it is on its way out |
| BatchGraph.StartAppsKeepsGraph | usecases/src/start.rs:66-229 | A batch with distinct names keeps a closed acyclic graph closed and acyclic: refused, completed, or stopped midway with a launched prefix on new declarations and the rest put back |
| BatchGraph.StartKeepsGraph | usecases/src/supervisor_handlers.rs:25-79 | The same for the whole start command |
| BatchGraph.DeleteKeepsGraph | usecases/src/delete.rs:9-42 | A single delete keeps the graph closed and acyclic, whether refused, done or undone |
| BatchGraph.ForgetSpecs | usecases/src/start.rs:167-187 | Rolling back restores exactly the declarations of the names without an outcome |
| Batches.StartAppsStarts | usecases/src/start.rs:66-126 | A batch of distinct names is refused, changing nothing, exactly when a declaration is invalid or the table with them in it is not closed and acyclic. Otherwise its services are gone through, what one depends on before it, until a launch is refused; each is deferred, registered, launched or found running as its record says; a service is deferred if and only if something it depends on is deferred or awaits its probe, and it waits for exactly all of that; nobody not reached is changed |
| Batches.StartPromise | usecases/src/supervisor_handlers.rs:25-79 | Starting services changes nothing if one declaration cannot be read. Otherwise the batch above is started, the waiter graph gains exactly the waits of the deferred services, behind those that waited before, and queued restarts are dropped; every service not deferred is armed as its schedule and the scheduler say |
| Batches.AcceptedExactly | usecases/src/start.rs:189-229 | A batch has an order if and only if its declarations are valid and the table with them in it is closed and acyclic; the order names each service of the batch once |
| Commands.StopAllCoversEveryProcess | usecases/src/supervisor_handlers.rs:263-287 | Stopping everything schedules a force kill for every service asked to leave and every process still tracked |
| Commands.StopCoversItsProcess | usecases/src/supervisor_handlers.rs:81-101 | A successful stop schedules the force kill of the very process it asked to leave |
| Commands.StartDuringStopRestarts | usecases/src/start.rs:265-277 | A start that meets a stopping service spawns nothing and is not lost: the exit queues a restart at once, whatever the exit code |
| Commands.DeleteIsAllOrNothing | usecases/src/delete.rs:24-42 | A delete touches no other record; unsaved it keeps the service with its declaration and id, saved it removes exactly that service |
| Replies.StopAnswer | usecases/src/stop.rs:58-97 | A stop succeeds exactly when its process, if any, can be signalled and the table saved. Either way its schedule and what was asked of it are dropped; on success it is retired, on a refusal only if its process is on its way out, and otherwise nothing else changes |
| Replies.StopAllAnswer | usecases/src/supervisor_handlers.rs:263-287 | Stopping everything leaves nothing armed, queued or waiting and launches nothing. Every live service is signalled exactly once, dependents before what they depend on, and is on its way out even if the signal was refused; each that took it and every process tracked afterwards is killed, under the name and token of the service it belongs to |
| Replies.DeleteAnswer | usecases/src/delete.rs:9-42 | A delete is refused while a service needs it, removes and retires it exactly when its process can be signalled and the table saved, and otherwise keeps it and retires only a process on its way out |
| Replies.DeleteAllAnswer | usecases/src/supervisor_handlers.rs:182-225 | Deleting everything gives every service one such turn, refusals included, and in an acyclic table before whatever it depends on |
| Replies.RestartAnswer | usecases/src/supervisor_handlers.rs:103-141 | A restart by command reads the declaration again; one that cannot be read changes nothing. It then spawns a settled service once and watches it, or asks a live one to leave, remembers the restart and schedules its kill; queued restarts are dropped and the schedule armed anew; one that cannot be done changes nothing more |
| Replies.RestartAllAnswer | usecases/src/supervisor_handlers.rs:143-180 | Restarting everything gives every service one such turn, its record as it was when the command came, past every refusal; a refused one has its schedule armed all the same |
| Replies.ResetAnswer | usecases/src/supervisor_handlers.rs:227-248 | A reset clears the two counters and turns errored into stopped, for one service or all, and changes nothing else |
| Replies.OrderIsSorted | usecases/src/table.rs:146-154 | In an acyclic table every service stands after what it depends on |
| Replies.SelectorsAreExact | usecases/src/table.rs:49-85 | A selector finds a record if and only if it is the one with that id or that name |
| Restart.BackoffIsIdeal | entities/src/process/restart.rs:58-69 | The saturating delay is min(cap, base * 2^max(0, n - 1)) over the integers |
| Restart.ComputeBackoff | entities/src/process/restart.rs:58-69 | The loop over delay and doublings computes it |
| Restart.BackoffGrows | entities/src/process/restart.rs:58-69 | More unstable restarts never wait less, and never more than the cap |
| Restart.BreakerTrips | entities/src/process/restart.rs:22-56 | A stretch of unstable exits yields exactly as many restarts as the limit leaves |
| Restart.FewerThanMaxRestarts | entities/src/process/restart.rs:22-56 | From a zero tally that is fewer than `max_restarts` |
| Restart.NeverTripsAtZero | entities/src/process/restart.rs:22-56 | A limit of zero never gives up |
| Breaker.SettlingIsInvisible | usecases/src/query.rs:194-214 | Clearing the tally of a stable process changes no answer to its exit or to any later exit of the service, decision and delay, if and only if the breaker answers that exit or the policy is one under which tallies cannot matter |
| Breaker.SettlingTheTableIsInvisible | usecases/src/query.rs:194-214 | The same for the pass over the whole table and every service, whatever was asked of it before its exit |
| Breaker.SettlingShowsAfterARestart | usecases/src/supervise.rs:44-78 | A stable process with a tally of three of four is restarted by hand and then fails at once: given up without the settling, restarted with it |
| Breaker.BreakerBoundsTheLives | usecases/src/supervise.rs:80-127 | Lives that all end unasked before `min_uptime_ms` are restarted exactly as often as there are lives, and never more than `max_restarts` - 1 - tally times |
| Samples.SamplePromise | usecases/src/supervisor_liveness.rs:16-49 | A liveness sample asks exactly the services that are online, restart themselves and have a probe, each once: an answer clears the failures and asks for nothing; no answer counts one more, and a restart is tried if and only if that reaches the threshold; every process proved stable has its tally cleared |
| Samples.FewFailuresAreBorne | usecases/src/query.rs:174-192 | Over any number of samples, failures in a row below the threshold change nothing of a service but their count |
| Samples.ThresholdRestarts | usecases/src/query.rs:174-192 | Over samples, as many failures in a row as the threshold have the process terminated at the last, unless it cannot be signalled, with a restart through the breaker remembered |
| Samples.AnswerClears | usecases/src/query.rs:174-192 | A service whose probe answers is never restarted for its liveness: its failures are zero and nothing is asked |
| Samples.MemoryPromise | usecases/src/supervisor.rs:222-250 | A memory sample restarts, once and through the breaker, exactly the running processes sampled above their limit, and touches no other record |
| TaskBoards.BoardNeverDrifts | frameworks/src/daemon/timers.rs:37-78 | Over every run, stale events included, the board holds a task for exactly the fires that are armed and the restarts that are queued |
| TaskBoards.HandleSync | usecases/src/supervisor.rs:381-410 | Every handler's effects mirror what it does to the timers |
| TaskBoards.LatestKillWins | frameworks/src/daemon/timers.rs:37-78 | The force kill pending for a service is the one the latest effect about it schedules, none if that one cancels it, and the old one if there is none |
| TaskBoards.LatestReadyWins | frameworks/src/daemon/timers.rs:37-78 | The same of the probe a service awaits |
| TaskBoards.SamplesStayDue | frameworks/src/daemon/timers.rs:114-130 | A sample is due exactly when it was or an effect asked for it |
| TaskBoards.TaskBoard.ApplyEach | frameworks/src/daemon/actor.rs:208-212 | The effects of a turn reach the board in order |
| Actors.Actor.Apply | frameworks/src/daemon/actor.rs:169-212 | One event on the mutable daemon is one step of the transition system and, in every world the invariant allows, the answer to the event in full |
| Actors.Actor.Run | frameworks/src/daemon/actor.rs:169-212 | Driving a list of events keeps the run sound, every live process watched once, and the board in agreement |
| Supervision.Supervisor.LaunchOne | usecases/src/start.rs:253-306 | A launch never spawns over a live process: it keeps that one and its pid and, on its way out, asks it to come back; a scheduled task of a batch is only registered; otherwise exactly one process is spawned unless the launcher refuses, and waits for its probe or is online at once. The answer and the record are given field by field; a refusal leaves the table as it was, and no other record changes |
| Supervision.Supervisor.RequestStop | usecases/src/stop.rs:99-120 | Refused exactly when a live process cannot be signalled, and then the table is as it was; otherwise a live process is stopping under its own pid, the one to be killed later, and a record that has none is settled; nothing else changes |
| Supervision.Supervisor.RestartApp | usecases/src/restart.rs:16-35 | A settled service is spawned once, a live one keeps its pid, is on its way out and will be started again; it is refused exactly when there is nobody to signal or spawn it, and then changes no record |
| Supervision.Supervisor.Watch | usecases/src/supervisor.rs:441-454 | One exit watch for the pid under a generation no earlier event of the name carries (below the end of the counter); the probe of a service that was only launched is awaited under the same one |
| Supervision.Supervisor.WatchAll | usecases/src/supervisor.rs:431-439 | The loop over the outcomes |
| Supervision.Supervisor.RestartNow | usecases/src/supervisor.rs:311-339 | Tried once: a spawned process is watched, one asked to leave will be killed, a restart that cannot be done changes no record; no other record changes, no queued restart of the name is left, and its schedule is armed whenever the scheduler knows a next fire |
| Supervision.Supervisor.ArmTimer | usecases/src/supervisor.rs:388-410 | The name is armed exactly when it has a schedule with a known next fire, for that instant, with a task that sleeps until it; no other timer changes and every board that agreed still agrees |
| Supervision.Supervisor.HandleChildExit | usecases/src/supervise.rs:19-127 | The record left and the answer are given exactly: a restart by hand comes at once and uncounted, a stop or a stop code ends the service, otherwise it comes back after the doubled delay of its tally while that is below the limit, and ends errored or stopped by its code when it is not |
| Supervision.Supervisor.OnExit | usecases/src/supervisor.rs:152-188 | A stale generation changes nothing, and an exit of a deleted name only calls its kill off. A current one leaves its record settled as its answer says, launches nothing and touches no other live process; it queues a restart exactly when that is the answer, with its delay. When the answer ends the service and its probe had not failed, exactly the services that wait for it, directly or not, leave the waiter graph and, if settled, are errored; otherwise nobody who waits is touched |
| Supervision.Supervisor.OnRestart | usecases/src/supervisor.rs:198-206 | A restart that is not queued any more does nothing; a queued one is claimed and tried once, with the full promise of `RestartNow` |
| Supervision.Supervisor.OnFire | usecases/src/supervisor.rs:208-220 | A fire that is not the armed one, by name and instant, does nothing; a due one tries a restart once |
| Supervision.Supervisor.OnMemorySample | usecases/src/supervisor.rs:222-250 | Exactly the running processes sampled above their limit are restarted, once and through the breaker; no other record changes |
| Supervision.Supervisor.OnLivenessSample | usecases/src/supervisor_liveness.rs:16-49 | Exactly the online services that restart themselves and have a probe are asked, once each; an answer clears the failures, no answer counts one, and the one that reaches the threshold has a restart tried; then the tallies of stable processes are cleared |
| Supervision.Supervisor.SettleTheStable | usecases/src/query.rs:194-204 | The in-place pass over the records |
| Supervision.Supervisor.ForgetWaiter | usecases/src/supervisor_ready.rs:198-203 | The name leaves every list and empty lists leave the graph |
| Supervision.Supervisor.FailDownstream | usecases/src/supervisor_ready.rs:172-184 | The worklist over the graph it rewrites terminates with the failed names in order |
| Supervision.Supervisor.LaunchWaiters | usecases/src/supervisor_ready.rs:105-124 | The worklist of released services terminates although launching rewrites the graph |
| Supervision.Supervisor.OnReady | usecases/src/supervisor_ready.rs:18-39 | Stale readiness does nothing; otherwise the service is online and a complete pass follows: only services that waited for it, directly or not, are launched, and nobody who waited is left out |
| Supervision.Supervisor.OnReadyTimeout | usecases/src/supervisor_ready.rs:41-81 | A stale timeout does nothing; otherwise the service is on its way out with its kill scheduled and marked as failing its probe, exactly the services that wait for it leave the waiter graph, and every settled one of those is errored |
| Supervision.Supervisor.CancelReady | usecases/src/supervisor_ready.rs:83-90 | The service fails no probe any more and is awaited by no task; exactly its own waits and those of whoever waited for it end, the settled ones of those are errored, and no other record changes |
| Supervision.Supervisor.StartApps | usecases/src/start.rs:66-126 | Refused, completed or rolled back, a batch keeps a sound dependency graph sound, owes exactly the watches of the processes it launched, and does to every service what `Batches.StartAppsStarts` says: in particular it launches nothing before what it depends on is up |
| Supervision.Supervisor.LaunchBatch | usecases/src/start.rs:85-107 | The launching loop computes the recursion that `Batches.StartAppsStarts` is about, and breaks at the first refusal |
| Supervision.Supervisor.ForgetUnlaunched | usecases/src/start.rs:167-187 | The roll-back loop |
| Supervision.Supervisor.Start | usecases/src/supervisor_handlers.rs:25-79 | The whole start command: declarations, batch, watches, waits and timers, with the full promise of `Batches.StartPromise` |
| Supervision.Supervisor.Stop | usecases/src/supervisor_handlers.rs:81-101 | The reply and the state in every case, as in `Replies.StopAnswer`; after success the service is dormant: not running, nothing asked, armed or queued, waiting for nobody; its live process will be killed and nothing was launched |
| Supervision.Supervisor.StopEach | usecases/src/stop.rs:30-56 | Dependents first; a refused stop still marks the record |
| Supervision.Supervisor.StopAll | usecases/src/supervisor_handlers.rs:263-287 | Everything disarmed, stopped, cancelled, and every tracked pid covered by a force kill, with the full promise of `Replies.StopAllAnswer` |
| Supervision.Supervisor.Retire | usecases/src/supervisor_handlers.rs:305-317 | Nothing of the service is armed or queued, it is awaited by no task, it waits for nobody, nobody waits for it, and its process will be killed under its token; no other timer, wait or live process is touched |
| Supervision.Supervisor.DeleteOne | usecases/src/delete.rs:24-42 | Saved, exactly this service is gone; otherwise it keeps its declaration and its id; no other record changes |
| Supervision.Supervisor.Delete | usecases/src/supervisor_handlers.rs:182-225 | One service nobody depends on, or all of them dependents first, in every case as `Replies.DeleteAnswer` and `Replies.DeleteAllAnswer` say |
| Supervision.Supervisor.Restart | usecases/src/supervisor_handlers.rs:103-180 | The declaration is read again before the restart; in every case as `Replies.RestartAnswer` and `Replies.RestartAllAnswer` say |
| Supervision.Supervisor.Reset | usecases/src/supervisor_handlers.rs:227-248 | Counters cleared, an errored service becomes stopped, nothing else changes |
| Judge.AdoptionIsExact | usecases/src/resurrect/judge.rs:99-156 | A process is adopted if and only if it was meant to run, pids are trusted, it is alive under its recorded token and neither launch parameters nor program changed |
| Judge.StaleIsCareful | usecases/src/resurrect/judge.rs:29-40 | Only the record's own pid is evicted, never after a reboot, never when seen gone or replaced; a running one by group only when its token matched |
| Judge.VerdictIsExact | usecases/src/resurrect/judge.rs:99-156 | A record meant to run is settled exactly when it was being stopped for good, and started again unless it is that or adopted; whatever is not adopted is evicted if and only if its process may still live, alone exactly when it was meant to run and its token did not match |
| Judge.TrustIsExact | usecases/src/resurrect.rs:446-456 | Recorded pids are trusted unless the host is known to have booted since |
| Judge.EvictionIsCareful | usecases/src/resurrect.rs:159-241 | Every signal of an eviction goes to the planned pid and scope, never while the latest sight shows another process; a kill follows a terminate, or a leader gone with its group lingering |
| Judge.EvictionIsExact | usecases/src/resurrect.rs:159-241 | An eviction looks first; whoever still holds the pid under the expected token, or under none known, is asked to leave and looked at again; a kill is the last act exactly when the last sight shows them still there, or gone with their own group lingering |
| Resurrect.RebootSignalsNobody | usecases/src/resurrect.rs:446-456 | Over every take-over trace a changed boot token means no signal and no adoption at all |
| Resurrect.EverySignalIsCareful | usecases/src/resurrect.rs:26-241 | Over every trace each signal belongs to a careful eviction of one recorded pid |
| Resurrect.EvictionsComeFirst | usecases/src/resurrect.rs:49-62 | Over every interleaving nothing is signalled once the first service is adopted or started |
| TakeOvers.EvictedBeforeRespawn | usecases/src/resurrect.rs:39-122 | In every trace, a service is started again although the process it was left with may still live only after that process has been evicted whole |
| TakeOvers.NobodyIsForgotten | usecases/src/resurrect.rs:26-122 | In every trace each stored service that was meant to run is adopted, started again or settled as its verdict says, and whatever is not adopted and may still live is evicted whole |
| TakeOvers.SweepsAreExact | usecases/src/resurrect.rs:69-122 | The stranded processes that may still live, and no others, are swept, each with its group and under its token |
| TakeOvers.RecoveredInOrder | usecases/src/resurrect.rs:49-67 | In every trace of an acyclic table what a service depends on is adopted or started again before the service itself |
| TakeOvers.DependenciesComeBackFirst | usecases/src/resurrect.rs:49-67 | The outcomes of every take-over are in that order too |
| TakeOvers.TakeOverIsExact | usecases/src/resurrect.rs:39-67 | Each stored record ends, field by field, as its verdict says: kept and running when adopted, settled, or launched unless the launcher refuses; a pending restart is forgotten |
| TakeOvers.BootArmsExactly | usecases/src/supervisor.rs:84-98 | A boot arms exactly the services whose schedule runs, each for an instant the scheduler named |
| Resurrect.TakeOverKeepsNames | usecases/src/resurrect.rs:39-67 | The table's names are the stored names, in order, whatever the host answers |
| Resurrect.TakeOverFollowsItsTrace | usecases/src/resurrect.rs:26-67 | In every trace the services reported taken over are, in order, those the trace adopts and respawns |
| Resurrect.BootIsSound | usecases/src/supervisor.rs:84-98 | Booting establishes the invariant of every later run: each adopted or started process is watched once |
| Resurrect.EveryBootedRunIsSound | usecases/src/supervisor.rs:84-98 | Every run from any boot is sound |
| Recovery.Adopt | usecases/src/resurrect.rs:243-265 | An adopted process is taken charge of as it is: nothing is asked of the outside world, its record keeps pid, token and declaration and counts as running, no other record changes |
| Recovery.Resurrect | usecases/src/resurrect.rs:26-67 | The recovery loop on the mutable table; every stored record ends as its verdict says |
| Recovery.ResurrectSaved | usecases/src/supervisor.rs:84-98 | Take over, watch, arm, and leave a coherent daemon |
| Handover.DecodeUndoesEncode | adapters/src/persistence/dto.rs:62-111 | A saved state reads back as itself unless it claims to run without a pid |
| Handover.EncodeUndoesDecode | adapters/src/persistence/dto.rs:69-173 | A readable state is saved again exactly as it was |
| Handover.LoadIsExact | adapters/src/persistence/yaml_store.rs:26-87 | Loading fails exactly when the environment of a readable state cannot be read; otherwise every readable state whose declaration is found is a record that would be saved as that very state, every other is swept as stranded with its name, pid and token, and there is nothing else |
| Handover.SaveLoadRoundTrip | adapters/src/persistence/yaml_store.rs:69-94 | A consistent table survives save and load |
| Handover.CompareHandover | usecases/src/handover.rs:15-31 | The loop sorts the rows into the three lists |
| Handover.ComparisonIsExact | usecases/src/handover.rs:40-51 | A service is adopted, restarted or lost exactly when its pid was kept, replaced or gone |
| Handover.HandoverIsQuiet | usecases/src/resurrect.rs:26-122 | Taking over a table ready for handover signals nothing and starts nothing |
| Handover.HandoverRoundTrip | usecases/src/resurrect.rs:26-67 | Save, load and take-over on the same boot keep every record field by field but for a pending restart, which is forgotten, and an online mark on what runs; what runs is adopted and the comparison reports nothing restarted or lost |
| Fingerprint.RenderingIsExact | usecases/src/fingerprint.rs:19-76 | For keys without '=', two specifications render alike if and only if all launch-relevant content is equal, the environment as a multiset of its own pairs |
| Fingerprint.RenderingSeesLines | usecases/src/fingerprint.rs:19-76 | For all specifications: the renderings are equal if and only if all other launch-relevant content is equal and so are the sorted lines of the environment |
| Fingerprint.AlikeRenderAlike | usecases/src/fingerprint.rs:98-111 | Neither the order nor the global part of the environment ever shows |
| Fingerprint.FieldsAreReadable | usecases/src/fingerprint.rs:119-122 | The rendering determines its list of labelled fields, whatever the values contain |
| Fingerprint.SortedEnv | usecases/src/fingerprint.rs:98-111 | The result is sorted and holds exactly the identifying pairs |
| Fingerprint.EqualsSignHides | usecases/src/fingerprint.rs:113-117 | Two different environments with one rendering when a key holds '=' |
| Cron.NextFireOfPattern | adapters/src/schedule/cron_scheduler.rs:61-85 | On every pattern, whatever the generators draw: the least whole second after the given instant that belongs to the draw of its own window, or none up to the horizon |
| Cron.PatternDrawsAreWide | adapters/src/schedule/cron_scheduler.rs:64-75 | Widening a pattern loses no instant of the draw of any window |
| Cron.NextFireIsStable | adapters/src/schedule/cron_scheduler.rs:61-85 | Asking again before the announced fire announces the same fire |
| Cron.TurnIsSound | adapters/src/schedule/cron_scheduler.rs:69-83 | One turn finds the fire of the candidate's window or passes a stretch without any |
| Cron.NoFireIsSkipped | adapters/src/schedule/cron_scheduler.rs:61-85 | No whole second between the instant and the answer fires |
| RandomExpand.DrawsLieInTheWidenedField | adapters/src/schedule/random_expand.rs:51-120 | Drawing and widening accept the same fields with the same errors; every draw lies in the widened field and is never empty |
| RandomExpand.FieldMeansItsNumbers | adapters/src/schedule/random_expand.rs:51-130 | Over the decimal numbers written in a field `l~h` or `l~h/step`, a missing bound being the field's own: it is accepted if and only if low <= l <= h <= high and the step is absent or positive, and refused for the reason the numbers give; widened it is exactly l to h; drawn it is one value of l to h (Sunday being 0), or begins less than a step above l, kept inside the range, and ends at h |
| RandomExpand.PatternMeansItsNumbers | adapters/src/schedule/random_expand.rs:9-49 | The same for the five fields of a pattern, within 0-59, 0-23, 1-31, 1-12 and 0-7 |
| RandomExpand.DrawnInstantsAreWide | adapters/src/schedule/random_expand.rs:35-49 | Every instant of a drawn pattern is an instant of the widened one |
| RandomExpand.ExpandPattern | adapters/src/schedule/random_expand.rs:35-49 | The loop over the five fields stops at the first error, and accepts a pattern if and only if each field reads as numbers in order within its own range |
| LogTail.ReadTail | adapters/src/logs/tail.rs:33-91 | For any file, count, chunk size and byte budget: the last lines of the whole file unless the bytes the budget allows neither reach its start nor hold more newlines than lines asked for; then a suffix of those lines, if those bytes hold a newline |
| LogTail.LinesAreExact | adapters/src/logs/tail.rs:33-37 | The lines of a log are the one way to spell it as lines with their endings: a line feed, or a carriage return and a line feed when there is one to take, and only the last, not empty, without |
| LogTail.LogFollower.PollAppended | adapters/src/logs/tail.rs:117-129 | The bytes read since the last restart are exactly the lines shown followed by what is pending, which is bounded and has no newline |
| LogTail.LogFollower.TakeCompleteLines | adapters/src/logs/tail.rs:165-178 | Lines are cut at every newline and flushed early only over the bound |
| LogTail.LogFollower.Resync | adapters/src/logs/tail.rs:131-153 | A rotated or shortened file starts over, any other continues |
| Quoting.QuotingRoundTrip | adapters/src/apps_file/inline.rs:271-291 | Quoting around placeholders, substituting and decoding the YAML scalar gives the value with each home placeholder replaced and the service placeholder kept; it is refused, with the lookup's own error, only when a mentioned home is missing, undecodable or unsafe |
| Quoting.QuotedIsInert | adapters/src/apps_file/inline.rs:267-269 | A plainly quoted value is untouched by substitution and decodes to itself |
| Quoting.EscapedIsPlain | adapters/src/apps_file/inline.rs:293-312 | What is escaped has no control character and no dollar sign |
| Quoting.UnescapeUndoesEscape | adapters/src/apps_file/env_file.rs:244-283 | What is escaped into a service file the decoder of environment files reads back |
| Quoting.Escape | adapters/src/apps_file/inline.rs:293-312 | The loop over the characters |
| Quoting.QuotePlaceheld | adapters/src/apps_file/inline.rs:271-291 | The loop from placeholder to placeholder keeps placeholders verbatim and escapes the rest |
| Quoting.SubstituteWith | adapters/src/config/loader.rs:78-124 | The loop over openers computes the substitution |
| Quoting.SubstituteAtPlaceholder | adapters/src/config/loader.rs:134-167 | A plain placeholder is replaced by its value, refused with the lookup's error, or kept when it is the service's own |
| Placeholders.SubstitutionIsExact | adapters/src/config/loader.rs:78-167 | At the first opener of any text: if a name and perhaps a default follow, on one line and up to the closing brace that nothing opens, it is replaced by the looked-up value if that can be pasted, by the default if there is no value, or refused with the matching error, the service's own directory being kept and taking no default; an opener that begins nothing of that form stays; the rest is treated alike |
| Quoting.FoldServiceCwd | adapters/src/program.rs:54-68 | The loop over mentions computes the folding |
| Quoting.FoldGuardsEverything | adapters/src/program.rs:54-68 | After folding every mention of the name stands in a placeholder |
| Quoting.FoldIsIdempotent | adapters/src/program.rs:54-68 | Folding twice is folding once |
| Quoting.FoldAddsOnlyFrames | adapters/src/program.rs:54-68 | Folding adds nothing but placeholder frames |
| Watcher.OnePollerServesEveryWaiter | adapters/src/process/watcher.rs:61-133 | Under every interleaving at most one poller lives, one does whenever a pid is watched, and every waiter is waiting or departed, once in all |
| Watcher.DepartureIsExact | adapters/src/process/watcher.rs:110-174 | A waiter departs exactly in a release on a probe that shows its process gone or its pid under another token |
| Watcher.WaitsUntilShown | adapters/src/process/watcher.rs:91-133 | Over a whole run a waiter stays listed, with a live poller, until a probe shows its exit |
| Watcher.LaterProbesExactly | adapters/src/process/watcher.rs:61-133 | In every continuation a waiter departs only after a probe made since it registered that shows its exit if and only if, when it registered, no poller was about to release on a sight that shows it |
| Watcher.StaleProbeHappens | adapters/src/process/watcher.rs:61-133 | From the start, a registration, a roster and a probe that finds the pid gone reach a state in which the next waiter for that pid can be released without being probed |
| Watcher.AdoptedWatch.Register | adapters/src/process/watcher.rs:61-89 | The waiter stands last on its pid's list, no other list changes, and a poller is asked for if and only if none runs |
| Watcher.AdoptedWatch.Roster | adapters/src/process/watcher.rs:101-108 | The poller goes on exactly as long as somebody waits, and is given every pid somebody waits for |
| Watcher.AdoptedWatch.Release | adapters/src/process/watcher.rs:110-133 | The list is taken out, partitioned, and the waiting part put back |
| Roots.DominantCoversTheSame | adapters/src/apps_file/roots.rs:13-44 | The dominant roots cover exactly the paths the candidates cover |
| Roots.DominantIsAntichain | adapters/src/apps_file/roots.rs:13-44 | No dominant root covers another |
| Roots.DominantRoots | adapters/src/apps_file/roots.rs:13-44 | The loops over the deduplicated roots compute them |
| Roots.DedupRoots | adapters/src/apps_file/roots.rs:3-11 | The loop keeps the first spelling of each candidate |
| Roots.IsCoveredByAnother | adapters/src/apps_file/roots.rs:23-33 | The early return decides whether any other root covers this one |
| Roots.CoversIsTransitive | entities/src/sandbox/roots.rs:35-44 | Covering is transitive |
| Roots.NormalizeIsExact | entities/src/sandbox/roots.rs:4-13 | A root stands for itself without the slashes it ends in, or for the root directory if it is nothing else |
| Roots.CoversExactly | entities/src/sandbox/roots.rs:28-44 | A path covers another if and only if it is the root directory, the same path, or a directory above it |
| Roots.CoversIsAntisymmetric | entities/src/sandbox/roots.rs:35-44 | Roots that cover each other are one root up to trailing slashes |
| Sandbox.ValidationIsExact | entities/src/sandbox/policy.rs:150-208 | A policy is accepted if and only if a read-only one grants nothing, all roots are absolute and no grant covers a hidden path |
| Sandbox.SandboxIsExact | adapters/src/sandbox/bwrap.rs:21-52 | For every accepted policy a path is writable if and only if a granted root covers it, and masked if and only if a hidden root covers it and no granted root does |
| Sandbox.MountsDecide | adapters/src/sandbox/bwrap.rs:21-98 | For every policy, accepted or not: inner hidden paths, then grants, then hidden paths, then the read layer decide |
| Sandbox.ConfinedReadsAreExact | adapters/src/sandbox/bwrap.rs:54-72 | Under confined reads only existing readable roots and the program are shown |
| Sandbox.NestedGrantsMountInside | adapters/src/sandbox/bwrap.rs:100-104 | A grant inside another is mounted before it if and only if the outer one is the root directory and the inner one is relative, or a top-level directory that stands earlier in the input |
| Sandbox.AcceptedGrantsMountInside | adapters/src/sandbox/bwrap.rs:100-104 | Under an accepted policy that is: only a top-level grant listed before the root directory |
| Sandbox.RootTiesWithTopLevel | adapters/src/sandbox/bwrap.rs:100-104 | The root directory may be mounted after a top-level grant |
| Sandbox.ArgvReadsAsMounts | adapters/src/sandbox/bwrap.rs:21-83 | The argument list reads back as exactly the mounts and the program with its arguments, whatever paths and arguments contain; five namespaces are always unshared, and the network's if and only if the policy denies it |
| Sandbox.BwrapArgv | adapters/src/sandbox/bwrap.rs:21-72 | The layers are pushed in order |

## Left out

- The HTTP router, the clients, socket binding, the command line, unit installation, log rotation, desktop notification and every log line: input and output without a property to prove. `Notify` and the alert latch change no other state.
- List, Describe and Signal requests, log rotation events and force-kill events: they change nothing of the supervisor's state.
- Kill timeouts, poll intervals and the lengths of delays: events may arrive at any time and in any number, so no result depends on them.
- `validate_spec` is an arbitrary predicate of the world, and a declaration is read from the file of its own name, so it carries that name.
- Spawning, signalling, identities, the clock and the disk are arbitrary answers of `Ports` and `Host`; sandbox wrapping that refuses a launch counts as a refused spawn.
- `Runtime` and `Record` are values: the source's mutators are functions to the updated value and the table stores the result. Aliasing of one record through two references, which the source's borrow rules exclude, is not modelled.
- Draining the armed fires and the queued restarts yields one effect with the set of names, where the source emits one effect per name in the order of a hash map.
- Ready, fire, restart and sample events may arrive at any time, however stale; that over-approximates the tasks of the board. Only exit events are tied to an outstanding watch.
- `fold_home`, the apps-file serializer around the quoted scalars, and the parser of environment files apart from its escapes: only easy members.
- Quoting.YamlDecode: reads a single-line double-quoted scalar with the one-letter and `x` escapes of sections 5.7 and 7.3.1 of YAML 1.2.2; line folding and the `u` and `U` escapes never occur in what is written.
- Breaker.SettlingIsInvisible: follows a service over its lives under one declaration and a clock that does not run backwards between the sample and the exit; a declaration replaced in between is not modelled.
- Breaker.BreakerBoundsTheLives: bounds the restarts of one service over its lives; the launches of a whole daemon over a run, which commands may ask for at any time, are not counted.
- Cron.NextFireOfPattern: windows are ordered intervals and the next-occurrence search is exact up to a horizon; calendar arithmetic, daylight saving and the seed of the generator are not modelled.
- LogTail.ReadTail: lines are bytes; the lossy decoding of invalid UTF-8 is not modelled.
- Fingerprint.RenderIdentity: text stands for its UTF-8 bytes; the digest taken of it is an arbitrary function of the text.
- Fingerprint.RenderingIsExact: asks for keys without '=', because `EqualsSignHides` shows the statement false without it; `RenderingSeesLines` is the equivalence without that condition.
- Readiness.ReadinessIsExact: asks that every waiter is on record, that no list repeats a name, and that nobody who waits is running already, as a restart by name can make it.
- Readiness.OrderIsExact: speaks of waiter graphs where a service that blocks another in a list waits only there; elsewhere order is sufficient (`OrderedListsAreSafe`) but not necessary, and `ReadinessIsExact` decides pass by pass.
- BatchGraph.StartKeepsGraph: asks for distinct service names. A restart replaces a declaration without checking the graph and deleting everything continues past failures, so graph closure is a property of start and single delete only.
- Sandbox.SandboxIsExact: speaks of the mount sequence; the Seatbelt profile and the sandbox program itself are not part of this model.
- The start lock and the take-over of a stale socket between command-line processes depend on file-system races and are not part of this model.
