/**
 * The breaker over the lives of a service (usecases/src/supervise.rs, query.rs): what clearing the tally of
 * a stable process changes about the answers to later exits, and how many restarts a stretch of unstable
 * lives gets.
 */
module Breaker {
  import opened Graphs
  import opened Model
  import opened ProcessTable
  import opened Restart
  import opened Text
  import opened Handlers

  // ----- lives -----

  datatype Request = NoRequest | ByHand | Supervised

  /** How a process leaves: its outcome, when, and what was asked of it since it came up. */
  datatype Leaving = Leaving(outcome: ExitOutcome, atMs: nat, stopping: bool, request: Request)

  datatype Life = Life(pid: nat, startedMs: nat, leaving: Leaving)

  /** The record as it stands when the process leaves. */
  function Asked(record: Record, leaving: Leaving): Record {
    var asked :=
      match leaving.request
      case NoRequest => record.runtime
      case ByHand => record.runtime.RequestRestart()
      case Supervised => record.runtime.RequestSupervisedRestart();
    record.With(if leaving.stopping then asked.MarkStopping() else asked)
  }

  function Answer(record: Record, leaving: Leaving): (Record, ExitAction) {
    ClassifyExit(Asked(record, leaving), leaving.outcome, leaving.atMs)
  }

  function Launched(record: Record, life: Life): Record {
    record.With(record.runtime.MarkLaunched(life.pid, life.startedMs).MarkOnline())
  }

  /** How the exits of a settled service's next lives are answered, however each life came about. */
  function Answers(record: Record, lives: seq<Life>): seq<ExitAction>
    decreases |lives|
  {
    if lives == [] then []
    else
      var (left, action) := Answer(Launched(record, lives[0]), lives[0].leaving);
      [action] + Answers(left, lives[1..])
  }

  /** The exit is left to the breaker: no restart by hand, no stop and no stop code answers it. */
  predicate AnsweredByBreaker(record: Record, leaving: Leaving) {
    var asked := Asked(record, leaving);
    if asked.runtime.pendingRestart then asked.runtime.supervisedRestart
    else !asked.runtime.status.IsShuttingDown() && !StopsOnThisCode(asked, leaving.outcome)
  }

  /** Policies under which no tally changes a decision or a delay. */
  predicate TalliesCannotMatter(policy: Policy) {
    || !policy.autorestart || policy.minUptimeMs == 0 || policy.maxRestarts == 1
    || (policy.maxRestarts == 0 && (policy.restartDelayMs == 0 || policy.maxRestartDelayMs <= policy.restartDelayMs))
  }

  /** The widths of the source's fields. */
  predicate Fits(record: Record) {
    && record.spec.maxRestarts <= U32_MAX && record.spec.maxRestartDelayMs <= U64_MAX
    && record.runtime.unstableRestarts <= U32_MAX
  }

  function WithTally(record: Record, tally: nat): Record {
    record.With(record.runtime.(unstableRestarts := tally))
  }

  predicate SameButTally(a: Record, b: Record) {
    b == WithTally(a, b.runtime.unstableRestarts)
  }

  // ----- when tallies cannot matter -----

  lemma DelayIsFlat(policy: Policy, a: nat, b: nat)
    requires policy.restartDelayMs == 0 || policy.maxRestartDelayMs <= policy.restartDelayMs
    requires policy.maxRestartDelayMs <= U64_MAX
    ensures BackoffDelay(policy.restartDelayMs, policy.maxRestartDelayMs, a)
            == BackoffDelay(policy.restartDelayMs, policy.maxRestartDelayMs, b)
  {
    var base, cap := policy.restartDelayMs, policy.maxRestartDelayMs;
    BackoffIsIdeal(base, cap, a);
    BackoffIsIdeal(base, cap, b);
    if base > 0 {
      GrowsPastCap(base, cap, if a >= 1 then a - 1 else 0);
      GrowsPastCap(base, cap, if b >= 1 then b - 1 else 0);
    }
  }

  lemma SameDecision(policy: Policy, uptime: Option<nat>, a: nat, b: nat)
    requires TalliesCannotMatter(policy) && policy.maxRestartDelayMs <= U64_MAX
    ensures match (DecideRestart(policy, uptime, a), DecideRestart(policy, uptime, b))
            case (Again(d, _), Again(e, _)) => d == e
            case (GiveUp(_), GiveUp(_)) => true
            case _ => false
  {
    hide BackoffDelay;
    if policy.maxRestarts == 0 && (policy.restartDelayMs == 0 || policy.maxRestartDelayMs <= policy.restartDelayMs) {
      DelayIsFlat(policy, SaturatingInc(a, U32_MAX), SaturatingInc(b, U32_MAX));
    }
  }

  lemma SameClass(a: Record, b: Record, outcome: ExitOutcome, nowMs: nat)
    requires SameButTally(a, b) && TalliesCannotMatter(PolicyOf(a.spec)) && a.spec.maxRestartDelayMs <= U64_MAX
    ensures ClassifyExit(a, outcome, nowMs).1 == ClassifyExit(b, outcome, nowMs).1
    ensures SameButTally(ClassifyExit(a, outcome, nowMs).0, ClassifyExit(b, outcome, nowMs).0)
  {
    hide DecideRestart, TalliesCannotMatter, StopsOnThisCode;
    var uptime := a.runtime.CancelRestart().ElapsedSinceLaunchMs(nowMs);
    SameDecision(PolicyOf(a.spec), uptime, a.runtime.unstableRestarts, b.runtime.unstableRestarts);
    assert StopsOnThisCode(a, outcome) == StopsOnThisCode(b, outcome) by { SameStops(a, b, outcome); }
  }

  lemma SameStops(a: Record, b: Record, outcome: ExitOutcome)
    requires a.spec == b.spec
    ensures StopsOnThisCode(a, outcome) == StopsOnThisCode(b, outcome)
  {
  }

  lemma SameAnswer(a: Record, b: Record, leaving: Leaving)
    requires SameButTally(a, b) && TalliesCannotMatter(PolicyOf(a.spec)) && a.spec.maxRestartDelayMs <= U64_MAX
    ensures Answer(a, leaving).1 == Answer(b, leaving).1 && SameButTally(Answer(a, leaving).0, Answer(b, leaving).0)
  {
    hide ClassifyExit, TalliesCannotMatter;
    SameClass(Asked(a, leaving), Asked(b, leaving), leaving.outcome, leaving.atMs);
  }

  lemma {:induction false} SameAnswers(a: Record, b: Record, lives: seq<Life>)
    requires SameButTally(a, b) && TalliesCannotMatter(PolicyOf(a.spec)) && a.spec.maxRestartDelayMs <= U64_MAX
    ensures Answers(a, lives) == Answers(b, lives)
    decreases |lives|
  {
    hide TalliesCannotMatter;
    if lives != [] {
      var x, y := Launched(a, lives[0]), Launched(b, lives[0]);
      SameAnswer(x, y, lives[0].leaving);
      assert Answer(x, lives[0].leaving).0.spec == a.spec;
      hide Answer;
      SameAnswers(Answer(x, lives[0].leaving).0, Answer(y, lives[0].leaving).0, lives[1..]);
    }
  }

  // ----- when they do -----

  /** A life that ends as it begins, unasked. */
  function Flash(): Life {
    Life(1, 0, Leaving(Signalled, 0, false, NoRequest))
  }

  predicate AtRest(record: Record) {
    record.runtime.status.IsSettled() && !record.runtime.pendingRestart && !record.runtime.supervisedRestart
  }

  lemma FlashCounts(record: Record)
    requires AtRest(record) && record.spec.autorestart && record.spec.minUptimeMs > 0
    ensures var (left, action) := Answer(Launched(record, Flash()), Flash().leaving);
            var tally := SaturatingInc(record.runtime.unstableRestarts, U32_MAX);
            && AtRest(left) && left.spec == record.spec && left.runtime.unstableRestarts == tally
            && (action.Settled? <==> 0 < record.spec.maxRestarts <= tally)
            && (action.RestartAfter? ==>
                  action.delayMs == BackoffDelay(record.spec.restartDelayMs, record.spec.maxRestartDelayMs, tally))
  {
    hide BackoffDelay;
  }

  /** Enough flashes tell a tally from a smaller one: the breaker gives up on the larger one first. */
  lemma {:induction false} FlashesTell(a: Record, b: Record) returns (lives: seq<Life>)
    requires AtRest(a) && AtRest(b) && a.spec == b.spec && Fits(a)
    requires a.spec.autorestart && a.spec.minUptimeMs > 0 && a.spec.maxRestarts >= 2
    requires b.runtime.unstableRestarts < a.runtime.unstableRestarts
    requires b.runtime.unstableRestarts + 1 < a.spec.maxRestarts
    ensures Answers(a, lives) != Answers(b, lives)
    decreases a.spec.maxRestarts - a.runtime.unstableRestarts
  {
    FlashCounts(a);
    FlashCounts(b);
    hide Answer, Launched, BackoffDelay;
    if a.runtime.unstableRestarts + 1 >= a.spec.maxRestarts {
      lives := [Flash()];
      assert Answers(a, lives)[0] != Answers(b, lives)[0];
    } else {
      var later := FlashesTell(Answer(Launched(a, Flash()), Flash().leaving).0,
                               Answer(Launched(b, Flash()), Flash().leaving).0);
      lives := [Flash()] + later;
      assert lives[1..] == later;
      assert Answers(a, lives)[1..] == Answers(Answer(Launched(a, Flash()), Flash().leaving).0, later);
      assert Answers(b, lives)[1..] == Answers(Answer(Launched(b, Flash()), Flash().leaving).0, later);
    }
  }

  lemma DelaysTell(base: nat, cap: nat, tally: nat)
    requires 0 < base < cap <= U64_MAX && tally >= 2
    ensures BackoffDelay(base, cap, tally) > BackoffDelay(base, cap, 1)
  {
    BackoffIsIdeal(base, cap, tally);
    BackoffIsIdeal(base, cap, 1);
    Pow2Monotone(1, tally - 1);
    MulMonotone(base, 2, Pow2(tally - 1));
  }

  /** Where tallies can matter, some later lives are answered differently from a tally and from none. */
  lemma TalliesTell(a: Record, b: Record) returns (lives: seq<Life>)
    requires AtRest(a) && AtRest(b) && a.spec == b.spec && Fits(a)
    requires a.runtime.unstableRestarts > 0 == b.runtime.unstableRestarts
    requires !TalliesCannotMatter(PolicyOf(a.spec))
    ensures Answers(a, lives) != Answers(b, lives)
  {
    if a.spec.maxRestarts >= 2 {
      lives := FlashesTell(a, b);
    } else {
      FlashCounts(a);
      FlashCounts(b);
      DelaysTell(a.spec.restartDelayMs, a.spec.maxRestartDelayMs, SaturatingInc(a.runtime.unstableRestarts, U32_MAX));
      hide Answer, Launched, BackoffDelay;
      lives := [Flash()];
      assert Answers(a, lives)[0] != Answers(b, lives)[0];
    }
  }

  // ----- settling -----

  function Cleared(record: Record): Record {
    record.With(record.runtime.SettleStability())
  }

  /** The coming exit and those of all later lives are answered alike. */
  ghost predicate AgreeForEver(a: Record, b: Record, leaving: Leaving) {
    && Answer(a, leaving).1 == Answer(b, leaving).1
    && forall lives :: Answers(Answer(a, leaving).0, lives) == Answers(Answer(b, leaving).0, lives)
  }

  /** The coming exit is answered alike; the tally it leaves is the same if the breaker answers it. */
  lemma NextAnswer(record: Record, sampledMs: nat, leaving: Leaving)
    requires sampledMs <= leaving.atMs && StabilityIsSettled(record, sampledMs)
    ensures var (left, action) := Answer(record, leaving);
            var (cleared, expected) := Answer(Cleared(record), leaving);
            && action == expected && SameButTally(left, cleared)
            && left.spec == record.spec
            && (AnsweredByBreaker(record, leaving) && record.spec.autorestart ==> left == cleared)
            && (!AnsweredByBreaker(record, leaving) ==>
                  && AtRest(left) && AtRest(cleared)
                  && left.runtime.unstableRestarts == record.runtime.unstableRestarts > 0
                  && cleared.runtime.unstableRestarts == 0)
  {
    hide ClassifyExit;
    assert Asked(Cleared(record), leaving) == Cleared(Asked(record, leaving));
    ClearedClass(Asked(record, leaving), leaving.outcome, leaving.atMs);
    hide StopsOnThisCode;
  }

  lemma ClearedClass(asked: Record, outcome: ExitOutcome, nowMs: nat)
    requires var uptime := asked.runtime.ElapsedSinceLaunchMs(nowMs); uptime.Some? && uptime.value >= asked.spec.minUptimeMs
    ensures var (left, action) := ClassifyExit(asked, outcome, nowMs);
            var (cleared, expected) := ClassifyExit(Cleared(asked), outcome, nowMs);
            var byBreaker := if asked.runtime.pendingRestart then asked.runtime.supervisedRestart
                             else !asked.runtime.status.IsShuttingDown() && !StopsOnThisCode(asked, outcome);
            && action == expected && SameButTally(left, cleared) && left.spec == asked.spec
            && (byBreaker && asked.spec.autorestart ==> left == cleared)
            && (!byBreaker ==>
                  && AtRest(left) && AtRest(cleared)
                  && left.runtime.unstableRestarts == asked.runtime.unstableRestarts
                  && cleared.runtime.unstableRestarts == 0)
  {
    hide BackoffDelay, StopsOnThisCode;
    SameStops(asked, Cleared(asked), outcome);
    assert asked.runtime.CancelRestart().ElapsedSinceLaunchMs(nowMs) == asked.runtime.ElapsedSinceLaunchMs(nowMs);
  }

  /**
   * Clearing the tally of a process that has been up for its `min_uptime_ms` goes unnoticed for ever if and
   * only if the breaker answers the process's exit, or the policy is one under which tallies cannot matter.
   */
  lemma SettlingIsInvisible(record: Record, sampledMs: nat, leaving: Leaving)
    requires sampledMs <= leaving.atMs && StabilityIsSettled(record, sampledMs) && Fits(record)
    ensures AgreeForEver(record, Cleared(record), leaving)
            <==> AnsweredByBreaker(record, leaving) || TalliesCannotMatter(PolicyOf(record.spec))
  {
    NextAnswer(record, sampledMs, leaving);
    var left, cleared := Answer(record, leaving).0, Answer(Cleared(record), leaving).0;
    hide Answer, Answers, AnsweredByBreaker;
    if TalliesCannotMatter(PolicyOf(record.spec)) {
      forall lives ensures Answers(left, lives) == Answers(cleared, lives) {
        SameAnswers(left, cleared, lives);
      }
    } else if !AnsweredByBreaker(record, leaving) {
      var lives := TalliesTell(left, cleared);
    }
  }

  /** The same over the whole table, for every service and whatever was asked of it before its exit. */
  lemma SettlingTheTableIsInvisible(records: seq<Record>, sampledMs: nat, n: Name, leaving: Leaving)
    requires sampledMs <= leaving.atMs && Has(records, n) && Fits(Find(records, n).value)
    ensures var record := Find(records, n).value;
            && Has(SettleStability(records, sampledMs), n)
            && (AgreeForEver(record, Find(SettleStability(records, sampledMs), n).value, leaving) <==>
                  || !StabilityIsSettled(record, sampledMs)
                  || AnsweredByBreaker(record, leaving) || TalliesCannotMatter(PolicyOf(record.spec)))
  {
    hide Answer, Answers, AnsweredByBreaker, TalliesCannotMatter, SameButTally;
    var record := Find(records, n).value;
    if StabilityIsSettled(record, sampledMs) {
      SettlingIsInvisible(record, sampledMs, leaving);
    }
  }

  /**
   * What it looks like when it shows: a stable process with a tally of three is restarted by hand, and
   * the next life fails at once. With a limit of four the breaker gives up on it, unless a liveness
   * sample cleared the tally before the restart by hand: then the service is started again.
   */
  lemma SettlingShowsAfterARestart(record: Record, sampledMs: nat)
    requires StabilityIsSettled(record, sampledMs) && !record.runtime.pendingRestart && !record.runtime.supervisedRestart
    requires record.spec.autorestart && record.spec.minUptimeMs > 0 && record.spec.maxRestarts == 4
    requires record.runtime.unstableRestarts == 3
    ensures var byHand := Leaving(Signalled, sampledMs, true, ByHand);
            var (left, action) := Answer(record, byHand);
            var (cleared, expected) := Answer(Cleared(record), byHand);
            && action == expected == RestartAfter(0)
            && Answers(left, [Flash()]) == [Settled(Errored)]
            && Answers(cleared, [Flash()])
               == [RestartAfter(BackoffDelay(record.spec.restartDelayMs, record.spec.maxRestartDelayMs, 1))]
  {
    hide BackoffDelay;
    assert [Flash()][1..] == [];
  }

  // ----- how many restarts a stretch of lives gets -----

  predicate Unasked(record: Record, lives: seq<Life>) {
    forall life <- lives :: !life.leaving.stopping && life.leaving.request.NoRequest?
                            && !StopsOnThisCode(record, life.leaving.outcome)
  }

  function Uptimes(lives: seq<Life>): seq<Option<nat>> {
    if lives == [] then []
    else [UptimeOf(lives[0])] + Uptimes(lives[1..])
  }

  /** The restarts before the first exit that gets none. */
  function RestartsBeforeGivingUp(actions: seq<ExitAction>): nat {
    if actions == [] || actions[0].Settled? then 0 else 1 + RestartsBeforeGivingUp(actions[1..])
  }

  function UptimeOf(life: Life): Option<nat> {
    if life.leaving.atMs >= life.startedMs then Some(life.leaving.atMs - life.startedMs) else None
  }

  lemma UnaskedAnswer(record: Record, life: Life)
    requires AtRest(record) && Unasked(record, [life])
    ensures var (left, action) := Answer(Launched(record, life), life.leaving);
            && AtRest(left) && left.spec == record.spec
            && match DecideRestart(PolicyOf(record.spec), UptimeOf(life), record.runtime.unstableRestarts)
               case Again(delayMs, tally) => action == RestartAfter(delayMs) && left.runtime.unstableRestarts == tally
               case GiveUp(_) => action.Settled?
  {
    hide DecideRestart, StopsOnThisCode;
    assert life in [life];
    var up := Launched(record, life);
    assert StopsOnThisCode(up, life.leaving.outcome) == StopsOnThisCode(record, life.leaving.outcome) by {
      SameStops(up, record, life.leaving.outcome);
    }
  }

  lemma StaysUnasked(record: Record, left: Record, lives: seq<Life>)
    requires lives != [] && Unasked(record, lives) && left.spec == record.spec
    ensures Unasked(left, lives[1..])
  {
  }

  /** Exits nobody asked for are answered as the breaker's fold over the uptimes says. */
  lemma {:induction false} UnaskedLives(record: Record, lives: seq<Life>)
    requires AtRest(record) && Unasked(record, lives)
    ensures RestartsBeforeGivingUp(Answers(record, lives))
            == RestartsIn(PolicyOf(record.spec), record.runtime.unstableRestarts, Uptimes(lives))
    decreases |lives|
  {
    if lives != [] {
      assert lives[0] in lives;
      forall life <- lives[1..] ensures life in lives {
      }
      UnaskedAnswer(record, lives[0]);
      hide Answer, Launched, DecideRestart, AtRest, StopsOnThisCode;
      var (left, action) := Answer(Launched(record, lives[0]), lives[0].leaving);
      assert Unasked(left, lives[1..]) by { StaysUnasked(record, left, lives); }
      UnaskedLives(left, lives[1..]);
      assert Uptimes(lives)[1..] == Uptimes(lives[1..]);
      assert Answers(record, lives)[1..] == Answers(left, lives[1..]);
    }
  }

  lemma {:induction false} UptimesUnstable(policy: Policy, lives: seq<Life>)
    requires forall life <- lives :: 0 <= life.leaving.atMs - life.startedMs < policy.minUptimeMs
    ensures AllUnstable(policy, Uptimes(lives)) && |Uptimes(lives)| == |lives|
  {
    if lives != [] {
      assert lives[0] in lives;
      UptimesUnstable(policy, lives[1..]);
    }
  }

  /**
   * A service whose lives all end unasked before `min_uptime_ms` is restarted exactly as often as it
   * lives, but never more than `max_restarts - 1 - tally` times, however its lives are timed.
   */
  lemma BreakerBoundsTheLives(record: Record, lives: seq<Life>)
    requires AtRest(record) && Unasked(record, lives) && Fits(record)
    requires record.spec.autorestart && record.runtime.unstableRestarts < record.spec.maxRestarts
    requires forall life <- lives :: 0 <= life.leaving.atMs - life.startedMs < record.spec.minUptimeMs
    ensures RestartsBeforeGivingUp(Answers(record, lives))
            == Min(|lives|, record.spec.maxRestarts - 1 - record.runtime.unstableRestarts)
  {
    UnaskedLives(record, lives);
    UptimesUnstable(PolicyOf(record.spec), lives);
    BreakerTrips(PolicyOf(record.spec), record.runtime.unstableRestarts, Uptimes(lives));
  }
}
