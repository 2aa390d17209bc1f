/**
 * The restart breaker (entities/src/process/restart.rs): the backoff over saturating arithmetic, and the
 * bound on automatic restarts in a stretch of unstable exits.
 */
module Restart {
  import opened Model
  import opened Text

  datatype Policy = Policy(
    autorestart: bool, minUptimeMs: nat, maxRestarts: nat, restartDelayMs: nat, maxRestartDelayMs: nat)

  datatype Decision =
    | Again(delayMs: nat, unstableRestarts: nat)
    | GiveUp(unstableRestarts: nat)

  function PolicyOf(spec: Spec): Policy {
    Policy(spec.autorestart, spec.minUptimeMs, spec.maxRestarts, spec.restartDelayMs, spec.maxRestartDelayMs)
  }

  function SaturatingDouble(x: nat): nat {
    if 2 * x > U64_MAX then U64_MAX else 2 * x
  }

  function Pow2(n: nat): (p: nat)
    ensures p >= 1
  {
    if n == 0 then 1 else 2 * Pow2(n - 1)
  }

  /** The delay over the unbounded integers: the base doubled once per unstable restart after the first. */
  function IdealDelay(base: nat, cap: nat, unstable: nat): nat {
    Min(cap, base * Pow2(if unstable >= 1 then unstable - 1 else 0))
  }

  /** The loop of `backoff_delay`, from the delay reached and the doublings done. */
  function Backoff(delay: nat, cap: nat, doublings: nat, unstable: nat): nat
    decreases unstable - doublings
  {
    if doublings < unstable then
      var doubled := SaturatingDouble(delay);
      if doubled >= cap then cap else Backoff(doubled, cap, doublings + 1, unstable)
    else if delay > cap then cap else delay
  }

  function BackoffDelay(base: nat, cap: nat, unstable: nat): nat {
    Backoff(base, cap, 1, unstable)
  }

  function DecideRestart(policy: Policy, lastUptimeMs: Option<nat>, previous: nat): Decision {
    if !policy.autorestart then GiveUp(previous)
    else
      var unstable :=
        if lastUptimeMs.Some? && lastUptimeMs.value < policy.minUptimeMs
        then SaturatingInc(previous, U32_MAX) else 0;
      if policy.maxRestarts > 0 && unstable >= policy.maxRestarts then GiveUp(unstable)
      else Again(BackoffDelay(policy.restartDelayMs, policy.maxRestartDelayMs, unstable), unstable)
  }

  // ----- the backoff is exact despite saturation -----

  lemma Pow2Monotone(a: nat, b: nat)
    requires a <= b
    ensures Pow2(a) <= Pow2(b)
  {
    if a < b {
      Pow2Monotone(a, b - 1);
    }
  }

  lemma GrowsPastCap(delay: nat, cap: nat, n: nat)
    requires delay >= cap
    ensures Min(cap, delay * Pow2(n)) == cap
  {
    assert delay * Pow2(n) >= delay * 1;
  }

  lemma DoubleOnce(delay: nat, n: nat)
    requires n >= 1
    ensures delay * Pow2(n) == (2 * delay) * Pow2(n - 1)
  {
  }

  lemma {:induction false} BackoffFrom(delay: nat, cap: nat, doublings: nat, unstable: nat)
    requires cap <= U64_MAX
    ensures Backoff(delay, cap, doublings, unstable) ==
              Min(cap, delay * Pow2(if unstable >= doublings then unstable - doublings else 0))
    decreases unstable - doublings
  {
    if doublings < unstable {
      DoubleOnce(delay, unstable - doublings);
      var doubled := SaturatingDouble(delay);
      if doubled >= cap {
        GrowsPastCap(2 * delay, cap, unstable - doublings - 1);
      } else {
        BackoffFrom(doubled, cap, doublings + 1, unstable);
      }
    }
  }

  /** The saturating loop computes min(cap, base * 2^max(0, n - 1)) over the integers. */
  lemma BackoffIsIdeal(base: nat, cap: nat, unstable: nat)
    requires cap <= U64_MAX
    ensures BackoffDelay(base, cap, unstable) == IdealDelay(base, cap, unstable)
  {
    BackoffFrom(base, cap, 1, unstable);
  }

  /** `backoff_delay`: the loop of the source. */
  method ComputeBackoff(base: nat, cap: nat, unstable: nat) returns (delay: nat)
    requires cap <= U64_MAX
    ensures delay == IdealDelay(base, cap, unstable)
  {
    BackoffIsIdeal(base, cap, unstable);
    delay := base;
    var doublings := 1;
    while doublings < unstable
      invariant Backoff(delay, cap, doublings, unstable) == BackoffDelay(base, cap, unstable)
    {
      delay := SaturatingDouble(delay);
      if delay >= cap {
        return cap;
      }
      doublings := doublings + 1;
    }
    if delay > cap {
      delay := cap;
    }
  }

  /** More unstable restarts never shorten the delay. */
  lemma BackoffGrows(base: nat, cap: nat, fewer: nat, more: nat)
    requires cap <= U64_MAX && fewer <= more
    ensures BackoffDelay(base, cap, fewer) <= BackoffDelay(base, cap, more) <= cap
  {
    BackoffIsIdeal(base, cap, fewer);
    BackoffIsIdeal(base, cap, more);
    var low, high := if fewer >= 1 then fewer - 1 else 0, if more >= 1 then more - 1 else 0;
    Pow2Monotone(low, high);
    MulMonotone(base, Pow2(low), Pow2(high));
  }

  lemma MulMonotone(base: nat, a: nat, b: nat)
    requires a <= b
    ensures base * a <= base * b
  {
  }

  // ----- the breaker trips -----

  predicate Unstable(policy: Policy, uptimeMs: Option<nat>) {
    uptimeMs.Some? && uptimeMs.value < policy.minUptimeMs
  }

  /** How many of a stretch of exits are answered with an automatic restart before the breaker gives up. */
  function RestartsIn(policy: Policy, tally: nat, uptimes: seq<Option<nat>>): nat
    decreases |uptimes|
  {
    if uptimes == [] then 0
    else
      match DecideRestart(policy, uptimes[0], tally)
      case GiveUp(_) => 0
      case Again(_, unstable) => 1 + RestartsIn(policy, unstable, uptimes[1..])
  }

  predicate AllUnstable(policy: Policy, uptimes: seq<Option<nat>>) {
    forall u <- uptimes :: Unstable(policy, u)
  }

  /**
   * An unbroken stretch of unstable exits is answered with as many restarts as it has exits, up to
   * `max_restarts - 1 - tally`: the exit that would make the tally reach `max_restarts` is given up.
   */
  lemma {:induction false} BreakerTrips(policy: Policy, tally: nat, uptimes: seq<Option<nat>>)
    requires policy.autorestart && 0 < policy.maxRestarts <= U32_MAX && tally < policy.maxRestarts
    requires AllUnstable(policy, uptimes)
    ensures RestartsIn(policy, tally, uptimes) == Min(|uptimes|, policy.maxRestarts - 1 - tally)
    decreases |uptimes|
  {
    if uptimes != [] {
      assert Unstable(policy, uptimes[0]);
      if tally + 1 < policy.maxRestarts {
        BreakerTrips(policy, tally + 1, uptimes[1..]);
      }
    }
  }

  /** From a zero tally, a stretch of unstable exits yields fewer than `max_restarts` restarts. */
  lemma FewerThanMaxRestarts(policy: Policy, uptimes: seq<Option<nat>>)
    requires policy.autorestart && 0 < policy.maxRestarts <= U32_MAX && AllUnstable(policy, uptimes)
    ensures RestartsIn(policy, 0, uptimes) < policy.maxRestarts
    ensures |uptimes| >= policy.maxRestarts ==> RestartsIn(policy, 0, uptimes) == policy.maxRestarts - 1
  {
    BreakerTrips(policy, 0, uptimes);
  }

  /** With `max_restarts` zero the breaker never trips. */
  lemma {:induction false} NeverTripsAtZero(policy: Policy, tally: nat, uptimes: seq<Option<nat>>)
    requires policy.autorestart && policy.maxRestarts == 0
    ensures RestartsIn(policy, tally, uptimes) == |uptimes|
    decreases |uptimes|
  {
    if uptimes != [] {
      var d := DecideRestart(policy, uptimes[0], tally);
      NeverTripsAtZero(policy, d.unstableRestarts, uptimes[1..]);
    }
  }
}
