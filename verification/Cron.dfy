/**
 * The search for the next fire of a windowed random schedule (adapters/src/schedule/cron_scheduler.rs).
 * Instants are whole seconds; windows are the ordered intervals `startOf` and `endOf` describe.
 */
module Cron {
  import opened Model
  import RandomExpand

  const MILLIS_PER_SECOND := 1000
  const I64_MAX: nat := 0x7FFF_FFFF_FFFF_FFFF

  type Instants = nat -> bool

  /**
   * A schedule: whether it parses, the widened instants, the draw of each window, the window an instant
   * lies in, its end, and the horizon past which the occurrence search gives up.
   */
  datatype Schedule = Schedule(
    parses: bool,
    wide: Instants,
    drawn: nat -> Instants,
    startOf: nat -> nat,
    endOf: nat -> Option<nat>,
    horizon: nat)

  /** Every draw lies in the widened schedule. */
  ghost predicate DrawsAreWide(c: Schedule) {
    forall w: nat, t: nat :: c.drawn(w)(t) ==> c.wide(t)
  }

  /** Windows follow one another, and each reaches to its end. */
  ghost predicate OrderedWindows(startOf: nat -> nat, endOf: nat -> Option<nat>) {
    && (forall t: nat, u: nat :: t <= u ==> startOf(t) <= startOf(u))
    && (forall t: nat :: endOf(startOf(t)).Some? ==>
          && t < endOf(startOf(t)).value
          && forall u: nat :: t <= u < endOf(startOf(t)).value ==> startOf(u) == startOf(t))
  }

  ghost predicate WellFormed(c: Schedule) {
    DrawsAreWide(c) && OrderedWindows(c.startOf, c.endOf)
  }

  /** An instant fires when the draw of its own window holds it. */
  predicate Fires(c: Schedule, t: nat) {
    c.drawn(c.startOf(t))(t)
  }

  lemma FireIsWide(c: Schedule, t: nat)
    requires WellFormed(c) && Fires(c, t)
    ensures c.wide(t)
  {
  }

  lemma DrawnIsWide(c: Schedule, w: nat, t: nat)
    requires WellFormed(c) && c.drawn(w)(t)
    ensures c.wide(t)
  {
  }

  lemma SameWindowUntilEnd(c: Schedule, t: nat, u: nat)
    requires WellFormed(c) && c.endOf(c.startOf(t)).Some?
    ensures t < c.endOf(c.startOf(t)).value
    ensures t <= u < c.endOf(c.startOf(t)).value ==> c.startOf(u) == c.startOf(t)
  {
  }

  lemma WindowsAreOrdered(c: Schedule, t: nat, u: nat, v: nat)
    requires WellFormed(c) && t <= u <= v && c.startOf(t) == c.startOf(v)
    ensures c.startOf(u) == c.startOf(t)
  {
    assert c.startOf(t) <= c.startOf(u) && c.startOf(u) <= c.startOf(v);
  }

  /** `find_next_occurrence`: the least instant of `p` from `from` on, within the horizon. */
  function NextOf(p: Instants, from: nat, horizon: nat): (r: Option<nat>)
    ensures r.Some? ==> from <= r.value <= horizon && p(r.value) && forall t: nat :: from <= t < r.value ==> !p(t)
    ensures r.None? ==> forall t: nat :: from <= t <= horizon ==> !p(t)
    decreases horizon - from
  {
    if from > horizon then None
    else if p(from) then Some(from)
    else NextOf(p, from + 1, horizon)
  }

  /** The least instant from `from` on that fires: the reference the search is measured against. */
  ghost predicate LeastFire(c: Schedule, from: nat, r: Option<nat>) {
    match r
    case Some(t) => from <= t <= c.horizon && Fires(c, t) && forall u: nat :: from <= u < t ==> !Fires(c, u)
    case None => forall u: nat :: from <= u <= c.horizon ==> !Fires(c, u)
  }

  /** One turn finds the fire of the candidate's window, or passes a stretch without any. */
  lemma TurnIsSound(c: Schedule, from: nat, candidate: nat)
    requires WellFormed(c) && NextOf(c.wide, from, c.horizon) == Some(candidate)
    ensures forall u: nat :: from <= u < candidate ==> !Fires(c, u)
    ensures var fire := NextOf(c.drawn(c.startOf(candidate)), from, c.horizon);
            if fire.Some? && c.startOf(fire.value) == c.startOf(candidate)
            then LeastFire(c, from, fire)
            else forall u: nat :: candidate <= u <= c.horizon && c.startOf(u) == c.startOf(candidate) ==> !Fires(c, u)
  {
    var start := c.startOf(candidate);
    var fire := NextOf(c.drawn(start), from, c.horizon);
    forall u: nat | from <= u < candidate ensures !Fires(c, u) {
      if Fires(c, u) {
        DrawnIsWide(c, c.startOf(u), u);
      }
    }
    if fire.Some? && c.startOf(fire.value) == start {
      forall u: nat | from <= u < fire.value ensures !Fires(c, u) {
        if candidate <= u {
          WindowsAreOrdered(c, candidate, u, fire.value);
        }
      }
    } else {
      if fire.Some? {
        DrawnIsWide(c, start, fire.value);
      }
    }
  }

  /** `next_fire_ms`: the loop over windows, the first search exclusive and the later ones inclusive. */
  method NextFireMs(c: Schedule, afterMs: nat) returns (r: Option<nat>)
    requires WellFormed(c)
    ensures !c.parses || afterMs - afterMs % MILLIS_PER_SECOND > I64_MAX ==> r.None?
    ensures c.parses && afterMs - afterMs % MILLIS_PER_SECOND <= I64_MAX ==>
              && (r.Some? ==> r.value % MILLIS_PER_SECOND == 0)
              && LeastFire(c, afterMs / MILLIS_PER_SECOND + 1,
                           if r.Some? then Some(r.value / MILLIS_PER_SECOND) else None)
  {
    hide WellFormed, Fires;
    if !c.parses || afterMs - afterMs % MILLIS_PER_SECOND > I64_MAX {
      return None;
    }
    var cursor := (afterMs - afterMs % MILLIS_PER_SECOND) / MILLIS_PER_SECOND;
    ghost var first := cursor + 1;
    var inclusive := false;
    while true
      invariant first <= cursor + (if inclusive then 0 else 1)
      invariant forall u: nat :: first <= u < cursor + (if inclusive then 0 else 1) && u <= c.horizon ==> !Fires(c, u)
      invariant first == afterMs / MILLIS_PER_SECOND + 1
      decreases c.horizon + 1 - (cursor + (if inclusive then 0 else 1))
    {
      var from := if inclusive then cursor else cursor + 1;
      var candidate := NextOf(c.wide, from, c.horizon);
      if candidate.None? {
        forall u: nat | from <= u <= c.horizon ensures !Fires(c, u) {
          if Fires(c, u) {
            FireIsWide(c, u);
          }
        }
        return None;
      }
      TurnIsSound(c, from, candidate.value);
      var start := c.startOf(candidate.value);
      var fire := NextOf(c.drawn(start), from, c.horizon);
      if fire.Some? && c.startOf(fire.value) == start {
        return Some(fire.value * MILLIS_PER_SECOND);
      }
      var end := c.endOf(start);
      forall u: nat | candidate.value <= u <= c.horizon && (end.Some? ==> u < end.value) && (end.None? ==> u == candidate.value)
        ensures !Fires(c, u) {
        if end.Some? {
          SameWindowUntilEnd(c, candidate.value, u);
        }
      }
      if end.Some? {
        SameWindowUntilEnd(c, candidate.value, candidate.value);
      }
      cursor := if end.Some? then end.value else candidate.value + 1;
      inclusive := true;
    }
  }

  // ----- the schedule of a pattern -----

  /**
   * A pattern on a calendar: its fields, the run of the generator seeded for each window, what the cron
   * parser makes of plain fields and how it combines them, each field's value at an instant, the windows.
   */
  datatype Pattern = Pattern(
    fields: seq<string>,
    rngs: nat -> nat -> RandomExpand.Rng,
    accepted: bool,
    verbatim: (string, nat) -> bool,
    combine: seq<bool> -> bool,
    calendar: (nat, nat) -> nat,
    startOf: nat -> nat,
    endOf: nat -> Option<nat>,
    horizon: nat)

  /** What the search asks of the world: fair generators, a parser that only adds up fields, ordered windows. */
  ghost predicate PatternOk(p: Pattern) {
    && (forall w: nat, i: nat :: RandomExpand.Fair(p.rngs(w)(i)))
    && RandomExpand.Monotone(p.combine)
    && OrderedWindows(p.startOf, p.endOf)
  }

  predicate PatternFires(p: Pattern, expanded: RandomExpand.Result<seq<RandomExpand.Rendered>>, t: nat) {
    expanded.Ok? && RandomExpand.FiresAt(expanded.value, p.verbatim, p.calendar, p.combine, t)
  }

  /** The schedule as the scheduler builds it: the widened pattern, and one draw a window. */
  function ScheduleOf(p: Pattern): Schedule {
    var wide := RandomExpand.Expand(p.fields, None);
    Schedule(
      p.accepted && wide.Ok?,
      (t: nat) => PatternFires(p, wide, t),
      (w: nat) => (t: nat) => PatternFires(p, RandomExpand.Expand(p.fields, Some(p.rngs(w))), t),
      p.startOf, p.endOf, p.horizon)
  }

  /** Widening a pattern loses no draw of any window. */
  lemma PatternDrawsAreWide(p: Pattern)
    requires PatternOk(p)
    ensures WellFormed(ScheduleOf(p))
  {
    hide RandomExpand.Expand, RandomExpand.FiresAt, OrderedWindows, RandomExpand.Fair, RandomExpand.Monotone;
    var c := ScheduleOf(p);
    forall w: nat, t: nat | c.drawn(w)(t) ensures c.wide(t) {
      RandomExpand.DrawnInstantsAreWide(p.fields, p.rngs(w), p.verbatim, p.calendar, p.combine, t);
    }
  }

  /**
   * `next_fire_ms` on a pattern: whatever the generators draw, the answer is the least whole second after
   * the given instant that the draw of its own window holds, or none up to the horizon.
   */
  method NextFireOfPattern(p: Pattern, afterMs: nat) returns (r: Option<nat>)
    requires PatternOk(p)
    ensures var c := ScheduleOf(p);
            if c.parses && afterMs - afterMs % MILLIS_PER_SECOND <= I64_MAX then
              && (r.Some? ==> r.value % MILLIS_PER_SECOND == 0)
              && LeastFire(c, afterMs / MILLIS_PER_SECOND + 1,
                           if r.Some? then Some(r.value / MILLIS_PER_SECOND) else None)
            else r.None?
  {
    PatternDrawsAreWide(p);
    r := NextFireMs(ScheduleOf(p), afterMs);
  }

  /** The least fire is unique, so the search has one right answer. */
  lemma LeastFireIsUnique(c: Schedule, from: nat, a: Option<nat>, b: Option<nat>)
    requires LeastFire(c, from, a) && LeastFire(c, from, b)
    ensures a == b
  {
    if a.Some? && b.Some? {
      assert a.value == b.value;
    }
  }

  /** Asking again before the announced fire gives the same fire. */
  lemma NextFireIsStable(c: Schedule, earlier: nat, later: nat, a: Option<nat>, b: Option<nat>)
    requires earlier <= later && LeastFire(c, earlier + 1, a) && LeastFire(c, later + 1, b)
    requires a.Some? ==> later < a.value
    ensures a == b
  {
    if a.Some? {
      assert LeastFire(c, later + 1, a);
    } else {
      assert LeastFire(c, later + 1, None);
    }
    LeastFireIsUnique(c, later + 1, a, b);
  }

  /** In milliseconds: no whole-second instant strictly after `afterMs` and before the answer fires. */
  lemma NoFireIsSkipped(c: Schedule, afterMs: nat, fireMs: nat, otherMs: nat)
    requires fireMs % MILLIS_PER_SECOND == 0 && otherMs % MILLIS_PER_SECOND == 0
    requires LeastFire(c, afterMs / MILLIS_PER_SECOND + 1, Some(fireMs / MILLIS_PER_SECOND))
    requires afterMs < otherMs < fireMs
    ensures fireMs > afterMs && !Fires(c, otherMs / MILLIS_PER_SECOND)
  {
    assert otherMs / MILLIS_PER_SECOND >= afterMs / MILLIS_PER_SECOND + 1;
    assert otherMs / MILLIS_PER_SECOND < fireMs / MILLIS_PER_SECOND;
  }
}
