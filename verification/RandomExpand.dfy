/**
 * Random cron fields (adapters/src/schedule/random_expand.rs): `low~high` and `low~high/step`, drawn
 * with a generator or widened to the whole range.
 */
module RandomExpand {
  import opened Model
  import opened Text

  datatype ExpandError = ZeroStep | InvertedRange | OutOfRange | Malformed

  datatype Result<+T> = Ok(value: T) | Err(error: ExpandError)

  /** A rendered field: the text as given, one value, a range, or a stepped range. */
  datatype Rendered = Verbatim(text: string) | Single(at: nat) | Range(low: nat, high: nat) | Stepped(from: nat, high: nat, step: nat)

  /** A random number generator: its answer for an inclusive range. */
  type Rng = (nat, nat) -> nat

  ghost predicate Fair(rng: Rng) {
    forall low: nat, high: nat :: low <= high ==> low <= rng(low, high) <= high
  }

  const RANDOM_MARK := '~'
  const STEP_MARK := '/'
  const SUNDAY_ALIAS := 7

  /** `parse::<u32>`: an optional plus sign, at least one digit, no overflow. */
  function ParseU32(text: string): Option<nat> {
    var body := if text != "" && text[0] == '+' then text[1..] else text;
    if body == "" || exists c <- body :: !IsDigit(c) then None
    else if DecimalValue(body) > U32_MAX then None
    else Some(DecimalValue(body))
  }

  function ParseBound(text: string, fallback: nat): Result<nat> {
    if text == "" then Ok(fallback)
    else if ParseU32(text).None? then Err(Malformed)
    else Ok(ParseU32(text).value)
  }

  function ParseBounds(lowText: string, highText: string, lowBound: nat, highBound: nat): Result<(nat, nat)> {
    match ParseBound(lowText, lowBound)
    case Err(error) => Err(error)
    case Ok(low) =>
      match ParseBound(highText, highBound)
      case Err(error) => Err(error)
      case Ok(high) =>
        if low > high then Err(InvertedRange)
        else if low < lowBound || high > highBound then Err(OutOfRange)
        else Ok((low, high))
  }

  function SplitStep(tail: string): Result<(string, Option<nat>)> {
    var i := FirstMark(tail, STEP_MARK);
    if i == |tail| then Ok((tail, None))
    else
      var step := ParseU32(tail[i + 1..]);
      if step.None? then Err(Malformed)
      else if step.value == 0 then Err(ZeroStep)
      else Ok((tail[..i], step))
  }

  function NormaliseWeekday(value: nat, weekday: bool): nat {
    if weekday && value == SUNDAY_ALIAS then 0 else value
  }

  /** `expand_field`, drawing when there is a generator and widening when there is none. */
  function ExpandField(field: string, lowBound: nat, highBound: nat, weekday: bool, rng: Option<Rng>): Result<Rendered> {
    var i := FirstMark(field, RANDOM_MARK);
    if i == |field| then Ok(Verbatim(field))
    else
      match SplitStep(field[i + 1..])
      case Err(error) => Err(error)
      case Ok((highText, step)) =>
        match ParseBounds(field[..i], highText, lowBound, highBound)
        case Err(error) => Err(error)
        case Ok((low, high)) =>
          match rng
          case None => Ok(Range(low, high))
          case Some(pick) =>
            if step.None? then Ok(Single(NormaliseWeekday(pick(low, high), weekday)))
            else
              var raised := low + pick(0, if step.value > 0 then step.value - 1 else 0);
              var offset := if raised > U32_MAX then U32_MAX else raised;
              Ok(Stepped(if offset > high then high else offset, high, step.value))
  }

  // ----- what a rendered field admits -----

  /** The values a field names; what a verbatim field names is left open. */
  predicate Holds(rendered: Rendered, verbatim: (string, nat) -> bool, v: nat) {
    match rendered
    case Verbatim(text) => verbatim(text, v)
    case Single(at) => v == at
    case Range(low, high) => low <= v <= high
    case Stepped(from, high, step) => from <= v <= high && step > 0 && (v - from) % step == 0
  }

  /** On the weekday field 7 is another name for Sunday, 0. */
  predicate Admits(rendered: Rendered, verbatim: (string, nat) -> bool, weekday: bool, v: nat) {
    Holds(rendered, verbatim, v)
    || (weekday && v == 0 && Holds(rendered, verbatim, SUNDAY_ALIAS))
  }

  ghost predicate Within(draw: Rendered, wide: Rendered, verbatim: (string, nat) -> bool, weekday: bool) {
    forall v: nat :: Admits(draw, verbatim, weekday, v) ==> Admits(wide, verbatim, weekday, v)
  }

  /** Some value of the field's own range is named; on the weekday field 7 may be named as 0. */
  ghost predicate IsInhabited(draw: Rendered, verbatim: (string, nat) -> bool, weekday: bool, lowBound: nat, highBound: nat) {
    exists v :: lowBound <= v <= highBound
                && (Holds(draw, verbatim, v) || (weekday && v == SUNDAY_ALIAS && Holds(draw, verbatim, 0)))
  }

  /**
   * Drawing and widening accept the same fields, every draw admits only what the widened field admits,
   * and a draw from a random field is never empty.
   */
  lemma DrawsLieInTheWidenedField(field: string, lowBound: nat, highBound: nat, weekday: bool, rng: Rng,
                                  verbatim: (string, nat) -> bool)
    requires Fair(rng) && highBound <= U32_MAX
    ensures var wide := ExpandField(field, lowBound, highBound, weekday, None);
            var draw := ExpandField(field, lowBound, highBound, weekday, Some(rng));
            && (wide.Ok? <==> draw.Ok?)
            && (wide.Err? ==> wide.error == draw.error)
            && (wide.Ok? ==> Within(draw.value, wide.value, verbatim, weekday))
            && (wide.Ok? && RANDOM_MARK in field ==> IsInhabited(draw.value, verbatim, weekday, lowBound, highBound))
  {
    hide FirstMark, SplitStep, ParseBounds, Within, IsInhabited, Fair;
    var i := FirstMark(field, RANDOM_MARK);
    var draw := ExpandField(field, lowBound, highBound, weekday, Some(rng));
    var wide := ExpandField(field, lowBound, highBound, weekday, None);
    if i == |field| {
      assert field[..i] == field;
      SameIsWithin(wide.value, verbatim, weekday);
    } else if draw.Ok? {
      var (highText, step) := SplitStep(field[i + 1..]).value;
      var (low, high) := ParseBounds(field[..i], highText, lowBound, highBound).value;
      BoundsHold(field[..i], highText, lowBound, highBound);
      StepIsPositive(field[i + 1..]);
      if step.None? {
        SingleIsWithin(low, high, weekday, rng, verbatim, lowBound, highBound);
      } else {
        SteppedIsWithin(low, high, step.value, weekday, rng, verbatim, lowBound, highBound);
      }
    }
  }

  lemma SameIsWithin(rendered: Rendered, verbatim: (string, nat) -> bool, weekday: bool)
    ensures Within(rendered, rendered, verbatim, weekday)
  {
  }

  lemma BoundsHold(lowText: string, highText: string, lowBound: nat, highBound: nat)
    requires ParseBounds(lowText, highText, lowBound, highBound).Ok?
    ensures var (low, high) := ParseBounds(lowText, highText, lowBound, highBound).value;
            lowBound <= low <= high <= highBound
  {
    hide ParseBound;
  }

  lemma StepIsPositive(tail: string)
    requires SplitStep(tail).Ok?
    ensures SplitStep(tail).value.1.Some? ==> SplitStep(tail).value.1.value > 0
  {
    hide ParseU32, FirstMark;
  }

  lemma SingleIsWithin(low: nat, high: nat, weekday: bool, rng: Rng, verbatim: (string, nat) -> bool,
                       lowBound: nat, highBound: nat)
    requires lowBound <= low <= high <= highBound && Fair(rng)
    ensures var draw := Single(NormaliseWeekday(rng(low, high), weekday));
            && Within(draw, Range(low, high), verbatim, weekday)
            && IsInhabited(draw, verbatim, weekday, lowBound, highBound)
  {
    var v := rng(low, high);
    var draw := Single(NormaliseWeekday(v, weekday));
    assert Holds(draw, verbatim, v) || (weekday && v == SUNDAY_ALIAS && Holds(draw, verbatim, 0));
  }

  lemma SteppedIsWithin(low: nat, high: nat, step: nat, weekday: bool, rng: Rng, verbatim: (string, nat) -> bool,
                        lowBound: nat, highBound: nat)
    requires lowBound <= low <= high <= highBound <= U32_MAX && step > 0 && Fair(rng)
    ensures var raised := low + rng(0, step - 1);
            var offset := if raised > U32_MAX then U32_MAX else raised;
            var draw := Stepped(if offset > high then high else offset, high, step);
            && Within(draw, Range(low, high), verbatim, weekday)
            && IsInhabited(draw, verbatim, weekday, lowBound, highBound)
  {
    var offset := low + rng(0, step - 1);
    var from := if offset > high then high else offset;
    assert Holds(Stepped(from, high, step), verbatim, from) && lowBound <= from <= highBound;
  }

  // ----- what is written in a field -----

  /** A decimal number that fits 32 bits, with an optional plus sign. */
  ghost predicate Numeral(text: string, v: nat) {
    exists digits ::
      && (text == digits || text == "+" + digits)
      && digits != "" && (forall c <- digits :: '0' <= c <= '9')
      && v == DecimalValue(digits) && v <= U32_MAX
  }

  /** A bound as written: a number, or the field's own when nothing is written. */
  ghost predicate BoundReads(text: string, own: nat, v: nat) {
    if text == "" then v == own else Numeral(text, v)
  }

  /** The field is `low~high`, or `low~high/step` in these words. */
  predicate Spelled(field: string, low: string, high: string, step: Option<string>) {
    && RANDOM_MARK !in low && STEP_MARK !in high
    && field == low + [RANDOM_MARK] + high + (if step.Some? then [STEP_MARK] + step.value else "")
  }

  /** The field says: from `low` to `high`, in steps if there is one. */
  ghost predicate Says(field: string, lowBound: nat, highBound: nat, low: nat, high: nat, step: Option<nat>) {
    exists l: string, h: string, st: Option<string> ::
      && Spelled(field, l, h, st) && BoundReads(l, lowBound, low) && BoundReads(h, highBound, high)
      && (st.Some? <==> step.Some?) && (step.Some? ==> Numeral(st.value, step.value))
  }

  /** What a field says is one thing. */
  lemma SpelledOnce(field: string, l: string, h: string, st: Option<string>)
    requires Spelled(field, l, h, st)
    ensures var i := FirstMark(field, RANDOM_MARK);
            var tail := field[|l| + 1..];
            var k := FirstMark(tail, STEP_MARK);
            && i == |l| && i < |field| && field[..i] == l && tail == h + (if st.Some? then [STEP_MARK] + st.value else "")
            && k == |h| && tail[..k] == h && (st.Some? <==> k < |tail|) && (st.Some? ==> tail[k + 1..] == st.value)
  {
    var rest := if st.Some? then [STEP_MARK] + st.value else "";
    assert field == l + ([RANDOM_MARK] + (h + rest));
    MarkAfter(l, [RANDOM_MARK] + (h + rest), RANDOM_MARK);
    assert field[|l| + 1..] == h + rest;
    MarkAfter(h, rest, STEP_MARK);
    assert (h + rest)[..|h|] == h && (h + rest)[|h|..] == rest;
  }

  lemma {:induction false} MarkAfter(head: string, rest: string, mark: char)
    requires mark !in head && (rest == "" || rest[0] == mark)
    ensures FirstMark(head + rest, mark) == |head|
  {
    if head == "" {
      assert head + rest == rest;
    } else {
      assert (head + rest)[0] == head[0] && head[0] in head;
      assert (head + rest)[1..] == head[1..] + rest;
      forall c <- head[1..] ensures c in head {
      }
      MarkAfter(head[1..], rest, mark);
    }
  }

  /** A field with a mark can be spelled. */
  lemma SpelledSomehow(field: string) returns (l: string, h: string, st: Option<string>)
    requires RANDOM_MARK in field
    ensures Spelled(field, l, h, st)
  {
    assert field[..|field|] == field;
    CutAtMark(field, RANDOM_MARK);
    var i := FirstMark(field, RANDOM_MARK);
    var tail := field[i + 1..];
    CutAtMark(tail, STEP_MARK);
    var k := FirstMark(tail, STEP_MARK);
    l, h := field[..i], tail[..k];
    st := if k < |tail| then Some(tail[k + 1..]) else None;
    JoinsUp(field, l, tail, h, st);
  }

  lemma CutAtMark(text: string, mark: char)
    ensures var i := FirstMark(text, mark);
            && mark !in text[..i]
            && text == text[..i] + (if i < |text| then [mark] + text[i + 1..] else "")
  {
    hide FirstMark;
    CutAt(text, FirstMark(text, mark));
  }

  lemma CutAt(text: string, i: nat)
    requires i <= |text|
    ensures text == text[..i] + (if i < |text| then [text[i]] + text[i + 1..] else "")
  {
  }

  lemma JoinsUp(field: string, l: string, tail: string, h: string, st: Option<string>)
    requires RANDOM_MARK !in l && STEP_MARK !in h
    requires field == l + ([RANDOM_MARK] + tail) && tail == h + (if st.Some? then [STEP_MARK] + st.value else "")
    ensures Spelled(field, l, h, st)
  {
    var rest := if st.Some? then [STEP_MARK] + st.value else "";
    assert l + ([RANDOM_MARK] + (h + rest)) == l + [RANDOM_MARK] + h + rest;
  }

  lemma ReadsNumeral(text: string)
    ensures ParseU32(text).Some? ==> Numeral(text, ParseU32(text).value)
    ensures forall v: nat :: Numeral(text, v) ==> ParseU32(text) == Some(v)
  {
    hide DecimalValue;
    if ParseU32(text).Some? {
      var body := if text != "" && text[0] == '+' then text[1..] else text;
      assert text == body || text == "+" + body;
      forall c <- body ensures '0' <= c <= '9' {
        assert IsDigit(c);
      }
      assert Numeral(text, DecimalValue(body));
    }
    forall v: nat | Numeral(text, v) ensures ParseU32(text) == Some(v) {
      var digits :| (text == digits || text == "+" + digits) && digits != "" && (forall c <- digits :: '0' <= c <= '9')
                    && v == DecimalValue(digits) && v <= U32_MAX;
      assert digits[0] in digits;
      if text == "+" + digits {
        assert text[1..] == digits;
      }
    }
  }

  lemma ReadsBound(text: string, own: nat)
    ensures ParseBound(text, own).Ok? ==> BoundReads(text, own, ParseBound(text, own).value)
    ensures forall v: nat :: BoundReads(text, own, v) ==> ParseBound(text, own) == Ok(v)
    ensures ParseBound(text, own).Err? ==> ParseBound(text, own).error == Malformed
  {
    hide ParseU32, Numeral;
    ReadsNumeral(text);
  }

  /** Why a field that says these numbers is refused, if it is. */
  function Refusal(lowBound: nat, highBound: nat, low: nat, high: nat, step: Option<nat>): Option<ExpandError> {
    if step == Some(0) then Some(ZeroStep)
    else if low > high then Some(InvertedRange)
    else if low < lowBound || high > highBound then Some(OutOfRange)
    else None
  }

  /** The field can be read, and lies inside its own bounds with no step or a positive one. */
  ghost predicate Acceptable(field: string, lowBound: nat, highBound: nat) {
    RANDOM_MARK in field ==>
      exists low, high, step :: Says(field, lowBound, highBound, low, high, step) && Refusal(lowBound, highBound, low, high, step).None?
  }

  /**
   * An accepted field without a mark stands as it is. One with a mark widens to the range it says; drawn
   * without a step it is one value of the range, Sunday being 0; drawn with one it begins within a step of
   * the low end, kept inside the range, and ends at the high end.
   */
  ghost predicate MeansItsNumbers(field: string, lowBound: nat, highBound: nat, weekday: bool, rng: Rng,
                                  wide: Rendered, draw: Rendered) {
    if RANDOM_MARK !in field then wide == draw == Verbatim(field)
    else
      exists low, high, step ::
        && Says(field, lowBound, highBound, low, high, step) && Refusal(lowBound, highBound, low, high, step).None?
        && wide == Range(low, high) && DrawnFrom(draw, low, high, step, weekday, rng)
  }

  /**
   * What a field is, by the numbers written in it: accepted exactly when it is acceptable, and then it
   * means them; a random field that says something is refused for the reason its numbers give, and one
   * that says nothing is malformed, unless its step already reads 0.
   */
  lemma FieldMeansItsNumbers(field: string, lowBound: nat, highBound: nat, weekday: bool, rng: Rng)
    requires Fair(rng) && highBound <= U32_MAX
    ensures var wide := ExpandField(field, lowBound, highBound, weekday, None);
            var draw := ExpandField(field, lowBound, highBound, weekday, Some(rng));
            && (wide.Ok? <==> Acceptable(field, lowBound, highBound))
            && (wide.Ok? ==> draw.Ok? && MeansItsNumbers(field, lowBound, highBound, weekday, rng, wide.value, draw.value))
            && (wide.Err? ==> draw == Err(wide.error))
            && (forall low, high, step :: RANDOM_MARK in field && Says(field, lowBound, highBound, low, high, step) ==>
                  if Refusal(lowBound, highBound, low, high, step).Some?
                  then wide == Err(Refusal(lowBound, highBound, low, high, step).value) else wide == Ok(Range(low, high)))
            && (wide.Err? && !(exists low, high, step :: Says(field, lowBound, highBound, low, high, step)) ==>
                  wide.error == Malformed || wide.error == ZeroStep)
  {
    var wide := ExpandField(field, lowBound, highBound, weekday, None);
    var draw := ExpandField(field, lowBound, highBound, weekday, Some(rng));
    hide ExpandField, DrawnFrom, Fair, FirstMark, Says, Refusal;
    if RANDOM_MARK !in field {
      StandsAsItIs(field, lowBound, highBound, weekday, None);
      StandsAsItIs(field, lowBound, highBound, weekday, Some(rng));
    } else {
      forall low, high, step | Says(field, lowBound, highBound, low, high, step)
        ensures var refusal := Refusal(lowBound, highBound, low, high, step);
                if refusal.Some? then wide == draw == Err(refusal.value)
                else wide == Ok(Range(low, high)) && draw.Ok? && DrawnFrom(draw.value, low, high, step, weekday, rng) {
        SaidIsRead(field, lowBound, highBound, weekday, rng, low, high, step);
      }
      ReadIsSaid(field, lowBound, highBound, weekday, rng);
    }
  }

  lemma StandsAsItIs(field: string, lowBound: nat, highBound: nat, weekday: bool, rng: Option<Rng>)
    requires RANDOM_MARK !in field
    ensures ExpandField(field, lowBound, highBound, weekday, rng) == Ok(Verbatim(field))
  {
    MarkAfter(field, "", RANDOM_MARK);
    assert field + "" == field;
  }

  lemma SaidIsRead(field: string, lowBound: nat, highBound: nat, weekday: bool, rng: Rng, low: nat, high: nat, step: Option<nat>)
    requires RANDOM_MARK in field && Fair(rng) && highBound <= U32_MAX && Says(field, lowBound, highBound, low, high, step)
    ensures var wide := ExpandField(field, lowBound, highBound, weekday, None);
            var draw := ExpandField(field, lowBound, highBound, weekday, Some(rng));
            var refusal := Refusal(lowBound, highBound, low, high, step);
            if refusal.Some? then wide == draw == Err(refusal.value)
            else wide == Ok(Range(low, high)) && draw.Ok? && DrawnFrom(draw.value, low, high, step, weekday, rng)
  {
    var l, h, st := SpelledSomehow(field);
    WordsExpand(field, lowBound, highBound, weekday, None, l, h, st);
    WordsExpand(field, lowBound, highBound, weekday, Some(rng), l, h, st);
    SaysInWords(field, lowBound, highBound, low, high, step, l, h, st);
    WordsRead(l, h, st, lowBound, highBound, low, high, step);
    hide ExpandField, DrawnFrom, Fair, FirstMark, Says, ParseBounds, ParseU32, Spelled, Steps;
    if Refusal(lowBound, highBound, low, high, step).None? {
      DrawsFrom(low, high, step, weekday, rng);
    }
  }

  lemma ReadIsSaid(field: string, lowBound: nat, highBound: nat, weekday: bool, rng: Rng)
    requires RANDOM_MARK in field && Fair(rng) && highBound <= U32_MAX
    ensures var wide := ExpandField(field, lowBound, highBound, weekday, None);
            && (wide.Ok? ==> exists low, high, step ::
                  Says(field, lowBound, highBound, low, high, step) && Refusal(lowBound, highBound, low, high, step).None?)
            && (wide.Err? ==> wide.error in {Malformed, ZeroStep}
                              || exists low, high, step :: Says(field, lowBound, highBound, low, high, step))
            && (wide.Err? ==> ExpandField(field, lowBound, highBound, weekday, Some(rng)) == Err(wide.error))
  {
    var l, h, st := SpelledSomehow(field);
    WordsExpand(field, lowBound, highBound, weekday, None, l, h, st);
    WordsExpand(field, lowBound, highBound, weekday, Some(rng), l, h, st);
    hide ExpandField, FirstMark, Says, ParseU32, Spelled, ParseBounds;
    BoundsErr(l, h, lowBound, highBound);
    var wide := ExpandField(field, lowBound, highBound, weekday, None);
    if wide.Ok? || wide.error in {InvertedRange, OutOfRange} {
      var low, high, step := WordsSay(field, l, h, st, lowBound, highBound);
    }
  }

  lemma BoundsErr(l: string, h: string, lowBound: nat, highBound: nat)
    ensures var bounds := ParseBounds(l, h, lowBound, highBound);
            bounds.Err? ==> bounds.error in {Malformed, InvertedRange, OutOfRange}
                            && (bounds.error != Malformed ==> ParseBound(l, lowBound).Ok? && ParseBound(h, highBound).Ok?)
  {
    hide ParseU32;
  }

  /** What a field from `low` to `high` widens to or is drawn as. */
  function Expanded(low: nat, high: nat, step: Option<nat>, weekday: bool, rng: Option<Rng>): Rendered
    requires step.Some? ==> step.value > 0
  {
    if rng.None? then Range(low, high)
    else if step.None? then Single(NormaliseWeekday(rng.value(low, high), weekday))
    else Steps(low, high, step.value, rng.value)
  }

  /** Widening or drawing, from the words of the field. */
  lemma WordsExpand(field: string, lowBound: nat, highBound: nat, weekday: bool, rng: Option<Rng>,
                    l: string, h: string, st: Option<string>)
    requires Spelled(field, l, h, st)
    ensures var bounds := ParseBounds(l, h, lowBound, highBound);
            var step := if st.Some? then ParseU32(st.value) else None;
            ExpandField(field, lowBound, highBound, weekday, rng) ==
              if st.Some? && step.None? then Err(Malformed)
              else if step == Some(0) then Err(ZeroStep)
              else if bounds.Err? then Err(bounds.error)
              else Ok(Expanded(bounds.value.0, bounds.value.1, step, weekday, rng))
  {
    SpelledOnce(field, l, h, st);
    SplitsAs(field[|l| + 1..], h, st);
    CutExpands(field, lowBound, highBound, weekday, rng, l);
    hide ParseBounds, ParseU32, FirstMark, SplitStep, Expanded, Spelled, ExpandField;
  }

  /** The branches of `expand_field` once the field is cut. */
  lemma CutExpands(field: string, lowBound: nat, highBound: nat, weekday: bool, rng: Option<Rng>, l: string)
    requires FirstMark(field, RANDOM_MARK) == |l| < |field| && field[..|l|] == l
    requires SplitStep(field[|l| + 1..]).Ok? ==> SplitStep(field[|l| + 1..]).value.1 != Some(0)
    ensures ExpandField(field, lowBound, highBound, weekday, rng) ==
              match SplitStep(field[|l| + 1..])
              case Err(error) => Err(error)
              case Ok((highText, step)) =>
                match ParseBounds(l, highText, lowBound, highBound)
                case Err(error) => Err(error)
                case Ok((low, high)) =>
                  Ok(Expanded(low, high, step, weekday, rng))
  {
    hide ParseBounds, FirstMark, SplitStep, NormaliseWeekday;
  }

  /** The stepped range of a draw, its start saturated and kept inside the range. */
  function Steps(low: nat, high: nat, step: nat, pick: Rng): Rendered
    requires step > 0
  {
    var raised := low + pick(0, step - 1);
    var offset := if raised > U32_MAX then U32_MAX else raised;
    Stepped(if offset > high then high else offset, high, step)
  }

  lemma WordsRead(l: string, h: string, st: Option<string>, lowBound: nat, highBound: nat, low: nat, high: nat, step: Option<nat>)
    requires BoundReads(l, lowBound, low) && BoundReads(h, highBound, high)
    requires (st.Some? <==> step.Some?) && (step.Some? ==> Numeral(st.value, step.value))
    ensures ParseBounds(l, h, lowBound, highBound) ==
              if low > high then Err(InvertedRange) else if low < lowBound || high > highBound then Err(OutOfRange) else Ok((low, high))
    ensures st.Some? ==> ParseU32(st.value) == step
  {
    ReadsBound(l, lowBound);
    ReadsBound(h, highBound);
    ReadsNumeral(if st.Some? then st.value else "");
    hide Numeral, ParseU32, ParseBound, BoundReads;
  }

  lemma WordsSay(field: string, l: string, h: string, st: Option<string>, lowBound: nat, highBound: nat)
      returns (low: nat, high: nat, step: Option<nat>)
    requires Spelled(field, l, h, st) && ParseBound(l, lowBound).Ok? && ParseBound(h, highBound).Ok?
    requires st.Some? ==> ParseU32(st.value).Some?
    ensures Says(field, lowBound, highBound, low, high, step)
    ensures ParseBounds(l, h, lowBound, highBound).Ok? && (st.Some? ==> ParseU32(st.value) != Some(0)) ==>
              Refusal(lowBound, highBound, low, high, step).None?
  {
    ReadsBound(l, lowBound);
    ReadsBound(h, highBound);
    ReadsNumeral(if st.Some? then st.value else "");
    hide Numeral, ParseU32, ParseBound, BoundReads, Spelled;
    low, high := ParseBound(l, lowBound).value, ParseBound(h, highBound).value;
    step := if st.Some? then ParseU32(st.value) else None;
  }

  lemma SplitsAs(tail: string, h: string, st: Option<string>)
    requires STEP_MARK !in h && tail == h + (if st.Some? then [STEP_MARK] + st.value else "")
    requires FirstMark(tail, STEP_MARK) == |h|
    ensures SplitStep(tail) ==
              if st.None? then Ok((h, None))
              else if ParseU32(st.value).None? then Err(Malformed)
              else if ParseU32(st.value).value == 0 then Err(ZeroStep)
              else Ok((h, ParseU32(st.value)))
  {
    hide ParseU32, FirstMark;
    assert tail[..|h|] == h;
    if st.Some? {
      assert tail[|h| + 1..] == st.value;
    } else {
      assert tail == h;
    }
  }

  /** A draw from a range: one value of it, or its steps from one of the first values to its end. */
  predicate DrawnFrom(draw: Rendered, low: nat, high: nat, step: Option<nat>, weekday: bool, rng: Rng) {
    match step
    case None =>
      var v := rng(low, high);
      low <= v <= high && draw == Single(if weekday && v == 7 then 0 else v)
    case Some(every) =>
      every > 0 &&
      var from := low + rng(0, every - 1);
      from < low + every && draw == Stepped(if from <= high then from else high, high, every)
  }

  lemma DrawsFrom(low: nat, high: nat, step: Option<nat>, weekday: bool, rng: Rng)
    requires Fair(rng) && low <= high <= U32_MAX && (step.Some? ==> step.value > 0)
    ensures step.None? ==> DrawnFrom(Single(NormaliseWeekday(rng(low, high), weekday)), low, high, step, weekday, rng)
    ensures step.Some? ==> DrawnFrom(Steps(low, high, step.value, rng), low, high, step, weekday, rng)
  {
  }

  lemma SaysInWords(field: string, lowBound: nat, highBound: nat, low: nat, high: nat, step: Option<nat>,
                    l: string, h: string, st: Option<string>)
    requires Says(field, lowBound, highBound, low, high, step) && Spelled(field, l, h, st)
    ensures BoundReads(l, lowBound, low) && BoundReads(h, highBound, high)
    ensures (st.Some? <==> step.Some?) && (step.Some? ==> Numeral(st.value, step.value))
  {
    hide Numeral;
    var a, b, c :| Spelled(field, a, b, c) && BoundReads(a, lowBound, low) && BoundReads(b, highBound, high)
                   && (c.Some? <==> step.Some?) && (step.Some? ==> Numeral(c.value, step.value));
    SpelledOnce(field, l, h, st);
    SpelledOnce(field, a, b, c);
  }

  // ----- the whole pattern -----

  const FIELD_COUNT := 5

  function BoundsOf(index: nat): (nat, nat) {
    if index == 0 then (0, 59)
    else if index == 1 then (0, 23)
    else if index == 2 then (1, 31)
    else if index == 3 then (1, 12)
    else (0, 7)
  }

  /** `expand` on a split pattern: field by field, stopping at the first error; `rngs` is the generator's run. */
  function ExpandFrom(fields: seq<string>, index: nat, rngs: Option<nat -> Rng>): Result<seq<Rendered>>
    decreases |fields|
  {
    if fields == [] then Ok([])
    else
      var (low, high) := BoundsOf(index);
      match ExpandField(fields[0], low, high, index == 4, RngAt(rngs, index))
      case Err(error) => Err(error)
      case Ok(rendered) =>
        match ExpandFrom(fields[1..], index + 1, rngs)
        case Err(error) => Err(error)
        case Ok(rest) => Ok([rendered] + rest)
  }

  /** Every field of a drawn pattern admits only what the same field of the widened pattern admits. */
  lemma {:induction false} DrawIsWithinWidened(fields: seq<string>, index: nat, rngs: nat -> Rng,
                                               verbatim: (string, nat) -> bool)
    requires forall i :: Fair(rngs(i))
    ensures var wide := ExpandFrom(fields, index, None);
            var draw := ExpandFrom(fields, index, Some(rngs));
            && (wide.Ok? <==> draw.Ok?)
            && (wide.Ok? ==>
                  && |draw.value| == |wide.value| == |fields|
                  && forall k :: 0 <= k < |fields| ==> Within(draw.value[k], wide.value[k], verbatim, index + k == 4))
    decreases |fields|
  {
    hide ExpandField, Within, Fair, Holds;
    if fields != [] {
      var (low, high) := BoundsOf(index);
      DrawsLieInTheWidenedField(fields[0], low, high, index == 4, rngs(index), verbatim);
      DrawIsWithinWidened(fields[1..], index + 1, rngs, verbatim);
      var wide := ExpandFrom(fields, index, None);
      var draw := ExpandFrom(fields, index, Some(rngs));
      if wide.Ok? {
        forall k | 0 <= k < |fields| ensures Within(draw.value[k], wide.value[k], verbatim, index + k == 4) {
          if k > 0 {
            assert index + k == (index + 1) + (k - 1);
          }
        }
      }
    }
  }

  /** The range each field of a pattern has for its own: minutes, hours, days, months, weekdays. */
  const OWN_BOUNDS: seq<(nat, nat)> := [(0, 59), (0, 23), (1, 31), (1, 12), (0, 7)]

  /** The field at `index` of a pattern is acceptable within its own range. */
  ghost predicate FieldAccepted(field: string, index: nat)
    requires index < 5
  {
    Acceptable(field, OWN_BOUNDS[index].0, OWN_BOUNDS[index].1)
  }

  ghost predicate FieldMeans(field: string, index: nat, rng: Rng, wide: Rendered, draw: Rendered)
    requires index < 5
  {
    MeansItsNumbers(field, OWN_BOUNDS[index].0, OWN_BOUNDS[index].1, index == 4, rng, wide, draw)
  }

  /**
   * A pattern of five fields is accepted exactly when each is acceptable within its own range, and then
   * each means its numbers.
   */
  lemma PatternMeansItsNumbers(fields: seq<string>, rngs: nat -> Rng)
    requires |fields| == 5 && forall i :: Fair(rngs(i))
    ensures var wide, draw := Expand(fields, None), Expand(fields, Some(rngs));
            && (wide.Ok? <==> forall k :: 0 <= k < 5 ==> FieldAccepted(fields[k], k))
            && (wide.Ok? ==>
                  && draw.Ok? && |wide.value| == |draw.value| == 5
                  && forall k :: 0 <= k < 5 ==> FieldMeans(fields[k], k, rngs(k), wide.value[k], draw.value[k]))
  {
    hide ExpandFrom, FieldAccepted, FieldMeans, Fair, FieldAt;
    assert fields[0..] == fields;
    var wide, draw := ExpandFrom(fields, 0, None), ExpandFrom(fields, 0, Some(rngs));
    if wide.Err? {
      var k := SomeFieldFails(fields, 0, None);
      FieldAtIndex(fields[k], k, rngs);
    } else {
      if draw.Err? {
        var k := SomeFieldFails(fields, 0, Some(rngs));
        FieldAtIndex(fields[k], k, rngs);
        ExpandsNth(fields, 0, None, k);
      }
      forall k | 0 <= k < 5
        ensures |wide.value| == |draw.value| == 5
        ensures FieldAccepted(fields[k], k) && FieldMeans(fields[k], k, rngs(k), wide.value[k], draw.value[k]) {
        ExpandsNth(fields, 0, None, k);
        ExpandsNth(fields, 0, Some(rngs), k);
        FieldAtIndex(fields[k], k, rngs);
      }
      assert FieldMeans(fields[0], 0, rngs(0), wide.value[0], draw.value[0]);
    }
  }

  /** The expansion of the field at `index`. */
  function FieldAt(field: string, index: nat, rngs: Option<nat -> Rng>): Result<Rendered> {
    ExpandField(field, BoundsOf(index).0, BoundsOf(index).1, index == 4, RngAt(rngs, index))
  }

  lemma {:induction false} ExpandsNth(fields: seq<string>, i: nat, rngs: Option<nat -> Rng>, k: nat)
    requires i <= k < |fields| && ExpandFrom(fields[i..], i, rngs).Ok?
    ensures var r := ExpandFrom(fields[i..], i, rngs).value;
            |r| == |fields| - i && FieldAt(fields[k], k, rngs) == Ok(r[k - i])
    decreases k - i
  {
    hide FieldAt, ExpandFrom;
    ExpandsFirst(fields, i, rngs);
    if i < k {
      ExpandsNth(fields, i + 1, rngs, k);
    } else {
      ExpandsAll(fields, i + 1, rngs);
    }
  }

  lemma {:induction false} ExpandsAll(fields: seq<string>, i: nat, rngs: Option<nat -> Rng>)
    requires i <= |fields| && ExpandFrom(fields[i..], i, rngs).Ok?
    ensures |ExpandFrom(fields[i..], i, rngs).value| == |fields| - i
    decreases |fields| - i
  {
    if i < |fields| {
      hide FieldAt, ExpandFrom;
      ExpandsFirst(fields, i, rngs);
      ExpandsAll(fields, i + 1, rngs);
    }
  }

  lemma {:induction false} SomeFieldFails(fields: seq<string>, i: nat, rngs: Option<nat -> Rng>) returns (k: nat)
    requires i <= |fields| && ExpandFrom(fields[i..], i, rngs).Err?
    ensures i <= k < |fields| && FieldAt(fields[k], k, rngs).Err?
    decreases |fields| - i
  {
    if i < |fields| {
      hide FieldAt, ExpandFrom;
      ExpandsFirst(fields, i, rngs);
      if FieldAt(fields[i], i, rngs).Err? {
        return i;
      }
      k := SomeFieldFails(fields, i + 1, rngs);
    }
  }

  lemma ExpandsFirst(fields: seq<string>, i: nat, rngs: Option<nat -> Rng>)
    requires i < |fields|
    ensures var first, rest := FieldAt(fields[i], i, rngs), ExpandFrom(fields[i + 1..], i + 1, rngs);
            && (ExpandFrom(fields[i..], i, rngs).Ok? <==> first.Ok? && rest.Ok?)
            && (first.Ok? && rest.Ok? ==> ExpandFrom(fields[i..], i, rngs) == Ok([first.value] + rest.value))
  {
    hide ExpandField, BoundsOf;
    assert fields[i..][1..] == fields[i + 1..];
  }

  lemma FieldAtIndex(field: string, index: nat, rngs: nat -> Rng)
    requires index < 5 && Fair(rngs(index))
    ensures var wide, draw := FieldAt(field, index, None), FieldAt(field, index, Some(rngs));
            && (wide.Ok? <==> FieldAccepted(field, index))
            && (wide.Ok? ==> draw.Ok? && FieldMeans(field, index, rngs(index), wide.value, draw.value))
  {
    FieldMeansItsNumbers(field, BoundsOf(index).0, BoundsOf(index).1, index == 4, rngs(index));
    hide ExpandField, Acceptable, MeansItsNumbers, Fair;
  }

  function AllVerbatim(fields: seq<string>): seq<Rendered> {
    if fields == [] then [] else [Verbatim(fields[0])] + AllVerbatim(fields[1..])
  }

  /** `expand`: a pattern of any other length is left to the cron parser as it stands. */
  function Expand(fields: seq<string>, rngs: Option<nat -> Rng>): Result<seq<Rendered>> {
    if |fields| != FIELD_COUNT then Ok(AllVerbatim(fields)) else ExpandFrom(fields, 0, rngs)
  }

  function RngAt(rngs: Option<nat -> Rng>, index: nat): Option<Rng> {
    if rngs.None? then None else Some(rngs.value(index))
  }

  function Continued(rendered: seq<Rendered>, rest: Result<seq<Rendered>>): Result<seq<Rendered>> {
    if rest.Err? then rest else Ok(rendered + rest.value)
  }

  lemma ExpandStep(fields: seq<string>, i: nat, rngs: Option<nat -> Rng>, done: seq<Rendered>)
    requires i < |fields|
    ensures var (low, high) := BoundsOf(i);
            var field := ExpandField(fields[i], low, high, i == 4, RngAt(rngs, i));
            Continued(done, ExpandFrom(fields[i..], i, rngs)) ==
              if field.Err? then Err(field.error)
              else Continued(done + [field.value], ExpandFrom(fields[i + 1..], i + 1, rngs))
  {
    hide ExpandField, BoundsOf;
    assert fields[i..][1..] == fields[i + 1..];
    var rest := ExpandFrom(fields[i + 1..], i + 1, rngs);
    var (low, high) := BoundsOf(i);
    var field := ExpandField(fields[i], low, high, i == 4, RngAt(rngs, i));
    if field.Ok? && rest.Ok? {
      assert done + ([field.value] + rest.value) == (done + [field.value]) + rest.value;
    }
  }

  lemma AcceptedByFields(fields: seq<string>, rngs: Option<nat -> Rng>)
    requires |fields| == 5 && (rngs.Some? ==> forall i :: Fair(rngs.value(i)))
    ensures Expand(fields, rngs).Ok? <==> forall k :: 0 <= k < 5 ==> FieldAccepted(fields[k], k)
  {
    hide FieldAccepted, FieldMeans, Expand;
    var lowest: Rng := (low, high) => low;
    var fair := if rngs.Some? then rngs.value else (i: nat) => lowest;
    PatternMeansItsNumbers(fields, fair);
    if rngs.Some? {
      DrawsAreAccepted(fields, fair);
    }
  }

  lemma DrawsAreAccepted(fields: seq<string>, rngs: nat -> Rng)
    requires |fields| == 5 && forall i :: Fair(rngs(i))
    ensures Expand(fields, None).Ok? <==> Expand(fields, Some(rngs)).Ok?
  {
    DrawIsWithinWidened(fields, 0, rngs, (text, v) => false);
    hide ExpandFrom, Fair;
  }

  /** `expand`: the loop over the five fields, stopping at the first error. */
  method ExpandPattern(fields: seq<string>, rngs: Option<nat -> Rng>) returns (r: Result<seq<Rendered>>)
    ensures r == Expand(fields, rngs)
    ensures |fields| == 5 && (rngs.Some? ==> forall i :: Fair(rngs.value(i))) ==>
              (r.Ok? <==> forall k :: 0 <= k < 5 ==> FieldAccepted(fields[k], k))
  {
    if |fields| == 5 && (rngs.Some? ==> forall i :: Fair(rngs.value(i))) {
      AcceptedByFields(fields, rngs);
    }
    hide ExpandField, BoundsOf, FieldAccepted, Fair;
    if |fields| != FIELD_COUNT {
      return Ok(AllVerbatim(fields));
    }
    var expanded: seq<Rendered> := [];
    assert fields[0..] == fields;
    ghost var all := ExpandFrom(fields, 0, rngs);
    assert all.Ok? ==> [] + all.value == all.value;
    for i := 0 to |fields|
      invariant Continued(expanded, ExpandFrom(fields[i..], i, rngs)) == all
    {
      ExpandStep(fields, i, rngs, expanded);
      var (low, high) := BoundsOf(i);
      var rendered := ExpandField(fields[i], low, high, i == 4, RngAt(rngs, i));
      if rendered.Err? {
        return Err(rendered.error);
      }
      expanded := expanded + [rendered.value];
    }
    assert fields[|fields|..] == [] && expanded + [] == expanded;
    r := Ok(expanded);
  }

  // ----- the instants of a pattern -----

  /** How the cron parser combines what each field says: more admitted values never admit fewer instants. */
  ghost predicate Monotone(combine: seq<bool> -> bool) {
    forall a: seq<bool>, b: seq<bool> ::
      |a| == |b| && (forall k :: 0 <= k < |a| && a[k] ==> b[k]) && combine(a) ==> combine(b)
  }

  /** Whether the pattern fires at `at`, given each field's value on the calendar. */
  predicate FiresAt(rendered: seq<Rendered>, verbatim: (string, nat) -> bool, calendar: (nat, nat) -> nat,
                    combine: seq<bool> -> bool, at: nat) {
    combine(seq(|rendered|, k requires 0 <= k < |rendered| => Admits(rendered[k], verbatim, k == 4, calendar(k, at))))
  }

  /** Every instant of a draw is an instant of the widened pattern, so the widened search skips none. */
  lemma DrawnInstantsAreWide(fields: seq<string>, rngs: nat -> Rng, verbatim: (string, nat) -> bool,
                             calendar: (nat, nat) -> nat, combine: seq<bool> -> bool, at: nat)
    requires (forall i :: Fair(rngs(i))) && Monotone(combine)
    ensures var wide := Expand(fields, None);
            var draw := Expand(fields, Some(rngs));
            && (wide.Ok? <==> draw.Ok?)
            && (wide.Ok? && FiresAt(draw.value, verbatim, calendar, combine, at) ==>
                  FiresAt(wide.value, verbatim, calendar, combine, at))
  {
    hide Admits, ExpandFrom, Fair;
    if |fields| == FIELD_COUNT {
      DrawIsWithinWidened(fields, 0, rngs, verbatim);
      var wide := ExpandFrom(fields, 0, None);
      var draw := ExpandFrom(fields, 0, Some(rngs));
      if wide.Ok? {
        var a := seq(|draw.value|, k requires 0 <= k < |draw.value| => Admits(draw.value[k], verbatim, k == 4, calendar(k, at)));
        var b := seq(|wide.value|, k requires 0 <= k < |wide.value| => Admits(wide.value[k], verbatim, k == 4, calendar(k, at)));
        forall k | 0 <= k < |a| && a[k] ensures b[k] {
          assert Within(draw.value[k], wide.value[k], verbatim, 0 + k == 4);
        }
        assert combine(a) ==> combine(b);
      }
    }
  }
}
