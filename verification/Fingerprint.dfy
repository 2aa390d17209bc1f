/**
 * The rendering a launch digest is taken of (usecases/src/fingerprint.rs). Text stands for its UTF-8
 * bytes, one `char` each, so lengths are byte lengths and the order of keys is byte order.
 */
module Fingerprint {
  import opened Model
  import opened Text

  // ----- decimal numbers -----

  function Digit(n: nat): char
    requires n < 10
  {
    ('0' as int + n) as char
  }

  function Decimal(n: nat): (text: string)
    ensures text != "" && forall c <- text :: IsDigit(c)
  {
    if n < 10 then [Digit(n)] else Decimal(n / 10) + [Digit(n % 10)]
  }

  lemma {:induction false} DecimalReads(n: nat)
    ensures DecimalValue(Decimal(n)) == n
  {
    if 10 <= n {
      DecimalReads(n / 10);
      assert Decimal(n)[..|Decimal(n)| - 1] == Decimal(n / 10);
    }
  }

  // ----- fields -----

  datatype Field = Field(tag: string, value: string)

  /** `field`: label, length and value, so that no value can be mistaken for what follows it. */
  function RenderField(f: Field): string {
    f.tag + " " + (Decimal(|f.value|) + " " + (f.value + "\n"))
  }

  function RenderFields(fields: seq<Field>): string {
    if fields == [] then "" else RenderField(fields[0]) + RenderFields(fields[1..])
  }

  predicate PlainLabel(f: Field) {
    ' ' !in f.tag
  }

  lemma {:induction false} MarkEndsHead(a: string, mark: char, x: string)
    requires mark !in a
    ensures FirstMark(a + [mark] + x, mark) == |a|
  {
    if a != "" {
      assert a[0] in a;
      assert (a + [mark] + x)[1..] == a[1..] + [mark] + x;
      MarkEndsHead(a[1..], mark, x);
    }
  }

  /** Two texts cut at their first mark agree on both sides of it. */
  lemma SplitAtMark(a: string, x: string, b: string, y: string, mark: char)
    requires mark !in a && mark !in b && a + [mark] + x == b + [mark] + y
    ensures a == b && x == y
  {
    hide FirstMark;
    MarkEndsHead(a, mark, x);
    MarkEndsHead(b, mark, y);
    assert (a + [mark] + x)[..|a|] == a && (b + [mark] + y)[..|b|] == b;
    assert (a + [mark] + x)[|a| + 1..] == x && (b + [mark] + y)[|b| + 1..] == y;
  }

  lemma DecimalHasNoSpace(n: nat)
    ensures ' ' !in Decimal(n)
  {
    assert forall c <- Decimal(n) :: IsDigit(c);
  }

  /** The first field and the rest can be told apart. */
  lemma FieldSplits(f: Field, rest: string, g: Field, more: string)
    requires PlainLabel(f) && PlainLabel(g) && RenderField(f) + rest == RenderField(g) + more
    ensures f == g && rest == more
  {
    hide Decimal;
    var fLength, gLength := Decimal(|f.value|), Decimal(|g.value|);
    var fBody, gBody := f.value + "\n" + rest, g.value + "\n" + more;
    assert RenderField(f) + rest == f.tag + " " + (fLength + " " + fBody);
    assert RenderField(g) + more == g.tag + " " + (gLength + " " + gBody);
    SplitAtMark(f.tag, fLength + " " + fBody, g.tag, gLength + " " + gBody, ' ');
    DecimalHasNoSpace(|f.value|);
    DecimalHasNoSpace(|g.value|);
    SplitAtMark(fLength, fBody, gLength, gBody, ' ');
    DecimalReads(|f.value|);
    DecimalReads(|g.value|);
    assert fBody[..|f.value|] == f.value && gBody[..|g.value|] == g.value;
    assert fBody[|f.value| + 1..] == rest && gBody[|g.value| + 1..] == more;
  }

  /** The rendering determines the list of fields. */
  lemma {:induction false} FieldsAreReadable(fields: seq<Field>, others: seq<Field>)
    requires forall f <- fields :: PlainLabel(f)
    requires forall f <- others :: PlainLabel(f)
    requires RenderFields(fields) == RenderFields(others)
    ensures fields == others
  {
    hide RenderField;
    if fields == [] {
      if others != [] {
        FieldIsNotEmpty(others[0]);
      }
    } else if others == [] {
      FieldIsNotEmpty(fields[0]);
    } else {
      FieldSplits(fields[0], RenderFields(fields[1..]), others[0], RenderFields(others[1..]));
      FieldsAreReadable(fields[1..], others[1..]);
      assert fields == [fields[0]] + fields[1..] && others == [others[0]] + others[1..];
    }
  }

  lemma FieldIsNotEmpty(f: Field)
    ensures RenderField(f) != ""
  {
  }

  // ----- the environment, in byte order -----

  datatype Pair = Pair(key: string, value: string)

  /** `str::cmp`. */
  predicate TextBelow(a: string, b: string) {
    if b == "" then false
    else if a == "" then true
    else a[0] < b[0] || (a[0] == b[0] && TextBelow(a[1..], b[1..]))
  }

  lemma {:induction false} TextIsTotal(a: string, b: string)
    ensures TextBelow(a, b) || TextBelow(b, a) || a == b
    ensures !(TextBelow(a, b) && TextBelow(b, a)) && !TextBelow(a, a)
  {
    if a != "" {
      TextIsTotal(a[1..], a[1..]);
    }
    if a != "" && b != "" {
      TextIsTotal(a[1..], b[1..]);
      assert a == [a[0]] + a[1..] && b == [b[0]] + b[1..];
    }
  }

  lemma {:induction false} TextIsTransitive(a: string, b: string, c: string)
    requires TextBelow(a, b) && TextBelow(b, c)
    ensures TextBelow(a, c)
  {
    if a != "" && b != "" && c != "" && a[0] == b[0] == c[0] {
      TextIsTransitive(a[1..], b[1..], c[1..]);
    }
  }

  predicate PairBelow(p: Pair, q: Pair) {
    TextBelow(p.key, q.key) || (p.key == q.key && TextBelow(p.value, q.value))
  }

  predicate PairAtMost(p: Pair, q: Pair) {
    !PairBelow(q, p)
  }

  lemma PairsAreTotal(p: Pair, q: Pair)
    ensures PairAtMost(p, q) || PairAtMost(q, p)
    ensures PairAtMost(p, q) && PairAtMost(q, p) ==> p == q
  {
    TextIsTotal(p.key, q.key);
    TextIsTotal(p.value, q.value);
  }

  lemma PairsAreTransitive(p: Pair, q: Pair, r: Pair)
    requires PairAtMost(p, q) && PairAtMost(q, r)
    ensures PairAtMost(p, r)
  {
    hide TextBelow;
    TextIsTotal(p.key, q.key);
    TextIsTotal(q.key, r.key);
    TextIsTotal(p.key, r.key);
    TextIsTotal(p.value, q.value);
    TextIsTotal(q.value, r.value);
    TextIsTotal(p.value, r.value);
    if TextBelow(p.key, q.key) && TextBelow(q.key, r.key) {
      TextIsTransitive(p.key, q.key, r.key);
    }
    if TextBelow(p.value, q.value) && TextBelow(q.value, r.value) {
      TextIsTransitive(p.value, q.value, r.value);
    }
  }

  ghost predicate IsSorted(pairs: seq<Pair>) {
    forall i, j :: 0 <= i < j < |pairs| ==> PairAtMost(pairs[i], pairs[j])
  }

  function InsertPair(p: Pair, sorted: seq<Pair>): seq<Pair> {
    if sorted == [] || PairAtMost(p, sorted[0]) then [p] + sorted else [sorted[0]] + InsertPair(p, sorted[1..])
  }

  /** `sort_by` on keys, then values. */
  function SortPairs(pairs: seq<Pair>): seq<Pair> {
    if pairs == [] then [] else InsertPair(pairs[0], SortPairs(pairs[1..]))
  }

  lemma {:induction false} InsertHolds(p: Pair, sorted: seq<Pair>)
    ensures multiset(InsertPair(p, sorted)) == multiset(sorted) + multiset{p}
  {
    hide PairAtMost;
    if sorted != [] && !PairAtMost(p, sorted[0]) {
      InsertHolds(p, sorted[1..]);
      assert sorted == [sorted[0]] + sorted[1..];
    }
  }

  lemma {:induction false} InsertKeepsSorted(p: Pair, sorted: seq<Pair>)
    requires IsSorted(sorted)
    ensures IsSorted(InsertPair(p, sorted))
    ensures multiset(InsertPair(p, sorted)) == multiset(sorted) + multiset{p}
  {
    hide PairAtMost;
    InsertHolds(p, sorted);
    if sorted == [] {
    } else if PairAtMost(p, sorted[0]) {
      forall j | 0 <= j < |sorted| ensures PairAtMost(p, sorted[j]) {
        if j > 0 {
          PairsAreTransitive(p, sorted[0], sorted[j]);
        }
      }
    } else {
      var rest := InsertPair(p, sorted[1..]);
      InsertKeepsSorted(p, sorted[1..]);
      PairsAreTotal(p, sorted[0]);
      InsertHolds(p, sorted[1..]);
      forall j | 0 <= j < |rest| ensures PairAtMost(sorted[0], rest[j]) {
        assert rest[j] in multiset(rest);
        assert rest[j] == p || rest[j] in sorted[1..];
      }
    }
  }

  lemma {:induction false} SortSorts(pairs: seq<Pair>)
    ensures IsSorted(SortPairs(pairs)) && multiset(SortPairs(pairs)) == multiset(pairs)
  {
    if pairs != [] {
      SortSorts(pairs[1..]);
      InsertKeepsSorted(pairs[0], SortPairs(pairs[1..]));
      assert pairs == [pairs[0]] + pairs[1..];
    }
  }

  /** A sorted list is determined by what it holds. */
  lemma {:induction false} SortedIsUnique(a: seq<Pair>, b: seq<Pair>)
    requires IsSorted(a) && IsSorted(b) && multiset(a) == multiset(b)
    ensures a == b
  {
    hide PairAtMost, IsSorted;
    assert |a| == |multiset(a)| == |multiset(b)| == |b|;
    if a != [] {
      assert a[0] in multiset(b) && b[0] in multiset(a);
      HeadIsLeast(a, b[0]);
      HeadIsLeast(b, a[0]);
      PairsAreTotal(a[0], b[0]);
      TailIsSorted(a);
      TailIsSorted(b);
      SortedIsUnique(a[1..], b[1..]);
    }
  }

  lemma TailIsSorted(sorted: seq<Pair>)
    requires sorted != [] && IsSorted(sorted)
    ensures IsSorted(sorted[1..]) && multiset(sorted[1..]) == multiset(sorted) - multiset{sorted[0]}
    ensures sorted == [sorted[0]] + sorted[1..]
  {
    hide PairAtMost;
    assert sorted == [sorted[0]] + sorted[1..];
  }

  lemma HeadIsLeast(sorted: seq<Pair>, p: Pair)
    requires IsSorted(sorted) && p in sorted
    ensures PairAtMost(sorted[0], p)
  {
    PairsAreTotal(p, p);
  }

  /** The entries of the service's own environment; global ones do not identify it. */
  function OwnPairs(env: seq<EnvValue>): seq<Pair> {
    if env == [] then []
    else OwnPair(env[0]) + OwnPairs(env[1..])
  }

  function OwnPair(entry: EnvValue): seq<Pair> {
    if entry.scope.Global? then [] else [Pair(entry.key, entry.value)]
  }

  lemma OwnPairsSplit(env: seq<EnvValue>, i: nat, done: seq<Pair>)
    requires i < |env|
    ensures done + OwnPairs(env[i..]) == (done + OwnPair(env[i])) + OwnPairs(env[i + 1..])
    ensures done + OwnPair(env[i]) == if env[i].scope.Global? then done else done + [Pair(env[i].key, env[i].value)]
  {
    assert env[i..][1..] == env[i + 1..];
  }

  /** `sorted_env`: pushes the identifying entries, then sorts them. */
  method SortedEnv(env: seq<EnvValue>) returns (entries: seq<Pair>)
    ensures entries == SortPairs(OwnPairs(env))
    ensures IsSorted(entries) && multiset(entries) == multiset(OwnPairs(env))
  {
    hide SortPairs, OwnPairs, IsSorted, OwnPair;
    entries := [];
    assert env[0..] == env;
    for i := 0 to |env|
      invariant entries + OwnPairs(env[i..]) == OwnPairs(env)
    {
      OwnPairsSplit(env, i, entries);
      if !env[i].scope.Global? {
        entries := entries + [Pair(env[i].key, env[i].value)];
      }
    }
    NoPairs();
    assert env[|env|..] == [] && entries + [] == entries;
    SortSorts(OwnPairs(env));
    entries := SortPairs(entries);
  }

  lemma NoPairs()
    ensures OwnPairs([]) == []
  {
  }

  function EntryLine(p: Pair): string { p.key + "=" + p.value }

  function EntryLines(pairs: seq<Pair>): seq<string> {
    if pairs == [] then [] else [EntryLine(pairs[0])] + EntryLines(pairs[1..])
  }

  predicate PlainKey(p: Pair) { '=' !in p.key }

  lemma LineSplits(p: Pair, q: Pair)
    requires PlainKey(p) && PlainKey(q) && EntryLine(p) == EntryLine(q)
    ensures p == q
  {
    SplitAtMark(p.key, p.value, q.key, q.value, '=');
  }

  lemma {:induction false} LinesAreReadable(a: seq<Pair>, b: seq<Pair>)
    requires forall p <- a :: PlainKey(p)
    requires forall p <- b :: PlainKey(p)
    requires EntryLines(a) == EntryLines(b)
    ensures a == b
  {
    if a != [] && b != [] {
      var left, right := EntryLines(a), EntryLines(b);
      assert left[0] == EntryLine(a[0]) && left[1..] == EntryLines(a[1..]);
      assert right[0] == EntryLine(b[0]) && right[1..] == EntryLines(b[1..]);
      LineSplits(a[0], b[0]);
      LinesAreReadable(a[1..], b[1..]);
      assert a == [a[0]] + a[1..] && b == [b[0]] + b[1..];
    }
  }

  // ----- the rendering -----

  function Tagged(tag: string, values: seq<string>): seq<Field> {
    if values == [] then [] else [Field(tag, values[0])] + Tagged(tag, values[1..])
  }

  /** The values filed under one label. */
  function ValuesOf(tag: string, fields: seq<Field>): seq<string> {
    if fields == [] then []
    else (if fields[0].tag == tag then [fields[0].value] else []) + ValuesOf(tag, fields[1..])
  }

  lemma {:induction false} ValuesSplit(tag: string, a: seq<Field>, b: seq<Field>)
    ensures ValuesOf(tag, a + b) == ValuesOf(tag, a) + ValuesOf(tag, b)
  {
    if a == [] {
      assert a + b == b;
    } else {
      assert (a + b)[1..] == a[1..] + b;
      ValuesSplit(tag, a[1..], b);
    }
  }

  lemma {:induction false} ValuesOfTagged(tag: string, other: string, values: seq<string>)
    ensures ValuesOf(tag, Tagged(other, values)) == if tag == other then values else []
  {
    if values != [] {
      ValuesOfTagged(tag, other, values[1..]);
      assert Tagged(other, values)[1..] == Tagged(other, values[1..]);
      assert values == [values[0]] + values[1..];
    }
  }

  lemma {:induction false} TaggedIsPlain(tag: string, values: seq<string>)
    requires ' ' !in tag
    ensures forall f <- Tagged(tag, values) :: PlainLabel(f)
  {
    if values != [] {
      TaggedIsPlain(tag, values[1..]);
    }
  }

  function ModeLabel(mode: SandboxMode): string {
    match mode
    case ReadOnly => "read-only"
    case WorkspaceWrite => "workspace-write"
    case DangerFullAccess => "danger-full-access"
  }

  function ReadLabel(read: ReadScope): string {
    match read
    case Full => "full"
    case Minimal => "minimal"
  }

  function NetworkLabel(allowed: bool): string {
    if allowed then "allowed" else "denied"
  }

  function HeadFields(spec: Spec): seq<Field> {
    [Field("name", spec.name), Field("program", spec.script), Field("cwd", spec.cwd),
     Field("sandbox", ModeLabel(spec.sandbox.mode)), Field("read", ReadLabel(spec.sandbox.read)),
     Field("network", NetworkLabel(spec.sandbox.network))]
  }

  function TailFields(spec: Spec): seq<Field> {
    Tagged("arg", spec.args)
    + (Tagged("root", spec.sandbox.writableRoots)
       + (Tagged("readable_root", spec.sandbox.readableRoots)
          + Tagged("env", EntryLines(SortPairs(OwnPairs(spec.env))))))
  }

  /** `render_identity`. */
  function RenderIdentity(spec: Spec): string {
    RenderFields(HeadFields(spec) + TailFields(spec))
  }

  lemma LabelsAreFaithful(s: SandboxPolicy, t: SandboxPolicy)
    requires ModeLabel(s.mode) == ModeLabel(t.mode) && ReadLabel(s.read) == ReadLabel(t.read)
    requires NetworkLabel(s.network) == NetworkLabel(t.network)
    ensures s.mode == t.mode && s.read == t.read && s.network == t.network
  {
    assert |ModeLabel(ReadOnly)| == 9 && |ModeLabel(WorkspaceWrite)| == 15 && |ModeLabel(DangerFullAccess)| == 18;
    assert |ReadLabel(Full)| == 4 && |ReadLabel(Minimal)| == 7;
    assert |NetworkLabel(true)| == 7 && |NetworkLabel(false)| == 6;
  }

  lemma RenderedFieldsArePlain(spec: Spec)
    ensures forall f <- HeadFields(spec) + TailFields(spec) :: PlainLabel(f)
  {
    hide PlainLabel, EntryLines, SortPairs, OwnPairs, Tagged;
    HeadIsPlain(spec);
    TaggedIsPlain("arg", spec.args);
    TaggedIsPlain("root", spec.sandbox.writableRoots);
    TaggedIsPlain("readable_root", spec.sandbox.readableRoots);
    TaggedIsPlain("env", EntryLines(SortPairs(OwnPairs(spec.env))));
    hide HeadFields;
  }

  lemma HeadIsPlain(spec: Spec)
    ensures forall f <- HeadFields(spec) :: PlainLabel(f)
  {
  }

  lemma TailValues(spec: Spec)
    ensures ValuesOf("arg", TailFields(spec)) == spec.args
    ensures ValuesOf("root", TailFields(spec)) == spec.sandbox.writableRoots
    ensures ValuesOf("readable_root", TailFields(spec)) == spec.sandbox.readableRoots
    ensures ValuesOf("env", TailFields(spec)) == EntryLines(SortPairs(OwnPairs(spec.env)))
  {
    ValuesOfTail("arg", spec);
    ValuesOfTail("root", spec);
    ValuesOfTail("readable_root", spec);
    ValuesOfTail("env", spec);
    LabelsDiffer();
  }

  lemma LabelsDiffer()
    ensures "arg" != "root" && "arg" != "readable_root" && "arg" != "env"
    ensures "root" != "readable_root" && "root" != "env" && "readable_root" != "env"
  {
    assert "arg"[0] == 'a' && "root"[0] == 'r' && "env"[0] == 'e';
  }

  lemma ValuesOfTail(tag: string, spec: Spec)
    ensures ValuesOf(tag, TailFields(spec)) ==
              (if tag == "arg" then spec.args else [])
              + ((if tag == "root" then spec.sandbox.writableRoots else [])
                 + ((if tag == "readable_root" then spec.sandbox.readableRoots else [])
                    + (if tag == "env" then EntryLines(SortPairs(OwnPairs(spec.env))) else [])))
  {
    hide ValuesOf, Tagged, EntryLines, SortPairs, OwnPairs;
    var args, roots := Tagged("arg", spec.args), Tagged("root", spec.sandbox.writableRoots);
    var readable := Tagged("readable_root", spec.sandbox.readableRoots);
    var env := Tagged("env", EntryLines(SortPairs(OwnPairs(spec.env))));
    ValuesSplit(tag, args, roots + (readable + env));
    ValuesSplit(tag, roots, readable + env);
    ValuesSplit(tag, readable, env);
    ValuesOfTagged(tag, "arg", spec.args);
    ValuesOfTagged(tag, "root", spec.sandbox.writableRoots);
    ValuesOfTagged(tag, "readable_root", spec.sandbox.readableRoots);
    ValuesOfTagged(tag, "env", EntryLines(SortPairs(OwnPairs(spec.env))));
  }

  /** Everything relevant to a launch beside the environment. */
  predicate SameLaunch(s: Spec, t: Spec) {
    && s.name == t.name && s.script == t.script && s.cwd == t.cwd && s.args == t.args
    && s.sandbox.mode == t.sandbox.mode && s.sandbox.read == t.sandbox.read
    && s.sandbox.network == t.sandbox.network
    && s.sandbox.writableRoots == t.sandbox.writableRoots
    && s.sandbox.readableRoots == t.sandbox.readableRoots
  }

  /** What one launch has in common with another when the digest may not tell them apart. */
  ghost predicate LaunchesAlike(s: Spec, t: Spec) {
    SameLaunch(s, t) && multiset(OwnPairs(s.env)) == multiset(OwnPairs(t.env))
  }

  /** The environment as it is rendered: the lines `key=value` of its own entries, sorted by key and value. */
  function EnvLines(spec: Spec): seq<string> {
    EntryLines(SortPairs(OwnPairs(spec.env)))
  }

  predicate PlainKeys(spec: Spec) {
    forall p <- OwnPairs(spec.env) :: PlainKey(p)
  }

  /** The order and the global part of the environment never show. */
  lemma AlikeRenderAlike(s: Spec, t: Spec)
    requires LaunchesAlike(s, t)
    ensures RenderIdentity(s) == RenderIdentity(t)
  {
    SortSorts(OwnPairs(s.env));
    SortSorts(OwnPairs(t.env));
    SortedIsUnique(SortPairs(OwnPairs(s.env)), SortPairs(OwnPairs(t.env)));
  }

  /** Equal renderings have equal content, up to the text of each environment line. */
  lemma EqualRenderings(s: Spec, t: Spec)
    requires RenderIdentity(s) == RenderIdentity(t)
    ensures SameLaunch(s, t) && EnvLines(s) == EnvLines(t)
  {
    hide TailFields, EntryLines, SortPairs, OwnPairs, RenderFields, PlainLabel, HeadFields;
    RenderedFieldsArePlain(s);
    RenderedFieldsArePlain(t);
    var left, right := HeadFields(s) + TailFields(s), HeadFields(t) + TailFields(t);
    FieldsAreReadable(left, right);
    HasSixFields(s);
    HasSixFields(t);
    assert left[..6] == HeadFields(s) && right[..6] == HeadFields(t);
    assert left[6..] == TailFields(s) && right[6..] == TailFields(t);
    HeadIsFaithful(s, t);
    TailValues(s);
    TailValues(t);
  }

  lemma HasSixFields(spec: Spec)
    ensures |HeadFields(spec)| == 6
  {
  }

  lemma HeadIsFaithful(s: Spec, t: Spec)
    requires HeadFields(s) == HeadFields(t)
    ensures s.name == t.name && s.script == t.script && s.cwd == t.cwd
    ensures s.sandbox.mode == t.sandbox.mode && s.sandbox.read == t.sandbox.read && s.sandbox.network == t.sandbox.network
  {
    assert HeadFields(s)[0] == HeadFields(t)[0] && HeadFields(s)[1] == HeadFields(t)[1];
    assert HeadFields(s)[2] == HeadFields(t)[2] && HeadFields(s)[3] == HeadFields(t)[3];
    assert HeadFields(s)[4] == HeadFields(t)[4] && HeadFields(s)[5] == HeadFields(t)[5];
    LabelsAreFaithful(s.sandbox, t.sandbox);
  }

  /**
   * What the rendering sees, exactly and for all specifications: everything relevant to a launch, the
   * environment as its sorted lines. Nothing else is compared, and nothing of this is missed.
   */
  lemma RenderingSeesLines(s: Spec, t: Spec)
    ensures RenderIdentity(s) == RenderIdentity(t) <==> SameLaunch(s, t) && EnvLines(s) == EnvLines(t)
  {
    hide RenderFields, EntryLines, SortPairs, OwnPairs, Tagged;
    if RenderIdentity(s) == RenderIdentity(t) {
      EqualRenderings(s, t);
    }
  }

  /**
   * The rendering is exact: two specifications render alike if and only if everything relevant to a
   * launch is equal, the environment being compared as a multiset of its own pairs.
   */
  lemma RenderingIsExact(s: Spec, t: Spec)
    requires PlainKeys(s) && PlainKeys(t)
    ensures RenderIdentity(s) == RenderIdentity(t) <==> LaunchesAlike(s, t)
  {
    hide RenderIdentity, PlainKey, SameLaunch;
    if RenderIdentity(s) == RenderIdentity(t) {
      EqualRenderings(s, t);
      EqualLinesEqualPairs(OwnPairs(s.env), OwnPairs(t.env));
    }
    if LaunchesAlike(s, t) {
      AlikeRenderAlike(s, t);
    }
  }

  lemma EqualLinesEqualPairs(a: seq<Pair>, b: seq<Pair>)
    requires forall p <- a :: PlainKey(p)
    requires forall p <- b :: PlainKey(p)
    requires EntryLines(SortPairs(a)) == EntryLines(SortPairs(b))
    ensures multiset(a) == multiset(b)
  {
    hide PlainKey;
    SortSorts(a);
    SortSorts(b);
    forall p <- SortPairs(a) ensures PlainKey(p) {
      assert p in multiset(SortPairs(a));
    }
    forall p <- SortPairs(b) ensures PlainKey(p) {
      assert p in multiset(SortPairs(b));
    }
    LinesAreReadable(SortPairs(a), SortPairs(b));
  }

  /** An equals sign in a key can move into the value unseen. */
  lemma EqualsSignHides(spec: Spec)
    ensures var s := spec.(env := [EnvValue("A=B", "C", App)]);
            var t := spec.(env := [EnvValue("A", "B=C", App)]);
            RenderIdentity(s) == RenderIdentity(t) && !LaunchesAlike(s, t)
  {
    var p, q := Pair("A=B", "C"), Pair("A", "B=C");
    assert EntryLine(p) == "A=B=C" == EntryLine(q);
    assert OwnPairs([EnvValue("A=B", "C", App)]) == [p] && OwnPairs([EnvValue("A", "B=C", App)]) == [q];
    assert [p][1..] == [] && [q][1..] == [] && SortPairs([]) == [];
    assert SortPairs([p]) == [p] && SortPairs([q]) == [q];
    assert EntryLines([p]) == ["A=B=C"] == EntryLines([q]);
    assert |p.key| != |q.key|;
    assert multiset([p])[p] == 1 && multiset([q])[p] == 0;
  }
}
