/**
 * Quoting a value into a service file, substituting the environment into the file, and decoding it
 * again: adapters/src/apps_file/inline.rs, adapters/src/config/loader.rs,
 * adapters/src/apps_file/env_file.rs and adapters/src/program.rs.
 */
module Quoting {
  import opened Model
  import opened Text

  const HOME := "HOME"
  const HOME_PLACEHOLDER := "${HOME}"
  const SERVICE_CWD_NAME := "PM3_SERVICE_CWD"
  const SERVICE_CWD_PLACEHOLDER := "${PM3_SERVICE_CWD}"
  const BACKSLASH := '\\'
  const QUOTE := '\"'

  predicate StartsWith(s: string, p: string) {
    |p| <= |s| && s[..|p|] == p
  }

  predicate EndsWith(s: string, p: string) {
    |p| <= |s| && s[|s| - |p|..] == p
  }

  lemma NotPrefixed(s: string, p: string, k: nat)
    requires k < |s| && k < |p| && s[k] != p[k]
    ensures !StartsWith(s, p)
  {
    if |p| <= |s| {
      assert s[..|p|][k] == s[k];
    }
  }

  /** The index of the first occurrence of `p`. */
  function FirstAt(s: string, p: string): (r: Option<nat>)
    ensures r.Some? ==> r.value + |p| <= |s| && StartsWith(s[r.value..], p)
  {
    if StartsWith(s, p) then
      assert s[0..] == s;
      Some(0)
    else if s == "" then None
    else
      var rest := FirstAt(s[1..], p);
      assert rest.Some? ==> s[rest.value + 1..] == s[1..][rest.value..];
      if rest.None? then None else Some(rest.value + 1)
  }

  /** No occurrence starts before the one found, and none at all when none is found. */
  lemma {:induction false} FirstAtIsFirst(s: string, p: string, j: nat)
    requires j <= |s| && (FirstAt(s, p).Some? ==> j < FirstAt(s, p).value)
    ensures !StartsWith(s[j..], p)
  {
    if j == 0 {
      assert s[0..] == s;
    } else {
      FirstAtIsFirst(s[1..], p, j - 1);
      assert s[1..][j - 1..] == s[j..];
    }
  }

  // ----- escaping -----

  predicate IsControl(c: char) {
    c as int < 0x20 || 0x7f <= c as int <= 0x9f
  }

  function HexDigit(n: nat): char
    requires n < 16
  {
    if n < 10 then ('0' as int + n) as char else ('a' as int + n - 10) as char
  }

  function HexEscape(c: char): string
    requires c as int < 256
  {
    [BACKSLASH, 'x', HexDigit(c as int / 16), HexDigit(c as int % 16)]
  }

  function EscapeChar(c: char): string {
    if c == BACKSLASH then [BACKSLASH, BACKSLASH]
    else if c == QUOTE then [BACKSLASH, QUOTE]
    else if c == '\n' then [BACKSLASH, 'n']
    else if c == '\r' then [BACKSLASH, 'r']
    else if c == '\t' then [BACKSLASH, 't']
    else if c == '$' || IsControl(c) then HexEscape(c)
    else [c]
  }

  function EscapeBody(raw: string): string {
    if raw == "" then "" else EscapeChar(raw[0]) + EscapeBody(raw[1..])
  }

  /** `escape_body`: one pass over the characters. */
  method Escape(raw: string) returns (escaped: string)
    ensures escaped == EscapeBody(raw)
  {
    hide EscapeChar;
    escaped := "";
    for i := 0 to |raw|
      invariant escaped + EscapeBody(raw[i..]) == EscapeBody(raw)
    {
      assert raw[i..][1..] == raw[i + 1..];
      escaped := escaped + EscapeChar(raw[i]);
    }
  }

  function Quoted(raw: string): string {
    [QUOTE] + EscapeBody(raw) + [QUOTE]
  }

  // ----- the decoder of environment files -----

  function HexValue(c: char): Option<nat> {
    if '0' <= c <= '9' then Some(c as int - '0' as int)
    else if 'a' <= c <= 'f' then Some(c as int - 'a' as int + 10)
    else if 'A' <= c <= 'F' then Some(c as int - 'A' as int + 10)
    else None
  }

  /** `decode_hex` on two digits; the parser of the source takes a leading plus sign as well. */
  function DecodeHex(high: char, low: char): Option<char> {
    var h, l := HexValue(high), HexValue(low);
    if high == '+' && l.Some? then Some(l.value as char)
    else if h.None? || l.None? then None
    else Some((16 * h.value + l.value) as char)
  }

  /** `unescape`: a backslash takes the next letter, or two hex digits after an `x`. */
  function Unescape(inner: string): string
    decreases |inner|
  {
    if inner == "" then ""
    else if inner[0] != BACKSLASH then [inner[0]] + Unescape(inner[1..])
    else if |inner| == 1 then [BACKSLASH]
    else if inner[1] == 'n' then ['\n'] + Unescape(inner[2..])
    else if inner[1] == 'r' then ['\r'] + Unescape(inner[2..])
    else if inner[1] == 't' then ['\t'] + Unescape(inner[2..])
    else if inner[1] != 'x' then [inner[1]] + Unescape(inner[2..])
    else if |inner| < 4 then inner
    else if DecodeHex(inner[2], inner[3]).Some? then [DecodeHex(inner[2], inner[3]).value] + Unescape(inner[4..])
    else inner[..4] + Unescape(inner[4..])
  }

  lemma HexDigitValue(n: nat)
    requires n < 16
    ensures HexValue(HexDigit(n)) == Some(n) && HexDigit(n) != '+'
  {
  }

  lemma HexRoundTrip(c: char)
    requires c as int < 256
    ensures DecodeHex(HexDigit(c as int / 16), HexDigit(c as int % 16)) == Some(c)
    ensures HexValue(HexDigit(c as int / 16)) == Some(c as int / 16) && HexValue(HexDigit(c as int % 16)) == Some(c as int % 16)
  {
    hide HexDigit, HexValue;
    HexDigitValue(c as int / 16);
    HexDigitValue(c as int % 16);
    assert 16 * (c as int / 16) + c as int % 16 == c as int;
  }

  lemma UnescapeChar(c: char, rest: string)
    ensures Unescape(EscapeChar(c) + rest) == [c] + Unescape(rest)
  {
    var text := EscapeChar(c) + rest;
    assert text[|EscapeChar(c)|..] == rest;
    if c == '$' || IsControl(c) {
      HexRoundTrip(c);
    }
  }

  /** What `escape_body` writes, the decoder of environment files reads back. */
  lemma {:induction false} UnescapeUndoesEscape(raw: string)
    ensures Unescape(EscapeBody(raw)) == raw
  {
    if raw != "" {
      UnescapeUndoesEscape(raw[1..]);
      UnescapeChar(raw[0], EscapeBody(raw[1..]));
    }
  }

  // ----- the YAML double-quoted scalar -----

  /** The one-letter escapes of section 5.7 of YAML 1.2.2. */
  function YamlEscape(c: char): Option<char> {
    if c == '0' then Some(0 as char)
    else if c == 'a' then Some(7 as char)
    else if c == 'b' then Some(8 as char)
    else if c == 't' || c == '\t' then Some('\t')
    else if c == 'n' then Some('\n')
    else if c == 'v' then Some(11 as char)
    else if c == 'f' then Some(12 as char)
    else if c == 'r' then Some('\r')
    else if c == 'e' then Some(27 as char)
    else if c == ' ' || c == QUOTE || c == '/' || c == BACKSLASH then Some(c)
    else if c == 'N' then Some(0x85 as char)
    else if c == '_' then Some(0xa0 as char)
    else None
  }

  function Prepend(head: string, rest: Option<string>): Option<string> {
    if rest.None? then None else Some(head + rest.value)
  }

  /**
   * The content of a single-line double-quoted scalar (section 7.3.1 of YAML 1.2.2); `None` for a bare
   * quote, a line break, or an escape outside section 5.7's one-letter and `x` escapes.
   */
  function YamlDecode(body: string): Option<string>
    decreases |body|
  {
    if body == "" then Some("")
    else if body[0] == QUOTE || body[0] == '\n' || body[0] == '\r' then None
    else if body[0] != BACKSLASH then Prepend([body[0]], YamlDecode(body[1..]))
    else if |body| == 1 then None
    else if body[1] == 'x' then
      if |body| < 4 || HexValue(body[2]).None? || HexValue(body[3]).None? then None
      else Prepend([(16 * HexValue(body[2]).value + HexValue(body[3]).value) as char], YamlDecode(body[4..]))
    else if YamlEscape(body[1]).None? then None
    else Prepend([YamlEscape(body[1]).value], YamlDecode(body[2..]))
  }

  lemma YamlReadsChar(c: char, rest: string)
    ensures YamlDecode(EscapeChar(c) + rest) == Prepend([c], YamlDecode(rest))
  {
    var text := EscapeChar(c) + rest;
    assert text[|EscapeChar(c)|..] == rest;
    hide HexDigit, HexValue, Prepend;
    if c == '$' || IsControl(c) {
      HexRoundTrip(c);
    }
  }

  /** Text with no quote, backslash or control character decodes to itself. */
  predicate YamlSafe(value: string) {
    forall c <- value :: c != QUOTE && c != BACKSLASH && !IsControl(c)
  }

  lemma {:induction false} YamlReadsSafe(value: string, rest: string)
    requires YamlSafe(value)
    ensures YamlDecode(value + rest) == Prepend(value, YamlDecode(rest))
  {
    if value == "" {
      assert value + rest == rest;
      assert YamlDecode(rest).Some? ==> "" + YamlDecode(rest).value == YamlDecode(rest).value;
    } else {
      assert (value + rest)[1..] == value[1..] + rest;
      assert value[0] in value;
      YamlReadsSafe(value[1..], rest);
      if YamlDecode(rest).Some? {
        assert [value[0]] + (value[1..] + YamlDecode(rest).value) == value + YamlDecode(rest).value;
      }
    }
  }

  // ----- quoting around placeholders -----

  /** The quoted body, scanned character by character: placeholders verbatim, everything else escaped. */
  function QuoteScan(raw: string): string
    decreases |raw|
  {
    if raw == "" then ""
    else if StartsWith(raw, HOME_PLACEHOLDER) then HOME_PLACEHOLDER + QuoteScan(raw[|HOME_PLACEHOLDER|..])
    else if StartsWith(raw, SERVICE_CWD_PLACEHOLDER) then
      SERVICE_CWD_PLACEHOLDER + QuoteScan(raw[|SERVICE_CWD_PLACEHOLDER|..])
    else EscapeChar(raw[0]) + QuoteScan(raw[1..])
  }

  datatype Split = Split(head: string, placeholder: string, tail: string)

  /** `next_placeholder`: the placeholder with the shorter head, if any occurs. */
  function NextPlaceholder(rest: string): (r: Option<Split>)
    ensures r.Some? ==> rest == r.value.head + r.value.placeholder + r.value.tail && r.value.placeholder != ""
  {
    var home, cwd := FirstAt(rest, HOME_PLACEHOLDER), FirstAt(rest, SERVICE_CWD_PLACEHOLDER);
    if home.Some? && (cwd.None? || home.value <= cwd.value) then Some(SplitAt(rest, HOME_PLACEHOLDER, home.value))
    else if cwd.Some? then Some(SplitAt(rest, SERVICE_CWD_PLACEHOLDER, cwd.value))
    else None
  }

  function SplitAt(rest: string, placeholder: string, at: nat): (r: Split)
    requires at <= |rest| && StartsWith(rest[at..], placeholder)
    ensures rest == r.head + r.placeholder + r.tail && r.placeholder == placeholder
  {
    assert rest == rest[..at] + rest[at..];
    Split(rest[..at], placeholder, rest[at + |placeholder|..])
  }

  predicate AtPlaceholder(text: string) {
    StartsWith(text, HOME_PLACEHOLDER) || StartsWith(text, SERVICE_CWD_PLACEHOLDER)
  }

  lemma ScanEscapesOne(raw: string)
    requires raw != "" && !AtPlaceholder(raw)
    ensures QuoteScan(raw) == EscapeChar(raw[0]) + QuoteScan(raw[1..])
  {
    hide StartsWith, EscapeChar;
  }

  /** Up to the first placeholder the scan is plain escaping. */
  lemma {:induction false} ScanEscapesHead(raw: string, at: nat)
    requires at <= |raw|
    requires forall j :: 0 <= j < at ==> !AtPlaceholder(raw[j..])
    ensures QuoteScan(raw) == EscapeBody(raw[..at]) + QuoteScan(raw[at..])
  {
    hide AtPlaceholder, QuoteScan, EscapeChar;
    if at == 0 {
      assert raw[..0] == "" && raw[0..] == raw;
    } else {
      forall j | 0 <= j < at - 1
        ensures !AtPlaceholder(raw[1..][j..])
      {
        assert raw[1..][j..] == raw[j + 1..];
      }
      ScanEscapesHead(raw[1..], at - 1);
      assert raw[0..] == raw;
      ScanEscapesOne(raw);
      assert raw[1..][at - 1..] == raw[at..];
      assert raw[..at][1..] == raw[1..][..at - 1];
      Associate(EscapeChar(raw[0]), EscapeBody(raw[1..][..at - 1]), QuoteScan(raw[at..]));
    }
  }

  lemma NoneBefore(rest: string, at: nat)
    requires at <= |rest|
    requires FirstAt(rest, HOME_PLACEHOLDER).Some? ==> at <= FirstAt(rest, HOME_PLACEHOLDER).value
    requires FirstAt(rest, SERVICE_CWD_PLACEHOLDER).Some? ==> at <= FirstAt(rest, SERVICE_CWD_PLACEHOLDER).value
    ensures forall j :: 0 <= j < at ==> !AtPlaceholder(rest[j..])
  {
    hide FirstAt, StartsWith;
    forall j | 0 <= j < at
      ensures !AtPlaceholder(rest[j..])
    {
      FirstAtIsFirst(rest, HOME_PLACEHOLDER, j);
      FirstAtIsFirst(rest, SERVICE_CWD_PLACEHOLDER, j);
    }
  }

  lemma ScanAtPlaceholder(rest: string)
    ensures var next := NextPlaceholder(rest);
            QuoteScan(rest) ==
              if next.None? then EscapeBody(rest)
              else EscapeBody(next.value.head) + (next.value.placeholder + QuoteScan(next.value.tail))
  {
    hide FirstAt, EscapeBody;
    var next := NextPlaceholder(rest);
    if next.None? {
      NoneBefore(rest, |rest|);
      ScanEscapesHead(rest, |rest|);
      assert rest[..|rest|] == rest && rest[|rest|..] == "";
    } else {
      var at := |next.value.head|;
      NoneBefore(rest, at);
      ScanEscapesHead(rest, at);
      ScanTakesPlaceholder(rest[at..]);
    }
  }

  lemma ScanTakesPlaceholder(from: string)
    ensures StartsWith(from, HOME_PLACEHOLDER) ==>
              QuoteScan(from) == HOME_PLACEHOLDER + QuoteScan(from[|HOME_PLACEHOLDER|..])
    ensures StartsWith(from, SERVICE_CWD_PLACEHOLDER) ==>
              QuoteScan(from) == SERVICE_CWD_PLACEHOLDER + QuoteScan(from[|SERVICE_CWD_PLACEHOLDER|..])
  {
    if StartsWith(from, SERVICE_CWD_PLACEHOLDER) {
      NotBoth(from);
    }
  }

  lemma NotBoth(text: string)
    requires StartsWith(text, SERVICE_CWD_PLACEHOLDER)
    ensures !StartsWith(text, HOME_PLACEHOLDER)
  {
    assert text[2] == text[..|SERVICE_CWD_PLACEHOLDER|][2] == 'P';
    NotPrefixed(text, HOME_PLACEHOLDER, 2);
  }

  /** `quote_placeheld`: the loop from placeholder to placeholder. */
  method QuotePlaceheld(raw: string) returns (quoted: string)
    ensures quoted == [QUOTE] + QuoteScan(raw) + [QUOTE]
  {
    hide QuoteScan, EscapeBody, NextPlaceholder;
    var text := "";
    var rest := raw;
    var next := NextPlaceholder(rest);
    while next.Some?
      invariant next == NextPlaceholder(rest)
      invariant text + QuoteScan(rest) == QuoteScan(raw)
      decreases |rest|
    {
      var split := next.value;
      ScanAtPlaceholder(rest);
      Associate(text, EscapeBody(split.head), split.placeholder + QuoteScan(split.tail));
      Associate(text + EscapeBody(split.head), split.placeholder, QuoteScan(split.tail));
      text := text + EscapeBody(split.head);
      text := text + split.placeholder;
      rest := split.tail;
      next := NextPlaceholder(rest);
    }
    ScanAtPlaceholder(rest);
    text := text + EscapeBody(rest);
    quoted := [QUOTE] + text + [QUOTE];
  }

  // ----- substituting the environment -----

  datatype SubstituteError = NotSet(name: string) | ReservedDefault(name: string) | NotYamlSafe(name: string) | Lookup(name: string)

  datatype Substituted = Ok(text: string) | Err(error: SubstituteError)

  datatype Looked = Found(value: string) | Missing | Undecodable

  datatype Parsed = Parsed(name: string, default: Option<string>, consumed: nat)

  function After(head: string, rest: Substituted): Substituted {
    if rest.Err? then rest else Ok(head + rest.text)
  }

  /** `find_unnested_close`: the first closing brace at depth zero. */
  function UnnestedClose(line: string, index: nat, depth: nat): (r: Option<nat>)
    requires index <= |line|
    ensures r.Some? ==> index <= r.value < |line|
    decreases |line| - index
  {
    if index == |line| then None
    else if line[index] == '{' then UnnestedClose(line, index + 1, depth + 1)
    else if line[index] == '}' then if depth == 0 then Some(index) else UnnestedClose(line, index + 1, depth - 1)
    else UnnestedClose(line, index + 1, depth)
  }

  function ParsePlaceholder(body: string): (r: Option<Parsed>)
    ensures r.Some? ==> r.value.consumed <= |body|
  {
    var end := FirstAt(body, "\n");
    var line := if end.None? then body else body[..end.value];
    var close := UnnestedClose(line, 0, 0);
    if close.None? then None
    else
      var inner := line[..close.value];
      var colon := FirstAt(inner, ":-");
      var name := if colon.None? then inner else inner[..colon.value];
      var default := if colon.None? then None else Some(DropPrefix(inner[colon.value..], ":-"));
      if name == "" || ':' in name || '{' in name then None
      else Some(Parsed(name, default, close.value + 1))
  }

  function DropPrefix(s: string, p: string): string
    requires StartsWith(s, p)
  {
    s[|p|..]
  }

  /** The value of one ordinary placeholder. */
  function Resolve(parsed: Parsed, lookup: string -> Looked): Substituted {
    match lookup(parsed.name)
    case Undecodable => Err(Lookup(parsed.name))
    case Found(value) => if YamlSafe(value) then Ok(value) else Err(NotYamlSafe(parsed.name))
    case Missing => if parsed.default.Some? then Ok(parsed.default.value) else Err(NotSet(parsed.name))
  }

  const OPENER := "${"

  /** What one placeholder contributes, and how much of its body it uses up. */
  datatype Piece = Text(text: string, consumed: nat) | Fail(error: SubstituteError)

  function PieceOf(body: string, lookup: string -> Looked): (r: Piece)
    ensures r.Text? ==> r.consumed <= |body|
  {
    match ParsePlaceholder(body)
    case None => Text(OPENER, 0)
    case Some(parsed) =>
      if parsed.name == SERVICE_CWD_NAME then
        if parsed.default.Some? then Fail(ReservedDefault(parsed.name))
        else Text(OPENER + body[..parsed.consumed], parsed.consumed)
      else
        match Resolve(parsed, lookup)
        case Err(error) => Fail(error)
        case Ok(value) => Text(value, parsed.consumed)
  }

  /** `substitute_with`, from the text still to be read. */
  function Substitute(rest: string, lookup: string -> Looked): Substituted
    decreases |rest|
  {
    match FirstAt(rest, OPENER)
    case None => Ok(rest)
    case Some(start) =>
      var body := DropPrefix(rest[start..], OPENER);
      match PieceOf(body, lookup)
      case Fail(error) => Err(error)
      case Text(text, consumed) => After(rest[..start], After(text, Substitute(body[consumed..], lookup)))
  }

  lemma AfterAssociates(head: string, mid: string, r: Substituted)
    ensures After(head + mid, r) == After(head, After(mid, r))
  {
    if r.Ok? {
      Associate(head, mid, r.text);
    }
  }

  /** `substitute_with`: the loop of the source over `rest` and `out`. */
  method SubstituteWith(raw: string, lookup: string -> Looked) returns (r: Substituted)
    ensures r == Substitute(raw, lookup)
  {
    hide FirstAt, ParsePlaceholder, Resolve;
    var out := "";
    var rest := raw;
    var start := FirstAt(rest, OPENER);
    while start.Some?
      invariant start == FirstAt(rest, OPENER)
      invariant After(out, Substitute(rest, lookup)) == Substitute(raw, lookup)
      decreases |rest|
    {
      var body := DropPrefix(rest[start.value..], OPENER);
      ghost var piece := PieceOf(body, lookup);
      ghost var before, head := out, rest[..start.value];
      out := out + rest[..start.value];
      ghost var reached := out;
      var parsed := ParsePlaceholder(body);
      if parsed.None? {
        out := out + OPENER;
        rest := body;
        assert body[0..] == body;
      } else if parsed.value.name == SERVICE_CWD_NAME {
        if parsed.value.default.Some? {
          return Err(ReservedDefault(parsed.value.name));
        }
        out := out + (OPENER + body[..parsed.value.consumed]);
        rest := body[parsed.value.consumed..];
      } else {
        var value := Resolve(parsed.value, lookup);
        if value.Err? {
          return value;
        }
        out := out + value.text;
        rest := body[parsed.value.consumed..];
      }
      AfterAssociates(before, head, After(piece.text, Substitute(rest, lookup)));
      AfterAssociates(reached, piece.text, Substitute(rest, lookup));
      start := FirstAt(rest, OPENER);
    }
    r := Ok(out + rest);
  }

  // ----- what substitution does to quoted text -----

  lemma {:induction false} FirstAtSkips(head: string, rest: string, p: string)
    requires p != "" && p[0] !in head
    ensures FirstAt(head + rest, p) == match FirstAt(rest, p) { case None => None case Some(i) => Some(|head| + i) }
  {
    hide FirstAt, StartsWith;
    if head == "" {
      assert head + rest == rest;
    } else {
      assert (head + rest)[1..] == head[1..] + rest;
      assert (head + rest)[0] == head[0] && head[0] in head;
      NotPrefixed(head + rest, p, 0);
      FirstAtNext(head + rest, p);
      forall c <- head[1..] ensures c in head {
      }
      FirstAtSkips(head[1..], rest, p);
    }
  }

  lemma FirstAtNext(s: string, p: string)
    requires s != "" && !StartsWith(s, p)
    ensures FirstAt(s, p) == match FirstAt(s[1..], p) { case None => None case Some(i) => Some(i + 1) }
  {
    hide StartsWith;
  }

  /** What substitution makes of a text whose first opener stands after `head`. */
  function Onward(head: string, body: string, lookup: string -> Looked): Substituted {
    match PieceOf(body, lookup)
    case Fail(error) => Err(error)
    case Text(text, consumed) => After(head, After(text, Substitute(body[consumed..], lookup)))
  }

  lemma SubstituteUnfolds(text: string, lookup: string -> Looked)
    ensures FirstAt(text, OPENER).None? ==> Substitute(text, lookup) == Ok(text)
    ensures FirstAt(text, OPENER).Some? ==>
              Substitute(text, lookup) ==
              Onward(text[..FirstAt(text, OPENER).value], DropPrefix(text[FirstAt(text, OPENER).value..], OPENER), lookup)
  {
    hide FirstAt, PieceOf;
  }

  lemma OnwardAfter(head: string, mid: string, body: string, lookup: string -> Looked)
    ensures Onward(head + mid, body, lookup) == After(head, Onward(mid, body, lookup))
  {
    hide Substitute, PieceOf;
    match PieceOf(body, lookup)
    case Fail(_) =>
    case Text(text, consumed) =>
      AfterAssociates(head, mid, After(text, Substitute(body[consumed..], lookup)));
  }

  /** Text without a dollar sign passes through substitution. */
  lemma SubstituteSkips(head: string, rest: string, lookup: string -> Looked)
    requires '$' !in head
    ensures Substitute(head + rest, lookup) == After(head, Substitute(rest, lookup))
  {
    hide FirstAt, Substitute, Onward;
    FirstAtSkips(head, rest, OPENER);
    SubstituteUnfolds(rest, lookup);
    SubstituteUnfolds(head + rest, lookup);
    var found := FirstAt(rest, OPENER);
    if found.Some? {
      var start := found.value;
      assert (head + rest)[..|head| + start] == head + rest[..start];
      assert (head + rest)[|head| + start..] == rest[start..];
      OnwardAfter(head, rest[..start], DropPrefix(rest[start..], OPENER), lookup);
    }
  }

  /** A name of plain letters followed by a closing brace parses as itself. */
  predicate PlainName(name: string) {
    name != "" && forall c <- name :: c != '{' && c != '}' && c != '\n' && c != ':'
  }

  lemma {:induction false} CloseAfterName(name: string, index: nat, line: string)
    requires PlainName(name) && index <= |name| && StartsWith(line, name + "}")
    ensures UnnestedClose(line, index, 0) == Some(|name|)
    decreases |name| - index
  {
    assert line[..|name| + 1] == name + "}";
    assert line[index] == (name + "}")[index];
    if index < |name| {
      assert name[index] in name;
      CloseAfterName(name, index + 1, line);
    }
  }

  lemma LineKeepsName(name: string, more: string, at: nat)
    requires PlainName(name) && at <= |name|
    ensures !StartsWith((name + "}" + more)[at..], "\n")
  {
    var from := (name + "}" + more)[at..];
    assert at < |name| ==> from[0] == name[at] && name[at] in name;
    NotPrefixed(from, "\n", 0);
  }

  lemma {:induction false} NameHasNoDefault(name: string)
    requires ':' !in name
    ensures FirstAt(name, ":-").None?
  {
    if name != "" {
      assert name[0] in name;
      NotPrefixed(name, ":-", 0);
      NameHasNoDefault(name[1..]);
    }
  }

  lemma ParsesName(name: string, more: string)
    requires PlainName(name)
    ensures ParsePlaceholder(name + "}" + more) == Some(Parsed(name, None, |name| + 1))
  {
    var body := name + "}" + more;
    var end := FirstAt(body, "\n");
    assert end.Some? ==> |name| < end.value by {
      if end.Some? && end.value <= |name| {
        LineKeepsName(name, more, end.value);
      }
    }
    var line := if end.None? then body else body[..end.value];
    assert line[..|name| + 1] == name + "}";
    CloseAfterName(name, 0, line);
    assert line[..|name|] == name;
    NameHasNoDefault(name);
  }

  lemma AfterNothing(r: Substituted)
    ensures After("", r) == r
  {
  }

  lemma OpensAtOnce(body: string)
    ensures FirstAt(OPENER + body, OPENER) == Some(0) && (OPENER + body)[..0] == ""
    ensures DropPrefix((OPENER + body)[0..], OPENER) == body
  {
    assert (OPENER + body)[..2] == OPENER && (OPENER + body)[0..] == OPENER + body;
  }

  lemma SubstituteAtPlaceholder(name: string, more: string, lookup: string -> Looked)
    requires PlainName(name)
    ensures var r := Substitute(OPENER + (name + "}" + more), lookup);
            if name == SERVICE_CWD_NAME then r == After(OPENER + (name + "}"), Substitute(more, lookup))
            else
              var value := Resolve(Parsed(name, None, |name| + 1), lookup);
              r == if value.Err? then value else After(value.text, Substitute(more, lookup))
  {
    hide FirstAt, ParsePlaceholder, Resolve;
    var body := name + "}" + more;
    OpensAtOnce(body);
    ParsesName(name, more);
    assert body[..|name| + 1] == name + "}" && body[|name| + 1..] == more;
    match PieceOf(body, lookup)
    case Fail(_) =>
    case Text(text, consumed) =>
      AfterNothing(After(text, Substitute(more, lookup)));
  }

  lemma NamesArePlain()
    ensures PlainName(HOME) && PlainName(SERVICE_CWD_NAME) && HOME != SERVICE_CWD_NAME
    ensures HOME_PLACEHOLDER == OPENER + (HOME + "}") && SERVICE_CWD_PLACEHOLDER == OPENER + (SERVICE_CWD_NAME + "}")
  {
    assert HOME[0] != SERVICE_CWD_NAME[0];
  }

  lemma EscapeHasNoDollar(c: char)
    ensures '$' !in EscapeChar(c)
  {
  }

  lemma {:induction false} EscapeBodyHasNoDollar(raw: string)
    ensures '$' !in EscapeBody(raw)
  {
    if raw != "" {
      EscapeHasNoDollar(raw[0]);
      EscapeBodyHasNoDollar(raw[1..]);
    }
  }

  /** A quoted value is printable and opens no placeholder. */
  lemma {:induction false} EscapedIsPlain(raw: string)
    ensures forall c <- EscapeBody(raw) :: ' ' <= c && !(0x7f <= c as int <= 0x9f) && c != '$'
  {
    hide EscapeChar;
    if raw != "" {
      EscapedCharIsPlain(raw[0]);
      EscapedIsPlain(raw[1..]);
    }
  }

  lemma EscapedCharIsPlain(c: char)
    ensures forall e <- EscapeChar(c) :: ' ' <= e && !(0x7f <= e as int <= 0x9f) && e != '$'
  {
  }

  /** A plainly quoted value is untouched by substitution, and decodes to itself. */
  lemma QuotedIsInert(raw: string, lookup: string -> Looked)
    ensures Substitute(Quoted(raw), lookup) == Ok(Quoted(raw))
    ensures YamlDecode(EscapeBody(raw)) == Some(raw)
  {
    EscapeBodyHasNoDollar(raw);
    SubstituteSkips(Quoted(raw), "", lookup);
    assert Quoted(raw) + "" == Quoted(raw);
    assert FirstAt("", OPENER).None?;
    YamlReadsEscaped(raw);
  }

  lemma {:induction false} YamlReadsEscaped(raw: string)
    ensures YamlDecode(EscapeBody(raw)) == Some(raw)
  {
    hide EscapeChar;
    if raw != "" {
      YamlReadsEscaped(raw[1..]);
      YamlReadsChar(raw[0], EscapeBody(raw[1..]));
      assert [raw[0]] + raw[1..] == raw;
    }
  }

  /** The value a service finally sees: each `${HOME}` replaced, each service placeholder kept. */
  function Expanded(raw: string, home: string): string
    decreases |raw|
  {
    if raw == "" then ""
    else if StartsWith(raw, HOME_PLACEHOLDER) then home + Expanded(raw[|HOME_PLACEHOLDER|..], home)
    else if StartsWith(raw, SERVICE_CWD_PLACEHOLDER) then
      SERVICE_CWD_PLACEHOLDER + Expanded(raw[|SERVICE_CWD_PLACEHOLDER|..], home)
    else [raw[0]] + Expanded(raw[1..], home)
  }

  /** Substituting `body` and a closing quote leaves a scalar that decodes to `value`. */
  ghost predicate SubstitutesTo(body: string, lookup: string -> Looked, value: string) {
    exists text :: Substitute(body + [QUOTE], lookup) == Ok(text + [QUOTE]) && YamlDecode(text) == Some(value)
  }

  ghost predicate ReadsAs(plain: string, shown: string) {
    forall rest :: YamlDecode(plain + rest) == Prepend(shown, YamlDecode(rest))
  }

  lemma PrependsTo(head: string, plain: string, body: string, lookup: string -> Looked, value: string, shown: string)
    requires SubstitutesTo(body, lookup, value)
    requires Substitute(head + (body + [QUOTE]), lookup) == After(plain, Substitute(body + [QUOTE], lookup))
    requires ReadsAs(plain, shown)
    ensures SubstitutesTo(head + body, lookup, shown + value)
  {
    hide Substitute, YamlDecode;
    var text :| Substitute(body + [QUOTE], lookup) == Ok(text + [QUOTE]) && YamlDecode(text) == Some(value);
    Associate(plain, text, [QUOTE]);
    Associate(head, body, [QUOTE]);
    assert YamlDecode(plain + text) == Some(shown + value);
  }

  lemma ScanSubstitutesHome(rest: string, home: string, lookup: string -> Looked)
    requires lookup(HOME) == Found(home) && YamlSafe(home)
    requires SubstitutesTo(QuoteScan(rest), lookup, Expanded(rest, home))
    ensures SubstitutesTo(HOME_PLACEHOLDER + QuoteScan(rest), lookup, home + Expanded(rest, home))
  {
    hide Substitute, YamlDecode, QuoteScan, SubstitutesTo, YamlSafe, PlainName, Expanded;
    NamesArePlain();
    var more := QuoteScan(rest) + [QUOTE];
    SubstituteAtPlaceholder(HOME, more, lookup);
    assert Resolve(Parsed(HOME, None, |HOME| + 1), lookup) == Ok(home);
    assert OPENER + (HOME + "}" + more) == HOME_PLACEHOLDER + more;
    assert ReadsAs(home, home) by {
      forall more ensures YamlDecode(home + more) == Prepend(home, YamlDecode(more)) {
        YamlReadsSafe(home, more);
      }
    }
    PrependsTo(HOME_PLACEHOLDER, home, QuoteScan(rest), lookup, Expanded(rest, home), home);
  }

  lemma ScanSubstitutesServiceCwd(rest: string, home: string, lookup: string -> Looked)
    requires SubstitutesTo(QuoteScan(rest), lookup, Expanded(rest, home))
    ensures SubstitutesTo(SERVICE_CWD_PLACEHOLDER + QuoteScan(rest), lookup, SERVICE_CWD_PLACEHOLDER + Expanded(rest, home))
  {
    hide Substitute, YamlDecode, QuoteScan, SubstitutesTo, YamlSafe, PlainName, Expanded;
    NamesArePlain();
    PlaceholderIsSafe();
    var kept := SERVICE_CWD_PLACEHOLDER;
    var more := QuoteScan(rest) + [QUOTE];
    SubstituteAtPlaceholder(SERVICE_CWD_NAME, more, lookup);
    assert OPENER + (SERVICE_CWD_NAME + "}" + more) == kept + more;
    assert ReadsAs(kept, kept) by {
      forall more ensures YamlDecode(kept + more) == Prepend(kept, YamlDecode(more)) {
        YamlReadsSafe(kept, more);
      }
    }
    PrependsTo(kept, kept, QuoteScan(rest), lookup, Expanded(rest, home), kept);
  }

  lemma ScanSubstitutesChar(c: char, rest: string, home: string, lookup: string -> Looked)
    requires SubstitutesTo(QuoteScan(rest), lookup, Expanded(rest, home))
    ensures SubstitutesTo(EscapeChar(c) + QuoteScan(rest), lookup, [c] + Expanded(rest, home))
  {
    hide Substitute, YamlDecode, QuoteScan, SubstitutesTo, EscapeChar, Expanded;
    var head := EscapeChar(c);
    EscapeHasNoDollar(c);
    SubstituteSkips(head, QuoteScan(rest) + [QUOTE], lookup);
    assert ReadsAs(head, [c]) by {
      forall more ensures YamlDecode(head + more) == Prepend([c], YamlDecode(more)) {
        YamlReadsChar(c, more);
      }
    }
    PrependsTo(head, head, QuoteScan(rest), lookup, Expanded(rest, home), [c]);
  }

  /** The value shows the home directory. */
  predicate MentionsHome(raw: string) {
    FirstAt(raw, HOME_PLACEHOLDER).Some?
  }

  lemma MentionedAfterServiceCwd(raw: string)
    requires StartsWith(raw, SERVICE_CWD_PLACEHOLDER)
    ensures MentionsHome(raw) <==> MentionsHome(raw[|SERVICE_CWD_PLACEHOLDER|..])
  {
    var name := "{PM3_SERVICE_CWD}";
    var rest := raw[|SERVICE_CWD_PLACEHOLDER|..];
    assert SERVICE_CWD_PLACEHOLDER == ['$'] + name;
    assert raw == raw[..|SERVICE_CWD_PLACEHOLDER|] + rest;
    assert raw[1..] == name + rest;
    NotBoth(raw);
    hide StartsWith;
    FirstAtSkips(name, rest, HOME_PLACEHOLDER);
  }

  lemma {:induction false} ScanSubstitutes(raw: string, home: string, lookup: string -> Looked)
    requires MentionsHome(raw) ==> lookup(HOME) == Found(home) && YamlSafe(home)
    ensures SubstitutesTo(QuoteScan(raw), lookup, Expanded(raw, home))
    decreases |raw|
  {
    hide SubstitutesTo, YamlSafe, EscapeChar, Substitute;
    if raw == "" {
      EmptySubstitutes(lookup);
    } else if StartsWith(raw, HOME_PLACEHOLDER) {
      var rest := raw[|HOME_PLACEHOLDER|..];
      ScanSubstitutes(rest, home, lookup);
      ScanSubstitutesHome(rest, home, lookup);
    } else if StartsWith(raw, SERVICE_CWD_PLACEHOLDER) {
      var rest := raw[|SERVICE_CWD_PLACEHOLDER|..];
      MentionedAfterServiceCwd(raw);
      ScanSubstitutes(rest, home, lookup);
      ScanSubstitutesServiceCwd(rest, home, lookup);
    } else {
      ScanSubstitutes(raw[1..], home, lookup);
      ScanSubstitutesChar(raw[0], raw[1..], home, lookup);
    }
  }

  /** A mentioned home directory that cannot be filled in refuses the whole text. */
  lemma PlaceholdersAreFramed()
    ensures HOME_PLACEHOLDER == OPENER + HOME + "}" && SERVICE_CWD_PLACEHOLDER == OPENER + SERVICE_CWD_NAME + "}"
  {
  }

  lemma Framed(opener: string, name: string, closer: string, tail: string, last: string)
    ensures ((opener + name + closer) + tail) + last == opener + (name + closer + (tail + last))
  {
  }

  lemma ScanUnfolds(raw: string)
    ensures StartsWith(raw, HOME_PLACEHOLDER) ==>
              QuoteScan(raw) == HOME_PLACEHOLDER + QuoteScan(raw[|HOME_PLACEHOLDER|..])
    ensures StartsWith(raw, SERVICE_CWD_PLACEHOLDER) && !StartsWith(raw, HOME_PLACEHOLDER) ==>
              QuoteScan(raw) == SERVICE_CWD_PLACEHOLDER + QuoteScan(raw[|SERVICE_CWD_PLACEHOLDER|..])
  {
    hide EscapeChar;
    assert |HOME_PLACEHOLDER| > 0 && |SERVICE_CWD_PLACEHOLDER| > 0;
  }

  lemma HomeComesFirst(raw: string)
    requires StartsWith(raw, HOME_PLACEHOLDER)
    ensures QuoteScan(raw) + [QUOTE] == OPENER + (HOME + "}" + (QuoteScan(raw[|HOME_PLACEHOLDER|..]) + [QUOTE]))
  {
    hide QuoteScan;
    ScanUnfolds(raw);
    PlaceholdersAreFramed();
    Framed(OPENER, HOME, "}", QuoteScan(raw[|HOME_PLACEHOLDER|..]), [QUOTE]);
  }

  lemma ServiceCwdComesFirst(raw: string)
    requires StartsWith(raw, SERVICE_CWD_PLACEHOLDER) && !StartsWith(raw, HOME_PLACEHOLDER)
    ensures QuoteScan(raw) + [QUOTE]
            == OPENER + (SERVICE_CWD_NAME + "}" + (QuoteScan(raw[|SERVICE_CWD_PLACEHOLDER|..]) + [QUOTE]))
  {
    hide QuoteScan;
    ScanUnfolds(raw);
    PlaceholdersAreFramed();
    Framed(OPENER, SERVICE_CWD_NAME, "}", QuoteScan(raw[|SERVICE_CWD_PLACEHOLDER|..]), [QUOTE]);
  }

  lemma EscapeComesFirst(raw: string)
    requires raw != "" && !StartsWith(raw, SERVICE_CWD_PLACEHOLDER) && !StartsWith(raw, HOME_PLACEHOLDER)
    ensures QuoteScan(raw) + [QUOTE] == EscapeChar(raw[0]) + (QuoteScan(raw[1..]) + [QUOTE])
  {
    hide EscapeChar;
    Associate(EscapeChar(raw[0]), QuoteScan(raw[1..]), [QUOTE]);
  }

  lemma {:induction false} ScanRefuses(raw: string, lookup: string -> Looked)
    requires MentionsHome(raw)
    ensures var home := Resolve(Parsed(HOME, None, |HOME| + 1), lookup);
            home.Err? ==> Substitute(QuoteScan(raw) + [QUOTE], lookup) == home
    decreases |raw|
  {
    hide EscapeChar, Substitute, Resolve, PlainName, QuoteScan;
    NamesArePlain();
    if StartsWith(raw, HOME_PLACEHOLDER) {
      var more := QuoteScan(raw[|HOME_PLACEHOLDER|..]) + [QUOTE];
      SubstituteAtPlaceholder(HOME, more, lookup);
      HomeComesFirst(raw);
    } else if StartsWith(raw, SERVICE_CWD_PLACEHOLDER) {
      var rest := raw[|SERVICE_CWD_PLACEHOLDER|..];
      var more := QuoteScan(rest) + [QUOTE];
      MentionedAfterServiceCwd(raw);
      ScanRefuses(rest, lookup);
      SubstituteAtPlaceholder(SERVICE_CWD_NAME, more, lookup);
      ServiceCwdComesFirst(raw);
    } else {
      ScanRefuses(raw[1..], lookup);
      EscapeHasNoDollar(raw[0]);
      SubstituteSkips(EscapeChar(raw[0]), QuoteScan(raw[1..]) + [QUOTE], lookup);
      EscapeComesFirst(raw);
    }
  }

  lemma EmptySubstitutes(lookup: string -> Looked)
    ensures SubstitutesTo("", lookup, "")
  {
    hide YamlDecode;
    NotPrefixed([QUOTE], OPENER, 0);
    assert FirstAt([QUOTE], OPENER).None?;
    assert "" + [QUOTE] == [QUOTE];
    assert YamlDecode("") == Some("") by { NothingDecodes(); }
  }

  lemma NothingDecodes()
    ensures YamlDecode("") == Some("")
  {
  }

  lemma PlaceholderIsSafe()
    ensures YamlSafe(SERVICE_CWD_PLACEHOLDER)
  {
  }

  /** `value` is what the service reads once `quoted` is substituted and decoded as a scalar. */
  ghost predicate ReadsBackAs(quoted: string, lookup: string -> Looked, value: string) {
    exists text :: Substitute(quoted, lookup) == Ok([QUOTE] + text + [QUOTE]) && YamlDecode(text) == Some(value)
  }

  /**
   * The round trip: quoting a value around its placeholders, substituting the environment and decoding
   * the double-quoted scalar gives the value with each `${HOME}` replaced and `${PM3_SERVICE_CWD}` kept.
   * It is refused, with the lookup's own error, only when the value mentions a home that is missing,
   * undecodable or unsafe to paste.
   */
  lemma QuotingRoundTrip(raw: string, lookup: string -> Looked)
    ensures var quoted := [QUOTE] + QuoteScan(raw) + [QUOTE];
            var home := Resolve(Parsed(HOME, None, |HOME| + 1), lookup);
            if MentionsHome(raw) && home.Err? then Substitute(quoted, lookup) == home
            else ReadsBackAs(quoted, lookup, Expanded(raw, if home.Ok? then home.text else ""))
  {
    hide Substitute, YamlDecode, QuoteScan, Expanded, YamlSafe, MentionsHome;
    var home := Resolve(Parsed(HOME, None, |HOME| + 1), lookup);
    var body := QuoteScan(raw);
    SubstituteSkips([QUOTE], body + [QUOTE], lookup);
    Associate([QUOTE], body, [QUOTE]);
    if MentionsHome(raw) && home.Err? {
      ScanRefuses(raw, lookup);
    } else {
      var value := Expanded(raw, if home.Ok? then home.text else "");
      ScanSubstitutes(raw, if home.Ok? then home.text else "", lookup);
      var text :| Substitute(body + [QUOTE], lookup) == Ok(text + [QUOTE]) && YamlDecode(text) == Some(value);
      Associate([QUOTE], text, [QUOTE]);
    }
  }

  // ----- folding the service's own directory -----

  /** The name between `head` and `tail` already stands in a placeholder. */
  predicate Guarded(head: string, tail: string) {
    EndsWith(head, OPENER) && StartsWith(tail, "}")
  }

  function FoldPiece(head: string, tail: string): string {
    if Guarded(head, tail) then SERVICE_CWD_NAME else SERVICE_CWD_PLACEHOLDER
  }

  /** `fold_service_cwd`: every bare mention of the name becomes a placeholder. */
  function Fold(value: string): string
    decreases |value|
  {
    match FirstAt(value, SERVICE_CWD_NAME)
    case None => value
    case Some(at) =>
      var tail := DropPrefix(value[at..], SERVICE_CWD_NAME);
      value[..at] + (FoldPiece(value[..at], tail) + Fold(tail))
  }

  method FoldServiceCwd(value: string) returns (folded: string)
    ensures folded == Fold(value)
  {
    hide FirstAt, FoldPiece;
    folded := "";
    var rest := value;
    var at := FirstAt(rest, SERVICE_CWD_NAME);
    while at.Some?
      invariant at == FirstAt(rest, SERVICE_CWD_NAME)
      invariant folded + Fold(rest) == Fold(value)
      decreases |rest|
    {
      var head := rest[..at.value];
      var tail := DropPrefix(rest[at.value..], SERVICE_CWD_NAME);
      Associate(folded, head, FoldPiece(head, tail) + Fold(tail));
      Associate(folded + head, FoldPiece(head, tail), Fold(tail));
      folded := folded + head;
      folded := folded + FoldPiece(head, tail);
      rest := tail;
      at := FirstAt(rest, SERVICE_CWD_NAME);
    }
    folded := folded + rest;
  }

  /** Every mention of the name, from left to right, stands in a placeholder. */
  predicate AllGuarded(value: string)
    decreases |value|
  {
    match FirstAt(value, SERVICE_CWD_NAME)
    case None => true
    case Some(at) =>
      var tail := DropPrefix(value[at..], SERVICE_CWD_NAME);
      Guarded(value[..at], tail) && AllGuarded(tail)
  }

  lemma FirstAtIs(s: string, p: string, at: nat)
    requires at <= |s| && StartsWith(s[at..], p)
    requires forall j :: 0 <= j < at ==> !StartsWith(s[j..], p)
    ensures FirstAt(s, p) == Some(at)
  {
    hide FirstAt, StartsWith;
    var found := FirstAt(s, p);
    if found.None? || at < found.value {
      FirstAtIsFirst(s, p, at);
    }
  }

  /** A text that agrees with `value` up to the end of its first mention has the same first mention. */
  lemma FirstMentionStays(head: string, tail: string, other: string)
    requires FirstAt(head + SERVICE_CWD_NAME + tail, SERVICE_CWD_NAME) == Some(|head|)
    ensures FirstAt(head + SERVICE_CWD_NAME + other, SERVICE_CWD_NAME) == Some(|head|)
  {
    hide FirstAt;
    var name := SERVICE_CWD_NAME;
    var value, now := head + name + tail, head + name + other;
    assert now[|head|..][..|name|] == name;
    forall j | 0 <= j < |head|
      ensures !StartsWith(now[j..], name)
    {
      FirstAtIsFirst(value, name, j);
      assert now[j..][..|name|] == value[j..][..|name|];
    }
    FirstAtIs(now, name, |head|);
  }

  /** Wrapping the first mention in a placeholder moves it by the two letters of the opener. */
  lemma FirstMentionMoves(head: string, tail: string, other: string)
    requires FirstAt(head + SERVICE_CWD_NAME + tail, SERVICE_CWD_NAME) == Some(|head|)
    ensures FirstAt(head + OPENER + SERVICE_CWD_NAME + other, SERVICE_CWD_NAME) == Some(|head| + 2)
  {
    hide FirstAt;
    var name := SERVICE_CWD_NAME;
    var value, now := head + name + tail, head + OPENER + name + other;
    assert now[|head| + 2..][..|name|] == name;
    forall j | 0 <= j < |head| + 2
      ensures !StartsWith(now[j..], name)
    {
      if j + |name| <= |head| {
        FirstAtIsFirst(value, name, j);
        assert now[j..][..|name|] == value[j..][..|name|];
      } else if j <= |head| {
        var k := |head| - j;
        assert now[j..][k] == '$';
        assert name[k] != '$';
        NotPrefixed(now[j..], name, k);
      } else {
        assert now[j..][0] == '{';
        NotPrefixed(now[j..], name, 0);
      }
    }
    FirstAtIs(now, name, |head| + 2);
  }

  /** Nothing to fold is left exactly in texts whose mentions all stand in placeholders. */
  lemma {:induction false} GuardedTextIsFixed(value: string)
    requires AllGuarded(value)
    ensures Fold(value) == value
    decreases |value|
  {
    hide FirstAt, Guarded;
    var at := FirstAt(value, SERVICE_CWD_NAME);
    if at.Some? {
      var tail := DropPrefix(value[at.value..], SERVICE_CWD_NAME);
      GuardedTextIsFixed(tail);
      assert value == value[..at.value] + (SERVICE_CWD_NAME + tail);
    }
  }

  lemma ClosingBraceIsInert(rest: string)
    ensures AllGuarded("}" + rest) == AllGuarded(rest)
  {
    FirstAtSkips("}", rest, SERVICE_CWD_NAME);
    hide FirstAt, EndsWith, StartsWith, DropPrefix;
    var text := "}" + rest;
    var at := FirstAt(rest, SERVICE_CWD_NAME);
    if at.Some? {
      var head := rest[..at.value];
      assert text[..at.value + 1] == "}" + head;
      assert text[at.value + 1..] == rest[at.value..];
      BraceBeforeOpener(head);
    }
  }

  lemma BraceBeforeOpener(head: string)
    ensures EndsWith("}" + head, OPENER) == EndsWith(head, OPENER)
  {
    var wider := "}" + head;
    if 2 <= |head| {
      assert wider[|wider| - 2..] == head[|head| - 2..];
    } else if |head| == 1 {
      assert wider[0] == '}' && wider[0..] == wider;
    }
  }

  lemma FoldKeepsClosingBrace(tail: string)
    requires StartsWith(tail, "}")
    ensures StartsWith(Fold(tail), "}")
  {
    assert tail[0] == tail[..1][0] == '}';
    NotPrefixed(tail, SERVICE_CWD_NAME, 0);
  }

  lemma GuardedStep(head: string, tail: string)
    requires FirstAt(head + SERVICE_CWD_NAME + tail, SERVICE_CWD_NAME) == Some(|head|)
    requires Guarded(head, tail) && AllGuarded(tail)
    ensures AllGuarded(head + SERVICE_CWD_NAME + tail)
  {
    hide FirstAt, Guarded;
    var text := head + SERVICE_CWD_NAME + tail;
    assert text[..|head|] == head;
    assert DropPrefix(text[|head|..], SERVICE_CWD_NAME) == tail;
  }

  lemma WrappedMention(head: string, tail: string, after: string)
    requires FirstAt(head + SERVICE_CWD_NAME + tail, SERVICE_CWD_NAME) == Some(|head|)
    requires AllGuarded(after)
    ensures AllGuarded(head + (SERVICE_CWD_PLACEHOLDER + after))
  {
    hide FirstAt, AllGuarded, StartsWith, EndsWith;
    var rest := "}" + after;
    FirstMentionMoves(head, tail, rest);
    ClosingBraceIsInert(after);
    FramesGuard(head, after);
    GuardedStep(head + OPENER, rest);
    assert head + OPENER + SERVICE_CWD_NAME + rest == head + (SERVICE_CWD_PLACEHOLDER + after);
  }

  lemma FramesGuard(head: string, after: string)
    ensures Guarded(head + OPENER, "}" + after)
  {
    assert (head + OPENER)[|head|..] == OPENER && ("}" + after)[..1] == "}";
  }

  /** One folded mention, given that the text after it is folded. */
  lemma FoldedMention(head: string, tail: string, after: string)
    requires FirstAt(head + SERVICE_CWD_NAME + tail, SERVICE_CWD_NAME) == Some(|head|)
    requires AllGuarded(after) && (StartsWith(tail, "}") ==> StartsWith(after, "}"))
    ensures AllGuarded(head + (FoldPiece(head, tail) + after))
  {
    hide FirstAt, AllGuarded, StartsWith, EndsWith;
    if Guarded(head, tail) {
      FirstMentionStays(head, tail, after);
      GuardedStep(head, after);
      Associate(head, SERVICE_CWD_NAME, after);
    } else {
      WrappedMention(head, tail, after);
    }
  }

  /** After folding no bare mention is left. */
  lemma {:induction false} FoldGuardsEverything(value: string)
    ensures AllGuarded(Fold(value))
    decreases |value|
  {
    hide FirstAt, FoldPiece, Guarded;
    var at := FirstAt(value, SERVICE_CWD_NAME);
    if at.Some? {
      var head, tail := value[..at.value], DropPrefix(value[at.value..], SERVICE_CWD_NAME);
      FoldGuardsEverything(tail);
      assert value == head + SERVICE_CWD_NAME + tail;
      if StartsWith(tail, "}") {
        FoldKeepsClosingBrace(tail);
      }
      FoldedMention(head, tail, Fold(tail));
    }
  }

  /** Folding twice is folding once. */
  lemma FoldIsIdempotent(value: string)
    ensures Fold(Fold(value)) == Fold(value)
  {
    FoldGuardsEverything(value);
    GuardedTextIsFixed(Fold(value));
  }

  /** The text without the letters of a placeholder's frame. */
  function Unframed(s: string): string {
    if s == "" then ""
    else (if s[0] == '$' || s[0] == '{' || s[0] == '}' then "" else [s[0]]) + Unframed(s[1..])
  }

  lemma {:induction false} UnframedSplits(a: string, b: string)
    ensures Unframed(a + b) == Unframed(a) + Unframed(b)
  {
    if a == "" {
      assert a + b == b;
    } else {
      assert (a + b)[1..] == a[1..] + b;
      UnframedSplits(a[1..], b);
    }
  }

  /** Folding adds nothing but placeholder frames. */
  lemma {:induction false} FoldAddsOnlyFrames(value: string)
    ensures Unframed(Fold(value)) == Unframed(value)
    decreases |value|
  {
    hide FirstAt, Guarded, Unframed;
    var name := SERVICE_CWD_NAME;
    var at := FirstAt(value, name);
    if at.Some? {
      var head, tail := value[..at.value], DropPrefix(value[at.value..], name);
      var piece := FoldPiece(head, tail);
      FoldAddsOnlyFrames(tail);
      assert value == head + (name + tail);
      UnframedSplits(head, name + tail);
      UnframedSplits(name, tail);
      UnframedSplits(head, piece + Fold(tail));
      UnframedSplits(piece, Fold(tail));
      FrameVanishes();
    }
  }

  lemma FrameVanishes()
    ensures Unframed(SERVICE_CWD_PLACEHOLDER) == Unframed(SERVICE_CWD_NAME)
  {
    hide Unframed;
    UnframedSplits(OPENER + SERVICE_CWD_NAME, "}");
    UnframedSplits(OPENER, SERVICE_CWD_NAME);
    assert SERVICE_CWD_PLACEHOLDER == OPENER + SERVICE_CWD_NAME + "}";
    FrameLetters();
  }

  lemma FrameLetters()
    ensures Unframed(OPENER) == "" && Unframed("}") == ""
  {
    assert OPENER[1..] == "{" && "{"[1..] == "" && "}"[1..] == "";
  }
}
