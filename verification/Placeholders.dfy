/**
 * What a placeholder in a configuration is and what it is replaced by (adapters/src/config/loader.rs),
 * stated on the text itself.
 */
module Placeholders {
  import opened Model
  import opened Text
  import opened Quoting

  /** Read from `depth` open braces on, the text closes no brace it has not opened, and every one it has. */
  predicate Nests(text: string, depth: nat) {
    if text == "" then depth == 0
    else if text[0] == '{' then Nests(text[1..], depth + 1)
    else if text[0] == '}' then depth > 0 && Nests(text[1..], depth - 1)
    else Nests(text[1..], depth)
  }

  predicate IsName(name: string) {
    name != "" && forall c <- name :: c != ':' && c != '{' && c != '}' && c != '\n'
  }

  /** After its opener, the text is a name, perhaps a default on the same line, a closing brace, and the rest. */
  predicate IsPlaceholder(body: string, name: string, default: Option<string>, rest: string) {
    && IsName(name) && (default.Some? ==> '\n' !in default.value && Nests(default.value, 0))
    && body == name + (if default.Some? then ":-" + default.value else "") + "}" + rest
  }

  lemma FirstOfRest(line: string, index: nat, k: nat)
    requires index < k <= |line|
    ensures line[index..k][0] == line[index] && line[index..k][1..] == line[index + 1..k]
  {
  }

  /** The closing brace is the first one that nothing before it opens. */
  lemma {:induction false} ClosesExactly(line: string, index: nat, depth: nat, k: nat)
    requires index <= |line|
    ensures UnnestedClose(line, index, depth) == Some(k) <==>
              index <= k < |line| && line[k] == '}' && Nests(line[index..k], depth)
    decreases |line| - index
  {
    if index < |line| {
      var c := line[index];
      var deeper := if c == '{' then depth + 1 else if c == '}' && depth > 0 then depth - 1 else depth;
      if !(c == '}' && depth == 0) {
        ClosesExactly(line, index + 1, deeper, k);
      }
      if index < k <= |line| {
        FirstOfRest(line, index, k);
      }
    }
  }

  lemma {:induction false} PlainTextNests(plain: string, more: string, depth: nat)
    requires '{' !in plain && '}' !in plain
    ensures Nests(plain + more, depth) <==> Nests(more, depth)
  {
    if plain == "" {
      assert plain + more == more;
    } else {
      assert (plain + more)[0] == plain[0] && plain[0] in plain && (plain + more)[1..] == plain[1..] + more;
      forall c <- plain[1..] ensures c in plain {
      }
      PlainTextNests(plain[1..], more, depth);
    }
  }

  /** Without an opening brace there is none to close. */
  lemma {:induction false} NothingToClose(head: string, more: string)
    requires '{' !in head && Nests(head + more, 0)
    ensures '}' !in head
  {
    if head != "" {
      assert (head + more)[0] == head[0] && head[0] in head && (head + more)[1..] == head[1..] + more;
      forall c <- head[1..] ensures c in head {
      }
      NothingToClose(head[1..], more);
      forall c <- head ensures c == head[0] || c in head[1..] {
      }
    }
  }

  function LineOf(body: string): string {
    var end := FirstAt(body, "\n");
    if end.None? then body else body[..end.value]
  }

  lemma LineHasNoBreak(body: string)
    ensures '\n' !in LineOf(body) && LineOf(body) <= body
    ensures |LineOf(body)| < |body| ==> body[|LineOf(body)|] == '\n'
  {
    hide FirstAt;
    var line := LineOf(body);
    forall j | 0 <= j < |line| ensures line[j] != '\n' {
      FirstAtIsFirst(body, "\n", j);
      assert body[j..][0] == line[j];
    }
    var end := FirstAt(body, "\n");
    if end.Some? {
      assert body[end.value..][0] == '\n';
    }
  }

  /** The line holds whatever the text begins with before its first line break. */
  lemma LineBeginsWith(body: string, head: string)
    requires head <= body && '\n' !in head
    ensures head <= LineOf(body)
  {
    LineHasNoBreak(body);
    hide LineOf;
    forall j | 0 <= j < |head| ensures body[j] != '\n' {
      assert head[j] == body[j] && head[j] in head;
    }
    assert head == body[..|head|] == LineOf(body)[..|head|];
  }

  function Inner(name: string, default: Option<string>): string {
    name + (if default.Some? then ":-" + default.value else "")
  }

  lemma InnerNests(name: string, default: Option<string>)
    requires IsName(name)
    ensures Nests(Inner(name, default), 0) <==> (default.Some? ==> Nests(default.value, 0))
    ensures (default.Some? ==> '\n' !in default.value) ==> '\n' !in Inner(name, default)
  {
    var more := if default.Some? then ":-" + default.value else "";
    PlainTextNests(name, more, 0);
    if default.Some? {
      PlainTextNests(":-", default.value, 0);
    }
  }

  lemma InnerSplits(name: string, default: Option<string>)
    requires IsName(name)
    ensures var colon := FirstAt(Inner(name, default), ":-");
            if default.None? then colon.None? && Inner(name, default) == name
            else colon == Some(|name|) && Inner(name, default)[..|name|] == name
                 && Inner(name, default)[|name|..] == ":-" + default.value
  {
    if default.None? {
      assert Inner(name, default) == name;
      NameHasNoDefault(name);
    } else {
      var more := ":-" + default.value;
      assert more[..2] == ":-" && more[0..] == more;
      assert FirstAt(more, ":-") == Some(0);
      FirstAtSkips(name, more, ":-");
      assert Inner(name, default)[|name|..] == more;
    }
  }

  /** A placeholder is parsed as its name, its default and its length. */
  lemma PlaceholderIsParsed(body: string, name: string, default: Option<string>, rest: string)
    requires IsPlaceholder(body, name, default, rest)
    ensures ParsePlaceholder(body) == Some(Parsed(name, default, |body| - |rest|)) && body[|body| - |rest|..] == rest
  {
    hide FirstAt, UnnestedClose, Nests, StartsWith;
    var inner, line := Inner(name, default), LineOf(body);
    assert body == inner + "}" + rest;
    assert inner + "}" <= body;
    InnerNests(name, default);
    LineBeginsWith(body, inner + "}");
    assert line[..|inner|] == inner && line[0..|inner|] == inner && line[|inner|] == '}';
    ClosesExactly(line, 0, 0, |inner|);
    InnerSplits(name, default);
    ParsesLine(body, |inner|);
  }

  /** `parse_placeholder` once the line and the closing brace are found. */
  lemma ParsesLine(body: string, close: nat)
    requires UnnestedClose(LineOf(body), 0, 0) == Some(close)
    ensures var inner := LineOf(body)[..close];
            var colon := FirstAt(inner, ":-");
            var name := if colon.None? then inner else inner[..colon.value];
            ParsePlaceholder(body) ==
              if name == "" || ':' in name || '{' in name then None
              else Some(Parsed(name, if colon.None? then None else Some(inner[colon.value + 2..]), close + 1))
  {
    hide FirstAt, UnnestedClose, StartsWith;
    var inner := LineOf(body)[..close];
    var colon := FirstAt(inner, ":-");
    if colon.Some? {
      assert inner[colon.value..][2..] == inner[colon.value + 2..];
    }
  }

  /** Whatever is parsed is a placeholder. */
  lemma ParsedIsPlaceholder(body: string)
    requires ParsePlaceholder(body).Some?
    ensures var parsed := ParsePlaceholder(body).value;
            parsed.consumed <= |body| && IsPlaceholder(body, parsed.name, parsed.default, body[parsed.consumed..])
  {
    hide FirstAt, UnnestedClose, Nests, StartsWith;
    var line := LineOf(body);
    LineHasNoBreak(body);
    var close := UnnestedClose(line, 0, 0).value;
    ClosesExactly(line, 0, 0, close);
    ParsesLine(body, close);
    hide ParsePlaceholder, LineOf;
    var inner, parsed := line[..close], ParsePlaceholder(body).value;
    assert line[0..close] == inner;
    ParsedInner(inner, parsed.name, parsed.default);
    assert body == inner + "}" + body[close + 1..] by {
      assert body[..close] == inner && body[close] == '}';
    }
  }

  lemma ParsedInner(inner: string, name: string, default: Option<string>)
    requires Nests(inner, 0) && '\n' !in inner
    requires var colon := FirstAt(inner, ":-");
             && name == (if colon.None? then inner else inner[..colon.value])
             && default == (if colon.None? then None else Some(inner[colon.value + 2..]))
    requires name != "" && ':' !in name && '{' !in name
    ensures IsName(name) && inner == Inner(name, default)
    ensures default.Some? ==> '\n' !in default.value && Nests(default.value, 0)
  {
    hide FirstAt, Nests, IsName;
    var colon := FirstAt(inner, ":-");
    if colon.None? {
      assert inner == name + "";
      NameIsPlain(name, "");
    } else {
      var more := ":-" + default.value;
      assert inner[colon.value..] == more;
      assert inner == name + more;
      NameIsPlain(name, more);
      forall c <- default.value ensures c in inner {
        assert c in more;
      }
    }
    InnerNests(name, default);
  }

  lemma NameIsPlain(name: string, more: string)
    requires Nests(name + more, 0) && '\n' !in name + more && name != "" && ':' !in name && '{' !in name
    ensures IsName(name)
  {
    hide Nests;
    NothingToClose(name, more);
    forall c <- name ensures c != '\n' {
      assert c in name + more;
    }
  }

  // ----- what a placeholder is replaced by -----

  /** Text that can stand inside a double-quoted scalar as it is. */
  predicate CanBePasted(value: string) {
    forall c <- value ::
      && c != '\"' && c != '\\'
      && ' ' <= c && !(0x7f <= c as int <= 0x9f)
  }

  /**
   * The service's own directory is left for later and takes no default. Anything else is looked up: a
   * value is pasted if it can be, a missing one falls back on the default, and there is an error otherwise.
   */
  function ReplacedBy(name: string, default: Option<string>, lookup: string -> Looked): Substituted {
    if name == "PM3_SERVICE_CWD" then
      if default.Some? then Err(ReservedDefault(name)) else Ok("${PM3_SERVICE_CWD}")
    else
      match lookup(name)
      case Undecodable => Err(Lookup(name))
      case Found(value) => if CanBePasted(value) then Ok(value) else Err(NotYamlSafe(name))
      case Missing => if default.None? then Err(NotSet(name)) else Ok(default.value)
  }

  /** The text before an opener, what the placeholder is replaced by, and the rest, or the first error. */
  function Spliced(before: string, replaced: Substituted, rest: Substituted): Substituted {
    if replaced.Err? then replaced else if rest.Err? then rest else Ok(before + replaced.text + rest.text)
  }

  lemma PastedIsSafe(value: string)
    ensures YamlSafe(value) <==> CanBePasted(value)
  {
    assert forall c <- value :: (' ' <= c && !(0x7f <= c as int <= 0x9f)) <==> !IsControl(c);
  }

  /**
   * Substitution, from the first opener on: a placeholder is replaced, an opener that begins none stays,
   * and the rest is treated alike; a text without an opener is left alone.
   */
  lemma SubstitutionIsExact(text: string, lookup: string -> Looked)
    ensures FirstAt(text, "${").None? ==> Substitute(text, lookup) == Ok(text)
    ensures FirstAt(text, "${").Some? ==>
              var at := FirstAt(text, "${").value;
              var before, body := text[..at], text[at + 2..];
              if ParsePlaceholder(body).Some? then
                var parsed := ParsePlaceholder(body).value;
                parsed.consumed <= |body| && IsPlaceholder(body, parsed.name, parsed.default, body[parsed.consumed..])
                && Substitute(text, lookup)
                   == Spliced(before, ReplacedBy(parsed.name, parsed.default, lookup), Substitute(body[parsed.consumed..], lookup))
              else
                && (forall name, default, rest :: !IsPlaceholder(body, name, default, rest))
                && Substitute(text, lookup) == Spliced(before, Ok("${"), Substitute(body, lookup))
  {
    hide FirstAt, ParsePlaceholder, IsPlaceholder, PieceOf, YamlSafe, CanBePasted, Substitute;
    SubstituteUnfolds(text, lookup);
    if FirstAt(text, "${").Some? {
      var at := FirstAt(text, "${").value;
      var body := text[at + 2..];
      assert DropPrefix(text[at..], OPENER) == body;
      if ParsePlaceholder(body).Some? {
        ParsedIsPlaceholder(body);
        PieceIsReplaced(body, lookup);
        SplicesAs(text[..at], body, lookup);
      } else {
        forall name, default, rest ensures !IsPlaceholder(body, name, default, rest) {
          if IsPlaceholder(body, name, default, rest) {
            PlaceholderIsParsed(body, name, default, rest);
          }
        }
        StrayIsKept(text[..at], body, lookup);
      }
    }
  }

  /** A piece is its placeholder's replacement. */
  lemma PieceIsReplaced(body: string, lookup: string -> Looked)
    requires ParsePlaceholder(body).Some?
    ensures var parsed := ParsePlaceholder(body).value;
            PieceOf(body, lookup) ==
              match ReplacedBy(parsed.name, parsed.default, lookup)
              case Err(error) => Fail(error)
              case Ok(text) => Text(text, parsed.consumed)
  {
    var parsed := ParsePlaceholder(body).value;
    hide ParsePlaceholder, YamlSafe, CanBePasted, IsPlaceholder;
    if parsed.name == SERVICE_CWD_NAME {
      if parsed.default.None? {
        OwnDirectoryIsKept(body, parsed);
      }
    } else if lookup(parsed.name).Found? {
      PastedIsSafe(lookup(parsed.name).value);
    }
  }

  lemma OwnDirectoryIsKept(body: string, parsed: Parsed)
    requires ParsePlaceholder(body) == Some(parsed) && parsed.name == SERVICE_CWD_NAME && parsed.default.None?
    ensures OPENER + body[..parsed.consumed] == SERVICE_CWD_PLACEHOLDER
  {
    ParsedIsPlaceholder(body);
    BareIsNamed(body, parsed.name, parsed.consumed);
    hide ParsePlaceholder, IsPlaceholder;
    NamesArePlain();
  }

  lemma BareIsNamed(body: string, name: string, consumed: nat)
    requires consumed <= |body| && IsPlaceholder(body, name, None, body[consumed..])
    ensures body[..consumed] == name + "}"
  {
    hide IsName;
    var rest := body[consumed..];
    assert body == (name + "}") + rest;
    assert |name + "}"| == consumed;
  }

  lemma SplicesAs(before: string, body: string, lookup: string -> Looked)
    requires ParsePlaceholder(body).Some?
    requires PieceOf(body, lookup) ==
             match ReplacedBy(ParsePlaceholder(body).value.name, ParsePlaceholder(body).value.default, lookup)
             case Err(error) => Fail(error)
             case Ok(text) => Text(text, ParsePlaceholder(body).value.consumed)
    ensures var parsed := ParsePlaceholder(body).value;
            Onward(before, body, lookup)
            == Spliced(before, ReplacedBy(parsed.name, parsed.default, lookup), Substitute(body[parsed.consumed..], lookup))
  {
    hide ParsePlaceholder, PieceOf, ReplacedBy, Substitute;
    var parsed := ParsePlaceholder(body).value;
    var replaced := ReplacedBy(parsed.name, parsed.default, lookup);
    var rest := Substitute(body[parsed.consumed..], lookup);
    if replaced.Ok? && rest.Ok? {
      assert before + (replaced.text + rest.text) == before + replaced.text + rest.text;
    }
  }

  lemma StrayIsKept(before: string, body: string, lookup: string -> Looked)
    requires ParsePlaceholder(body).None?
    ensures Onward(before, body, lookup) == Spliced(before, Ok("${"), Substitute(body, lookup))
  {
    hide ParsePlaceholder, Substitute;
    assert body[0..] == body;
    var rest := Substitute(body, lookup);
    if rest.Ok? {
      assert before + (OPENER + rest.text) == before + OPENER + rest.text;
    }
  }
}
