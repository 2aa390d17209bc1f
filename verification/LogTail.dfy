/**
 * Reading the end of a log in chunks, backwards, and following what is appended to it
 * (adapters/src/logs/tail.rs). A log is its bytes, one per `char`; decoding them to text,
 * which never touches a newline or a carriage return, is left to the caller.
 */
module LogTail {
  import opened Text

  type Bytes = seq<char>

  const NEWLINE := '\n'
  const CARRIAGE_RETURN := '\r'

  /** The index of the first newline, or the length. */
  function FirstBreak(text: Bytes): (i: nat)
    ensures i <= |text|
    ensures i < |text| ==> text[i] == NEWLINE
    ensures NEWLINE !in text[..i]
  {
    FirstMark(text, NEWLINE)
  }

  function StripReturn(line: Bytes): Bytes {
    if line != [] && line[|line| - 1] == CARRIAGE_RETURN then line[..|line| - 1] else line
  }

  /** `str::lines`: split at newlines, a carriage return before one dropped, no empty line after the last. */
  function Lines(text: Bytes): seq<Bytes> {
    if text == [] then []
    else
      var i := FirstBreak(text);
      if i == |text| then [text] else [StripReturn(text[..i])] + Lines(text[i + 1..])
  }

  /** `tail_lines`: the last `count` lines. */
  function TailLines(text: Bytes, count: nat): seq<Bytes> {
    LastOf(Lines(text), count)
  }

  function LastOf<T>(s: seq<T>, count: nat): seq<T> {
    if |s| <= count then s else s[|s| - count..]
  }

  function Breaks(text: Bytes): nat {
    if text == [] then 0 else (if text[0] == NEWLINE then 1 else 0) + Breaks(text[1..])
  }

  // ----- lines of a concatenation -----

  predicate EndsWithBreak(text: Bytes) {
    text != [] && text[|text| - 1] == NEWLINE
  }

  predicate EndsInReturn(line: Bytes) { line != [] && line[|line| - 1] == CARRIAGE_RETURN }

  /**
   * The text is these lines, each with its ending: a line feed, or a carriage return and a line feed when
   * there is one to take. Only the last may go without, and then it is not empty.
   */
  ghost predicate Spells(text: Bytes, lines: seq<Bytes>)
    decreases |lines|
  {
    if lines == [] then text == []
    else
      var line, rest := lines[0], lines[1..];
      && NEWLINE !in line
      && ((rest == [] && text == line && line != [])
          || (line + [CARRIAGE_RETURN, NEWLINE] <= text && Spells(text[|line| + 2..], rest))
          || (line + [NEWLINE] <= text && !EndsInReturn(line) && Spells(text[|line| + 1..], rest)))
  }

  /** The lines of a text are the one way to spell it. */
  lemma {:induction false} LinesAreExact(text: Bytes, lines: seq<Bytes>)
    ensures Spells(text, lines) <==> lines == Lines(text)
    decreases |text|
  {
    if text == [] {
      NothingSpelled(lines);
    } else {
      var i := FirstBreak(text);
      if i == |text| {
        UnendedIsSpelled(text, lines);
      } else {
        LinesAreExact(text[i + 1..], if lines == [] then [] else lines[1..]);
        EndedIsSpelled(text, i, lines);
      }
    }
  }

  lemma NothingSpelled(lines: seq<Bytes>)
    ensures Spells([], lines) <==> lines == []
  {
  }

  lemma FirstBreakAt(text: Bytes, k: nat)
    requires k < |text| && text[k] == NEWLINE && NEWLINE !in text[..k]
    ensures FirstBreak(text) == k
  {
    hide FirstBreak;
    NoneBefore(text, FirstBreak(text));
    NoneBefore(text, k);
  }

  lemma NoneBefore(text: Bytes, n: nat)
    requires n <= |text| && NEWLINE !in text[..n]
    ensures forall j :: 0 <= j < n ==> text[j] != NEWLINE
  {
    forall j | 0 <= j < n ensures text[j] != NEWLINE {
      assert text[..n][j] == text[j] && text[..n][j] in text[..n];
    }
  }

  lemma EndingHasBreak(line: Bytes, text: Bytes)
    ensures line + [CARRIAGE_RETURN, NEWLINE] <= text || line + [NEWLINE] <= text ==> NEWLINE in text
  {
    if line + [CARRIAGE_RETURN, NEWLINE] <= text {
      assert text[|line| + 1] == NEWLINE;
    } else if line + [NEWLINE] <= text {
      assert text[|line|] == NEWLINE;
    }
  }

  /** A text without a line feed is one line. */
  lemma UnendedIsSpelled(text: Bytes, lines: seq<Bytes>)
    requires text != [] && FirstBreak(text) == |text|
    ensures Lines(text) == [text] && (Spells(text, lines) <==> lines == [text])
  {
    BreakIsFound(text);
    if lines != [] {
      EndingHasBreak(lines[0], text);
    }
  }

  /** Otherwise the first line is what stands before the first line feed, without its carriage return. */
  lemma EndedIsSpelled(text: Bytes, i: nat, lines: seq<Bytes>)
    requires i == FirstBreak(text) && i < |text|
    requires lines != [] ==> (Spells(text[i + 1..], lines[1..]) <==> lines[1..] == Lines(text[i + 1..]))
    ensures Spells(text, lines) <==> lines == Lines(text)
  {
    hide FirstBreak, StripReturn, EndsInReturn, Lines, Spells;
    LinesUnfold(text, i);
    SpellsFirst(text, lines);
    if lines != [] {
      FirstLineSpelled(text, i, lines[0]);
      assert lines == [lines[0]] + lines[1..];
    }
  }

  lemma SpellsFirst(text: Bytes, lines: seq<Bytes>)
    requires text != []
    ensures Spells(text, lines) <==>
              && lines != [] && NEWLINE !in lines[0]
              && ((lines[1..] == [] && text == lines[0])
                  || (lines[0] + [CARRIAGE_RETURN, NEWLINE] <= text && Spells(text[|lines[0]| + 2..], lines[1..]))
                  || (lines[0] + [NEWLINE] <= text && !EndsInReturn(lines[0]) && Spells(text[|lines[0]| + 1..], lines[1..])))
  {
    hide EndsInReturn;
  }

  lemma FirstLineSpelled(text: Bytes, i: nat, line: Bytes)
    requires i == FirstBreak(text) && i < |text|
    ensures NEWLINE !in line && line + [CARRIAGE_RETURN, NEWLINE] <= text ==> line == StripReturn(text[..i]) && |line| + 2 == i + 1
    ensures NEWLINE !in line && line + [NEWLINE] <= text && !EndsInReturn(line) ==> line == StripReturn(text[..i]) && |line| == i
    ensures NEWLINE !in line ==> text != line
    ensures line == StripReturn(text[..i]) ==>
              && NEWLINE !in line
              && ((|line| + 2 == i + 1 && line + [CARRIAGE_RETURN, NEWLINE] <= text)
                  || (|line| == i && line + [NEWLINE] <= text && !EndsInReturn(line)))
  {
    hide FirstBreak;
    if NEWLINE !in line && line + [CARRIAGE_RETURN, NEWLINE] <= text {
      assert text[..|line| + 1] == line + [CARRIAGE_RETURN] && text[|line| + 1] == NEWLINE;
      FirstBreakAt(text, |line| + 1);
    }
    if NEWLINE !in line && line + [NEWLINE] <= text {
      assert text[..|line|] == line && text[|line|] == NEWLINE;
      FirstBreakAt(text, |line|);
    }
    assert text[..i + 1] == text[..i] + [NEWLINE];
  }

  lemma {:induction false} FirstBreakInHead(head: Bytes, tail: Bytes)
    requires FirstBreak(head) < |head|
    ensures FirstBreak(head + tail) == FirstBreak(head)
  {
    if head[0] != NEWLINE {
      assert (head + tail)[1..] == head[1..] + tail;
      FirstBreakInHead(head[1..], tail);
    }
  }

  lemma BreakIsFound(text: Bytes)
    ensures FirstBreak(text) < |text| <==> NEWLINE in text
  {
    if FirstBreak(text) == |text| {
      assert text[..FirstBreak(text)] == text;
    }
  }

  lemma LinesUnfold(text: Bytes, i: nat)
    requires i == FirstBreak(text) && i < |text|
    ensures Lines(text) == [StripReturn(text[..i])] + Lines(text[i + 1..])
  {
  }

  lemma LinesSplitStep(head: Bytes, tail: Bytes, i: nat, rest: Bytes)
    requires i == FirstBreak(head) && i < |head| && rest == head[i + 1..]
    requires Lines(rest + tail) == Lines(rest) + Lines(tail)
    ensures Lines(head + tail) == Lines(head) + Lines(tail)
  {
    FirstBreakInHead(head, tail);
    hide FirstBreak;
    LinesUnfold(head, i);
    LinesUnfold(head + tail, i);
    hide Lines, StripReturn;
    ConcatSlices(head, tail, i);
    ConcatSlices(head, tail, i + 1);
    Associate([StripReturn(head[..i])], Lines(rest), Lines(tail));
  }

  lemma ConcatSlices<T>(a: seq<T>, b: seq<T>, i: nat)
    requires i <= |a|
    ensures (a + b)[..i] == a[..i] && (a + b)[i..] == a[i..] + b
  {
  }

  /** After a newline the lines start afresh. */
  lemma {:induction false} LinesSplit(head: Bytes, tail: Bytes)
    requires EndsWithBreak(head)
    ensures Lines(head + tail) == Lines(head) + Lines(tail)
    decreases |head|
  {
    BreakIsFound(head);
    assert NEWLINE in head && Lines([]) == [];
    hide Lines, FirstBreak;
    var i := FirstBreak(head);
    var rest := head[i + 1..];
    if rest == [] {
      assert rest + tail == tail;
    } else {
      LinesSplit(rest, tail);
    }
    LinesSplitStep(head, tail, i, rest);
  }

  lemma {:induction false} BreaksSplit(a: Bytes, b: Bytes)
    ensures Breaks(a + b) == Breaks(a) + Breaks(b)
  {
    if a == [] {
      assert a + b == b;
    } else {
      assert (a + b)[1..] == a[1..] + b;
      BreaksSplit(a[1..], b);
    }
  }

  lemma {:induction false} NoBreaks(text: Bytes)
    requires NEWLINE !in text
    ensures Breaks(text) == 0
  {
    if text != [] {
      NoBreaks(text[1..]);
    }
  }

  /** A text has at least as many lines as newlines. */
  lemma {:induction false} LinesAreMany(text: Bytes)
    ensures |Lines(text)| >= Breaks(text)
    decreases |text|
  {
    hide FirstBreak, StripReturn;
    if text != [] {
      var i := FirstBreak(text);
      if i == |text| {
        assert text[..i] == text;
        NoBreaks(text);
      } else {
        LinesAreMany(text[i + 1..]);
        LinesUnfold(text, i);
        BreaksAt(text, i);
        hide Lines, Breaks;
      }
    }
  }

  lemma BreaksAt(text: Bytes, i: nat)
    requires i == FirstBreak(text) && i < |text|
    ensures Breaks(text) == 1 + Breaks(text[i + 1..])
  {
    hide FirstBreak, Breaks;
    assert text == text[..i] + ([NEWLINE] + text[i + 1..]);
    BreaksSplit(text[..i], [NEWLINE] + text[i + 1..]);
    NoBreaks(text[..i]);
    BreakCounts(text[i + 1..]);
  }

  lemma BreakCounts(rest: Bytes)
    ensures Breaks([NEWLINE] + rest) == 1 + Breaks(rest)
  {
    assert ([NEWLINE] + rest)[1..] == rest;
  }

  lemma LastOfSuffix<T>(a: seq<T>, b: seq<T>, count: nat)
    requires |b| >= count
    ensures LastOf(a + b, count) == LastOf(b, count)
  {
    if |a| + |b| > count {
      assert (a + b)[|a + b| - count..] == b[|b| - count..];
    }
  }

  ghost predicate IsSuffixOf<T>(s: seq<T>, t: seq<T>) {
    |s| <= |t| && s == t[|t| - |s|..]
  }

  lemma LastOfIsSuffix<T>(a: seq<T>, b: seq<T>, count: nat)
    ensures IsSuffixOf(LastOf(b, count), LastOf(a + b, count))
  {
    var whole := LastOf(a + b, count);
    var part := LastOf(b, count);
    assert whole[|whole| - |part|..] == part;
  }

  // ----- reading backwards -----

  /** What the reader shows of the bytes it holds: all of them from the start, else after the first newline. */
  function Window(buffer: Bytes, start: nat): Bytes {
    if start > 0 && FirstBreak(buffer) < |buffer| then buffer[FirstBreak(buffer) + 1..] else buffer
  }

  /** Dropping the partial first line loses only lines before the window. */
  lemma WindowLines(content: Bytes, start: nat)
    requires start <= |content|
    requires start > 0 ==> FirstBreak(content[start..]) < |content[start..]|
    ensures exists earlier :: Lines(content) == earlier + Lines(Window(content[start..], start))
  {
    var buffer := content[start..];
    if start == 0 {
      assert buffer == content && Lines(content) == [] + Lines(buffer);
    } else {
      var i := start + FirstBreak(buffer);
      var head := content[..i + 1];
      assert content == head + content[i + 1..];
      assert Window(buffer, start) == content[i + 1..];
      LinesSplit(head, content[i + 1..]);
    }
  }

  /** Where a reader that may take `maxBytes` from the end has to stop at the latest. */
  function Earliest(content: Bytes, maxBytes: nat): nat {
    if maxBytes < |content| then |content| - maxBytes else 0
  }

  lemma MoreBreaks(content: Bytes, earlier: nat, later: nat)
    requires earlier <= later <= |content|
    ensures Breaks(content[later..]) <= Breaks(content[earlier..])
  {
    assert content[earlier..] == content[earlier..later] + content[later..];
    BreaksSplit(content[earlier..later], content[later..]);
  }

  /**
   * `read_tail`: for any content, count and byte budget, and whatever the chunk size, the last `count`
   * lines of the whole log, unless the bytes the budget allows neither reach its start nor hold more than
   * `count` newlines; then a suffix of those lines, as long as those bytes hold a newline.
   */
  method ReadTail(content: Bytes, count: nat, maxBytes: nat, chunkBytes: nat) returns (lines: seq<Bytes>)
    requires chunkBytes > 0
    ensures var start := Earliest(content, maxBytes);
            && (start == 0 || Breaks(content[start..]) > count ==> lines == TailLines(content, count))
            && (NEWLINE in content[start..] ==> IsSuffixOf(lines, TailLines(content, count)))
  {
    hide Lines, TailLines, Breaks, FirstBreak, Window;
    var at := |content|;
    var buffer: Bytes := [];
    while at > 0 && Breaks(buffer) <= count && |buffer| < maxBytes
      invariant Earliest(content, maxBytes) <= at <= |content| && buffer == content[at..]
      decreases at
    {
      var budget := maxBytes - |buffer|;
      var step := Min(Min(chunkBytes, at), budget);
      at := at - step;
      var chunk := content[at..at + step];
      assert content[at..] == chunk + content[at + step..];
      buffer := chunk + buffer;
    }
    var window := Window(buffer, at);
    lines := TailLines(window, count);
    TailIsExact(content, at, count);
    MoreBreaks(content, Earliest(content, maxBytes), at);
    SameIsSuffix(TailLines(content, count));
  }

  lemma SameIsSuffix<T>(s: seq<T>)
    ensures IsSuffixOf(s, s)
  {
  }

  lemma TailIsExact(content: Bytes, start: nat, count: nat)
    requires start <= |content|
    ensures var lines := TailLines(Window(content[start..], start), count);
            && (start == 0 || Breaks(content[start..]) > count ==> lines == TailLines(content, count))
            && (start > 0 && NEWLINE in content[start..] ==> IsSuffixOf(lines, TailLines(content, count)))
  {
    var buffer := content[start..];
    var window := Window(buffer, start);
    BreakIsFound(buffer);
    if start > 0 && NEWLINE !in buffer {
      NoBreaks(buffer);
    } else {
      WindowLines(content, start);
      var earlier :| Lines(content) == earlier + Lines(window);
      hide Lines, LastOf, Breaks, FirstBreak;
      LastOfIsSuffix(earlier, Lines(window), count);
      if start == 0 {
        assert buffer == content;
      } else if Breaks(buffer) > count {
        WindowIsLong(buffer, start);
        LastOfSuffix(earlier, Lines(window), count);
      }
    }
  }

  /** Below its partial first line a window has a line for every newline but one. */
  lemma WindowIsLong(buffer: Bytes, start: nat)
    requires start > 0 && NEWLINE in buffer
    ensures |Lines(Window(buffer, start))| >= Breaks(buffer) - 1
  {
    BreakIsFound(buffer);
    var i := FirstBreak(buffer);
    var window := buffer[i + 1..];
    assert buffer == buffer[..i] + ([NEWLINE] + window);
    BreaksSplit(buffer[..i], [NEWLINE] + window);
    NoBreaks(buffer[..i]);
    assert ([NEWLINE] + window)[1..] == window;
    LinesAreMany(window);
  }

  // ----- following -----

  /** A line as the follower emits it: ended by a newline it removed, or flushed because it grew too long. */
  datatype Emitted = Ended(text: Bytes) | Flushed(text: Bytes)

  /** The bytes a run of emitted lines stands for. */
  function Restored(emitted: seq<Emitted>): Bytes {
    if emitted == [] then []
    else
      var last := emitted[|emitted| - 1];
      Restored(emitted[..|emitted| - 1]) + last.text + if last.Ended? then [NEWLINE] else []
  }

  lemma RestoredAppend(emitted: seq<Emitted>, line: Emitted)
    ensures Restored(emitted + [line]) == Restored(emitted) + line.text + if line.Ended? then [NEWLINE] else []
  {
    assert (emitted + [line])[..|emitted + [line]| - 1] == emitted;
  }

  lemma CutLine(emitted: seq<Emitted>, pending: Bytes, index: nat)
    requires index < |pending| && pending[index] == NEWLINE
    ensures Restored(emitted + [Ended(pending[..index])]) + pending[index + 1..] == Restored(emitted) + pending
  {
    RestoredAppend(emitted, Ended(pending[..index]));
    assert pending == pending[..index] + [NEWLINE] + pending[index + 1..];
    assert Restored(emitted) + (pending[..index] + [NEWLINE] + pending[index + 1..])
        == (Restored(emitted) + pending[..index] + [NEWLINE]) + pending[index + 1..];
  }

  lemma FlushLine(emitted: seq<Emitted>, pending: Bytes)
    ensures Restored(emitted + [Flushed(pending)]) + [] == Restored(emitted) + pending
  {
    RestoredAppend(emitted, Flushed(pending));
  }

  /** A shown line holds no newline, and is cut short only when it outgrew the bound. */
  predicate IsWhole(line: Emitted, bound: nat) {
    NEWLINE !in line.text && (line.Flushed? ==> |line.text| > bound)
  }

  /** `LogFollower`. `seen` and `emitted` record, since it started or last resynchronised, what it read and showed. */
  class LogFollower {
    var offset: nat
    var pending: Bytes
    const maxPendingBytes: nat
    ghost var seen: Bytes
    ghost var emitted: seq<Emitted>

    /** Nothing read is lost or repeated, and what is pending is one bounded unfinished line. */
    ghost predicate Valid()
      reads this
    {
      && Restored(emitted) + pending == seen
      && (forall line <- emitted :: IsWhole(line, maxPendingBytes))
      && NEWLINE !in pending
      && |pending| <= maxPendingBytes
    }

    constructor (length: nat, maxPending: nat)
      ensures Valid() && offset == length && seen == [] && emitted == [] && pending == [] && maxPendingBytes == maxPending
    {
      offset, pending, maxPendingBytes := length, [], maxPending;
      seen, emitted := [], [];
    }

    /** `resync`: a rotated file or one shorter than the offset starts over. */
    method Resync(content: Bytes, rotated: bool)
      requires Valid()
      modifies this
      ensures Valid() && offset <= |content|
      ensures rotated || |content| < old(offset) ==> offset == 0 && seen == [] && emitted == [] && pending == []
      ensures !rotated && old(offset) <= |content| ==>
                offset == old(offset) && seen == old(seen) && emitted == old(emitted) && pending == old(pending)
    {
      if rotated || |content| < offset {
        offset := 0;
        pending := [];
        seen, emitted := [], [];
      }
    }

    /** `poll_appended`: reads at most the budget, then emits the complete lines. */
    method PollAppended(content: Bytes, rotated: bool) returns (lines: seq<Bytes>)
      requires Valid()
      modifies this
      ensures Valid()
      ensures var kept := !rotated && old(offset) <= |content|;
              var from := if kept then old(offset) else 0;
              var before := if kept then old(seen) else [];
              var shown := if kept then old(emitted) else [];
              && offset == from + Min(|content| - from, if maxPendingBytes > 1 then maxPendingBytes else 1)
              && seen == before + content[from..offset]
              && |emitted| == |shown| + |lines| && shown <= emitted
              && forall i :: 0 <= i < |lines| ==> lines[i] == emitted[|shown| + i].text
    {
      hide Restored;
      Resync(content, rotated);
      var budget := if maxPendingBytes > 1 then maxPendingBytes else 1;
      var read := Min(|content| - offset, budget);
      var chunk := content[offset..offset + read];
      offset := offset + read;
      seen := seen + chunk;
      ghost var was := pending;
      pending := pending + chunk;
      assert Restored(emitted) + pending == seen by {
        assert Restored(emitted) + (was + chunk) == (Restored(emitted) + was) + chunk;
      }
      lines := TakeCompleteLines();
    }

    /** `take_complete_lines`: cuts pending at every newline and flushes what is over the bound. */
    method TakeCompleteLines() returns (lines: seq<Bytes>)
      requires Restored(emitted) + pending == seen && forall line <- emitted :: IsWhole(line, maxPendingBytes)
      modifies this
      ensures Valid() && seen == old(seen) && offset == old(offset)
      ensures |emitted| == |old(emitted)| + |lines| && old(emitted) <= emitted
      ensures forall i :: 0 <= i < |lines| ==> lines[i] == emitted[|old(emitted)| + i].text
    {
      hide Restored;
      lines := [];
      var index := FirstBreak(pending);
      while index < |pending|
        invariant index == FirstBreak(pending)
        invariant Restored(emitted) + pending == seen && seen == old(seen) && offset == old(offset)
        invariant forall line <- emitted :: IsWhole(line, maxPendingBytes)
        invariant |emitted| == |old(emitted)| + |lines| && old(emitted) <= emitted
        invariant forall i :: 0 <= i < |lines| ==> lines[i] == emitted[|old(emitted)| + i].text
        decreases |pending|
      {
        var rest := pending[index + 1..];
        var line := pending[..index];
        CutLine(emitted, pending, index);
        emitted := emitted + [Ended(line)];
        pending := rest;
        lines := lines + [line];
        index := FirstBreak(pending);
      }
      assert pending[..index] == pending;
      if |pending| > maxPendingBytes {
        FlushLine(emitted, pending);
        emitted := emitted + [Flushed(pending)];
        lines := lines + [pending];
        pending := [];
      }
    }
  }
}
