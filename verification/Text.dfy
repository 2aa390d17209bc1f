/** Small facts about sequences, text and decimal digits shared by the other modules. */
module Text {
  function Min(a: nat, b: nat): nat {
    if a < b then a else b
  }

  lemma Associate<T>(a: seq<T>, b: seq<T>, c: seq<T>)
    ensures a + (b + c) == (a + b) + c
  {
  }

  /** The index of the first `mark`, or the length. */
  function FirstMark(text: string, mark: char): (i: nat)
    ensures i <= |text|
    ensures i < |text| ==> text[i] == mark
    ensures mark !in text[..i]
  {
    if text == "" || text[0] == mark then 0
    else
      var i := 1 + FirstMark(text[1..], mark);
      assert text[..i] == [text[0]] + text[1..][..i - 1];
      i
  }

  predicate IsDigit(c: char) { '0' <= c <= '9' }

  function DigitValue(c: char): nat {
    if IsDigit(c) then c as int - '0' as int else 0
  }

  function DecimalValue(text: string): nat {
    if text == "" then 0 else 10 * DecimalValue(text[..|text| - 1]) + DigitValue(text[|text| - 1])
  }
}
