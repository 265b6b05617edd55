/**
 * Character classes and the cursor convention shared by both lexers: a cursor
 * past the end of the input reads the NUL character.
 */
module Chars {
  import I64

  /** The character a lexer cursor at `i` reads: `'\0'` once `i` is past the end. */
  function CharAt(input: seq<char>, i: nat): (c: char)
    ensures i < |input| ==> c == input[i]
    ensures i >= |input| ==> c == '\0'
  {
    if i < |input| then input[i] else '\0'
  }

  /** The layout characters both lexers skip; `'\n'` is not among them. */
  predicate IsWhitespace(c: char)
  {
    c == '\U{0009}' || c == '\U{000C}' || c == '\U{000D}' || c == '\U{000B}' || c == '\U{0020}'
    || c == '\U{0085}' || c == '\U{200E}' || c == '\U{200F}' || c == '\U{2028}' || c == '\U{2029}'
  }

  predicate IsDigit(c: char) { '0' <= c <= '9' }

  /** Exactly ten code points are whitespace, and neither newline nor NUL is one of them. */
  lemma WhitespaceIsTenCodePoints(c: char)
    ensures IsWhitespace(c) <==> c in {'\U{0009}', '\U{000C}', '\U{000D}', '\U{000B}', '\U{0020}', '\U{0085}', '\U{200E}', '\U{200F}', '\U{2028}', '\U{2029}'}
    ensures !IsWhitespace('\n') && !IsWhitespace('\0')
    ensures |{'\U{0009}', '\U{000C}', '\U{000D}', '\U{000B}', '\U{0020}', '\U{0085}', '\U{200E}', '\U{200F}', '\U{2028}', '\U{2029}'}| == 10
  {
  }

  /** The first position at or after `i` that does not hold whitespace. */
  function WhitespaceEnd(input: seq<char>, i: nat): (j: nat)
    ensures i <= j
    ensures !IsWhitespace(CharAt(input, j))
    ensures forall k :: i <= k < j ==> IsWhitespace(CharAt(input, k))
    ensures i <= |input| ==> j <= |input|
    ensures i > |input| ==> j == i
    decreases |input| - i
  {
    if IsWhitespace(CharAt(input, i)) then WhitespaceEnd(input, i + 1) else i
  }

  /** The first position at or after `i` that does not hold an ASCII digit. */
  function DigitsEnd(input: seq<char>, i: nat): (j: nat)
    ensures i <= j
    ensures !IsDigit(CharAt(input, j))
    ensures forall k :: i <= k < j ==> IsDigit(CharAt(input, k))
    ensures i <= |input| ==> j <= |input|
    decreases |input| - i
  {
    if IsDigit(CharAt(input, i)) then DigitsEnd(input, i + 1) else i
  }

  /** The run that `DigitsEnd` delimits is a decimal numeral. */
  lemma DigitsRun(input: seq<char>, i: nat)
    requires i <= |input|
    ensures I64.IsDigits(input[i..DigitsEnd(input, i)])
  {
    var j := DigitsEnd(input, i);
    forall k | 0 <= k < j - i
      ensures '0' <= input[i..j][k] <= '9'
    {
      assert input[i..j][k] == CharAt(input, i + k);
    }
  }
}
