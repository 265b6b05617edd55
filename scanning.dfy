/** The results of lexing, shared by both lexers, and the scanning steps they have in common. */
module Scanning {
  import opened Wrappers
  import opened I64
  import opened Tokens
  import opened Chars

  /**
   * Why no token can be produced: the lexer loops forever (an unterminated string
   * in the `three_body_e2021` lexer), or its `unwrap()` panics (an integer literal out of range).
   */
  datatype LexFault = UnterminatedString | NumberOverflow

  /** The token of one `next_token` call and the cursor position it leaves. */
  datatype Scan = Scanned(token: Token, next: nat) | Stuck(fault: LexFault)

  /** A number starting at `p`: the maximal digit run, parsed as an `i64`. */
  function NumberAt(input: seq<char>, p: nat): Scan
    requires p <= |input|
  {
    var e := DigitsEnd(input, p);
    DigitsRun(input, p);
    var v := DecimalValue(input[p..e]);
    if v <= MAX then Scanned(Int(v as int64), e) else Stuck(NumberOverflow)
  }

  /** `c`, or `c` followed by `=`, as an operator at `p`. */
  function Operator(input: seq<char>, p: nat, single: Token, double: Token): Scan
  {
    if CharAt(input, p + 1) == '=' then Scanned(double, p + 2) else Scanned(single, p + 1)
  }

  /** The token of a character that is a token by itself, whatever follows it. */
  function Delimiter(c: char): (t: Option<Token>)
  {
    match c
    case '+' => Some(Plus)
    case '-' => Some(Minus)
    case '/' => Some(Slash)
    case '*' => Some(Asterisk)
    case '(' => Some(LParen)
    case ')' => Some(RParen)
    case '{' => Some(LBrace)
    case '}' => Some(RBrace)
    case '.' => Some(Dot)
    case '[' => Some(LBracket)
    case ']' => Some(RBracket)
    case ',' => Some(Comma)
    case ';' => Some(Semicolon)
    case ':' => Some(Colon)
    case _ => None
  }

  /** The outcome of lexing a whole input: its tokens, or the fault that stops the lexer. */
  datatype Lexed = Lexed(tokens: seq<Token>) | Failed(fault: LexFault)

  function Cons(t: Token, rest: Lexed): Lexed
  {
    match rest
    case Lexed(ts) => Lexed([t] + ts)
    case Failed(f) => Failed(f)
  }

  function Blanks(n: nat): (ts: seq<Token>)
    ensures |ts| == n && forall i :: 0 <= i < n ==> ts[i] == Blank
  {
    if n == 0 then [] else [Blank] + Blanks(n - 1)
  }

  function PrependAll(ts: seq<Token>, rest: Lexed): Lexed
  {
    match rest
    case Lexed(more) => Lexed(ts + more)
    case Failed(f) => Failed(f)
  }

  /** Prepending one more `Blank` to a run of blanks. */
  lemma ConsBlanks(k: nat, rest: Lexed)
    ensures Cons(Blank, PrependAll(Blanks(k), rest)) == PrependAll(Blanks(k + 1), rest)
    ensures PrependAll(Blanks(0), rest) == rest
  {
    match rest
    case Lexed(ts) =>
      assert [Blank] + (Blanks(k) + ts) == Blanks(k + 1) + ts;
      assert Blanks(0) + ts == ts;
    case Failed(_) =>
  }

  /** The digit run of a numeral followed by a non-digit ends exactly at the numeral's end. */
  lemma {:induction false} DigitsEndOfNumeral(s: string, rest: string, i: nat)
    requires IsDigits(s) && i <= |s|
    requires rest == [] || !IsDigit(rest[0])
    ensures DigitsEnd(s + rest, i) == |s|
    decreases |s| - i
  {
    if i < |s| {
      assert CharAt(s + rest, i) == s[i];
      DigitsEndOfNumeral(s, rest, i + 1);
    } else {
      assert CharAt(s + rest, i) == if rest == [] then '\0' else rest[0];
    }
  }

}
