/**
 * The lexer of the `three_body_e2021` snapshot: a cursor over the input
 * characters with one character of lookahead, no escape processing in strings.
 *
 * The pure functions give the token that a call of `next_token` returns when
 * the cursor is at a given position, and where the cursor is left; the class
 * `Lexer` is the imperative cursor, each of whose methods is proved to follow
 * those functions.
 */
module E2021Lexer {
  import opened Wrappers
  import opened I64
  import opened Tokens
  import opened Chars
  import opened Unicode
  import opened Scanning

  predicate IsIdStart(u: Tables, c: char)
  {
    ('a' <= c <= 'z') || ('A' <= c <= 'Z') || c == '_' || c == '$' || c == '¥'
    || (c > '\U{007F}' && u.xidStart(c))
  }

  /** As written, a non-ASCII continuation character must itself be XID_Start. */
  predicate IsIdContinue(u: Tables, c: char)
  {
    ('a' <= c <= 'z') || ('A' <= c <= 'Z') || ('0' <= c <= '9') || c == '_' || c == '$' || c == '¥'
    || (c > '\U{007F}' && u.xidStart(c))
  }

  /** The first position at or after `i` that does not continue an identifier. */
  function IdentEnd(u: Tables, input: seq<char>, i: nat): (j: nat)
    ensures i <= j
    ensures !IsIdContinue(u, CharAt(input, j))
    ensures forall k :: i <= k < j ==> IsIdContinue(u, CharAt(input, k))
    ensures i <= |input| ==> j <= |input|
    decreases |input| - i
  {
    if IsIdContinue(u, CharAt(input, i)) then IdentEnd(u, input, i + 1) else i
  }

  /** The position of the first `"` at or after `i`, if there is one. */
  function QuoteFrom(input: seq<char>, i: nat): (r: Option<nat>)
    ensures r.Some? ==> i <= r.value < |input| && input[r.value] == '"'
    ensures r.Some? ==> forall k :: i <= k < r.value ==> input[k] != '"'
    ensures r.None? ==> forall k :: i <= k < |input| ==> input[k] != '"'
    decreases |input| - i
  {
    if i >= |input| then None
    else if input[i] == '"' then Some(i)
    else QuoteFrom(input, i + 1)
  }

  /** The keyword table, English and Chinese spellings alike. */
  function Keyword(word: string): Option<Token>
  {
    if word == "let" || word == "给" then Some(Let)
    else if word == "以" then Some(Assign)
    else if word == "前进" then Some(Plus)
    else if word == "降维" then Some(Minus)
    else if word == "const" || word == "思想钢印" then Some(Const)
    else if word == "fn" || word == "法则" then Some(Function)
    else if word == "true" || word == "这是计划的一部分" then Some(Bool(true))
    else if word == "false" || word == "主不在乎" then Some(Bool(false))
    else if word == "if" then Some(If)
    else if word == "while" || word == "面壁" then Some(While)
    else if word == "else" then Some(Else)
    else if word == "break" || word == "破壁" then Some(Break)
    else if word == "continue" || word == "延绪" then Some(Continue)
    else if word == "return" then Some(Return)
    else None
  }

  /** The token for an identifier-shaped word: its keyword, or the word itself. */
  function WordToken(word: string): Token
  {
    match Keyword(word)
    case Some(t) => t
    case None => Ident(word)
  }

  /** An identifier or keyword starting at `p`. */
  function IdentAt(u: Tables, input: seq<char>, p: nat): Scan
    requires p <= |input|
  {
    var e := IdentEnd(u, input, p);
    Scanned(WordToken(input[p..e]), e)
  }

  /** A string whose opening quote is at `p`: the characters up to the next quote, verbatim. */
  function StringAt(input: seq<char>, p: nat): Scan
  {
    match QuoteFrom(input, p + 1)
    case None => Stuck(UnterminatedString)
    case Some(q) => Scanned(String(input[p + 1..q]), q + 1)
  }

  /** What `next_token` returns with the cursor at `pos`, and where it leaves the cursor. */
  function NextTokenAt(u: Tables, input: seq<char>, pos: nat): (r: Scan)
    ensures r.Scanned? ==> r.next > pos
    ensures r.Scanned? && r.next > |input| ==> r.token == Eof
    decreases if pos <= |input| then |input| - pos else 0
  {
    var p := WhitespaceEnd(input, pos);
    var c := CharAt(input, p);
    match c
    case '+' => Scanned(Plus, p + 1)
    case '-' => Scanned(Minus, p + 1)
    case '/' => Scanned(Slash, p + 1)
    case '*' => Scanned(Asterisk, p + 1)
    case '<' => Operator(input, p, LT, LTEQ)
    case '>' => Operator(input, p, GT, GTEQ)
    case ';' => Scanned(Semicolon, p + 1)
    case ',' => Scanned(Comma, p + 1)
    case '(' => Scanned(LParen, p + 1)
    case ')' => Scanned(RParen, p + 1)
    case '{' => Scanned(LBrace, p + 1)
    case '}' => Scanned(RBrace, p + 1)
    case '=' => Operator(input, p, Assign, Equal)
    case '!' => Operator(input, p, Bang, NotEqual)
    case '\0' => Scanned(Eof, p + 1)
    case '"' => StringAt(input, p)
    case '[' => Scanned(LBracket, p + 1)
    case ']' => Scanned(RBracket, p + 1)
    case '.' => Scanned(Dot, p + 1)
    case ':' => Scanned(Colon, p + 1)
    case '\n' =>
      if CharAt(input, p + 1) == '\n' then Scanned(Blank, p + 1)
      else NextTokenAt(u, input, p + 1)
    case _ =>
      if IsDigit(c) then NumberAt(input, p)
      else if IsIdStart(u, c) then IdentAt(u, input, p)
      else Scanned(Illegal, p + 1)
  }

  /**
   * What a character that is no word or number start, once any whitespace is
   * skipped, makes of the scan: a delimiter, a one- or two-character operator,
   * the end of input, a string, a blank line or a skipped newline.
   */
  lemma PunctuationScan(u: Tables, input: seq<char>, pos: nat)
    ensures var p := WhitespaceEnd(input, pos); var c := CharAt(input, p); var r := NextTokenAt(u, input, pos);
      && (Delimiter(c).Some? ==> r == Scanned(Delimiter(c).value, p + 1))
      && (c == '<' ==> r == Operator(input, p, LT, LTEQ))
      && (c == '>' ==> r == Operator(input, p, GT, GTEQ))
      && (c == '=' ==> r == Operator(input, p, Assign, Equal))
      && (c == '!' ==> r == Operator(input, p, Bang, NotEqual))
      && (c == '\0' ==> r == Scanned(Eof, p + 1))
      && (c == '"' ==> r == StringAt(input, p))
      && (c == '\n' && CharAt(input, p + 1) == '\n' ==> r == Scanned(Blank, p + 1))
      && (c == '\n' && CharAt(input, p + 1) != '\n' ==> r == NextTokenAt(u, input, p + 1))
  {
  }

  /** Any other character, once any whitespace is skipped, opens a number or a word, or is illegal. */
  lemma WordOrNumberScan(u: Tables, input: seq<char>, pos: nat)
    requires var c := CharAt(input, WhitespaceEnd(input, pos)); c !in "<>=!\0\"\n" && Delimiter(c).None?
    ensures var p := WhitespaceEnd(input, pos); var c := CharAt(input, p);
      && p < |input|
      && NextTokenAt(u, input, pos) ==
           if IsDigit(c) then NumberAt(input, p)
           else if IsIdStart(u, c) then IdentAt(u, input, p)
           else Scanned(Illegal, p + 1)
  {
  }

  /**
   * The tokens that successive `next_token` calls return from `pos` until the
   * cursor has passed the end of the input (that last call returns `Eof`).
   */
  function TokensFrom(u: Tables, input: seq<char>, pos: nat): Lexed
    decreases |input| + 1 - pos
  {
    if pos > |input| then Lexed([])
    else match NextTokenAt(u, input, pos)
      case Stuck(f) => Failed(f)
      case Scanned(t, next) => Cons(t, TokensFrom(u, input, next))
  }

  /** The token stream of a whole program text, as the parser receives it. */
  function Tokenize(u: Tables, input: seq<char>): Lexed
  {
    TokensFrom(u, input, 0)
  }

  class Lexer {
    const tables: Tables
    const input: seq<char>
    var pos: nat
    var nextPos: nat
    var ch: char

    /** The cursor reads the character at `pos` and looks ahead at `pos + 1`. */
    ghost predicate Valid()
      reads this
    {
      nextPos == pos + 1 && ch == CharAt(input, pos)
    }

    constructor (tables: Tables, originInput: seq<char>)
      ensures this.tables == tables && input == originInput
      ensures Valid() && pos == 0 && nextPos == 1
      ensures ch == if |originInput| == 0 then '\0' else originInput[0]
    {
      this.tables := tables;
      input := originInput;
      pos := 0;
      nextPos := 0;
      ch := '\0';
      new;
      WalkChar();
    }

    method WalkChar()
      modifies this
      ensures pos == old(nextPos) && nextPos == old(nextPos) + 1
      ensures ch == CharAt(input, old(nextPos))
    {
      if nextPos >= |input| {
        ch := '\0';
      } else {
        ch := input[nextPos];
      }
      pos := nextPos;
      nextPos := nextPos + 1;
    }

    method NextCh() returns (c: char)
      requires Valid()
      ensures c == CharAt(input, pos + 1)
    {
      if nextPos >= |input| {
        c := '\0';
      } else {
        c := input[nextPos];
      }
    }

    method NextIs(c: char) returns (b: bool)
      requires Valid()
      ensures b <==> CharAt(input, pos + 1) == c
    {
      var n := NextCh();
      b := n == c;
    }

    method SkipWhitespace()
      requires Valid()
      modifies this
      ensures Valid() && pos == WhitespaceEnd(input, old(pos))
    {
      while IsWhitespace(ch)
        invariant Valid() && old(pos) <= pos
        invariant WhitespaceEnd(input, pos) == WhitespaceEnd(input, old(pos))
        decreases |input| - pos
      {
        WalkChar();
      }
    }

    method ConsumeIdentifier() returns (tok: Token)
      requires Valid() && pos <= |input|
      modifies this
      ensures Valid() && IdentAt(tables, input, old(pos)) == Scanned(tok, pos)
    {
      var startPos := pos;
      while IsIdContinue(tables, ch)
        invariant Valid() && startPos <= pos <= |input|
        invariant IdentEnd(tables, input, pos) == IdentEnd(tables, input, startPos)
        decreases |input| - pos
      {
        WalkChar();
      }
      var endPos := pos;
      tok := WordToken(input[startPos..endPos]);
    }

    method ConsumeNumber() returns (tok: Token)
      requires Valid() && pos <= |input|
      requires IsDigit(ch) && NumberAt(input, pos).Scanned?
      modifies this
      ensures Valid() && NumberAt(input, old(pos)) == Scanned(tok, pos)
    {
      var startPos := pos;
      while IsDigit(ch)
        invariant Valid() && startPos <= pos <= |input|
        invariant DigitsEnd(input, pos) == DigitsEnd(input, startPos)
        decreases |input| - pos
      {
        WalkChar();
      }
      var endPos := pos;
      var literal := input[startPos..endPos];
      DigitsRun(input, startPos);
      tok := Int(DecimalValue(literal) as int64);
    }

    method ConsumeString() returns (tok: Token)
      requires Valid() && QuoteFrom(input, pos + 1).Some?
      modifies this
      ensures Valid() && StringAt(input, old(pos)) == Scanned(tok, pos)
    {
      ghost var q := QuoteFrom(input, pos + 1).value;
      WalkChar();
      var startPos := pos;
      while ch != '"'
        invariant Valid() && startPos <= pos <= q
        invariant QuoteFrom(input, pos) == Some(q)
        decreases q - pos
      {
        WalkChar();
      }
      var endPos := pos;
      var literal := input[startPos..endPos];
      WalkChar();
      tok := String(literal);
    }

    /** An operator that is `single` alone and `double` when `=` follows it. */
    method ReadOperator(single: Token, double: Token) returns (tok: Token)
      requires Valid()
      modifies this
      ensures Valid() && Operator(input, old(pos), single, double) == Scanned(tok, pos)
    {
      ghost var p := pos;
      var isEq := NextIs('=');
      if isEq {
        WalkChar();
        WalkChar();
        tok := double;
        assert pos == p + 2 && Operator(input, p, single, double) == Scanned(double, p + 2);
      } else {
        WalkChar();
        tok := single;
        assert pos == p + 1 && Operator(input, p, single, double) == Scanned(single, p + 1);
      }
    }

    /** A number, an identifier or keyword, or an illegal character, from the cursor on. */
    method ReadWordOrNumber() returns (tok: Token)
      requires Valid() && pos < |input|
      requires IsDigit(ch) ==> NumberAt(input, pos).Scanned?
      modifies this
      ensures Valid()
      ensures Scanned(tok, pos) ==
        if IsDigit(old(ch)) then NumberAt(input, old(pos))
        else if IsIdStart(tables, old(ch)) then IdentAt(tables, input, old(pos))
        else Scanned(Illegal, old(pos) + 1)
    {
      if IsDigit(ch) {
        tok := ConsumeNumber();
      } else if IsIdStart(tables, ch) {
        tok := ConsumeIdentifier();
      } else {
        tok := Illegal;
        WalkChar();
      }
    }

    method NextToken() returns (tok: Token)
      requires Valid() && NextTokenAt(tables, input, pos).Scanned?
      modifies this
      ensures Valid() && NextTokenAt(tables, input, old(pos)) == Scanned(tok, pos)
      decreases if pos <= |input| then |input| - pos else 0
    {
      SkipWhitespace();
      PunctuationScan(tables, input, old(pos));
      var d := Delimiter(ch);
      if d.Some? {
        tok := d.value;
        WalkChar();
        return;
      }
      match ch {
        case '<' => tok := ReadOperator(LT, LTEQ);
        case '>' => tok := ReadOperator(GT, GTEQ);
        case '=' => tok := ReadOperator(Assign, Equal);
        case '!' => tok := ReadOperator(Bang, NotEqual);
        case '\0' =>
          tok := Eof;
          WalkChar();
        case '"' =>
          tok := ConsumeString();
        case '\n' =>
          var blank := NextIs('\n');
          if blank {
            tok := Blank;
            WalkChar();
          } else {
            WalkChar();
            tok := NextToken();
          }
        case _ =>
          WordOrNumberScan(tables, input, old(pos));
          tok := ReadWordOrNumber();
      }
    }
  }
}
