/**
 * The lexer of the `src` snapshot. It has the same cursor as the `three_body_e2021`
 * lexer and adds three things: emoji-like identifier characters, NFC-normalised
 * identifier names, and strings that skip backslash-escaped characters and end
 * with a sentinel string instead of hanging when there is no closing quote.
 *
 * The pure functions give the token that `next_token` returns for a given cursor
 * position, and where it leaves the cursor. The class `Lexer` is the imperative
 * cursor, and each of its methods is proved to follow those functions.
 */
module SrcLexer {
  import opened Wrappers
  import opened I64
  import opened Tokens
  import opened Chars
  import opened Unicode
  import opened Scanning

  /** The string token that an unterminated string literal yields. */
  const PrematureEof: string := "<Lexer error: string: premature EOF>"

  /** Characters that may occur in an emoji sequence; nothing below U+007F is one. */
  predicate IsEmojiLike(c: char)
  {
    if c < '\U{007F}' then false
    else
      c == '\U{200D}'
      || c == '\U{FE0F}' || c == '\U{FE0E}'
      || ('\U{1F000}' <= c <= '\U{1FAFF}')
      || c == '\U{2139}'
      || ('\U{2190}' <= c <= '\U{21FF}')
      || ('\U{2300}' <= c <= '\U{23FF}')
      || ('\U{25A0}' <= c <= '\U{25FF}')
      || ('\U{2600}' <= c <= '\U{26FF}')
      || ('\U{2700}' <= c <= '\U{27FF}')
  }

  predicate IsIdStart(u: Tables, c: char)
  {
    ('a' <= c <= 'z') || ('A' <= c <= 'Z') || c == '_' || c == '$' || c == '¥'
    || (c > '\U{007F}' && u.xidStart(c))
    || IsEmojiLike(c)
  }

  predicate IsIdContinue(u: Tables, c: char)
  {
    ('a' <= c <= 'z') || ('A' <= c <= 'Z') || ('0' <= c <= '9') || c == '_' || c == '$' || c == '¥'
    || (c > '\U{007F}' && u.xidContinue(c))
    || IsEmojiLike(c)
  }

  /** The first position at or after `i` that does not continue an identifier. */
  function IdentEnd(u: Tables, input: seq<char>, i: nat): (j: nat)
    ensures i <= j
    ensures !IsIdContinue(u, CharAt(input, j))
    ensures forall k :: i <= k < j ==> IsIdContinue(u, CharAt(input, k))
    ensures i <= |input| ==> j <= |input|
    decreases |input| - i
  {
    if IsIdContinue(u, CharAt(input, i)) then IdentEnd(u, input, i + 1) else i
  }

  /** The keyword table. This snapshot has no `const` keyword. */
  function Keyword(word: string): Option<Token>
  {
    if word == "fn" || word == "法则" then Some(Function)
    else if word == "let" || word == "给" then Some(Let)
    else if word == "以" then Some(Assign)
    else if word == "前进" then Some(Plus)
    else if word == "降维" then Some(Minus)
    else if word == "这是计划的一部分" || word == "true" then Some(Bool(true))
    else if word == "主不在乎" || word == "false" then Some(Bool(false))
    else if word == "if" then Some(If)
    else if word == "while" || word == "面壁" then Some(While)
    else if word == "else" then Some(Else)
    else if word == "return" then Some(Return)
    else if word == "break" || word == "破壁" then Some(Break)
    else if word == "continue" || word == "延绪" then Some(Continue)
    else None
  }

  /**
   * The token for an identifier-shaped word. Keywords are looked up on the raw
   * text, and only a word that is no keyword is NFC-normalised into an `Ident`.
   */
  function WordToken(u: Tables, word: string): Token
  {
    match Keyword(word)
    case Some(t) => t
    case None => Ident(u.nfc(word))
  }

  /** An identifier or keyword starting at `p`. */
  function IdentAt(u: Tables, input: seq<char>, p: nat): Scan
    requires p <= |input|
  {
    var e := IdentEnd(u, input, p);
    Scanned(WordToken(u, input[p..e]), e)
  }

  /**
   * Where the string scan that starts at `i` stops, `escaped` being the
   * backslash flag: at the first NUL (the end of input reads as one), or at the
   * first `"` that does not follow a backslash.
   */
  function StringEnd(input: seq<char>, i: nat, escaped: bool): (j: nat)
    ensures i <= j
    ensures i <= |input| ==> j <= |input|
    ensures CharAt(input, j) == '\0' || CharAt(input, j) == '"'
    ensures j > i ==> CharAt(input, i) != '\0'
    decreases |input| - i
  {
    var c := CharAt(input, i);
    if c == '\0' then i
    else if escaped then StringEnd(input, i + 1, false)
    else if c == '"' then i
    else StringEnd(input, i + 1, c == '\\')
  }

  /**
   * A string whose opening quote is at `p`: with a closing quote, the unescaped
   * text between the quotes and the cursor after the closing quote; otherwise
   * the sentinel string and the cursor on the NUL that stopped the scan.
   */
  function StringAt(u: Tables, input: seq<char>, p: nat): (r: Scan)
    ensures r.Scanned? && r.next > p && r.token.String?
    ensures
      || (p + 1 < r.next && CharAt(input, r.next - 1) == '"'
          && r.token.text == u.unescape(input[p + 1..r.next - 1]))
      || (CharAt(input, r.next) == '\0' && r.token.text == PrematureEof)
    ensures CharAt(input, r.next) != '\0' ==> CharAt(input, r.next - 1) == '"'
  {
    var j := StringEnd(input, p + 1, false);
    if CharAt(input, j) == '"' then Scanned(String(u.unescape(input[p + 1..j])), j + 1)
    else Scanned(String(PrematureEof), j)
  }

  /**
   * What `next_token` returns with the cursor at `pos`, and where it leaves the
   * cursor. The digit case of the source's match is in the default branch
   * here, because Dafny has no range patterns.
   */
  function NextTokenAt(u: Tables, input: seq<char>, pos: nat): (r: Scan)
    requires XidNested(u)
    ensures r.Scanned? ==> r.next > pos
    ensures r.Scanned? && r.next > |input| ==> r.token == Eof
    ensures r.Stuck? ==> r.fault == NumberOverflow
    decreases if pos <= |input| then |input| - pos else 0
  {
    var p := WhitespaceEnd(input, pos);
    var c := CharAt(input, p);
    match c
    case '=' => Operator(input, p, Assign, Equal)
    case '+' => Scanned(Plus, p + 1)
    case '-' => Scanned(Minus, p + 1)
    case '!' => Operator(input, p, Bang, NotEqual)
    case '/' => Scanned(Slash, p + 1)
    case '*' => Scanned(Asterisk, p + 1)
    case '<' => Operator(input, p, LT, LTEQ)
    case '>' => Operator(input, p, GT, GTEQ)
    case '(' => Scanned(LParen, p + 1)
    case ')' => Scanned(RParen, p + 1)
    case '{' => Scanned(LBrace, p + 1)
    case '}' => Scanned(RBrace, p + 1)
    case '.' => Scanned(Dot, p + 1)
    case '[' => Scanned(LBracket, p + 1)
    case ']' => Scanned(RBracket, p + 1)
    case ',' => Scanned(Comma, p + 1)
    case ';' => Scanned(Semicolon, p + 1)
    case ':' => Scanned(Colon, p + 1)
    case '"' => StringAt(u, input, p)
    case '\n' =>
      if CharAt(input, p + 1) == '\n' then Scanned(Blank, p + 1)
      else NextTokenAt(u, input, p + 1)
    case '\0' => Scanned(Eof, p + 1)
    case _ =>
      if IsDigit(c) then NumberAt(input, p)
      else if IsIdStart(u, c) then IdentAt(u, input, p)
      else Scanned(Illegal, p + 1)
  }

  /**
   * What a character that is no word or number start, once any whitespace is
   * skipped, makes of the scan: a delimiter, a one- or two-character operator,
   * a string, a blank line, a skipped newline or the end of input.
   */
  lemma PunctuationScan(u: Tables, input: seq<char>, pos: nat)
    requires XidNested(u)
    ensures var p := WhitespaceEnd(input, pos); var c := CharAt(input, p); var r := NextTokenAt(u, input, pos);
      && (Delimiter(c).Some? ==> r == Scanned(Delimiter(c).value, p + 1))
      && (c == '=' ==> r == Operator(input, p, Assign, Equal))
      && (c == '!' ==> r == Operator(input, p, Bang, NotEqual))
      && (c == '<' ==> r == Operator(input, p, LT, LTEQ))
      && (c == '>' ==> r == Operator(input, p, GT, GTEQ))
      && (c == '"' ==> r == StringAt(u, input, p))
      && (c == '\n' && CharAt(input, p + 1) == '\n' ==> r == Scanned(Blank, p + 1))
      && (c == '\n' && CharAt(input, p + 1) != '\n' ==> r == NextTokenAt(u, input, p + 1))
      && (c == '\0' ==> r == Scanned(Eof, p + 1))
  {
  }

  /** Skipping the whitespace in front of a token does not change what is scanned. */
  lemma SkippedScan(u: Tables, input: seq<char>, pos: nat)
    requires XidNested(u)
    ensures WhitespaceEnd(input, WhitespaceEnd(input, pos)) == WhitespaceEnd(input, pos)
    ensures NextTokenAt(u, input, WhitespaceEnd(input, pos)) == NextTokenAt(u, input, pos)
  {
    var q := WhitespaceEnd(input, pos);
    assert WhitespaceEnd(input, q) == q;
  }

  /** Any other character, once any whitespace is skipped, opens a number or a word, or is illegal. */
  lemma WordOrNumberScan(u: Tables, input: seq<char>, pos: nat)
    requires XidNested(u)
    requires var c := CharAt(input, WhitespaceEnd(input, pos)); c !in "=!<>\"\n\0" && Delimiter(c).None?
    ensures var p := WhitespaceEnd(input, pos); var c := CharAt(input, p);
      && p < |input|
      && NextTokenAt(u, input, pos) ==
           if IsDigit(c) then NumberAt(input, p)
           else if IsIdStart(u, c) then IdentAt(u, input, p)
           else Scanned(Illegal, p + 1)
  {
  }

  /**
   * The tokens that successive `next_token` calls return from `pos` until the
   * cursor has passed the end of the input (that last call returns `Eof`).
   */
  function TokensFrom(u: Tables, input: seq<char>, pos: nat): Lexed
    requires XidNested(u)
    decreases |input| + 1 - pos
  {
    if pos > |input| then Lexed([])
    else match NextTokenAt(u, input, pos)
      case Stuck(f) => Failed(f)
      case Scanned(t, next) => Cons(t, TokensFrom(u, input, next))
  }

  /** The token stream of a whole program text. */
  function Tokenize(u: Tables, input: seq<char>): Lexed
    requires XidNested(u)
  {
    TokensFrom(u, input, 0)
  }

  class Lexer {
    const tables: Tables
    const input: seq<char>
    var pos: nat
    var nextPos: nat
    var ch: char

    /** The cursor reads the character at `pos` and looks ahead at `pos + 1`. */
    ghost predicate Valid()
      reads this
    {
      nextPos == pos + 1 && ch == CharAt(input, pos)
    }

    constructor (tables: Tables, originInput: seq<char>)
      ensures this.tables == tables && input == originInput
      ensures Valid() && pos == 0 && nextPos == 1
      ensures ch == if |originInput| == 0 then '\0' else originInput[0]
    {
      this.tables := tables;
      input := originInput;
      pos := 0;
      nextPos := 0;
      ch := '\0';
      new;
      ReadChar();
    }

    method ReadChar()
      modifies this
      ensures pos == old(nextPos) && nextPos == old(nextPos) + 1
      ensures ch == CharAt(input, old(nextPos))
    {
      if nextPos >= |input| {
        ch := '\0';
      } else {
        ch := input[nextPos];
      }
      pos := nextPos;
      nextPos := nextPos + 1;
    }

    method Nextch() returns (c: char)
      requires Valid()
      ensures c == CharAt(input, pos + 1)
    {
      if nextPos >= |input| {
        c := '\0';
      } else {
        c := input[nextPos];
      }
    }

    method NextchIs(c: char) returns (b: bool)
      requires Valid()
      ensures b <==> CharAt(input, pos + 1) == c
    {
      var n := Nextch();
      b := n == c;
    }

    method SkipWhitespace()
      requires Valid()
      modifies this
      ensures Valid() && pos == WhitespaceEnd(input, old(pos))
    {
      while IsWhitespace(ch)
        invariant Valid() && old(pos) <= pos
        invariant WhitespaceEnd(input, pos) == WhitespaceEnd(input, old(pos))
        decreases |input| - pos
      {
        ReadChar();
      }
    }

    method ConsumeIdentifier() returns (tok: Token)
      requires Valid() && pos <= |input|
      modifies this
      ensures Valid() && IdentAt(tables, input, old(pos)) == Scanned(tok, pos)
    {
      var startPos := pos;
      while IsIdContinue(tables, ch)
        invariant Valid() && startPos <= pos <= |input|
        invariant IdentEnd(tables, input, pos) == IdentEnd(tables, input, startPos)
        decreases |input| - pos
      {
        ReadChar();
      }
      var literal := input[startPos..pos];
      tok := WordToken(tables, literal);
    }

    method ConsumeNumber() returns (tok: Token)
      requires Valid() && pos <= |input|
      requires IsDigit(ch) && NumberAt(input, pos).Scanned?
      modifies this
      ensures Valid() && NumberAt(input, old(pos)) == Scanned(tok, pos)
    {
      var startPos := pos;
      while IsDigit(ch)
        invariant Valid() && startPos <= pos <= |input|
        invariant DigitsEnd(input, pos) == DigitsEnd(input, startPos)
        decreases |input| - pos
      {
        ReadChar();
      }
      var literal := input[startPos..pos];
      DigitsRun(input, startPos);
      tok := Int(DecimalValue(literal) as int64);
    }

    method ConsumeString() returns (tok: Token)
      requires Valid()
      modifies this
      ensures Valid() && StringAt(tables, input, old(pos)) == Scanned(tok, pos)
    {
      ReadChar();
      var startPos := pos;
      var bs := false;
      while ch != '\0'
        invariant Valid() && startPos <= pos
        invariant StringEnd(input, pos, bs) == StringEnd(input, startPos, false)
        decreases |input| - pos
      {
        if bs {
          bs := false;
        } else {
          match ch {
            case '"' =>
              var literal := input[startPos..pos];
              ReadChar();
              tok := String(tables.unescape(literal));
              return;
            case '\\' =>
              bs := true;
            case _ =>
          }
        }
        ReadChar();
      }
      tok := String(PrematureEof);
    }

    /** An operator that is `single` alone and `double` when `=` follows it. */
    method ReadOperator(single: Token, double: Token) returns (tok: Token)
      requires Valid()
      modifies this
      ensures Valid() && Operator(input, old(pos), single, double) == Scanned(tok, pos)
    {
      ghost var p := pos;
      var isEq := NextchIs('=');
      if isEq {
        ReadChar();
        ReadChar();
        tok := double;
        assert pos == p + 2 && Operator(input, p, single, double) == Scanned(double, p + 2);
      } else {
        ReadChar();
        tok := single;
        assert pos == p + 1 && Operator(input, p, single, double) == Scanned(single, p + 1);
      }
    }

    /** A number, an identifier or keyword, or an illegal character, from the cursor on. */
    method ReadWordOrNumber() returns (tok: Token)
      requires Valid() && pos < |input|
      requires IsDigit(ch) ==> NumberAt(input, pos).Scanned?
      modifies this
      ensures Valid()
      ensures Scanned(tok, pos) ==
        if IsDigit(old(ch)) then NumberAt(input, old(pos))
        else if IsIdStart(tables, old(ch)) then IdentAt(tables, input, old(pos))
        else Scanned(Illegal, old(pos) + 1)
    {
      if IsDigit(ch) {
        tok := ConsumeNumber();
      } else if IsIdStart(tables, ch) {
        tok := ConsumeIdentifier();
      } else {
        tok := Illegal;
        ReadChar();
      }
    }

    method NextToken() returns (tok: Token)
      requires XidNested(tables)
      requires Valid() && NextTokenAt(tables, input, pos).Scanned?
      modifies this
      ensures Valid() && NextTokenAt(tables, input, old(pos)) == Scanned(tok, pos)
      decreases if pos <= |input| then |input| - pos else 0, 1
    {
      SkipWhitespace();
      SkippedScan(tables, input, old(pos));
      var d := Delimiter(ch);
      if d.Some? {
        PunctuationScan(tables, input, pos);
        tok := d.value;
        ReadChar();
      } else if ch == '\n' {
        tok := ReadNewline();
      } else {
        tok := ReadOther();
      }
    }

    /** At a newline: a blank line when another newline follows, otherwise the token after it. */
    method ReadNewline() returns (tok: Token)
      requires XidNested(tables) && ch == '\n' && WhitespaceEnd(input, pos) == pos
      requires Valid() && NextTokenAt(tables, input, pos).Scanned?
      modifies this
      ensures Valid() && NextTokenAt(tables, input, old(pos)) == Scanned(tok, pos)
      decreases if pos <= |input| then |input| - pos else 0, 0
    {
      PunctuationScan(tables, input, pos);
      var blank := NextchIs('\n');
      if blank {
        tok := Blank;
        ReadChar();
      } else {
        ReadChar();
        tok := NextToken();
      }
    }

    /** The operators, strings, end of input, numbers, words and illegal characters. */
    method ReadOther() returns (tok: Token)
      requires XidNested(tables) && ch != '\n' && Delimiter(ch).None? && WhitespaceEnd(input, pos) == pos
      requires Valid() && NextTokenAt(tables, input, pos).Scanned?
      modifies this
      ensures Valid() && NextTokenAt(tables, input, old(pos)) == Scanned(tok, pos)
    {
      PunctuationScan(tables, input, pos);
      match ch {
        case '=' =>
          tok := ReadOperator(Assign, Equal);
        case '!' =>
          tok := ReadOperator(Bang, NotEqual);
        case '<' =>
          tok := ReadOperator(LT, LTEQ);
        case '>' =>
          tok := ReadOperator(GT, GTEQ);
        case '"' =>
          tok := ConsumeString();
        case '\0' =>
          tok := Eof;
          ReadChar();
        case _ =>
          WordOrNumberScan(tables, input, pos);
          tok := ReadWordOrNumber();
      }
    }
  }
}
