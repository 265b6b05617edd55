/** Properties of the `three_body_e2021` lexer, stated on its position-indexed functions. */
module E2021LexerProps {
  import opened Wrappers
  import opened I64
  import opened Tokens
  import opened Chars
  import opened Unicode
  import opened Scanning
  import opened E2021Lexer

  /** Past the end of the input every call yields `Eof` and moves the cursor one further. */
  lemma EofForever(u: Tables, input: seq<char>, pos: nat)
    requires pos >= |input|
    ensures NextTokenAt(u, input, pos) == Scanned(Eof, pos + 1)
    ensures forall i :: pos <= i ==> NextTokenAt(u, input, i) == Scanned(Eof, i + 1)
  {
  }

  /** Every complete token stream ends with the `Eof` of the end of input. */
  lemma {:induction false} StreamEndsWithEof(u: Tables, input: seq<char>, pos: nat)
    requires pos <= |input| && TokensFrom(u, input, pos).Lexed?
    ensures |TokensFrom(u, input, pos).tokens| >= 1
    ensures TokensFrom(u, input, pos).tokens[|TokensFrom(u, input, pos).tokens| - 1] == Eof
    decreases |input| + 1 - pos
  {
    var s := NextTokenAt(u, input, pos);
    var next := s.next;
    if next > |input| {
      assert TokensFrom(u, input, pos) == Lexed([s.token]);
    } else {
      StreamEndsWithEof(u, input, next);
    }
  }

  /** `<`, `>`, `=` and `!` followed by `=` form one two-character token. */
  lemma TwoCharOperators(u: Tables, input: seq<char>, pos: nat)
    ensures var p := WhitespaceEnd(input, pos);
      var twice := CharAt(input, p + 1) == '=';
      (CharAt(input, p) == '<' ==> NextTokenAt(u, input, pos) == if twice then Scanned(LTEQ, p + 2) else Scanned(LT, p + 1)) &&
      (CharAt(input, p) == '>' ==> NextTokenAt(u, input, pos) == if twice then Scanned(GTEQ, p + 2) else Scanned(GT, p + 1)) &&
      (CharAt(input, p) == '=' ==> NextTokenAt(u, input, pos) == if twice then Scanned(Equal, p + 2) else Scanned(Assign, p + 1)) &&
      (CharAt(input, p) == '!' ==> NextTokenAt(u, input, pos) == if twice then Scanned(NotEqual, p + 2) else Scanned(Bang, p + 1))
  {
  }

  /**
   * A run of `k >= 1` consecutive newlines yields `k - 1` `Blank` tokens, after
   * which lexing carries on behind the run; a lone newline yields nothing.
   */
  lemma {:induction false} NewlineRun(u: Tables, input: seq<char>, p: nat, k: nat)
    requires k >= 1 && p + k <= |input|
    requires forall i :: p <= i < p + k ==> input[i] == '\n'
    requires CharAt(input, p + k) != '\n'
    ensures TokensFrom(u, input, p) == PrependAll(Blanks(k - 1), TokensFrom(u, input, p + k))
    decreases k
  {
    assert input[p] == '\n';
    if k == 1 {
      LoneNewline(u, input, p);
    } else {
      assert input[p + 1] == '\n';
      NewlineRun(u, input, p + 1, k - 1);
      BlankBeforeRun(u, input, p, k);
    }
  }

  /** A newline that no newline follows adds nothing to the stream. */
  lemma LoneNewline(u: Tables, input: seq<char>, p: nat)
    requires p < |input| && input[p] == '\n' && CharAt(input, p + 1) != '\n'
    ensures TokensFrom(u, input, p) == PrependAll(Blanks(0), TokensFrom(u, input, p + 1))
  {
    NewlineStream(u, input, p);
    ConsBlanks(0, TokensFrom(u, input, p + 1));
  }

  /** Two newlines in a row add one `Blank` in front of what the second one starts. */
  lemma BlankBeforeRun(u: Tables, input: seq<char>, p: nat, k: nat)
    requires k >= 2 && p + 1 < |input| && input[p] == '\n' && input[p + 1] == '\n'
    requires TokensFrom(u, input, p + 1) == PrependAll(Blanks(k - 2), TokensFrom(u, input, p + k))
    ensures TokensFrom(u, input, p) == PrependAll(Blanks(k - 1), TokensFrom(u, input, p + k))
  {
    NewlineStream(u, input, p);
    ConsBlanks(k - 2, TokensFrom(u, input, p + k));
  }

  /** At a newline the stream starts with `Blank` when another newline follows, and otherwise skips it. */
  lemma NewlineStream(u: Tables, input: seq<char>, p: nat)
    requires p < |input| && input[p] == '\n'
    ensures CharAt(input, p + 1) == '\n' ==> TokensFrom(u, input, p) == Cons(Blank, TokensFrom(u, input, p + 1))
    ensures CharAt(input, p + 1) != '\n' ==> TokensFrom(u, input, p) == TokensFrom(u, input, p + 1)
  {
    NewlineStep(u, input, p);
    if CharAt(input, p + 1) == '\n' {
      StreamStep(u, input, p);
    } else {
      SameScanSameStream(u, input, p, p + 1);
    }
  }

  /** A scanned token heads the stream, which carries on where the scan stopped. */
  lemma StreamStep(u: Tables, input: seq<char>, p: nat)
    requires p <= |input| && NextTokenAt(u, input, p).Scanned?
    ensures TokensFrom(u, input, p) == Cons(NextTokenAt(u, input, p).token, TokensFrom(u, input, NextTokenAt(u, input, p).next))
  {
  }

  /** At a newline the lexer yields `Blank` when another newline follows, and otherwise skips it. */
  lemma NewlineStep(u: Tables, input: seq<char>, p: nat)
    requires CharAt(input, p) == '\n'
    ensures NextTokenAt(u, input, p) ==
      if CharAt(input, p + 1) == '\n' then Scanned(Blank, p + 1) else NextTokenAt(u, input, p + 1)
  {
    assert WhitespaceEnd(input, p) == p;
  }

  /** Two positions with the same first scan start the same stream. */
  lemma SameScanSameStream(u: Tables, input: seq<char>, p: nat, q: nat)
    requires p <= |input| && q <= |input|
    requires NextTokenAt(u, input, p) == NextTokenAt(u, input, q)
    ensures TokensFrom(u, input, p) == TokensFrom(u, input, q)
  {
  }

  /**
   * A number token is the maximal run of ASCII digits read in decimal: the
   * decimal rendering of any non-negative `i64`, followed by a non-digit, lexes back to it.
   */
  lemma NumberRoundTrip(u: Tables, n: int64, rest: string)
    requires n >= 0
    requires rest == [] || !IsDigit(rest[0])
    ensures var s := NatToDecimal(n as nat);
      NextTokenAt(u, s + rest, 0) == Scanned(Int(n), |s|)
  {
    var s := NatToDecimal(n as nat);
    var input := s + rest;
    assert CharAt(input, 0) == s[0];
    assert WhitespaceEnd(input, 0) == 0;
    DigitsEndOfNumeral(s, rest, 0);
    assert input[0..|s|] == s;
    DecimalRoundTrip(n as nat);
  }

  /** A digit run whose value exceeds the `i64` range makes the source panic. */
  lemma NumberOverflows(u: Tables, input: seq<char>, pos: nat)
    requires pos <= |input|
    requires var p := WhitespaceEnd(input, pos);
      IsDigit(CharAt(input, p)) && (DigitsRun(input, p); DecimalValue(input[p..DigitsEnd(input, p)]) > MAX)
    ensures NextTokenAt(u, input, pos) == Stuck(NumberOverflow)
  {
  }

  lemma {:induction false} QuoteAfterText(s: string, rest: string, i: nat)
    requires '"' !in s && i <= |s|
    ensures QuoteFrom(['"'] + s + ['"'] + rest, i + 1) == Some(|s| + 1)
    decreases |s| - i
  {
    var input := ['"'] + s + ['"'] + rest;
    if i < |s| {
      assert input[i + 1] == s[i];
      QuoteAfterText(s, rest, i + 1);
    } else {
      assert input[i + 1] == '"';
    }
  }

  /**
   * A string token holds exactly the characters strictly between its quotes,
   * with no escape processing, and the cursor ends after the closing quote.
   */
  lemma StringRoundTrip(u: Tables, s: string, rest: string)
    requires '"' !in s
    ensures NextTokenAt(u, ['"'] + s + ['"'] + rest, 0) == Scanned(String(s), |s| + 2)
  {
    var input := ['"'] + s + ['"'] + rest;
    assert CharAt(input, 0) == '"';
    assert WhitespaceEnd(input, 0) == 0;
    QuoteAfterText(s, rest, 0);
    assert input[1..|s| + 1] == s;
  }

  /** Without a closing quote the source loops forever; the model reports it. */
  lemma UnterminatedString(u: Tables, input: seq<char>, pos: nat)
    requires CharAt(input, WhitespaceEnd(input, pos)) == '"'
    requires '"' !in input[WhitespaceEnd(input, pos) + 1..]
    ensures NextTokenAt(u, input, pos) == Stuck(LexFault.UnterminatedString)
  {
    var p := WhitespaceEnd(input, pos);
    forall k | p + 1 <= k < |input|
      ensures input[k] != '"'
    {
      assert input[k] == input[p + 1..][k - (p + 1)];
    }
  }

  /** A character that starts no token is `Illegal` and consumes exactly one character. */
  lemma IllegalChar(u: Tables, input: seq<char>, pos: nat)
    requires var c := CharAt(input, WhitespaceEnd(input, pos));
      c !in "+-/*<>;,(){}=!\0\"[].:\n" && !IsDigit(c) && !IsIdStart(u, c)
    ensures NextTokenAt(u, input, pos) == Scanned(Illegal, WhitespaceEnd(input, pos) + 1)
  {
  }

  lemma {:induction false} IdentEndOfWord(u: Tables, w: string, rest: string, i: nat)
    requires i <= |w| && forall k :: 0 <= k < |w| ==> IsIdContinue(u, w[k])
    requires rest == [] || !IsIdContinue(u, rest[0])
    ensures IdentEnd(u, w + rest, i) == |w|
    decreases |w| - i
  {
    if i < |w| {
      assert CharAt(w + rest, i) == w[i];
      IdentEndOfWord(u, w, rest, i + 1);
    } else {
      assert CharAt(w + rest, i) == if rest == [] then '\0' else rest[0];
    }
  }

  /**
   * A maximal identifier-shaped word yields its keyword token, or `Ident(word)`
   * unchanged when it is not a keyword.
   */
  lemma WordRoundTrip(u: Tables, w: string, rest: string)
    requires |w| >= 1 && IsIdStart(u, w[0]) && !IsWhitespace(w[0])
    requires forall k :: 0 <= k < |w| ==> IsIdContinue(u, w[k])
    requires rest == [] || !IsIdContinue(u, rest[0])
    ensures NextTokenAt(u, w + rest, 0) == Scanned(WordToken(w), |w|)
    ensures Keyword(w).None? ==> WordToken(w) == Ident(w)
  {
    var input := w + rest;
    assert CharAt(input, 0) == w[0];
    IdentEndOfWord(u, w, rest, 0);
    assert input[0..|w|] == w;
  }

  /** Declaration keywords in both spellings. */
  lemma DeclarationKeywords()
    ensures WordToken("let") == Let && WordToken("给") == Let
    ensures WordToken("const") == Const && WordToken("思想钢印") == Const
    ensures WordToken("fn") == Function && WordToken("法则") == Function
  {
  }

  /** Chinese spellings of `=`, `+` and `-`. */
  lemma OperatorWords()
    ensures WordToken("以") == Assign && WordToken("前进") == Plus && WordToken("降维") == Minus
  {
  }

  /** Chinese spellings of the loop keywords. */
  lemma LoopKeywords()
    ensures WordToken("面壁") == While && WordToken("破壁") == Break && WordToken("延绪") == Continue
  {
  }

  /** Both spellings of the boolean literals. */
  lemma BooleanWords()
    ensures WordToken("true") == Bool(true) && WordToken("这是计划的一部分") == Bool(true)
    ensures WordToken("false") == Bool(false) && WordToken("主不在乎") == Bool(false)
  {
  }

  const LetFive: string := "let five = 5;"

  lemma LetFiveKeyword(u: Tables)
    ensures NextTokenAt(u, LetFive, 0) == Scanned(Let, 3)
  {
    WordRoundTrip(u, "let", " five = 5;");
    assert "let" + " five = 5;" == LetFive;
    DeclarationKeywords();
  }

  /** A character that opens no other token and can start an identifier opens an identifier or keyword. */
  lemma WordTokenAt(u: Tables, input: seq<char>, pos: nat)
    requires var c := CharAt(input, WhitespaceEnd(input, pos));
      c !in "+-/*<>;,(){}=!\0\"[].:\n" && !IsDigit(c) && IsIdStart(u, c)
    ensures WhitespaceEnd(input, pos) <= |input|
    ensures NextTokenAt(u, input, pos) == IdentAt(u, input, WhitespaceEnd(input, pos))
  {
  }

  lemma LetFiveName(u: Tables)
    ensures NextTokenAt(u, LetFive, 3) == Scanned(Ident("five"), 8)
  {
    assert WhitespaceEnd(LetFive, 3) == 4;
    WordTokenAt(u, LetFive, 3);
    FiveEnd(u);
    NotAKeyword();
  }

  /** The identifier that starts at index 4 of `let five = 5;` is `five`, ending at index 8. */
  lemma FiveEnd(u: Tables)
    ensures IdentEnd(u, LetFive, 4) == 8 && LetFive[4..8] == "five"
  {
    IdentEndOfWord(u, "five", " = 5;", 0);
    IdentEndShift(u, "let ", "five" + " = 5;", 0);
    assert "let " + ("five" + " = 5;") == LetFive;
  }

  /** `five` is no keyword, so it lexes as an identifier. */
  lemma NotAKeyword()
    ensures WordToken("five") == Ident("five")
  {
    assert "five"[0] == 'f' && |"five"| == 4;
  }

  lemma LetFiveRest(u: Tables)
    ensures NextTokenAt(u, LetFive, 8) == Scanned(Assign, 10)
    ensures NextTokenAt(u, LetFive, 10) == Scanned(Int(5), 12)
    ensures NextTokenAt(u, LetFive, 12) == Scanned(Semicolon, 13)
    ensures NextTokenAt(u, LetFive, 13) == Scanned(Eof, 14)
  {
    LetFiveAssign(u);
    LetFiveNumber(u);
    LetFiveEnd(u);
  }

  lemma LetFiveAssign(u: Tables)
    ensures NextTokenAt(u, LetFive, 8) == Scanned(Assign, 10)
  {
    assert WhitespaceEnd(LetFive, 8) == 9;
    PunctuationScan(u, LetFive, 8);
  }

  lemma LetFiveNumber(u: Tables)
    ensures NextTokenAt(u, LetFive, 10) == Scanned(Int(5), 12)
  {
    assert WhitespaceEnd(LetFive, 10) == 11;
    WordOrNumberScan(u, LetFive, 10);
    assert DigitsEnd(LetFive, 11) == 12;
    assert LetFive[11..12] == "5";
    assert DecimalValue("5") == DecimalValue("") * 10 + 5;
  }

  lemma LetFiveEnd(u: Tables)
    ensures NextTokenAt(u, LetFive, 12) == Scanned(Semicolon, 13)
    ensures NextTokenAt(u, LetFive, 13) == Scanned(Eof, 14)
  {
    assert WhitespaceEnd(LetFive, 12) == 12;
    PunctuationScan(u, LetFive, 12);
    assert WhitespaceEnd(LetFive, 13) == 13;
    PunctuationScan(u, LetFive, 13);
  }

  /** The tokens of `let five = 5;`. */
  lemma LetStatementTokens(u: Tables)
    ensures Tokenize(u, LetFive) == Lexed([Let, Ident("five"), Assign, Int(5), Semicolon, Eof])
  {
    LetFiveKeyword(u);
    LetFiveName(u);
    LetFiveTail(u);
    StreamStep(u, LetFive, 3);
    StreamStep(u, LetFive, 0);
    assert Tokenize(u, LetFive) == Lexed([Let] + ([Ident("five")] + [Assign, Int(5), Semicolon, Eof]));
    ConsTwo(Let, Ident("five"), Assign, Int(5), Semicolon, Eof);
  }

  lemma LetFiveTail(u: Tables)
    ensures TokensFrom(u, LetFive, 8) == Lexed([Assign, Int(5), Semicolon, Eof])
  {
    LetFiveRest(u);
    StreamStep(u, LetFive, 13);
    StreamStep(u, LetFive, 12);
    StreamStep(u, LetFive, 10);
    StreamStep(u, LetFive, 8);
    assert TokensFrom(u, LetFive, 14) == Lexed([]);
    assert TokensFrom(u, LetFive, 8) == Lexed([Assign] + ([Int(5)] + ([Semicolon] + ([Eof] + []))));
    ConsFour(Assign, Int(5), Semicolon, Eof);
  }

  /** Two elements put in front of a four-element sequence one at a time. */
  lemma ConsTwo<T>(a: T, b: T, c: T, d: T, e: T, f: T)
    ensures [a] + ([b] + [c, d, e, f]) == [a, b, c, d, e, f]
  {
  }

  /** Four elements put in front of the empty sequence one at a time. */
  lemma ConsFour<T>(a: T, b: T, c: T, d: T)
    ensures [a] + ([b] + ([c] + ([d] + []))) == [a, b, c, d]
  {
  }

  lemma {:induction false} IdentEndShift(u: Tables, pre: string, s: string, i: nat)
    requires i <= |s|
    ensures IdentEnd(u, pre + s, |pre| + i) == |pre| + IdentEnd(u, s, i)
    decreases |s| - i
  {
    assert CharAt(pre + s, |pre| + i) == CharAt(s, i);
    if IsIdContinue(u, CharAt(s, i)) {
      IdentEndShift(u, pre, s, i + 1);
    }
  }
}
