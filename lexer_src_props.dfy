/** Properties of the `src` lexer, stated on its position-indexed functions. */
module SrcLexerProps {
  import opened Wrappers
  import opened I64
  import opened Tokens
  import opened Chars
  import opened Unicode
  import opened Scanning
  import opened SrcLexer

  /** Past the end of the input every call yields `Eof` and moves the cursor one further. */
  lemma EofForever(u: Tables, input: seq<char>, pos: nat)
    requires XidNested(u) && pos >= |input|
    ensures NextTokenAt(u, input, pos) == Scanned(Eof, pos + 1)
    ensures forall i :: pos <= i ==> NextTokenAt(u, input, i) == Scanned(Eof, i + 1)
  {
  }

  /**
   * The only way lexing fails is an integer literal out of the `i64` range;
   * strings never make it hang. A complete stream ends with `Eof`.
   */
  lemma {:induction false} OnlyNumbersFail(u: Tables, input: seq<char>, pos: nat)
    requires XidNested(u) && pos <= |input|
    ensures TokensFrom(u, input, pos).Failed? ==> TokensFrom(u, input, pos).fault == NumberOverflow
    ensures TokensFrom(u, input, pos).Lexed? ==>
      var ts := TokensFrom(u, input, pos).tokens; |ts| >= 1 && ts[|ts| - 1] == Eof
    decreases |input| + 1 - pos
  {
    var s := NextTokenAt(u, input, pos);
    if s.Scanned? {
      if s.next > |input| {
        assert TokensFrom(u, input, pos) == Lexed([s.token]);
      } else {
        OnlyNumbersFail(u, input, s.next);
      }
    }
  }

  /** `=`, `!`, `<` and `>` followed by `=` form one two-character token, checked before the one-character fallback. */
  lemma TwoCharOperators(u: Tables, input: seq<char>, pos: nat)
    requires XidNested(u)
    ensures var p := WhitespaceEnd(input, pos);
      var twice := CharAt(input, p + 1) == '=';
      (CharAt(input, p) == '=' ==> NextTokenAt(u, input, pos) == if twice then Scanned(Equal, p + 2) else Scanned(Assign, p + 1)) &&
      (CharAt(input, p) == '!' ==> NextTokenAt(u, input, pos) == if twice then Scanned(NotEqual, p + 2) else Scanned(Bang, p + 1)) &&
      (CharAt(input, p) == '<' ==> NextTokenAt(u, input, pos) == if twice then Scanned(LTEQ, p + 2) else Scanned(LT, p + 1)) &&
      (CharAt(input, p) == '>' ==> NextTokenAt(u, input, pos) == if twice then Scanned(GTEQ, p + 2) else Scanned(GT, p + 1))
  {
  }

  /**
   * A run of `k >= 1` consecutive newlines yields `k - 1` `Blank` tokens, after
   * which lexing carries on behind the run; a lone newline yields nothing.
   */
  lemma {:induction false} NewlineRun(u: Tables, input: seq<char>, p: nat, k: nat)
    requires XidNested(u)
    requires k >= 1 && p + k <= |input|
    requires forall i :: p <= i < p + k ==> input[i] == '\n'
    requires CharAt(input, p + k) != '\n'
    ensures TokensFrom(u, input, p) == PrependAll(Blanks(k - 1), TokensFrom(u, input, p + k))
    decreases k
  {
    assert input[p] == '\n';
    if k == 1 {
      LoneNewline(u, input, p);
    } else {
      assert input[p + 1] == '\n';
      NewlineRun(u, input, p + 1, k - 1);
      BlankBeforeRun(u, input, p, k);
    }
  }

  /** A newline that no newline follows adds nothing to the stream. */
  lemma LoneNewline(u: Tables, input: seq<char>, p: nat)
    requires XidNested(u) && p < |input| && input[p] == '\n' && CharAt(input, p + 1) != '\n'
    ensures TokensFrom(u, input, p) == PrependAll(Blanks(0), TokensFrom(u, input, p + 1))
  {
    NewlineStream(u, input, p);
    ConsBlanks(0, TokensFrom(u, input, p + 1));
  }

  /** Two newlines in a row add one `Blank` in front of what the second one starts. */
  lemma BlankBeforeRun(u: Tables, input: seq<char>, p: nat, k: nat)
    requires XidNested(u) && k >= 2 && p + 1 < |input| && input[p] == '\n' && input[p + 1] == '\n'
    requires TokensFrom(u, input, p + 1) == PrependAll(Blanks(k - 2), TokensFrom(u, input, p + k))
    ensures TokensFrom(u, input, p) == PrependAll(Blanks(k - 1), TokensFrom(u, input, p + k))
  {
    NewlineStream(u, input, p);
    ConsBlanks(k - 2, TokensFrom(u, input, p + k));
  }

  /** At a newline the stream starts with `Blank` when another newline follows, and otherwise skips it. */
  lemma NewlineStream(u: Tables, input: seq<char>, p: nat)
    requires XidNested(u) && p < |input| && input[p] == '\n'
    ensures CharAt(input, p + 1) == '\n' ==> TokensFrom(u, input, p) == Cons(Blank, TokensFrom(u, input, p + 1))
    ensures CharAt(input, p + 1) != '\n' ==> TokensFrom(u, input, p) == TokensFrom(u, input, p + 1)
  {
    NewlineStep(u, input, p);
    if CharAt(input, p + 1) == '\n' {
      StreamStep(u, input, p);
    } else {
      SameScanSameStream(u, input, p, p + 1);
    }
  }

  /** A scanned token heads the stream, which carries on where the scan stopped. */
  lemma StreamStep(u: Tables, input: seq<char>, p: nat)
    requires XidNested(u) && p <= |input| && NextTokenAt(u, input, p).Scanned?
    ensures TokensFrom(u, input, p) == Cons(NextTokenAt(u, input, p).token, TokensFrom(u, input, NextTokenAt(u, input, p).next))
  {
  }

  /** Two positions with the same first scan start the same stream. */
  lemma SameScanSameStream(u: Tables, input: seq<char>, p: nat, q: nat)
    requires XidNested(u) && p <= |input| && q <= |input|
    requires NextTokenAt(u, input, p) == NextTokenAt(u, input, q)
    ensures TokensFrom(u, input, p) == TokensFrom(u, input, q)
  {
  }

  /** At a newline the lexer yields `Blank` when another newline follows, and otherwise skips it. */
  lemma NewlineStep(u: Tables, input: seq<char>, p: nat)
    requires XidNested(u) && CharAt(input, p) == '\n'
    ensures NextTokenAt(u, input, p) ==
      if CharAt(input, p + 1) == '\n' then Scanned(Blank, p + 1) else NextTokenAt(u, input, p + 1)
  {
    assert WhitespaceEnd(input, p) == p;
  }

  /** A backslash makes the scan skip the next character, so `\"` does not end a string. */
  lemma BackslashSkipsNext(input: seq<char>, i: nat)
    requires CharAt(input, i) == '\\' && CharAt(input, i + 1) != '\0'
    ensures StringEnd(input, i, false) == StringEnd(input, i + 2, false)
  {
  }

  lemma {:induction false} StringEndOfPlain(s: string, rest: string, i: nat)
    requires forall k :: 0 <= k < |s| ==> s[k] != '"' && s[k] != '\\' && s[k] != '\0'
    requires i <= |s|
    ensures StringEnd(['"'] + s + ['"'] + rest, i + 1, false) == |s| + 1
    decreases |s| - i
  {
    var input := ['"'] + s + ['"'] + rest;
    if i < |s| {
      assert CharAt(input, i + 1) == s[i];
      StringEndOfPlain(s, rest, i + 1);
    } else {
      assert CharAt(input, i + 1) == '"';
    }
  }

  /**
   * A string without quotes, backslashes or NULs between two quotes lexes to its
   * unescaped text, and the cursor ends after the closing quote.
   */
  lemma PlainStringRoundTrip(u: Tables, s: string, rest: string)
    requires XidNested(u)
    requires forall k :: 0 <= k < |s| ==> s[k] != '"' && s[k] != '\\' && s[k] != '\0'
    ensures NextTokenAt(u, ['"'] + s + ['"'] + rest, 0) == Scanned(String(u.unescape(s)), |s| + 2)
  {
    var input := ['"'] + s + ['"'] + rest;
    assert CharAt(input, 0) == '"';
    assert WhitespaceEnd(input, 0) == 0;
    StringEndOfPlain(s, rest, 0);
    assert CharAt(input, |s| + 1) == '"';
    assert input[1..|s| + 1] == s;
  }

  /** The six characters `"a\"b"` are one string token whose raw text is `a\"b`. */
  lemma EscapedQuoteStaysInside(u: Tables)
    requires XidNested(u)
    ensures NextTokenAt(u, ['"', 'a', '\\', '"', 'b', '"'], 0) == Scanned(String(u.unescape(['a', '\\', '"', 'b'])), 6)
  {
    var input := ['"', 'a', '\\', '"', 'b', '"'];
    assert WhitespaceEnd(input, 0) == 0;
    assert StringEnd(input, 1, false) == 5 by {
      assert StringEnd(input, 5, false) == 5;
      assert StringEnd(input, 4, false) == 5;
      assert StringEnd(input, 2, false) == StringEnd(input, 4, false);
    }
    assert input[1..5] == ['a', '\\', '"', 'b'];
  }

  lemma {:induction false} StringEndWithoutNul(input: seq<char>, i: nat, escaped: bool)
    requires i <= |input|
    requires forall k :: i <= k < |input| ==> input[k] != '"' && input[k] != '\0'
    ensures StringEnd(input, i, escaped) == |input|
    decreases |input| - i
  {
    if i < |input| {
      StringEndWithoutNul(input, i + 1, false);
      StringEndWithoutNul(input, i + 1, input[i] == '\\');
    }
  }

  /**
   * Without a closing quote the string token is the sentinel, and when no NUL
   * interrupts the text the cursor stops at the end of the input.
   */
  lemma UnterminatedString(u: Tables, input: seq<char>, pos: nat)
    requires XidNested(u)
    requires CharAt(input, WhitespaceEnd(input, pos)) == '"'
    requires forall k :: WhitespaceEnd(input, pos) < k < |input| ==> input[k] != '"'
    ensures NextTokenAt(u, input, pos).token == String(PrematureEof)
    ensures (forall k :: WhitespaceEnd(input, pos) < k < |input| ==> input[k] != '\0') ==>
      NextTokenAt(u, input, pos) == Scanned(String(PrematureEof), |input|)
  {
    var p := WhitespaceEnd(input, pos);
    var j := StringEnd(input, p + 1, false);
    assert CharAt(input, j) != '"';
    if forall k :: p < k < |input| ==> input[k] != '\0' {
      StringEndWithoutNul(input, p + 1, false);
    }
  }

  /** Nothing below U+007F is emoji-like. */
  lemma EmojiIsNotAscii(c: char)
    requires c <= '\U{007F}'
    ensures !IsEmojiLike(c)
  {
  }

  /**
   * Identifier continuation adds the ASCII digits to identifier start: among
   * ASCII characters exactly, and for all characters when the Unicode tables nest.
   */
  lemma IdContinueAddsDigits(u: Tables, c: char)
    ensures c <= '\U{007F}' ==> (IsIdContinue(u, c) <==> IsIdStart(u, c) || IsDigit(c))
    ensures XidNested(u) ==> (IsIdStart(u, c) ==> IsIdContinue(u, c))
  {
  }

  lemma {:induction false} IdentEndOfWord(u: Tables, w: string, rest: string, i: nat)
    requires i <= |w| && forall k :: 0 <= k < |w| ==> IsIdContinue(u, w[k])
    requires rest == [] || !IsIdContinue(u, rest[0])
    ensures IdentEnd(u, w + rest, i) == |w|
    decreases |w| - i
  {
    if i < |w| {
      assert CharAt(w + rest, i) == w[i];
      IdentEndOfWord(u, w, rest, i + 1);
    } else {
      assert CharAt(w + rest, i) == if rest == [] then '\0' else rest[0];
    }
  }

  /**
   * A maximal identifier-shaped word that starts with a letter yields its
   * keyword token, looked up on the raw text, or else `Ident` of its NFC form.
   */
  lemma WordRoundTrip(u: Tables, w: string, rest: string)
    requires XidNested(u)
    requires |w| >= 1 && IsIdStart(u, w[0]) && !IsDigit(w[0])
    requires !IsWhitespace(w[0]) && w[0] !in "=+-!/*<>(){}.[],;:\"\n\0"
    requires forall k :: 0 <= k < |w| ==> IsIdContinue(u, w[k])
    requires rest == [] || !IsIdContinue(u, rest[0])
    ensures NextTokenAt(u, w + rest, 0) == Scanned(WordToken(u, w), |w|)
    ensures Keyword(w).Some? ==> WordToken(u, w) == Keyword(w).value
    ensures Keyword(w).None? ==> WordToken(u, w) == Ident(u.nfc(w))
  {
    var input := w + rest;
    assert CharAt(input, 0) == w[0];
    IdentEndOfWord(u, w, rest, 0);
    assert input[0..|w|] == w;
  }

  /** Declaration keywords in both spellings; `const` is an ordinary identifier here. */
  lemma DeclarationKeywords(u: Tables)
    ensures WordToken(u, "let") == Let && WordToken(u, "给") == Let
    ensures WordToken(u, "fn") == Function && WordToken(u, "法则") == Function
    ensures WordToken(u, "const") == Ident(u.nfc("const"))
    ensures WordToken(u, "思想钢印") == Ident(u.nfc("思想钢印"))
  {
    SpellingIs(u, "let", Let);
    SpellingIs(u, "给", Let);
    SpellingIs(u, "fn", Function);
    SpellingIs(u, "法则", Function);
    OrdinaryWord(u, "const");
    OrdinaryWord(u, "思想钢印");
  }

  /** A word that is not in the keyword table lexes as its normalised identifier. */
  lemma OrdinaryWord(u: Tables, w: string)
    requires Keyword(w).None?
    ensures WordToken(u, w) == Ident(u.nfc(w))
  {
  }

  /** Chinese spellings of `=`, `+` and `-`. */
  lemma OperatorWords(u: Tables)
    ensures WordToken(u, "以") == Assign && WordToken(u, "前进") == Plus && WordToken(u, "降维") == Minus
  {
  }

  /** Both spellings of `while`. */
  lemma WhileWords(u: Tables)
    ensures WordToken(u, "while") == While && WordToken(u, "面壁") == While
  {
  }

  /** Both spellings of `break` and `continue`. */
  lemma LoopExitWords(u: Tables)
    ensures WordToken(u, "break") == Break && WordToken(u, "破壁") == Break
    ensures WordToken(u, "continue") == Continue && WordToken(u, "延绪") == Continue
  {
    SpellingIs(u, "break", Break);
    SpellingIs(u, "破壁", Break);
    SpellingIs(u, "continue", Continue);
    SpellingIs(u, "延绪", Continue);
  }

  /** A word the keyword table maps to `t` lexes as `t`. */
  lemma SpellingIs(u: Tables, w: string, t: Token)
    requires Keyword(w) == Some(t)
    ensures WordToken(u, w) == t
  {
  }

  /** Both spellings of the boolean literals. */
  lemma BooleanWords(u: Tables)
    ensures WordToken(u, "true") == Bool(true) && WordToken(u, "这是计划的一部分") == Bool(true)
    ensures WordToken(u, "false") == Bool(false) && WordToken(u, "主不在乎") == Bool(false)
  {
  }
}
