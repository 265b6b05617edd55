/**
 * Properties of the Pratt parser, stated on the functions of `Parsing`:
 * how the loop groups operators of equal and of different precedence, how
 * prefix operators and `.` bind, the statement forms, the order of the
 * statements of a program, and what the parser records when input ends early.
 */
module ParsingProps {
  import opened Wrappers
  import opened Tokens
  import A = Ast
  import opened Parsing

  /** The tokens whose prefix parser yields the operand itself: identifiers and integers. */
  predicate IsAtom(t: Token) { t.Ident? || t.Int? }

  function AtomExpr(t: Token): A.Expr
    requires IsAtom(t)
  {
    if t.Ident? then A.Expr.Ident(A.Ident.Ident(t.name)) else A.Expr.Literal(A.Literal.Int(t.value))
  }

  /** The prefix operator a token opens, as the prefix dispatch of `parse_expr` maps it. */
  function PrefixOf(t: Token): Option<A.Prefix>
  {
    if t.Bang? then Some(A.Prefix.Not)
    else if t.Minus? then Some(A.Prefix.Minus)
    else if t.Plus? then Some(A.Prefix.Plus)
    else None
  }

  /** Every infix operator binds tighter than `Lowest` and looser than a prefix operator. */
  lemma InfixPrecedenceRange(t: Token)
    requires InfixOf(t).Some?
    ensures A.Below(A.Precedence.Lowest, TokenPrecedence(t))
    ensures A.Below(TokenPrecedence(t), A.Precedence.Prefix)
    ensures !t.Semicolon?
  {
  }

  /** An operand followed by a token that does not bind tighter than `prec` is the whole expression. */
  lemma AtomStops(toks: seq<Token>, st: PState, prec: A.Precedence)
    requires st.cur < |toks| && IsAtom(toks[st.cur])
    requires !A.Below(prec, TokenPrecedence(Lookahead(toks, st)))
    ensures ParseExpr(toks, st, prec) == Yield(AtomExpr(toks[st.cur]), st)
  {
    assert ParseOperand(toks, st) == Yield(AtomExpr(toks[st.cur]), st);
  }

  /**
   * One round of the Pratt loop on an infix operator that binds tighter than
   * `prec`: the right side is parsed at the operator's own precedence and the
   * loop goes on with the folded operand.
   */
  lemma InfixFold(toks: seq<Token>, st: PState, prec: A.Precedence, left: A.Expr)
    requires st.cur + 1 < |toks|
    requires InfixOf(toks[st.cur + 1]).Some? && A.Below(prec, TokenPrecedence(toks[st.cur + 1]))
    ensures ExprLoop(toks, st, prec, Some(left)) ==
      var e :- ParseExpr(toks, PState(st.cur + 2, st.errors), TokenPrecedence(toks[st.cur + 1]));
      match e.value
      case None => ExprLoop(toks, e.st, prec, None)
      case Some(x) => ExprLoop(toks, e.st, prec, Some(A.Expr.Infix(InfixOf(toks[st.cur + 1]).value, left, x)))
  {
    var s1 := Walk(toks, st);
    assert s1 == PState(st.cur + 1, st.errors);
    assert ParseSuffix(toks, s1, Some(left)) == ParseInfix(toks, s1, left);
  }

  /** `InfixFold` once the right side is known: the loop goes on after it with the folded operand. */
  lemma FoldOperand(toks: seq<Token>, st: PState, prec: A.Precedence, left: A.Expr, right: A.Expr, next: PState)
    requires st.cur + 1 < |toks|
    requires InfixOf(toks[st.cur + 1]).Some? && A.Below(prec, TokenPrecedence(toks[st.cur + 1]))
    requires ParseExpr(toks, PState(st.cur + 2, st.errors), TokenPrecedence(toks[st.cur + 1])) == Yield(right, next)
    ensures next.cur <= |toks|
    ensures ExprLoop(toks, st, prec, Some(left)) ==
      ExprLoop(toks, next, prec, Some(A.Expr.Infix(InfixOf(toks[st.cur + 1]).value, left, right)))
  {
    InfixFold(toks, st, prec, left);
  }

  /**
   * Three operands joined by two infix operators. When the second operator
   * binds tighter it takes the middle operand (`a + b / c` is `a + (b / c)`);
   * otherwise, and in particular for operators of the same precedence, the
   * first pair is grouped first (`a + b + c` is `(a + b) + c`).
   */
  lemma {:induction false} ThreeOperands(toks: seq<Token>, i: nat, errs: seq<ParseError>)
    requires i + 4 < |toks|
    requires IsAtom(toks[i]) && IsAtom(toks[i + 2]) && IsAtom(toks[i + 4])
    requires InfixOf(toks[i + 1]).Some? && InfixOf(toks[i + 3]).Some?
    requires TokenPrecedence(TokAt(toks, i + 5)) == A.Precedence.Lowest
    ensures
      var x, y, z := AtomExpr(toks[i]), AtomExpr(toks[i + 2]), AtomExpr(toks[i + 4]);
      var o1, o2 := InfixOf(toks[i + 1]).value, InfixOf(toks[i + 3]).value;
      ParseExpr(toks, PState(i, errs), A.Precedence.Lowest) ==
        Yield(if A.Below(TokenPrecedence(toks[i + 1]), TokenPrecedence(toks[i + 3]))
              then A.Expr.Infix(o1, x, A.Expr.Infix(o2, y, z))
              else A.Expr.Infix(o2, A.Expr.Infix(o1, x, y), z),
              PState(i + 4, errs))
  {
    if A.Below(TokenPrecedence(toks[i + 1]), TokenPrecedence(toks[i + 3])) {
      TighterSecond(toks, i, errs);
    } else {
      LooserSecond(toks, i, errs);
    }
  }

  /** `ThreeOperands` when the second operator binds tighter: it takes the middle operand. */
  lemma TighterSecond(toks: seq<Token>, i: nat, errs: seq<ParseError>)
    requires i + 4 < |toks|
    requires IsAtom(toks[i]) && IsAtom(toks[i + 2]) && IsAtom(toks[i + 4])
    requires InfixOf(toks[i + 1]).Some? && InfixOf(toks[i + 3]).Some?
    requires TokenPrecedence(TokAt(toks, i + 5)) == A.Precedence.Lowest
    requires A.Below(TokenPrecedence(toks[i + 1]), TokenPrecedence(toks[i + 3]))
    ensures ParseExpr(toks, PState(i, errs), A.Precedence.Lowest) ==
      Yield(A.Expr.Infix(InfixOf(toks[i + 1]).value, AtomExpr(toks[i]),
                         A.Expr.Infix(InfixOf(toks[i + 3]).value, AtomExpr(toks[i + 2]), AtomExpr(toks[i + 4]))),
            PState(i + 4, errs))
  {
    var x, y, z := AtomExpr(toks[i]), AtomExpr(toks[i + 2]), AtomExpr(toks[i + 4]);
    var o1, o2 := InfixOf(toks[i + 1]).value, InfixOf(toks[i + 3]).value;
    var p1, p2 := TokenPrecedence(toks[i + 1]), TokenPrecedence(toks[i + 3]);
    var lowest, last := A.Precedence.Lowest, PState(i + 4, errs);
    var right := A.Expr.Infix(o2, y, z);
    InfixPrecedenceRange(toks[i + 1]);
    InfixPrecedenceRange(toks[i + 3]);
    AtomStops(toks, last, p2);
    FoldOperand(toks, PState(i + 2, errs), p1, y, z, last);
    assert ExprLoop(toks, last, p1, Some(right)) == Yield(right, last);
    assert ParseOperand(toks, PState(i + 2, errs)) == Yield(y, PState(i + 2, errs));
    assert ParseExpr(toks, PState(i + 2, errs), p1) == Yield(right, last);
    FoldOperand(toks, PState(i, errs), lowest, x, right, last);
    assert ExprLoop(toks, last, lowest, Some(A.Expr.Infix(o1, x, right))) == Yield(A.Expr.Infix(o1, x, right), last);
    assert ParseOperand(toks, PState(i, errs)) == Yield(x, PState(i, errs));
  }

  /** `ThreeOperands` when the second operator does not bind tighter: the first pair is grouped first. */
  lemma LooserSecond(toks: seq<Token>, i: nat, errs: seq<ParseError>)
    requires i + 4 < |toks|
    requires IsAtom(toks[i]) && IsAtom(toks[i + 2]) && IsAtom(toks[i + 4])
    requires InfixOf(toks[i + 1]).Some? && InfixOf(toks[i + 3]).Some?
    requires TokenPrecedence(TokAt(toks, i + 5)) == A.Precedence.Lowest
    requires !A.Below(TokenPrecedence(toks[i + 1]), TokenPrecedence(toks[i + 3]))
    ensures ParseExpr(toks, PState(i, errs), A.Precedence.Lowest) ==
      Yield(A.Expr.Infix(InfixOf(toks[i + 3]).value,
                         A.Expr.Infix(InfixOf(toks[i + 1]).value, AtomExpr(toks[i]), AtomExpr(toks[i + 2])),
                         AtomExpr(toks[i + 4])),
            PState(i + 4, errs))
  {
    var x, y, z := AtomExpr(toks[i]), AtomExpr(toks[i + 2]), AtomExpr(toks[i + 4]);
    var o1, o2 := InfixOf(toks[i + 1]).value, InfixOf(toks[i + 3]).value;
    var p1, p2 := TokenPrecedence(toks[i + 1]), TokenPrecedence(toks[i + 3]);
    var lowest, last := A.Precedence.Lowest, PState(i + 4, errs);
    var left := A.Expr.Infix(o1, x, y);
    InfixPrecedenceRange(toks[i + 1]);
    InfixPrecedenceRange(toks[i + 3]);
    AtomStops(toks, last, p2);
    FoldOperand(toks, PState(i + 2, errs), lowest, left, z, last);
    assert ExprLoop(toks, last, lowest, Some(A.Expr.Infix(o2, left, z))) == Yield(A.Expr.Infix(o2, left, z), last);
    AtomStops(toks, PState(i + 2, errs), p1);
    FoldOperand(toks, PState(i, errs), lowest, x, y, PState(i + 2, errs));
    assert ParseOperand(toks, PState(i, errs)) == Yield(x, PState(i, errs));
  }

  /** A prefix operator takes only the operand after it: `-a * b` is `(-a) * b`. */
  lemma PrefixThenInfix(toks: seq<Token>, i: nat, errs: seq<ParseError>)
    requires i + 3 < |toks|
    requires PrefixOf(toks[i]).Some? && IsAtom(toks[i + 1])
    requires InfixOf(toks[i + 2]).Some? && IsAtom(toks[i + 3])
    requires TokenPrecedence(TokAt(toks, i + 4)) == A.Precedence.Lowest
    ensures ParseExpr(toks, PState(i, errs), A.Precedence.Lowest) ==
      Yield(A.Expr.Infix(InfixOf(toks[i + 2]).value,
                         A.Expr.Prefix(PrefixOf(toks[i]).value, AtomExpr(toks[i + 1])),
                         AtomExpr(toks[i + 3])),
            PState(i + 3, errs))
  {
    var p := PrefixOf(toks[i]).value;
    var x := AtomExpr(toks[i + 1]);
    InfixPrecedenceRange(toks[i + 2]);
    AtomStops(toks, PState(i + 1, errs), A.Precedence.Prefix);
    PrefixOperand(toks, PState(i, errs));
    assert ParsePrefix(toks, PState(i, errs), p) == Yield(A.Expr.Prefix(p, x), PState(i + 1, errs));
    AtomStops(toks, PState(i + 3, errs), TokenPrecedence(toks[i + 2]));
    InfixFold(toks, PState(i + 1, errs), A.Precedence.Lowest, A.Expr.Prefix(p, x));
  }

  /** Prefix operators nest: `!-a` is `!(-a)`. */
  lemma NestedPrefix(toks: seq<Token>, i: nat, errs: seq<ParseError>)
    requires i + 2 < |toks|
    requires PrefixOf(toks[i]).Some? && PrefixOf(toks[i + 1]).Some? && IsAtom(toks[i + 2])
    requires TokenPrecedence(TokAt(toks, i + 3)) == A.Precedence.Lowest
    ensures ParseExpr(toks, PState(i, errs), A.Precedence.Lowest) ==
      Yield(A.Expr.Prefix(PrefixOf(toks[i]).value, A.Expr.Prefix(PrefixOf(toks[i + 1]).value, AtomExpr(toks[i + 2]))),
            PState(i + 2, errs))
  {
    var inner := A.Expr.Prefix(PrefixOf(toks[i + 1]).value, AtomExpr(toks[i + 2]));
    AtomStops(toks, PState(i + 2, errs), A.Precedence.Prefix);
    PrefixOperand(toks, PState(i + 1, errs));
    LoopStops(toks, PState(i + 2, errs), A.Precedence.Prefix, Some(inner));
    PrefixOperand(toks, PState(i, errs));
    LoopStops(toks, PState(i + 2, errs), A.Precedence.Lowest, Some(A.Expr.Prefix(PrefixOf(toks[i]).value, inner)));
  }

  /** A current prefix operator is parsed by `parse_prefix_expr`. */
  lemma PrefixOperand(toks: seq<Token>, st: PState)
    requires st.cur < |toks| && PrefixOf(toks[st.cur]).Some?
    ensures ParseOperand(toks, st) == ParsePrefix(toks, st, PrefixOf(toks[st.cur]).value)
  {
  }

  /** The Pratt loop stops at once on a lookahead that does not bind tighter than `prec`. */
  lemma LoopStops(toks: seq<Token>, st: PState, prec: A.Precedence, left: Option<A.Expr>)
    requires st.cur <= |toks| && !A.Below(prec, TokenPrecedence(Lookahead(toks, st)))
    ensures ExprLoop(toks, st, prec, left) == Done(Step(left, st))
  {
  }

  /** `a.b` is the index expression `a["b"]`. */
  lemma DotIndexIsStringIndex(toks: seq<Token>, i: nat, errs: seq<ParseError>)
    requires i + 2 < |toks|
    requires IsAtom(toks[i]) && toks[i + 1].Dot? && toks[i + 2].Ident?
    requires TokenPrecedence(TokAt(toks, i + 3)) == A.Precedence.Lowest
    ensures ParseExpr(toks, PState(i, errs), A.Precedence.Lowest) ==
      Yield(A.Expr.Index(AtomExpr(toks[i]), A.Expr.Literal(A.Literal.String(toks[i + 2].name))), PState(i + 2, errs))
  {
    var st := PState(i, errs);
    assert ParseOperand(toks, st) == Yield(AtomExpr(toks[i]), st);
    var idx := A.Expr.Index(AtomExpr(toks[i]), A.Expr.Literal(A.Literal.String(toks[i + 2].name)));
    assert ParseSuffix(toks, Walk(toks, st), Some(AtomExpr(toks[i]))) == Yield(idx, PState(i + 2, errs));
    assert ExprLoop(toks, PState(i + 2, errs), A.Precedence.Lowest, Some(idx)) == Yield(idx, PState(i + 2, errs));
  }

  /**
   * An identifier followed by `=` is a reassignment; the `;` after it is
   * optional and consumed when present.
   */
  lemma ReassignStatement(toks: seq<Token>, i: nat, errs: seq<ParseError>)
    requires i + 2 < |toks|
    requires toks[i].Ident? && toks[i + 1].Assign? && IsAtom(toks[i + 2])
    requires TokenPrecedence(TokAt(toks, i + 3)) == A.Precedence.Lowest
    ensures ParseStmt(toks, PState(i, errs)) ==
      Yield(A.Stmt.ReAssign(A.Ident.Ident(toks[i].name), AtomExpr(toks[i + 2])),
            PState(if TokAt(toks, i + 3).Semicolon? then i + 3 else i + 2, errs))
  {
    AtomStops(toks, PState(i + 2, errs), A.Precedence.Lowest);
  }

  /** A `Blank` token is a statement of its own and consumes nothing. */
  lemma BlankStatement(toks: seq<Token>, st: PState)
    requires st.cur < |toks| && toks[st.cur].Blank?
    ensures ParseStmt(toks, st) == Yield(A.Stmt.Blank, st)
  {
  }

  /**
   * The program the parser returns lists the statements in source order: the
   * loop appends each kept statement after the ones already collected.
   */
  lemma {:induction false} ProgramLoopAppends(toks: seq<Token>, st: PState, acc: A.Program)
    requires st.cur <= |toks|
    ensures ProgramLoop(toks, st, acc) ==
      match ProgramLoop(toks, st, [])
      case Panic(f) => Panic(f)
      case Done(s) => Done(Step(acc + s.value, s.st))
    decreases |toks| - st.cur
  {
    if !Current(toks, st).Eof? {
      match ParseStmt(toks, st)
      case Panic(_) =>
      case Done(s) =>
        var next := Walk(toks, s.st);
        ProgramLoopAppends(toks, next, acc + Kept(s.value));
        Concat(Kept(s.value), [], []);
        ProgramLoopAppends(toks, next, Kept(s.value));
        match ProgramLoop(toks, next, [])
        case Panic(_) =>
        case Done(t) => Concat(acc, Kept(s.value), t.value);
    } else {
      Concat(acc, [], []);
    }
  }

  /** The block loop appends in the same way. */
  lemma {:induction false} BlockLoopAppends(toks: seq<Token>, st: PState, acc: A.BlockStmt)
    requires st.cur <= |toks|
    ensures BlockLoop(toks, st, acc) ==
      match BlockLoop(toks, st, [])
      case Panic(f) => Panic(f)
      case Done(s) => Done(Step(acc + s.value, s.st))
    decreases |toks| - st.cur
  {
    if !Current(toks, st).RBrace? && !Current(toks, st).Eof? {
      match ParseStmt(toks, st)
      case Panic(_) =>
      case Done(s) =>
        var next := Walk(toks, s.st);
        BlockLoopAppends(toks, next, acc + Kept(s.value));
        Concat(Kept(s.value), [], []);
        BlockLoopAppends(toks, next, Kept(s.value));
        match BlockLoop(toks, next, [])
        case Panic(_) =>
        case Done(t) => Concat(acc, Kept(s.value), t.value);
    } else {
      Concat(acc, [], []);
    }
  }

  /** Concatenation is associative and has the empty sequence as its unit. */
  lemma Concat<T>(a: seq<T>, b: seq<T>, c: seq<T>)
    ensures (a + b) + c == a + (b + c)
    ensures [] + a == a && a + [] == a
  {
  }

  /** An identifier or integer literal is its own operand. */
  lemma AtomOperand(toks: seq<Token>, st: PState)
    requires st.cur < |toks| && IsAtom(toks[st.cur])
    ensures ParseOperand(toks, st) == Yield(AtomExpr(toks[st.cur]), st)
  {
  }

  /** A statement opening with an identifier that is not followed by `=` is an expression statement. */
  lemma IdentExprStatement(toks: seq<Token>, st: PState)
    requires st.cur < |toks| && toks[st.cur].Ident? && !Lookahead(toks, st).Assign?
    ensures ParseStmt(toks, st) == ParseExprStmt(toks, st)
  {
  }

  /** The argument list of `CallMissingParen`: three arguments, then the end of input where `)` was wanted. */
  lemma MissingParenArgs(toks: seq<Token>)
    requires toks == [Ident("add"), LParen, Int(3), Comma, Int(4), Comma, Int(5)]
    ensures ExprList(toks, PState(1, []), CloseParen) == Fail(PState(6, [UnexpectedToken(Some(RParen), Eof)]))
  {
    var err := PState(6, [UnexpectedToken(Some(RParen), Eof)]);
    var three, four, five := A.Expr.Literal(A.Literal.Int(3)), A.Expr.Literal(A.Literal.Int(4)), A.Expr.Literal(A.Literal.Int(5));
    AtomStops(toks, PState(2, []), A.Precedence.Lowest);
    AtomStops(toks, PState(4, []), A.Precedence.Lowest);
    AtomStops(toks, PState(6, []), A.Precedence.Lowest);
    assert Lookahead(toks, PState(6, [])) == Eof;
    assert Expected(toks, PState(6, []), RParen) == err;
    assert [three, four] + [five] == [three, four, five] && [three] + [four] == [three, four];
    assert ListLoop(toks, PState(6, []), CloseParen, [three, four, five]) == Fail(err);
    assert ListLoop(toks, PState(4, []), CloseParen, [three, four]) == Fail(err);
    assert ListLoop(toks, PState(2, []), CloseParen, [three]) == Fail(err);
  }

  /** The call of `CallMissingParen`: its argument list fails, so the call does too. */
  lemma MissingParenCall(toks: seq<Token>)
    requires toks == [Ident("add"), LParen, Int(3), Comma, Int(4), Comma, Int(5)]
    ensures ParseSuffix(toks, PState(1, []), Some(A.Expr.Ident(A.Ident.Ident("add")))) ==
      Fail(PState(6, [UnexpectedToken(Some(RParen), Eof)]))
  {
    MissingParenArgs(toks);
  }

  /** The loop of `parse_expr` after `add` in `CallMissingParen`: the failed call, then `Eof`. */
  lemma MissingParenLoop(toks: seq<Token>)
    requires toks == [Ident("add"), LParen, Int(3), Comma, Int(4), Comma, Int(5)]
    ensures ExprLoop(toks, PState(0, []), A.Precedence.Lowest, Some(A.Expr.Ident(A.Ident.Ident("add")))) ==
      Fail(PState(6, [UnexpectedToken(Some(RParen), Eof)]))
  {
    var err := PState(6, [UnexpectedToken(Some(RParen), Eof)]);
    MissingParenCall(toks);
    EofStopsLoop(toks, err, A.Precedence.Lowest, None);
    assert Lookahead(toks, PState(0, [])) == LParen && Walk(toks, PState(0, [])) == PState(1, []);
    assert TokenPrecedence(LParen) == A.Precedence.Call;
    ExprLoopRound(toks, PState(0, []), A.Precedence.Lowest, Some(A.Expr.Ident(A.Ident.Ident("add"))));
  }

  /** The expression of `CallMissingParen`: the call fails and the loop stops at `Eof`. */
  lemma MissingParenExpr(toks: seq<Token>)
    requires toks == [Ident("add"), LParen, Int(3), Comma, Int(4), Comma, Int(5)]
    ensures ParseExpr(toks, PState(0, []), A.Precedence.Lowest) == Fail(PState(6, [UnexpectedToken(Some(RParen), Eof)]))
  {
    MissingParenLoop(toks);
    AtomOperand(toks, PState(0, []));
    assert AtomExpr(toks[0]) == A.Expr.Ident(A.Ident.Ident("add"));
  }

  /** The statement of `CallMissingParen`: an expression statement whose expression fails. */
  lemma MissingParenStmt(toks: seq<Token>)
    requires toks == [Ident("add"), LParen, Int(3), Comma, Int(4), Comma, Int(5)]
    ensures ParseStmt(toks, PState(0, [])) == Fail(PState(6, [UnexpectedToken(Some(RParen), Eof)]))
  {
    MissingParenExpr(toks);
    IdentExprStatement(toks, PState(0, []));
  }

  /** `add(3, 4, 5`: the call is dropped and one error records that `)` was wanted where `Eof` was found. */
  lemma CallMissingParen()
    ensures Parse([Ident("add"), LParen, Int(3), Comma, Int(4), Comma, Int(5)]) ==
      Done(Step([], PState(7, [UnexpectedToken(Some(RParen), Eof)])))
  {
    var toks := [Ident("add"), LParen, Int(3), Comma, Int(4), Comma, Int(5)];
    var errs := [UnexpectedToken(Some(RParen), Eof)];
    MissingParenStmt(toks);
    assert Walk(toks, PState(6, errs)) == PState(7, errs);
    assert ProgramLoop(toks, PState(7, errs), []) == Done(Step([], PState(7, errs)));
  }

  /** The element list of `ArrayTrailingComma`: the comma after `5` runs into the end of input. */
  lemma TrailingCommaList(toks: seq<Token>)
    requires toks == [LBracket, Int(3), Comma, Int(4), Comma, Int(5), Comma]
    ensures ExprList(toks, PState(0, []), CloseBracket) == Fail(PState(7, [UnexpectedToken(Some(Ident("ident")), Eof)]))
  {
    var err := PState(7, [UnexpectedToken(Some(Ident("ident")), Eof)]);
    var three, four, five := A.Expr.Literal(A.Literal.Int(3)), A.Expr.Literal(A.Literal.Int(4)), A.Expr.Literal(A.Literal.Int(5));
    AtomStops(toks, PState(1, []), A.Precedence.Lowest);
    AtomStops(toks, PState(3, []), A.Precedence.Lowest);
    AtomStops(toks, PState(5, []), A.Precedence.Lowest);
    assert Lookahead(toks, PState(7, [])) == Eof && Current(toks, PState(7, [])) == Eof;
    assert Expected(toks, PState(7, []), Ident("ident")) == err;
    assert ListLoop(toks, PState(5, []), CloseBracket, [three, four, five]) == Fail(err);
    assert [three, four] + [five] == [three, four, five] && [three] + [four] == [three, four];
    assert ListLoop(toks, PState(3, []), CloseBracket, [three, four]) == Fail(err);
    assert ListLoop(toks, PState(1, []), CloseBracket, [three]) == Fail(err);
  }

  /** A current `[` is parsed by `parse_array_expr`. */
  lemma ArrayOperand(toks: seq<Token>, st: PState)
    requires st.cur <= |toks| && Current(toks, st).LBracket?
    ensures st.cur < |toks| && ParseOperand(toks, st) == ParseArray(toks, st)
  {
  }

  /** `[3,4,5,`: a comma followed by the end of input records that an identifier was wanted. */
  lemma ArrayTrailingComma()
    ensures ParseExpr([LBracket, Int(3), Comma, Int(4), Comma, Int(5), Comma], PState(0, []), A.Precedence.Lowest) ==
      Fail(PState(7, [UnexpectedToken(Some(Ident("ident")), Eof)]))
  {
    var toks := [LBracket, Int(3), Comma, Int(4), Comma, Int(5), Comma];
    var err := PState(7, [UnexpectedToken(Some(Ident("ident")), Eof)]);
    TrailingCommaList(toks);
    ArrayOperand(toks, PState(0, []));
    assert ParseOperand(toks, PState(0, [])) == Fail(err);
    EofStopsLoop(toks, err, A.Precedence.Lowest, None);
  }

  /** The body of the loop in `WhileBlockAtEof`: one reassignment, then the end of input where `}` was wanted. */
  lemma WhileBodyAtEof(toks: seq<Token>)
    requires toks == [While, LParen, Ident("a"), RParen, LBrace, Ident("c"), Assign, Int(1)]
    ensures BlockLoop(toks, PState(5, []), []) ==
      Done(Step([A.Stmt.ReAssign(A.Ident.Ident("c"), A.Expr.Literal(A.Literal.Int(1)))],
                PState(8, [UnexpectedToken(Some(RBrace), Eof)])))
  {
    var body := [A.Stmt.ReAssign(A.Ident.Ident("c"), A.Expr.Literal(A.Literal.Int(1)))];
    var end := PState(8, [UnexpectedToken(Some(RBrace), Eof)]);
    ReassignStatement(toks, 5, []);
    assert Lookahead(toks, PState(8, [])) == Eof && Current(toks, PState(8, [])) == Eof;
    assert Expected(toks, PState(8, []), RBrace) == end;
    assert BlockLoop(toks, PState(8, []), body) == Done(Step(body, end));
    assert ParseStmt(toks, PState(5, [])) == Yield(body[0], PState(7, []));
    assert Walk(toks, PState(7, [])) == PState(8, []);
    assert [] + Kept(Some(body[0])) == body;
  }

  /** A statement opening with `while` is an expression statement, parsed by `parse_while_expr`. */
  lemma WhileStatement(toks: seq<Token>, st: PState)
    requires st.cur <= |toks| && Current(toks, st).While?
    ensures st.cur < |toks| && ParseStmt(toks, st) == ParseExprStmt(toks, st)
    ensures ParseOperand(toks, st) == ParseWhile(toks, st)
  {
  }

  /** The Pratt loop stops when the lookahead is `Eof`, which binds at `Lowest`. */
  lemma EofStopsLoop(toks: seq<Token>, st: PState, prec: A.Precedence, left: Option<A.Expr>)
    requires st.cur <= |toks| && Lookahead(toks, st).Eof?
    ensures ExprLoop(toks, st, prec, left) == Done(Step(left, st))
  {
  }

  /** The `while` expression of `WhileBlockAtEof`, parsed from the first token. */
  lemma WhileLoopAtEof(toks: seq<Token>)
    requires toks == [While, LParen, Ident("a"), RParen, LBrace, Ident("c"), Assign, Int(1)]
    ensures ParseWhile(toks, PState(0, [])) ==
      Yield(A.Expr.While(A.Expr.Ident(A.Ident.Ident("a")),
                         [A.Stmt.ReAssign(A.Ident.Ident("c"), A.Expr.Literal(A.Literal.Int(1)))]),
            PState(8, [UnexpectedToken(Some(RBrace), Eof)]))
  {
    var body := [A.Stmt.ReAssign(A.Ident.Ident("c"), A.Expr.Literal(A.Literal.Int(1)))];
    var end := PState(8, [UnexpectedToken(Some(RBrace), Eof)]);
    AtomStops(toks, PState(2, []), A.Precedence.Lowest);
    assert ParseCondition(toks, PState(0, [])) == Yield(A.Expr.Ident(A.Ident.Ident("a")), PState(4, []));
    WhileBodyAtEof(toks);
    assert Walk(toks, PState(4, [])) == PState(5, []);
    assert ParseBlock(toks, PState(4, [])) == Done(Step(body, end));
  }

  /**
   * `while (a) { c = 1`: the block runs into `Eof`, which records that `}` was
   * wanted, and keeps the statement parsed so far.
   */
  lemma WhileBlockAtEof()
    ensures Parse([While, LParen, Ident("a"), RParen, LBrace, Ident("c"), Assign, Int(1)]) ==
      Done(Step([A.Stmt.Expr(A.Expr.While(A.Expr.Ident(A.Ident.Ident("a")),
                                          [A.Stmt.ReAssign(A.Ident.Ident("c"), A.Expr.Literal(A.Literal.Int(1)))]))],
                PState(8, [UnexpectedToken(Some(RBrace), Eof)])))
  {
    var toks := [While, LParen, Ident("a"), RParen, LBrace, Ident("c"), Assign, Int(1)];
    var body := [A.Stmt.ReAssign(A.Ident.Ident("c"), A.Expr.Literal(A.Literal.Int(1)))];
    var end := PState(8, [UnexpectedToken(Some(RBrace), Eof)]);
    var loop := A.Expr.While(A.Expr.Ident(A.Ident.Ident("a")), body);
    WhileLoopAtEof(toks);
    WhileStatement(toks, PState(0, []));
    EofStopsLoop(toks, end, A.Precedence.Lowest, Some(loop));
    assert ParseExpr(toks, PState(0, []), A.Precedence.Lowest) == Yield(loop, end);
    assert SkipSemicolon(toks, end) == end;
    assert ParseExprStmt(toks, PState(0, [])) == Yield(A.Stmt.Expr(loop), end);
    assert ParseStmt(toks, PState(0, [])) == Yield(A.Stmt.Expr(loop), end);
    assert Walk(toks, end) == end;
    assert [] + Kept(Some(A.Stmt.Expr(loop))) == [A.Stmt.Expr(loop)];
    assert ProgramLoop(toks, end, [A.Stmt.Expr(loop)]) == Done(Step([A.Stmt.Expr(loop)], end));
  }
}
