/**
 * The `three_body_e2021` Pratt parser as functions over an explicit parser state.
 *
 * The parser reads a token stream through two fields, the current token and
 * the next one. Here the stream is a sequence `toks` read past its end as
 * `Eof`, which is what the lexer keeps returning there, and the state is the
 * index `cur` of the current token together with the error list. Every
 * `parse_*` production is a function from a state to the value it returns
 * (`None` where the source returns `None`) and the state it leaves behind, or
 * to a panic where the source calls `unwrap()` on a missing left operand.
 *
 * Every production leaves the cursor at or after where it found it and only
 * appends to the error list. The class `E2021Parser.Parser` is the imperative
 * parser proved to follow these functions.
 */
module Parsing {
  import opened Wrappers
  import opened Tokens
  import A = Ast

  /** `ParseError::UnexpectedToken`: the token that was wanted, if any, and the lookahead that was found. */
  datatype ParseError = UnexpectedToken(want: Option<Token>, got: Token)

  /** The index of the current token, and the errors recorded so far. */
  datatype PState = PState(cur: nat, errors: seq<ParseError>)

  /** A production's result together with the state it leaves behind. */
  datatype Step<T> = Step(value: T, st: PState)

  type Parsed<T> = Outcome<Step<Option<T>>>

  /** The token at index `i`; past the end of the stream the lexer only yields `Eof`. */
  function TokAt(toks: seq<Token>, i: nat): (t: Token)
    ensures !t.Eof? ==> i < |toks|
  {
    if i < |toks| then toks[i] else Eof
  }

  function Current(toks: seq<Token>, st: PState): Token { TokAt(toks, st.cur) }

  function Lookahead(toks: seq<Token>, st: PState): Token { TokAt(toks, st.cur + 1) }

  /** `st2` is reachable from `st`: the cursor has not moved back and the errors have only grown. */
  predicate Follows(toks: seq<Token>, st: PState, st2: PState)
  {
    st.cur <= st2.cur <= |toks| && st.errors <= st2.errors
  }

  /** A production that does not panic leaves a state that follows the one it started from. */
  predicate Ok<T>(toks: seq<Token>, st: PState, r: Outcome<Step<T>>)
  {
    r.Done? ==> Follows(toks, st, r.value.st)
  }

  /**
   * `walk_token`: the next token becomes the current one. Past the end both
   * are `Eof` whatever the index, so the index stops at the end of the stream.
   */
  function Walk(toks: seq<Token>, st: PState): (s: PState)
    requires st.cur <= |toks|
    ensures Follows(toks, st, s) && s.errors == st.errors
    ensures Current(toks, s) == Lookahead(toks, st)
    ensures st.cur < |toks| ==> s.cur == st.cur + 1
  {
    if st.cur < |toks| then st.(cur := st.cur + 1) else st
  }

  /** `error_next_token(want)`: one `UnexpectedToken` whose `got` is the lookahead. */
  function Expected(toks: seq<Token>, st: PState, want: Token): (s: PState)
    ensures s.cur == st.cur
    ensures s.errors == st.errors + [UnexpectedToken(Some(want), Lookahead(toks, st))]
  {
    st.(errors := st.errors + [UnexpectedToken(Some(want), Lookahead(toks, st))])
  }

  /** `error_no_prefix_parser`: one `UnexpectedToken` without a wanted token. */
  function NoPrefix(toks: seq<Token>, st: PState): (s: PState)
    ensures s.cur == st.cur
    ensures s.errors == st.errors + [UnexpectedToken(None, Lookahead(toks, st))]
  {
    st.(errors := st.errors + [UnexpectedToken(None, Lookahead(toks, st))])
  }

  /** The optional `;` that ends a statement is consumed when it is the lookahead. */
  function SkipSemicolon(toks: seq<Token>, st: PState): (s: PState)
    requires st.cur <= |toks|
    ensures Follows(toks, st, s) && s.errors == st.errors
    ensures !Lookahead(toks, st).Semicolon? ==> s == st
  {
    if Lookahead(toks, st).Semicolon? then Walk(toks, st) else st
  }

  /** A method's outcome paired with the parser state it leaves, for comparison with these functions. */
  function Lift<T>(r: Outcome<T>, st: PState): Outcome<Step<T>>
  {
    match r
    case Done(v) => Done(Step(v, st))
    case Panic(f) => Panic(f)
  }

  function Fail<T>(st: PState): Parsed<T> { Done(Step(None, st)) }

  function Yield<T>(v: T, st: PState): Parsed<T> { Done(Step(Some(v), st)) }

  /** The statements a loop keeps: a production that returned `None` is dropped. */
  function Kept<T>(o: Option<T>): (s: seq<T>)
    ensures o.None? ==> s == []
    ensures o.Some? ==> s == [o.value]
  {
    match o
    case None => []
    case Some(x) => [x]
  }

  /** `token_to_precedence`. */
  function TokenPrecedence(t: Token): A.Precedence
  {
    if t.Equal? || t.NotEqual? then A.Precedence.Equals
    else if t.LT? || t.LTEQ? || t.GT? || t.GTEQ? then A.Precedence.LessGreater
    else if t.Plus? || t.Minus? then A.Precedence.Sum
    else if t.Slash? || t.Asterisk? then A.Precedence.Product
    else if t.LBracket? || t.Dot? then A.Precedence.Index
    else if t.LParen? then A.Precedence.Call
    else A.Precedence.Lowest
  }

  /** The infix operator a token stands for, as `parse_infix_expr` maps it. */
  function InfixOf(t: Token): Option<A.Infix>
  {
    if t.Plus? then Some(A.Infix.Plus)
    else if t.Minus? then Some(A.Infix.Minus)
    else if t.Slash? then Some(A.Infix.Divide)
    else if t.Asterisk? then Some(A.Infix.Multiply)
    else if t.Equal? then Some(A.Infix.Equal)
    else if t.NotEqual? then Some(A.Infix.NotEqual)
    else if t.LT? then Some(A.Infix.LT)
    else if t.LTEQ? then Some(A.Infix.LTEQ)
    else if t.GT? then Some(A.Infix.GT)
    else if t.GTEQ? then Some(A.Infix.GTEQ)
    else None
  }

  /** `parse`: statements up to the first current `Eof`, walking past each one. */
  function ProgramLoop(toks: seq<Token>, st: PState, acc: A.Program): (r: Outcome<Step<A.Program>>)
    requires st.cur <= |toks|
    ensures Ok(toks, st, r)
    ensures r.Done? ==> Current(toks, r.value.st).Eof? && acc <= r.value.value
    decreases |toks| - st.cur
  {
    if Current(toks, st).Eof? then Done(Step(acc, st))
    else
      var s :- ParseStmt(toks, st);
      ProgramLoop(toks, Walk(toks, s.st), acc + Kept(s.value))
  }

  /** `Parser::new` followed by `parse`: the program and the final state with its errors. */
  function Parse(toks: seq<Token>): (r: Outcome<Step<A.Program>>)
    ensures r.Done? ==> r.value.st.cur <= |toks|
  {
    ProgramLoop(toks, PState(0, []), [])
  }

  /** `parse_stmt`, dispatching on the current token (which is not `Eof`). */
  function ParseStmt(toks: seq<Token>, st: PState): (r: Parsed<A.Stmt>)
    requires st.cur < |toks|
    ensures Ok(toks, st, r)
    decreases |toks| - st.cur, 6
  {
    var t := Current(toks, st);
    if t.Let? then ParseDeclaration(toks, st, false)
    else if t.Const? then ParseDeclaration(toks, st, true)
    else if t.Return? then ParseReturn(toks, st)
    else if t.Ident? && Lookahead(toks, st).Assign? then ParseReassign(toks, st, t.name)
    else if t.Break? then Done(ParseLoopControl(toks, st, A.Stmt.Break))
    else if t.Continue? then Done(ParseLoopControl(toks, st, A.Stmt.Continue))
    else if t.Blank? then Yield(A.Stmt.Blank, st)
    else ParseExprStmt(toks, st)
  }

  /**
   * `parse_let_stmt` (`constant` false) and `parse_const_stmt` (`constant`
   * true), which differ only in the statement they build. Without a name
   * after the keyword the statement is dropped and no error is recorded.
   */
  function ParseDeclaration(toks: seq<Token>, st: PState, constant: bool): (r: Parsed<A.Stmt>)
    requires st.cur < |toks|
    ensures Ok(toks, st, r)
    decreases |toks| - st.cur, 5
  {
    var t := Lookahead(toks, st);
    if !t.Ident? then Fail(st)
    else
      var n := t.name;
      var s1 := Walk(toks, st);
      if !Lookahead(toks, s1).Assign? then Fail(Expected(toks, s1, Assign))
      else
        var e :- ParseExpr(toks, Walk(toks, Walk(toks, s1)), A.Precedence.Lowest);
        (match e.value
         case None => Fail(e.st)
         case Some(x) =>
           var name := A.Ident.Ident(n);
           Yield(if constant then A.Stmt.Const(name, x) else A.Stmt.Let(name, x), SkipSemicolon(toks, e.st)))
  }

  /** `parse_reassign_stmt`, the current token being the identifier `name`. */
  function ParseReassign(toks: seq<Token>, st: PState, name: string): (r: Parsed<A.Stmt>)
    requires st.cur <= |toks|
    ensures Ok(toks, st, r)
    decreases |toks| - st.cur, 5
  {
    if !Lookahead(toks, st).Assign? then Fail(Expected(toks, st, Assign))
    else
      var e :- ParseExpr(toks, Walk(toks, Walk(toks, st)), A.Precedence.Lowest);
      match e.value
      case None => Fail(e.st)
      case Some(x) => Yield(A.Stmt.ReAssign(A.Ident.Ident(name), x), SkipSemicolon(toks, e.st))
  }

  /** `parse_return_stmt`. */
  function ParseReturn(toks: seq<Token>, st: PState): (r: Parsed<A.Stmt>)
    requires st.cur < |toks|
    ensures Ok(toks, st, r)
    decreases |toks| - st.cur, 5
  {
    var e :- ParseExpr(toks, Walk(toks, st), A.Precedence.Lowest);
    match e.value
    case None => Fail(e.st)
    case Some(x) => Yield(A.Stmt.Return(x), SkipSemicolon(toks, e.st))
  }

  /** `parse_break_stmt` and `parse_continue_stmt`: walk once, then an optional `;`. */
  function ParseLoopControl(toks: seq<Token>, st: PState, stmt: A.Stmt): (r: Step<Option<A.Stmt>>)
    requires st.cur <= |toks|
    ensures r.value == Some(stmt) && Follows(toks, st, r.st) && r.st.errors == st.errors
  {
    Step(Some(stmt), SkipSemicolon(toks, Walk(toks, st)))
  }

  /** `parse_expr_stmt`. */
  function ParseExprStmt(toks: seq<Token>, st: PState): (r: Parsed<A.Stmt>)
    requires st.cur <= |toks|
    ensures Ok(toks, st, r)
    decreases |toks| - st.cur, 5
  {
    var e :- ParseExpr(toks, st, A.Precedence.Lowest);
    match e.value
    case None => Fail(e.st)
    case Some(x) => Yield(A.Stmt.Expr(x), SkipSemicolon(toks, e.st))
  }

  /** `parse_expr`: the prefix parser of the current token, then the Pratt loop. */
  function ParseExpr(toks: seq<Token>, st: PState, prec: A.Precedence): (r: Parsed<A.Expr>)
    requires st.cur <= |toks|
    ensures Ok(toks, st, r)
    decreases |toks| - st.cur, 4
  {
    var left :- ParseOperand(toks, st);
    ExprLoop(toks, left.st, prec, left.value)
  }

  /**
   * The `match` that opens `parse_expr`: the prefix parser chosen by the
   * current token. A token with no prefix parser records an error and gives `None`.
   */
  function ParseOperand(toks: seq<Token>, st: PState): (r: Parsed<A.Expr>)
    requires st.cur <= |toks|
    ensures Ok(toks, st, r)
    decreases |toks| - st.cur, 3
  {
    var t := Current(toks, st);
    if t.Ident? then Yield(A.Expr.Ident(A.Ident.Ident(t.name)), st)
    else if t.Int? then Yield(A.Expr.Literal(A.Literal.Int(t.value)), st)
    else if t.String? then Yield(A.Expr.Literal(A.Literal.String(t.text)), st)
    else if t.Bool? then Yield(A.Expr.Literal(A.Literal.Bool(t.flag)), st)
    else if t.LBracket? then ParseArray(toks, st)
    else if t.LBrace? then ParseHash(toks, st)
    else if t.LParen? then ParseGrouped(toks, st)
    else if t.Bang? then ParsePrefix(toks, st, A.Prefix.Not)
    else if t.Minus? then ParsePrefix(toks, st, A.Prefix.Minus)
    else if t.Plus? then ParsePrefix(toks, st, A.Prefix.Plus)
    else if t.If? then ParseIf(toks, st)
    else if t.While? then ParseWhile(toks, st)
    else if t.Function? then ParseFunction(toks, st)
    else Fail(NoPrefix(toks, st))
  }

  /**
   * The Pratt loop of `parse_expr`: while the lookahead is not `;` and binds
   * tighter than `prec`, fold it and its right side into the left operand.
   * Folding onto a missing left operand is the source's `left.unwrap()` panic.
   */
  function ExprLoop(toks: seq<Token>, st: PState, prec: A.Precedence, left: Option<A.Expr>): (r: Parsed<A.Expr>)
    requires st.cur <= |toks|
    ensures Ok(toks, st, r)
    decreases |toks| - st.cur, 2
  {
    var t := Lookahead(toks, st);
    if t.Semicolon? || !A.Below(prec, TokenPrecedence(t)) then Done(Step(left, st))
    else
      var next :- ParseSuffix(toks, Walk(toks, st), left);
      ExprLoop(toks, next.st, prec, next.value)
  }

  /**
   * One round of the Pratt loop, the current token being the one that binds
   * tighter: the parser it selects, applied to the left operand. Every arm
   * unwraps the left operand first, which panics when it is missing.
   */
  function ParseSuffix(toks: seq<Token>, st: PState, left: Option<A.Expr>): (r: Parsed<A.Expr>)
    requires st.cur < |toks|
    ensures Ok(toks, st, r)
    decreases |toks| - st.cur, 3
  {
    var t := Current(toks, st);
    if left.None? then Panic(UnwrapNone)
    // Every other token whose precedence is above `Lowest` is an infix operator.
    else if t.LBracket? then ParseIndex(toks, st, left.value)
    else if t.Dot? then Done(ParseDotIndex(toks, st, left.value))
    else if t.LParen? then ParseCall(toks, st, left.value)
    else ParseInfix(toks, st, left.value)
  }

  /** `parse_infix_expr`: the right operand is parsed at the operator's own precedence. */
  function ParseInfix(toks: seq<Token>, st: PState, left: A.Expr): (r: Parsed<A.Expr>)
    requires st.cur < |toks|
    ensures Ok(toks, st, r)
    decreases |toks| - st.cur, 2
  {
    match InfixOf(Current(toks, st))
    case None => Fail(st)
    case Some(op) =>
      var e :- ParseExpr(toks, Walk(toks, st), TokenPrecedence(Current(toks, st)));
      match e.value
      case None => Fail(e.st)
      case Some(x) => Yield(A.Expr.Infix(op, left, x), e.st)
  }

  /** `parse_index_expr`, the current token being `[`. */
  function ParseIndex(toks: seq<Token>, st: PState, left: A.Expr): (r: Parsed<A.Expr>)
    requires st.cur < |toks|
    ensures Ok(toks, st, r)
    decreases |toks| - st.cur, 2
  {
    var e :- ParseExpr(toks, Walk(toks, st), A.Precedence.Lowest);
    match e.value
    case None => Fail(e.st)
    case Some(x) =>
      if !Lookahead(toks, e.st).RBracket? then Fail(Expected(toks, e.st, RBracket))
      else Yield(A.Expr.Index(left, x), Walk(toks, e.st))
  }

  /** `parse_dot_index_expr`: `left.name` is `left["name"]`; without a name it fails silently. */
  function ParseDotIndex(toks: seq<Token>, st: PState, left: A.Expr): (r: Step<Option<A.Expr>>)
    requires st.cur <= |toks|
    ensures Follows(toks, st, r.st) && r.st.errors == st.errors
  {
    var s1 := Walk(toks, st);
    var t := Current(toks, s1);
    if t.Ident? then Step(Some(A.Expr.Index(left, A.Expr.Literal(A.Literal.String(t.name)))), s1)
    else Step(None, s1)
  }

  /** `parse_call_expr`, the current token being `(`. */
  function ParseCall(toks: seq<Token>, st: PState, func: A.Expr): (r: Parsed<A.Expr>)
    requires st.cur < |toks|
    ensures Ok(toks, st, r)
    decreases |toks| - st.cur, 2
  {
    var l :- ExprList(toks, st, CloseParen);
    match l.value
    case None => Fail(l.st)
    case Some(args) => Yield(A.Expr.Call(func, args), l.st)
  }

  /** `parse_grouped_expr`: the inner expression, which may itself be missing, then `)`. */
  function ParseGrouped(toks: seq<Token>, st: PState): (r: Parsed<A.Expr>)
    requires st.cur < |toks|
    ensures Ok(toks, st, r)
    decreases |toks| - st.cur, 2
  {
    var e :- ParseExpr(toks, Walk(toks, st), A.Precedence.Lowest);
    if !Lookahead(toks, e.st).RParen? then Fail(Expected(toks, e.st, RParen))
    else Done(Step(e.value, Walk(toks, e.st)))
  }

  /** `parse_prefix_expr`: the operand is parsed at `Prefix` precedence. */
  function ParsePrefix(toks: seq<Token>, st: PState, op: A.Prefix): (r: Parsed<A.Expr>)
    requires st.cur < |toks|
    ensures Ok(toks, st, r)
    decreases |toks| - st.cur, 2
  {
    var e :- ParseExpr(toks, Walk(toks, st), A.Precedence.Prefix);
    match e.value
    case None => Fail(e.st)
    case Some(x) => Yield(A.Expr.Prefix(op, x), e.st)
  }

  /** The `(cond) {` head shared by `if` and `while`; yields the condition and the state on `{`. */
  function ParseCondition(toks: seq<Token>, st: PState): (r: Parsed<A.Expr>)
    requires st.cur < |toks|
    ensures Ok(toks, st, r)
    ensures r.Done? && r.value.value.Some? ==> r.value.st.cur < |toks| && Current(toks, r.value.st).LBrace?
    decreases |toks| - st.cur, 1
  {
    if !Lookahead(toks, st).LParen? then Fail(Expected(toks, st, LParen))
    else
      var c :- ParseExpr(toks, Walk(toks, Walk(toks, st)), A.Precedence.Lowest);
      match c.value
      case None => Fail(c.st)
      case Some(cond) => ConditionTail(toks, c.st, cond)
  }

  /** The `) {` that closes a condition: each missing token records that it was wanted. */
  function ConditionTail(toks: seq<Token>, st: PState, cond: A.Expr): (r: Parsed<A.Expr>)
    requires st.cur <= |toks|
    ensures Ok(toks, st, r)
    ensures r.Done? && r.value.value.Some? ==> r.value.st.cur < |toks| && Current(toks, r.value.st).LBrace?
  {
    if !Lookahead(toks, st).RParen? then Fail(Expected(toks, st, RParen))
    else
      var s1 := Walk(toks, st);
      if !Lookahead(toks, s1).LBrace? then Fail(Expected(toks, s1, LBrace))
      else Yield(cond, Walk(toks, s1))
  }

  /** `parse_if_expr`, with its optional `else` block. */
  function ParseIf(toks: seq<Token>, st: PState): (r: Parsed<A.Expr>)
    requires st.cur < |toks|
    ensures Ok(toks, st, r)
    decreases |toks| - st.cur, 2
  {
    var c :- ParseCondition(toks, st);
    match c.value
    case None => Fail(c.st)
    case Some(cond) =>
      var b :- ParseBlock(toks, c.st);
      ElseTail(toks, b.st, cond, b.value)
  }

  /** The optional `else` block after the consequence of an `if`. */
  function ElseTail(toks: seq<Token>, st: PState, cond: A.Expr, consequence: A.BlockStmt): (r: Parsed<A.Expr>)
    requires st.cur <= |toks|
    ensures Ok(toks, st, r)
    decreases |toks| - st.cur, 1
  {
    if Lookahead(toks, st).Else? then
      var s2 := Walk(toks, st);
      if !Lookahead(toks, s2).LBrace? then Fail(Expected(toks, s2, LBrace))
      else
        var alt :- ParseBlock(toks, Walk(toks, s2));
        Yield(A.Expr.If(cond, consequence, A.Else.Else(alt.value)), alt.st)
    else Yield(A.Expr.If(cond, consequence, A.Else.NoElse), st)
  }

  /** `parse_while_expr`. */
  function ParseWhile(toks: seq<Token>, st: PState): (r: Parsed<A.Expr>)
    requires st.cur < |toks|
    ensures Ok(toks, st, r)
    decreases |toks| - st.cur, 2
  {
    var c :- ParseCondition(toks, st);
    match c.value
    case None => Fail(c.st)
    case Some(cond) =>
      var b :- ParseBlock(toks, c.st);
      Yield(A.Expr.While(cond, b.value), b.st)
  }

  /** `parse_block_stmt`, the current token being `{`. */
  function ParseBlock(toks: seq<Token>, st: PState): (r: Outcome<Step<A.BlockStmt>>)
    requires st.cur < |toks|
    ensures Ok(toks, st, r)
    decreases |toks| - st.cur, 1
  {
    BlockLoop(toks, Walk(toks, st), [])
  }

  /**
   * The loop of `parse_block_stmt`: statements up to the current `}`. At `Eof`
   * it records that `}` was wanted and yields the statements parsed so far.
   */
  function BlockLoop(toks: seq<Token>, st: PState, acc: A.BlockStmt): (r: Outcome<Step<A.BlockStmt>>)
    requires st.cur <= |toks|
    ensures Ok(toks, st, r)
    ensures r.Done? ==> acc <= r.value.value
    ensures r.Done? ==>
      || Current(toks, r.value.st).RBrace?
      || (&& Current(toks, r.value.st).Eof? && |r.value.st.errors| > 0
          && r.value.st.errors[|r.value.st.errors| - 1] == UnexpectedToken(Some(RBrace), Lookahead(toks, r.value.st)))
    decreases |toks| - st.cur, 7
  {
    if Current(toks, st).RBrace? then Done(Step(acc, st))
    else if Current(toks, st).Eof? then Done(Step(acc, Expected(toks, st, RBrace)))
    else
      var s :- ParseStmt(toks, st);
      BlockLoop(toks, Walk(toks, s.st), acc + Kept(s.value))
  }

  /** `parse_function_expr`: `fn`, the parameter list, then the body block. */
  function ParseFunction(toks: seq<Token>, st: PState): (r: Parsed<A.Expr>)
    requires st.cur < |toks|
    ensures Ok(toks, st, r)
    decreases |toks| - st.cur, 2
  {
    if !Lookahead(toks, st).LParen? then Fail(Expected(toks, st, LParen))
    else
      var a := FunctionArgs(toks, Walk(toks, st));
      match a.value
      case None => Fail(a.st)
      case Some(params) =>
        if !Lookahead(toks, a.st).LBrace? then Fail(Expected(toks, a.st, LBrace))
        else
          var b :- ParseBlock(toks, Walk(toks, a.st));
          Yield(A.Expr.Function(params, b.value), b.st)
  }

  /** `parse_function_args`, the current token being `(`. */
  function FunctionArgs(toks: seq<Token>, st: PState): (r: Step<Option<seq<A.Ident>>>)
    requires st.cur <= |toks|
    ensures Follows(toks, st, r.st)
  {
    if Lookahead(toks, st).RParen? then Step(Some([]), Walk(toks, st))
    else
      var s1 := Walk(toks, st);
      var t := Current(toks, s1);
      if t.Ident? then ArgsLoop(toks, s1, [A.Ident.Ident(t.name)]) else Step(None, s1)
  }

  /** The loop of `parse_function_args`: `, name` pairs, then the closing `)`. */
  function ArgsLoop(toks: seq<Token>, st: PState, acc: seq<A.Ident>): (r: Step<Option<seq<A.Ident>>>)
    requires st.cur <= |toks|
    ensures Follows(toks, st, r.st)
    decreases |toks| - st.cur
  {
    if Lookahead(toks, st).Comma? then
      var s1 := Walk(toks, Walk(toks, st));
      var t := Current(toks, s1);
      if t.Ident? then ArgsLoop(toks, s1, acc + [A.Ident.Ident(t.name)]) else Step(None, s1)
    else if !Lookahead(toks, st).RParen? then Step(None, Expected(toks, st, RParen))
    else Step(Some(acc), Walk(toks, st))
  }

  /** `parse_array_expr`, the current token being `[`. */
  function ParseArray(toks: seq<Token>, st: PState): (r: Parsed<A.Expr>)
    requires st.cur < |toks|
    ensures Ok(toks, st, r)
    decreases |toks| - st.cur, 2
  {
    var l :- ExprList(toks, st, CloseBracket);
    match l.value
    case None => Fail(l.st)
    case Some(elements) => Yield(A.Expr.Literal(A.Literal.Array(elements)), l.st)
  }

  /** The two closers `parse_expr_list` is called with: `)` for call arguments and `]` for arrays. */
  datatype Closer = CloseParen | CloseBracket
  {
    function Token(): Tokens.Token
    {
      if CloseParen? then RParen else RBracket
    }

    /** `t == self.Token()`, by discriminator. */
    predicate ClosedBy(t: Tokens.Token)
    {
      if CloseParen? then t.RParen? else t.RBracket?
    }
  }

  /**
   * `parse_expr_list`: `[]` when the lookahead is already the closer `end`,
   * otherwise comma-separated expressions followed by `end`.
   */
  function ExprList(toks: seq<Token>, st: PState, end: Closer): (r: Parsed<seq<A.Expr>>)
    requires st.cur < |toks|
    ensures Ok(toks, st, r)
    ensures end.ClosedBy(Lookahead(toks, st)) ==> r == Yield([], Walk(toks, st))
    ensures r.Done? && r.value.value.Some? ==> end.ClosedBy(Current(toks, r.value.st))
    decreases |toks| - st.cur, 1
  {
    if end.ClosedBy(Lookahead(toks, st)) then Yield([], Walk(toks, st))
    else
      var e :- ParseExpr(toks, Walk(toks, st), A.Precedence.Lowest);
      match e.value
      case None => Fail(e.st)
      case Some(x) => ListLoop(toks, e.st, end, [x])
  }

  /**
   * The loop of `parse_expr_list`. A comma followed by the end of input records
   * that an identifier was wanted; a missing closer records that `end` was wanted.
   */
  function ListLoop(toks: seq<Token>, st: PState, end: Closer, acc: seq<A.Expr>): (r: Parsed<seq<A.Expr>>)
    requires st.cur <= |toks|
    ensures Ok(toks, st, r)
    ensures r.Done? && r.value.value.Some? ==> end.ClosedBy(Current(toks, r.value.st)) && acc <= r.value.value.value
    ensures !Lookahead(toks, st).Comma? && !end.ClosedBy(Lookahead(toks, st)) ==>
      r == Fail(Expected(toks, st, end.Token()))
    decreases |toks| - st.cur, 1
  {
    if Lookahead(toks, st).Comma? then
      var s1 := Walk(toks, Walk(toks, st));
      if Current(toks, s1).Eof? then Fail(Expected(toks, s1, Ident("ident")))
      else
        var e :- ParseExpr(toks, s1, A.Precedence.Lowest);
        match e.value
        case None => Fail(e.st)
        case Some(x) => ListLoop(toks, e.st, end, acc + [x])
    else if !end.ClosedBy(Lookahead(toks, st)) then Fail(Expected(toks, st, end.Token()))
    else Yield(acc, Walk(toks, st))
  }

  /**
   * `parse_hash_expr`, the current token being `{`. The source checks once
   * more for `}` after its loop, but the loop only ends with `}` as the
   * lookahead, so that check always passes and is not written here.
   */
  function ParseHash(toks: seq<Token>, st: PState): (r: Parsed<A.Expr>)
    requires st.cur < |toks|
    ensures Ok(toks, st, r)
    decreases |toks| - st.cur, 2
  {
    var h :- HashLoop(toks, st, []);
    match h.value
    case None => Fail(h.st)
    case Some(pairs) => Yield(A.Expr.Literal(A.Literal.Hash(pairs)), Walk(toks, h.st))
  }

  /** The loop of `parse_hash_expr`: `key: value` pairs separated by commas, up to a lookahead `}`. */
  function HashLoop(toks: seq<Token>, st: PState, acc: seq<A.Pair>): (r: Parsed<seq<A.Pair>>)
    requires st.cur < |toks|
    ensures Ok(toks, st, r)
    ensures r.Done? && r.value.value.Some? ==> Lookahead(toks, r.value.st).RBrace?
    decreases |toks| - st.cur, 1
  {
    if Lookahead(toks, st).RBrace? then Yield(acc, st)
    else
      var p :- HashPair(toks, st);
      match p.value
      case None => Fail(p.st)
      case Some(pair) =>
        if Lookahead(toks, p.st).RBrace? then HashLoop(toks, p.st, acc + [pair])
        else if !Lookahead(toks, p.st).Comma? then Fail(Expected(toks, p.st, Comma))
        else HashLoop(toks, Walk(toks, p.st), acc + [pair])
  }

  /** One `key: value` pair of `parse_hash_expr`, starting one token before the key. */
  function HashPair(toks: seq<Token>, st: PState): (r: Parsed<A.Pair>)
    requires st.cur < |toks|
    ensures Ok(toks, st, r)
    ensures r.Done? ==> st.cur < r.value.st.cur
    decreases |toks| - st.cur, 0
  {
    var k :- ParseExpr(toks, Walk(toks, st), A.Precedence.Lowest);
    match k.value
    case None => Fail(k.st)
    case Some(key) =>
      if !Lookahead(toks, k.st).Colon? then Fail(Expected(toks, k.st, Colon))
      else
        var v :- ParseExpr(toks, Walk(toks, Walk(toks, k.st)), A.Precedence.Lowest);
        match v.value
        case None => Fail(v.st)
        case Some(value) => Yield(A.Pair.Pair(key, value), v.st)
  }

  // ---------------------------------------------------------------------------
  // One round of each loop, unfolded, for the proofs of the imperative parser.
  // ---------------------------------------------------------------------------

  /** One round of the Pratt loop, on a lookahead that binds tighter than `prec`. */
  lemma ExprLoopRound(toks: seq<Token>, st: PState, prec: A.Precedence, left: Option<A.Expr>)
    requires st.cur <= |toks| && !Lookahead(toks, st).Semicolon? && A.Below(prec, TokenPrecedence(Lookahead(toks, st)))
    ensures Walk(toks, st).cur < |toks|
    ensures ExprLoop(toks, st, prec, left) ==
      var n := ParseSuffix(toks, Walk(toks, st), left);
      if n.Panic? then Panic(n.reason) else ExprLoop(toks, n.value.st, prec, n.value.value)
  {
  }

  /** One round of the loop of `parse_expr_list`, on a lookahead comma. */
  lemma ListLoopRound(toks: seq<Token>, st: PState, end: Closer, acc: seq<A.Expr>)
    requires st.cur <= |toks| && Lookahead(toks, st).Comma?
    ensures ListLoop(toks, st, end, acc) ==
      var s1 := Walk(toks, Walk(toks, st));
      if Current(toks, s1).Eof? then Fail(Expected(toks, s1, Ident("ident")))
      else
        var e := ParseExpr(toks, s1, A.Precedence.Lowest);
        if e.Panic? then Panic(e.reason)
        else if e.value.value.None? then Fail(e.value.st)
        else ListLoop(toks, e.value.st, end, acc + [e.value.value.value])
  {
  }

  /** One round of the loop of `parse_hash_expr`, the lookahead not being `}`. */
  lemma HashLoopRound(toks: seq<Token>, st: PState, acc: seq<A.Pair>)
    requires st.cur < |toks| && !Lookahead(toks, st).RBrace?
    ensures HashLoop(toks, st, acc) ==
      var p := HashPair(toks, st);
      if p.Panic? then Panic(p.reason)
      else if p.value.value.None? then Fail(p.value.st)
      else if Lookahead(toks, p.value.st).RBrace? then HashLoop(toks, p.value.st, acc + [p.value.value.value])
      else if !Lookahead(toks, p.value.st).Comma? then Fail(Expected(toks, p.value.st, Comma))
      else HashLoop(toks, Walk(toks, p.value.st), acc + [p.value.value.value])
  {
  }
}
