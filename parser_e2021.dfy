/**
 * The `three_body_e2021` parser as the source writes it: an object holding the
 * current token, the next token and the error list, whose `parse_*` methods
 * walk the token stream and push errors in place.
 *
 * The lexer the parser owns is represented by the token sequence it would
 * hand out and a count `pulled` of the tokens handed out so far; past the end
 * of the sequence it hands out `Eof`. Every method is proved to leave the
 * parser in the state, and to return the value, that the function of the same
 * production in `Parsing` gives.
 */
module E2021Parser {
  import opened Wrappers
  import opened Tokens
  import A = Ast
  import opened Parsing

  class Parser {
    const toks: seq<Token>
    var cur: nat
    var currentToken: Token
    var nextToken: Token
    var errors: seq<ParseError>

    /** The two token fields hold the tokens at `cur` and `cur + 1`. */
    ghost predicate Valid()
      reads this
    {
      cur <= |toks| && currentToken == TokAt(toks, cur) && nextToken == TokAt(toks, cur + 1)
    }

    /** The parser as a `Parsing.PState`. */
    ghost function State(): PState
      reads this
    {
      PState(cur, errors)
    }

    /** `Parser::new`, whose two walks leave the first two tokens in the token fields. */
    constructor (tokens: seq<Token>)
      ensures toks == tokens && Valid() && State() == PState(0, [])
    {
      toks := tokens;
      cur := 0;
      currentToken := TokAt(tokens, 0);
      nextToken := TokAt(tokens, 1);
      errors := [];
    }

    /**
     * `walk_token`: the next token becomes current and the lexer supplies a
     * new next token. Once the current token is the end of the stream,
     * `cur` stays there.
     */
    method WalkToken()
      requires Valid()
      modifies this
      ensures Valid() && State() == Walk(toks, old(State()))
    {
      currentToken := nextToken;
      nextToken := TokAt(toks, cur + 2);
      if cur < |toks| {
        cur := cur + 1;
      }
    }

    /** The optional `;` that ends a statement, consumed when it is the next token. */
    method SkipSemicolonToken()
      requires Valid()
      modifies this
      ensures Valid() && State() == SkipSemicolon(toks, old(State()))
    {
      if nextToken.Semicolon? {
        WalkToken();
      }
    }

    /** `error_next_token`. */
    method ErrorNextToken(want: Token)
      requires Valid()
      modifies this
      ensures Valid() && State() == Expected(toks, old(State()), want)
    {
      errors := errors + [UnexpectedToken(Some(want), nextToken)];
    }

    /** `error_no_prefix_parser`. */
    method ErrorNoPrefixParser()
      requires Valid()
      modifies this
      ensures Valid() && State() == NoPrefix(toks, old(State()))
    {
      errors := errors + [UnexpectedToken(None, nextToken)];
    }

    /** `parse`: statements until the current token is `Eof`. */
    method Parse() returns (r: Outcome<A.Program>)
      requires Valid()
      modifies this
      ensures Valid() && Lift(r, State()) == ProgramLoop(toks, old(State()), [])
    {
      var program: A.Program := [];
      while !currentToken.Eof?
        invariant Valid()
        invariant ProgramLoop(toks, State(), program) == ProgramLoop(toks, old(State()), [])
        decreases |toks| - State().cur
      {
        ghost var st0, acc := State(), program;
        var stmt :- ParseStmt();
        assert Parsing.ParseStmt(toks, st0) == Done(Step(stmt, State()));
        assert ProgramLoop(toks, st0, acc) == ProgramLoop(toks, Walk(toks, State()), acc + Kept(stmt));
        if stmt.Some? {
          program := program + [stmt.value];
        } else {
          assert acc + Kept(stmt) == acc;
        }
        WalkToken();
      }
      r := Done(program);
    }

    /** `parse_stmt`. */
    method ParseStmt() returns (r: Outcome<Option<A.Stmt>>)
      requires Valid() && State().cur < |toks|
      modifies this
      ensures Valid() && Lift(r, State()) == Parsing.ParseStmt(toks, old(State()))
      decreases |toks| - State().cur, 6
    {
      if currentToken.Let? {
        r := ParseDeclaration(false);
      } else if currentToken.Const? {
        r := ParseDeclaration(true);
      } else if currentToken.Return? {
        r := ParseReturnStmt();
      } else if currentToken.Ident? && nextToken.Assign? {
        r := ParseReassignStmt();
      } else if currentToken.Break? {
        var stmt := ParseLoopControl(A.Stmt.Break);
        r := Done(stmt);
      } else if currentToken.Continue? {
        var stmt := ParseLoopControl(A.Stmt.Continue);
        r := Done(stmt);
      } else if currentToken.Blank? {
        r := Done(Some(A.Stmt.Blank));
      } else {
        r := ParseExprStmt();
      }
    }

    /** `parse_let_stmt` (`constant` false) and `parse_const_stmt` (`constant` true). */
    method ParseDeclaration(constant: bool) returns (r: Outcome<Option<A.Stmt>>)
      requires Valid() && State().cur < |toks|
      modifies this
      ensures Valid() && Lift(r, State()) == Parsing.ParseDeclaration(toks, old(State()), constant)
      decreases |toks| - State().cur, 5
    {
      r := Done(None);
      if nextToken.Ident? {
        WalkToken();
        var name := A.Ident.Ident(currentToken.name);
        if nextToken.Assign? {
          WalkToken();
          WalkToken();
          var expr :- ParseExpr(A.Precedence.Lowest);
          if expr.Some? {
            SkipSemicolonToken();
            r := Done(Some(if constant then A.Stmt.Const(name, expr.value) else A.Stmt.Let(name, expr.value)));
          }
        } else {
          ErrorNextToken(Assign);
        }
      }
    }

    /** `parse_reassign_stmt`, which `parse_stmt` calls only on an identifier. */
    method ParseReassignStmt() returns (r: Outcome<Option<A.Stmt>>)
      requires Valid() && currentToken.Ident?
      modifies this
      ensures Valid() && Lift(r, State()) == ParseReassign(toks, old(State()), old(currentToken).name)
      decreases |toks| - State().cur, 5
    {
      r := Done(None);
      var name := A.Ident.Ident(currentToken.name);
      if nextToken.Assign? {
        WalkToken();
        WalkToken();
        var expr :- ParseExpr(A.Precedence.Lowest);
        if expr.Some? {
          SkipSemicolonToken();
          r := Done(Some(A.Stmt.ReAssign(name, expr.value)));
        }
      } else {
        ErrorNextToken(Assign);
      }
    }

    /** `parse_return_stmt`. */
    method ParseReturnStmt() returns (r: Outcome<Option<A.Stmt>>)
      requires Valid() && State().cur < |toks|
      modifies this
      ensures Valid() && Lift(r, State()) == ParseReturn(toks, old(State()))
      decreases |toks| - State().cur, 5
    {
      WalkToken();
      var expr :- ParseExpr(A.Precedence.Lowest);
      r := Done(None);
      if expr.Some? {
        SkipSemicolonToken();
        r := Done(Some(A.Stmt.Return(expr.value)));
      }
    }

    /** `parse_break_stmt` (`stmt` is `Break`) and `parse_continue_stmt` (`stmt` is `Continue`). */
    method ParseLoopControl(stmt: A.Stmt) returns (r: Option<A.Stmt>)
      requires Valid()
      modifies this
      ensures Valid() && Step(r, State()) == Parsing.ParseLoopControl(toks, old(State()), stmt)
    {
      WalkToken();
      SkipSemicolonToken();
      r := Some(stmt);
    }

    /** `parse_expr_stmt`. */
    method ParseExprStmt() returns (r: Outcome<Option<A.Stmt>>)
      requires Valid()
      modifies this
      ensures Valid() && Lift(r, State()) == Parsing.ParseExprStmt(toks, old(State()))
      decreases |toks| - State().cur, 5
    {
      var expr :- ParseExpr(A.Precedence.Lowest);
      r := Done(None);
      if expr.Some? {
        SkipSemicolonToken();
        r := Done(Some(A.Stmt.Expr(expr.value)));
      }
    }

    /** `parse_expr`: the prefix parser of the current token, then the Pratt loop. */
    method ParseExpr(prec: A.Precedence) returns (r: Outcome<Option<A.Expr>>)
      requires Valid()
      modifies this
      ensures Valid() && Lift(r, State()) == Parsing.ParseExpr(toks, old(State()), prec)
      decreases |toks| - State().cur, 4
    {
      r := ParseOperand();
      if r.Done? {
        r := PrattLoop(prec, r.value);
      }
    }

    /**
     * The `while` loop of `parse_expr`: while the next token is not `;` and
     * binds tighter than `prec`, walk onto it and fold it into `left`.
     */
    method PrattLoop(prec: A.Precedence, left: Option<A.Expr>) returns (r: Outcome<Option<A.Expr>>)
      requires Valid()
      modifies this
      ensures Valid() && Lift(r, State()) == ExprLoop(toks, old(State()), prec, left)
      decreases |toks| - State().cur, 2
    {
      ghost var target := ExprLoop(toks, State(), prec, left);
      r := Done(left);
      while r.Done? && !nextToken.Semicolon? && A.Below(prec, TokenPrecedence(nextToken))
        invariant Valid() && (r.Done? ==> old(State()).cur <= State().cur)
        invariant r.Done? ==> ExprLoop(toks, State(), prec, r.value) == target
        invariant r.Panic? ==> Lift(r, State()) == target
        decreases if r.Done? then |toks| - State().cur + 1 else 0
      {
        r := PrattRound(prec, r.value);
      }
    }

    /** One round of the loop of `parse_expr`, on a lookahead that binds tighter than `prec`. */
    method PrattRound(prec: A.Precedence, left: Option<A.Expr>) returns (r: Outcome<Option<A.Expr>>)
      requires Valid() && !nextToken.Semicolon? && A.Below(prec, TokenPrecedence(nextToken))
      modifies this
      ensures Valid()
      ensures r.Done? ==> old(State()).cur < State().cur
      ensures r.Done? ==> ExprLoop(toks, State(), prec, r.value) == ExprLoop(toks, old(State()), prec, left)
      ensures r.Panic? ==> Lift(r, State()) == ExprLoop(toks, old(State()), prec, left)
      decreases |toks| - State().cur, 1
    {
      ExprLoopRound(toks, State(), prec, left);
      WalkToken();
      r := ParseSuffix(left);
    }

    /**
     * The `match` inside the loop of `parse_expr`, the current token being the
     * one that binds tighter; every arm unwraps the left operand.
     */
    method ParseSuffix(left: Option<A.Expr>) returns (r: Outcome<Option<A.Expr>>)
      requires Valid() && State().cur < |toks|
      modifies this
      ensures Valid() && Lift(r, State()) == Parsing.ParseSuffix(toks, old(State()), left)
      decreases |toks| - State().cur, 3
    {
      if left.None? {
        r := Panic(UnwrapNone);
      // Only the infix operators, `[`, `.` and `(` have a precedence above `Lowest`.
      } else if currentToken.LBracket? {
        r := ParseIndexExpr(left.value);
      } else if currentToken.Dot? {
        var e := ParseDotIndexExpr(left.value);
        r := Done(e);
      } else if currentToken.LParen? {
        r := ParseCallExpr(left.value);
      } else {
        r := ParseInfixExpr(left.value);
      }
    }

    /** The `match` that opens `parse_expr`, dispatching on the current token. */
    method ParseOperand() returns (r: Outcome<Option<A.Expr>>)
      requires Valid()
      modifies this
      ensures Valid() && Lift(r, State()) == Parsing.ParseOperand(toks, old(State()))
      decreases |toks| - State().cur, 3
    {
      var t := currentToken;
      if t.Ident? {
        r := Done(Some(A.Expr.Ident(A.Ident.Ident(t.name))));
      } else if t.Int? {
        r := Done(Some(A.Expr.Literal(A.Literal.Int(t.value))));
      } else if t.String? {
        r := Done(Some(A.Expr.Literal(A.Literal.String(t.text))));
      } else if t.Bool? {
        r := Done(Some(A.Expr.Literal(A.Literal.Bool(t.flag))));
      } else if t.LBracket? {
        r := ParseArrayExpr();
      } else if t.LBrace? {
        r := ParseHashExpr();
      } else if t.LParen? {
        r := ParseGroupedExpr();
      } else if t.Bang? {
        r := ParsePrefixExpr(A.Prefix.Not);
      } else if t.Minus? {
        r := ParsePrefixExpr(A.Prefix.Minus);
      } else if t.Plus? {
        r := ParsePrefixExpr(A.Prefix.Plus);
      } else if t.If? {
        r := ParseIfExpr();
      } else if t.While? {
        r := ParseWhileExpr();
      } else if t.Function? {
        r := ParseFunctionExpr();
      } else {
        ErrorNoPrefixParser();
        r := Done(None);
      }
    }

    /** `parse_infix_expr`, the current token being the operator. */
    method ParseInfixExpr(left: A.Expr) returns (r: Outcome<Option<A.Expr>>)
      requires Valid() && State().cur < |toks|
      modifies this
      ensures Valid() && Lift(r, State()) == ParseInfix(toks, old(State()), left)
      decreases |toks| - State().cur, 2
    {
      r := Done(None);
      var infix := InfixOf(currentToken);
      if infix.Some? {
        var precedence := TokenPrecedence(currentToken);
        WalkToken();
        var right :- ParseExpr(precedence);
        if right.Some? {
          r := Done(Some(A.Expr.Infix(infix.value, left, right.value)));
        }
      }
    }

    /** `parse_index_expr`, the current token being `[`. */
    method ParseIndexExpr(left: A.Expr) returns (r: Outcome<Option<A.Expr>>)
      requires Valid() && State().cur < |toks|
      modifies this
      ensures Valid() && Lift(r, State()) == ParseIndex(toks, old(State()), left)
      decreases |toks| - State().cur, 2
    {
      WalkToken();
      var index :- ParseExpr(A.Precedence.Lowest);
      r := Done(None);
      if index.Some? {
        if nextToken.RBracket? {
          WalkToken();
          r := Done(Some(A.Expr.Index(left, index.value)));
        } else {
          ErrorNextToken(RBracket);
        }
      }
    }

    /** `parse_dot_index_expr`, the current token being `.`. */
    method ParseDotIndexExpr(left: A.Expr) returns (r: Option<A.Expr>)
      requires Valid()
      modifies this
      ensures Valid() && Step(r, State()) == ParseDotIndex(toks, old(State()), left)
    {
      WalkToken();
      if currentToken.Ident? {
        r := Some(A.Expr.Index(left, A.Expr.Literal(A.Literal.String(currentToken.name))));
      } else {
        r := None;
      }
    }

    /** `parse_call_expr`, the current token being `(`. */
    method ParseCallExpr(func: A.Expr) returns (r: Outcome<Option<A.Expr>>)
      requires Valid() && State().cur < |toks|
      modifies this
      ensures Valid() && Lift(r, State()) == ParseCall(toks, old(State()), func)
      decreases |toks| - State().cur, 2
    {
      var args :- ParseExprList(CloseParen);
      r := Done(None);
      if args.Some? {
        r := Done(Some(A.Expr.Call(func, args.value)));
      }
    }

    /** `parse_grouped_expr`, the current token being `(`. */
    method ParseGroupedExpr() returns (r: Outcome<Option<A.Expr>>)
      requires Valid() && State().cur < |toks|
      modifies this
      ensures Valid() && Lift(r, State()) == ParseGrouped(toks, old(State()))
      decreases |toks| - State().cur, 2
    {
      WalkToken();
      var expr :- ParseExpr(A.Precedence.Lowest);
      r := Done(None);
      if nextToken.RParen? {
        WalkToken();
        r := Done(expr);
      } else {
        ErrorNextToken(RParen);
      }
    }

    /** `parse_prefix_expr`; `op` is the operator its first `match` picks from the current token. */
    method ParsePrefixExpr(op: A.Prefix) returns (r: Outcome<Option<A.Expr>>)
      requires Valid() && State().cur < |toks|
      modifies this
      ensures Valid() && Lift(r, State()) == ParsePrefix(toks, old(State()), op)
      decreases |toks| - State().cur, 2
    {
      WalkToken();
      var expr :- ParseExpr(A.Precedence.Prefix);
      r := Done(None);
      if expr.Some? {
        r := Done(Some(A.Expr.Prefix(op, expr.value)));
      }
    }

    /**
     * The `(cond) {` head that `parse_if_expr` and `parse_while_expr` both
     * begin with, leaving the parser on the `{`.
     */
    method ParseCondition() returns (r: Outcome<Option<A.Expr>>)
      requires Valid() && State().cur < |toks|
      modifies this
      ensures Valid() && Lift(r, State()) == Parsing.ParseCondition(toks, old(State()))
      decreases |toks| - State().cur, 1
    {
      r := Done(None);
      if !nextToken.LParen? {
        ErrorNextToken(LParen);
      } else {
        WalkToken();
        WalkToken();
        var cond :- ParseExpr(A.Precedence.Lowest);
        if cond.Some? {
          var e := CloseCondition(cond.value);
          r := Done(e);
        }
      }
    }

    /** The `) {` after a condition, inside `parse_if_expr` and `parse_while_expr`. */
    method CloseCondition(cond: A.Expr) returns (r: Option<A.Expr>)
      requires Valid()
      modifies this
      ensures Valid() && Done(Step(r, State())) == ConditionTail(toks, old(State()), cond)
    {
      r := None;
      if !nextToken.RParen? {
        ErrorNextToken(RParen);
      } else {
        WalkToken();
        if !nextToken.LBrace? {
          ErrorNextToken(LBrace);
        } else {
          WalkToken();
          r := Some(cond);
        }
      }
    }

    /** `parse_if_expr`, the current token being `if`. */
    method ParseIfExpr() returns (r: Outcome<Option<A.Expr>>)
      requires Valid() && State().cur < |toks|
      modifies this
      ensures Valid() && Lift(r, State()) == ParseIf(toks, old(State()))
      decreases |toks| - State().cur, 2
    {
      var cond :- ParseCondition();
      r := Done(None);
      if cond.Some? {
        var consequence :- ParseBlockStmt();
        r := ParseElse(cond.value, consequence);
      }
    }

    /** The optional `else` block of `parse_if_expr`, after the consequence. */
    method ParseElse(cond: A.Expr, consequence: A.BlockStmt) returns (r: Outcome<Option<A.Expr>>)
      requires Valid()
      modifies this
      ensures Valid() && Lift(r, State()) == ElseTail(toks, old(State()), cond, consequence)
      decreases |toks| - State().cur, 1
    {
      r := Done(None);
      if nextToken.Else? {
        WalkToken();
        if nextToken.LBrace? {
          WalkToken();
          var alternative :- ParseBlockStmt();
          r := Done(Some(A.Expr.If(cond, consequence, A.Else.Else(alternative))));
        } else {
          ErrorNextToken(LBrace);
        }
      } else {
        r := Done(Some(A.Expr.If(cond, consequence, A.Else.NoElse)));
      }
    }

    /** `parse_while_expr`, the current token being `while`. */
    method ParseWhileExpr() returns (r: Outcome<Option<A.Expr>>)
      requires Valid() && State().cur < |toks|
      modifies this
      ensures Valid() && Lift(r, State()) == ParseWhile(toks, old(State()))
      decreases |toks| - State().cur, 2
    {
      var cond :- ParseCondition();
      r := Done(None);
      if cond.Some? {
        var consequence :- ParseBlockStmt();
        r := Done(Some(A.Expr.While(cond.value, consequence)));
      }
    }

    /** `parse_block_stmt`, the current token being `{`. */
    method ParseBlockStmt() returns (r: Outcome<A.BlockStmt>)
      requires Valid() && State().cur < |toks|
      modifies this
      ensures Valid() && Lift(r, State()) == ParseBlock(toks, old(State()))
      decreases |toks| - State().cur, 1
    {
      WalkToken();
      var block: A.BlockStmt := [];
      // The source tests for `}` first and returns at `Eof` from inside the loop.
      while !currentToken.RBrace? && !currentToken.Eof?
        invariant Valid() && old(State()).cur < State().cur
        invariant BlockLoop(toks, State(), block) == ParseBlock(toks, old(State()))
        decreases |toks| - State().cur
      {
        ghost var st0, acc := State(), block;
        var stmt :- ParseStmt();
        assert Parsing.ParseStmt(toks, st0) == Done(Step(stmt, State()));
        assert BlockLoop(toks, st0, acc) == BlockLoop(toks, Walk(toks, State()), acc + Kept(stmt));
        if stmt.Some? {
          block := block + [stmt.value];
        } else {
          assert acc + Kept(stmt) == acc;
        }
        WalkToken();
      }
      if currentToken.Eof? {
        ErrorNextToken(RBrace);
      }
      r := Done(block);
    }

    /** `parse_function_expr`, the current token being `fn`. */
    method ParseFunctionExpr() returns (r: Outcome<Option<A.Expr>>)
      requires Valid() && State().cur < |toks|
      modifies this
      ensures Valid() && Lift(r, State()) == ParseFunction(toks, old(State()))
      decreases |toks| - State().cur, 2
    {
      r := Done(None);
      if !nextToken.LParen? {
        ErrorNextToken(LParen);
      } else {
        WalkToken();
        var params := ParseFunctionArgs();
        if params.Some? {
          if !nextToken.LBrace? {
            ErrorNextToken(LBrace);
          } else {
            WalkToken();
            var body :- ParseBlockStmt();
            r := Done(Some(A.Expr.Function(params.value, body)));
          }
        }
      }
    }

    /** `parse_function_args`, the current token being `(`. */
    method ParseFunctionArgs() returns (r: Option<seq<A.Ident>>)
      requires Valid()
      modifies this
      ensures Valid() && Step(r, State()) == FunctionArgs(toks, old(State()))
    {
      r := None;
      if nextToken.RParen? {
        WalkToken();
        r := Some([]);
      } else {
        WalkToken();
        if currentToken.Ident? {
          var args := [A.Ident.Ident(currentToken.name)];
          var failed := false;
          while !failed && nextToken.Comma?
            invariant Valid()
            invariant !failed ==> ArgsLoop(toks, State(), args) == FunctionArgs(toks, old(State()))
            invariant failed ==> Step(None, State()) == FunctionArgs(toks, old(State()))
            decreases |toks| - State().cur
          {
            WalkToken();
            WalkToken();
            if currentToken.Ident? {
              args := args + [A.Ident.Ident(currentToken.name)];
            } else {
              failed := true;
            }
          }
          if !failed {
            if nextToken.RParen? {
              WalkToken();
              r := Some(args);
            } else {
              ErrorNextToken(RParen);
            }
          }
        }
      }
    }

    /** `parse_array_expr`, the current token being `[`. */
    method ParseArrayExpr() returns (r: Outcome<Option<A.Expr>>)
      requires Valid() && State().cur < |toks|
      modifies this
      ensures Valid() && Lift(r, State()) == ParseArray(toks, old(State()))
      decreases |toks| - State().cur, 2
    {
      var list :- ParseExprList(CloseBracket);
      if list.None? {
        return Done(None);
      }
      r := Done(Some(A.Expr.Literal(A.Literal.Array(list.value))));
    }

    /** `parse_expr_list`, up to the closer `end`. */
    method ParseExprList(end: Closer) returns (r: Outcome<Option<seq<A.Expr>>>)
      requires Valid() && State().cur < |toks|
      modifies this
      ensures Valid() && Lift(r, State()) == ExprList(toks, old(State()), end)
      decreases |toks| - State().cur, 1
    {
      r := Done(None);
      if end.ClosedBy(nextToken) {
        WalkToken();
        r := Done(Some([]));
      } else {
        WalkToken();
        var first :- ParseExpr(A.Precedence.Lowest);
        if first.Some? {
          r := ExprListLoop(end, [first.value]);
        }
      }
    }

    /**
     * The loop of `parse_expr_list` after the first expression, and the check
     * for the closer that follows it.
     */
    method ExprListLoop(end: Closer, first: seq<A.Expr>) returns (r: Outcome<Option<seq<A.Expr>>>)
      requires Valid()
      modifies this
      ensures Valid() && Lift(r, State()) == ListLoop(toks, old(State()), end, first)
      decreases |toks| - State().cur, 0
    {
      r := Done(None);
      var list := first;
      var failed := false;
      while !failed && nextToken.Comma?
        invariant Valid() && old(State()).cur <= State().cur
        invariant !failed ==> ListLoop(toks, State(), end, list) == ListLoop(toks, old(State()), end, first)
        invariant failed ==> Fail(State()) == ListLoop(toks, old(State()), end, first)
        decreases |toks| - State().cur
      {
        ListLoopRound(toks, State(), end, list);
        WalkToken();
        WalkToken();
        if currentToken.Eof? {
          ErrorNextToken(Ident("ident"));
          failed := true;
        } else {
          var expr :- ParseExpr(A.Precedence.Lowest);
          if expr.Some? {
            list := list + [expr.value];
          } else {
            failed := true;
          }
        }
      }
      if !failed {
        r := CloseList(end, list);
      }
    }

    /** The closer that must follow the last expression of a list. */
    method CloseList(end: Closer, list: seq<A.Expr>) returns (r: Outcome<Option<seq<A.Expr>>>)
      requires Valid() && !nextToken.Comma?
      modifies this
      ensures Valid() && Lift(r, State()) == ListLoop(toks, old(State()), end, list)
    {
      if end.ClosedBy(nextToken) {
        WalkToken();
        r := Done(Some(list));
      } else {
        ErrorNextToken(end.Token());
        r := Done(None);
      }
    }

    /**
     * `parse_hash_expr`, the current token being `{`. The loop only ends with
     * `}` as the next token, so the source's check for it after the loop
     * always passes and is not written here.
     */
    method ParseHashExpr() returns (r: Outcome<Option<A.Expr>>)
      requires Valid() && State().cur < |toks|
      modifies this
      ensures Valid() && Lift(r, State()) == ParseHash(toks, old(State()))
      decreases |toks| - State().cur, 2
    {
      var pairs :- HashEntries();
      r := Done(None);
      if pairs.Some? {
        WalkToken();
        r := Done(Some(A.Expr.Literal(A.Literal.Hash(pairs.value))));
      }
    }

    /** The loop of `parse_hash_expr`: `key: value` pairs separated by commas, up to a next token `}`. */
    method HashEntries() returns (r: Outcome<Option<seq<A.Pair>>>)
      requires Valid() && State().cur < |toks|
      modifies this
      ensures Valid() && Lift(r, State()) == HashLoop(toks, old(State()), [])
      decreases |toks| - State().cur, 1
    {
      var pairs: seq<A.Pair> := [];
      var failed := false;
      while !failed && !nextToken.RBrace?
        invariant Valid() && old(State()).cur <= State().cur
        invariant !failed ==> State().cur < |toks|
        invariant !failed ==> HashLoop(toks, State(), pairs) == HashLoop(toks, old(State()), [])
        invariant failed ==> Fail(State()) == HashLoop(toks, old(State()), [])
        decreases |toks| - State().cur
      {
        HashLoopRound(toks, State(), pairs);
        var pair :- ParseHashPair();
        if pair.None? {
          failed := true;
        } else {
          pairs := pairs + [pair.value];
          failed := HashSeparator();
        }
      }
      r := if failed then Done(None) else Done(Some(pairs));
    }

    /** What may follow a pair in `parse_hash_expr`: the closing `}`, left for the caller, or a comma. */
    method HashSeparator() returns (failed: bool)
      requires Valid()
      modifies this
      ensures Valid()
      ensures failed <==> !Lookahead(toks, old(State())).RBrace? && !Lookahead(toks, old(State())).Comma?
      ensures State() ==
        if Lookahead(toks, old(State())).RBrace? then old(State())
        else if Lookahead(toks, old(State())).Comma? then Walk(toks, old(State()))
        else Expected(toks, old(State()), Comma)
    {
      failed := false;
      if !nextToken.RBrace? {
        if nextToken.Comma? {
          WalkToken();
        } else {
          ErrorNextToken(Comma);
          failed := true;
        }
      }
    }

    /** One `key: value` pair inside the loop of `parse_hash_expr`. */
    method ParseHashPair() returns (r: Outcome<Option<A.Pair>>)
      requires Valid() && State().cur < |toks|
      modifies this
      ensures Valid() && Lift(r, State()) == HashPair(toks, old(State()))
      decreases |toks| - State().cur, 0
    {
      r := Done(None);
      WalkToken();
      var key :- ParseExpr(A.Precedence.Lowest);
      if key.Some? {
        if !nextToken.Colon? {
          ErrorNextToken(Colon);
        } else {
          WalkToken();
          WalkToken();
          var value :- ParseExpr(A.Precedence.Lowest);
          if value.Some? {
            r := Done(Some(A.Pair.Pair(key.value, value.value)));
          }
        }
      }
    }
  }
}
