/**
 * Programs from the evaluator's own test suite, written as syntax trees and
 * evaluated by the model in a root frame with no bindings.
 */
module EvaluationExamples {
  import opened Wrappers
  import opened I64
  import A = Ast
  import opened Objects
  import opened Environment
  import opened Evaluation
  import P = EvaluationProps

  function Num(n: int64): A.Expr { A.Expr.Literal(A.Literal.Int(n)) }

  function Var(n: string): A.Expr { A.Expr.Ident(A.Ident.Ident(n)) }

  function Name(n: string): A.Ident { A.Ident.Ident(n) }

  const Root: Store := [Frame(EmptyScope, None)]

  /** `let a = 5; a;` gives 5. */
  lemma LetThenRead(ctx: Ctx)
    ensures Eval(ctx, Root, 0, [A.Let(Name("a"), Num(5)), A.Stmt.Expr(Var("a"))], 0) ==
      Done(Res(Some(Int(5)), [Frame(Scope(map["a" := Int(5)], map[]), None)]))
  {
    var p := [A.Let(Name("a"), Num(5)), A.Stmt.Expr(Var("a"))];
    var s1 := [Frame(Scope(map["a" := Int(5)], map[]), None)];
    assert EvalExpr(ctx, Root, 0, Num(5), 0) == Done(Res(Some(Int(5)), Root));
    assert CheckInner(EmptyScope, "a") == Undeclared;
    assert Root[0 := Frame(Set(EmptyScope, "a", Int(5)), None)] == s1;
    assert Declare(Root, 0, "a", Int(5), false) == Res(None, s1);
    assert EvalStmt(ctx, Root, 0, p[0], 0) == Done(Res(None, s1));
    assert StoreGet(s1, 0, "a") == Some(Int(5));
    assert EvalStmt(ctx, s1, 0, p[1], 0) == Done(Res(Some(Int(5)), s1));
    assert ProgramFrom(ctx, s1, 0, p, 1, None, 0) == Done(Res(Some(Int(5)), s1));
  }

  /** `9; return 2 * 5; 9;` gives 10: the return ends the program. */
  lemma ReturnEndsProgram(ctx: Ctx)
    ensures Eval(ctx, Root, 0, [A.Stmt.Expr(Num(9)),
                                A.Return(A.Infix(A.Infix.Multiply, Num(2), Num(5))),
                                A.Stmt.Expr(Num(9))], 0) == Done(Res(Some(Int(10)), Root))
  {
    var p := [A.Stmt.Expr(Num(9)), A.Return(A.Infix(A.Infix.Multiply, Num(2), Num(5))), A.Stmt.Expr(Num(9))];
    assert EvalStmt(ctx, Root, 0, p[0], 0) == Done(Res(Some(Int(9)), Root));
    assert IntInfix(A.Infix.Multiply, 2, 5) == Done(Int(10));
    assert EvalExpr(ctx, Root, 0, A.Infix(A.Infix.Multiply, Num(2), Num(5)), 0) == Done(Res(Some(Int(10)), Root));
    assert EvalStmt(ctx, Root, 0, p[1], 0) == Done(Res(Some(ReturnValue(Int(10))), Root));
    assert ProgramFrom(ctx, Root, 0, p, 1, Some(Int(9)), 0) == Done(Res(Some(Int(10)), Root));
  }

  /** `let a = 5; let a = 1;` is refused: the name is already bound in this frame. */
  lemma LetRedeclared(ctx: Ctx)
    ensures Eval(ctx, Root, 0, [A.Let(Name("a"), Num(5)), A.Let(Name("a"), Num(1))], 0).Done?
    ensures Eval(ctx, Root, 0, [A.Let(Name("a"), Num(5)), A.Let(Name("a"), Num(1))], 0).value.value ==
      Some(Error("Can not redeclare variable a!"))
  {
    var p := [A.Let(Name("a"), Num(5)), A.Let(Name("a"), Num(1))];
    var s1 := [Frame(Scope(map["a" := Int(5)], map[]), None)];
    assert CheckInner(EmptyScope, "a") == Undeclared;
    assert Root[0 := Frame(Set(EmptyScope, "a", Int(5)), None)] == s1;
    assert EvalStmt(ctx, Root, 0, p[0], 0) == Done(Res(None, s1));
    assert CheckInner(s1[0].scope, "a") == VariableExist;
    assert EvalExpr(ctx, s1, 0, Num(1), 0) == Done(Res(Some(Int(1)), s1));
    assert "Can not redeclare variable " + "a" + "!" == "Can not redeclare variable a!";
    assert Declare(s1, 0, "a", Int(1), false) == Res(Some(Error("Can not redeclare variable a!")), s1);
    assert EvalStmt(ctx, s1, 0, p[1], 0) == Done(Res(Some(Error("Can not redeclare variable a!")), s1));
    assert ProgramFrom(ctx, s1, 0, p, 1, None, 0) == Done(Res(Some(Error("Can not redeclare variable a!")), s1));
  }

  /** `const a = 5; a = 3;` is refused, and so is `const a = 5; let a = 3;`. */
  lemma ConstantRefusals(ctx: Ctx)
    ensures Eval(ctx, Root, 0, [A.Const(Name("a"), Num(5)), A.ReAssign(Name("a"), Num(3))], 0) ==
      Done(Res(Some(Error("Can not assign to constant variable a!")),
               [Frame(Scope(map["a" := Int(5)], map["a" := true]), None)]))
    ensures Eval(ctx, Root, 0, [A.Const(Name("a"), Num(5)), A.Let(Name("a"), Num(3))], 0) ==
      Done(Res(Some(Error("Can not redeclare constant variable a!")),
               [Frame(Scope(map["a" := Int(5)], map["a" := true]), None)]))
  {
    var s1 := [Frame(Scope(map["a" := Int(5)], map["a" := true]), None)];
    assert CheckInner(EmptyScope, "a") == Undeclared;
    assert Root[0 := Frame(MarkConstant(Set(EmptyScope, "a", Int(5)), "a"), None)] == s1;
    assert EvalStmt(ctx, Root, 0, A.Const(Name("a"), Num(5)), 0) == Done(Res(None, s1));
    assert EvalExpr(ctx, s1, 0, Num(3), 0) == Done(Res(Some(Int(3)), s1));
    assert IsConstant(s1[0].scope, "a");
    assert StoreUpdate(s1, 0, "a", Int(3)) == (ConstantForbidden, s1);
    assert "Can not assign to constant variable " + "a" + "!" == "Can not assign to constant variable a!";
    assert Reassign(s1, 0, "a", Int(3)) == Res(Some(Error("Can not assign to constant variable a!")), s1);
    assert EvalStmt(ctx, s1, 0, A.ReAssign(Name("a"), Num(3)), 0) ==
      Done(Res(Some(Error("Can not assign to constant variable a!")), s1));
    assert CheckInner(s1[0].scope, "a") == ConstantExist;
    assert "Can not redeclare constant variable " + "a" + "!" == "Can not redeclare constant variable a!";
    assert Declare(s1, 0, "a", Int(3), false) == Res(Some(Error("Can not redeclare constant variable a!")), s1);
    assert EvalStmt(ctx, s1, 0, A.Let(Name("a"), Num(3)), 0) ==
      Done(Res(Some(Error("Can not redeclare constant variable a!")), s1));
  }

  /** `let a = 5; a = 3; a` gives 3. */
  lemma AssignThenRead(ctx: Ctx)
    ensures Eval(ctx, Root, 0, [A.Let(Name("a"), Num(5)), A.ReAssign(Name("a"), Num(3)), A.Stmt.Expr(Var("a"))], 0) ==
      Done(Res(Some(Int(3)), [Frame(Scope(map["a" := Int(3)], map[]), None)]))
  {
    var p := [A.Let(Name("a"), Num(5)), A.ReAssign(Name("a"), Num(3)), A.Stmt.Expr(Var("a"))];
    var s1 := [Frame(Scope(map["a" := Int(5)], map[]), None)];
    var s2 := [Frame(Scope(map["a" := Int(3)], map[]), None)];
    assert CheckInner(EmptyScope, "a") == Undeclared;
    assert Root[0 := Frame(Set(EmptyScope, "a", Int(5)), None)] == s1;
    assert EvalStmt(ctx, Root, 0, p[0], 0) == Done(Res(None, s1));
    assert map["a" := Int(5)]["a" := Int(3)] == map["a" := Int(3)];
    assert Set(s1[0].scope, "a", Int(3)) == s2[0].scope;
    assert s1[0 := Frame(Set(s1[0].scope, "a", Int(3)), None)] == s2;
    assert StoreUpdate(s1, 0, "a", Int(3)) == (Succeed, s2);
    assert EvalStmt(ctx, s1, 0, p[1], 0) == Done(Res(None, s2));
    assert EvalStmt(ctx, s2, 0, p[2], 0) == Done(Res(Some(Int(3)), s2));
    assert ProgramFrom(ctx, s2, 0, p, 2, None, 0) == Done(Res(Some(Int(3)), s2));
  }

  /** `if (false) { 10 }` has no value. */
  lemma IfFalseHasNoValue(ctx: Ctx)
    ensures Eval(ctx, Root, 0, [A.Stmt.Expr(A.If(BoolLit(false),
                                                 [A.Stmt.Expr(Num(10))], A.NoElse))], 0) == Done(Res(None, Root))
  {
    var e := A.If(BoolLit(false), [A.Stmt.Expr(Num(10))], A.NoElse);
    assert EvalExpr(ctx, Root, 0, e.cond, 0) == Done(Res(Some(Bool(false)), Root));
    assert EvalExpr(ctx, Root, 0, e, 0) == Done(Res(None, Root));
  }

  /**
   * `fn(x) { x; }(5)` gives 5. The call takes one unit of fuel and leaves
   * behind the frame it ran in, which binds `x` over the root frame.
   */
  lemma ImmediateCall(ctx: Ctx)
    ensures Eval(ctx, Root, 0, [A.Stmt.Expr(A.Expr.Call(A.Expr.Function([Name("x")], [A.Stmt.Expr(Var("x"))]),
                                                        [Num(5)]))], 1) ==
      Done(Res(Some(Int(5)), Root + [Frame(Scope(map["x" := Int(5)], map[]), Some(0))]))
  {
    var body := [A.Stmt.Expr(Var("x"))];
    var call := A.Expr.Call(A.Expr.Function([Name("x")], body), [Num(5)]);
    var s1 := Root + [Frame(Scope(map["x" := Int(5)], map[]), Some(0))];
    assert EvalExpr(ctx, Root, 0, Num(5), 1) == Done(Res(Some(Int(5)), Root));
    assert [] + [OrNull(Some(Int(5)))] == [Int(5)];
    assert EvalList(ctx, Root, 0, [Num(5)], 1, [Int(5)], 1) == Done(Vals([Int(5)], Root));
    assert EvalList(ctx, Root, 0, [Num(5)], 0, [], 1) == Done(Vals([Int(5)], Root));
    assert EvalExpr(ctx, Root, 0, call.func, 1) == Done(Res(Some(Function([Name("x")], body, 0)), Root));
    assert BindParams(EmptyScope, [Name("x")], [Int(5)], 0) == s1[1].scope;
    P.ClosureResult(ctx, Root, [Name("x")], body, 0, [Int(5)], 1);
    ImmediateCallBody(ctx);
    assert EvalCall(ctx, Root, 0, call, 1) == Done(Res(Some(Int(5)), s1));
    assert EvalExpr(ctx, Root, 0, call, 1) == Done(Res(Some(Int(5)), s1));
  }

  /** The body `x` of the called function reads the argument from the new frame. */
  lemma ImmediateCallBody(ctx: Ctx)
    ensures var s1 := Root + [Frame(Scope(map["x" := Int(5)], map[]), Some(0))];
      BlockFrom(ctx, s1, 1, [A.Stmt.Expr(Var("x"))], 0, None, 0) == Done(Res(Some(Int(5)), s1))
  {
    var body := [A.Stmt.Expr(Var("x"))];
    var s1 := Root + [Frame(Scope(map["x" := Int(5)], map[]), Some(0))];
    assert StoreGet(s1, 1, "x") == Some(Int(5));
    assert EvalStmt(ctx, s1, 1, body[0], 0) == Done(Res(Some(Int(5)), s1));
    assert BlockFrom(ctx, s1, 1, body, 1, Some(Int(5)), 0) == Done(Res(Some(Int(5)), s1));
  }

  // `let newAdder = fn(x) { fn(y) { x + y }; }; let addTwo = newAdder(2); addTwo(2);`

  function AdderBody(): A.BlockStmt
  {
    [A.Stmt.Expr(A.Expr.Function([Name("y")], [A.Stmt.Expr(A.Infix(A.Infix.Plus, Var("x"), Var("y")))]))]
  }

  function AddTwo(): Object
  {
    Function([Name("y")], [A.Stmt.Expr(A.Infix(A.Infix.Plus, Var("x"), Var("y")))], 1)
  }

  function AdderStore(): Store
  {
    [Frame(Scope(map["newAdder" := Function([Name("x")], AdderBody(), 0)], map[]), None)]
  }

  /** `newAdder(2)` returns a function that captured the call's frame, where `x` is 2. */
  lemma NewAdderCall(ctx: Ctx)
    ensures EvalExpr(ctx, AdderStore(), 0, A.Expr.Call(Var("newAdder"), [Num(2)]), 1) ==
      Done(Res(Some(AddTwo()), AdderStore() + [Frame(Scope(map["x" := Int(2)], map[]), Some(0))]))
  {
    var s0 := AdderStore();
    var s1 := s0 + [Frame(Scope(map["x" := Int(2)], map[]), Some(0))];
    var call := A.Expr.Call(Var("newAdder"), [Num(2)]);
    assert EvalExpr(ctx, s0, 0, Num(2), 1) == Done(Res(Some(Int(2)), s0));
    assert [] + [OrNull(Some(Int(2)))] == [Int(2)];
    assert EvalList(ctx, s0, 0, [Num(2)], 1, [Int(2)], 1) == Done(Vals([Int(2)], s0));
    assert EvalList(ctx, s0, 0, [Num(2)], 0, [], 1) == Done(Vals([Int(2)], s0));
    assert StoreGet(s0, 0, "newAdder") == Some(Function([Name("x")], AdderBody(), 0));
    assert EvalExpr(ctx, s0, 0, Var("newAdder"), 1) == Done(Res(Some(Function([Name("x")], AdderBody(), 0)), s0));
    assert BindParams(EmptyScope, [Name("x")], [Int(2)], 0) == s1[1].scope;
    assert EvalStmt(ctx, s1, 1, AdderBody()[0], 0) == Done(Res(Some(AddTwo()), s1));
    assert BlockFrom(ctx, s1, 1, AdderBody(), 1, Some(AddTwo()), 0) == Done(Res(Some(AddTwo()), s1));
    assert BlockFrom(ctx, s1, 1, AdderBody(), 0, None, 0) == Done(Res(Some(AddTwo()), s1));
    assert EvalCall(ctx, s0, 0, call, 1) == Done(Res(Some(AddTwo()), s1));
  }

  /** `addTwo(2)` reads `x` from the frame `addTwo` captured: 2 + 2. */
  lemma AddTwoCall(ctx: Ctx, s: Store)
    requires |s| == 2 && s[1] == Frame(Scope(map["x" := Int(2)], map[]), Some(0))
    requires "addTwo" in s[0].scope.identifiers && s[0].scope.identifiers["addTwo"] == AddTwo()
    ensures EvalExpr(ctx, s, 0, A.Expr.Call(Var("addTwo"), [Num(2)]), 1) ==
      Done(Res(Some(Int(4)), s + [Frame(Scope(map["y" := Int(2)], map[]), Some(1))]))
  {
    var s1 := s + [Frame(Scope(map["y" := Int(2)], map[]), Some(1))];
    var call := A.Expr.Call(Var("addTwo"), [Num(2)]);
    var body := [A.Stmt.Expr(A.Infix(A.Infix.Plus, Var("x"), Var("y")))];
    assert EvalExpr(ctx, s, 0, Num(2), 1) == Done(Res(Some(Int(2)), s));
    assert [] + [OrNull(Some(Int(2)))] == [Int(2)];
    assert EvalList(ctx, s, 0, [Num(2)], 1, [Int(2)], 1) == Done(Vals([Int(2)], s));
    assert EvalList(ctx, s, 0, [Num(2)], 0, [], 1) == Done(Vals([Int(2)], s));
    assert StoreGet(s, 0, "addTwo") == Some(AddTwo());
    assert EvalExpr(ctx, s, 0, Var("addTwo"), 1) == Done(Res(Some(AddTwo()), s));
    assert BindParams(EmptyScope, [Name("y")], [Int(2)], 0) == s1[2].scope;
    assert OuterOf(s1, 2) == Some(1);
    assert StoreGet(s1, 2, "x") == Some(Int(2));
    assert StoreGet(s1, 2, "y") == Some(Int(2));
    assert EvalExpr(ctx, s1, 2, Var("x"), 0) == Done(Res(Some(Int(2)), s1));
    assert EvalExpr(ctx, s1, 2, Var("y"), 0) == Done(Res(Some(Int(2)), s1));
    assert IntInfix(A.Infix.Plus, 2, 2) == Done(Int(4));
    assert EvalExpr(ctx, s1, 2, body[0].expr, 0) == Done(Res(Some(Int(4)), s1));
    assert BlockFrom(ctx, s1, 2, body, 1, Some(Int(4)), 0) == Done(Res(Some(Int(4)), s1));
    assert BlockFrom(ctx, s1, 2, body, 0, None, 0) == Done(Res(Some(Int(4)), s1));
    assert EvalCall(ctx, s, 0, call, 1) == Done(Res(Some(Int(4)), s1));
  }

  /** The closure test: `addTwo(2)` gives 4. */
  lemma ClosureCapturesArgument(ctx: Ctx)
    ensures
      var p := [A.Let(Name("newAdder"), A.Expr.Function([Name("x")], AdderBody())),
                A.Let(Name("addTwo"), A.Expr.Call(Var("newAdder"), [Num(2)])),
                A.Stmt.Expr(A.Expr.Call(Var("addTwo"), [Num(2)]))];
      var r := Eval(ctx, Root, 0, p, 1);
      r.Done? && r.value.value == Some(Int(4))
  {
    var p := [A.Let(Name("newAdder"), A.Expr.Function([Name("x")], AdderBody())),
              A.Let(Name("addTwo"), A.Expr.Call(Var("newAdder"), [Num(2)])),
              A.Stmt.Expr(A.Expr.Call(Var("addTwo"), [Num(2)]))];
    var s0 := AdderStore();
    var frame1 := Frame(Scope(map["x" := Int(2)], map[]), Some(0));
    var s1 := s0 + [frame1];
    var g := Scope(map["newAdder" := Function([Name("x")], AdderBody(), 0), "addTwo" := AddTwo()], map[]);
    var s2 := [Frame(g, None), frame1];
    assert CheckInner(EmptyScope, "newAdder") == Undeclared;
    assert Root[0 := Frame(Set(EmptyScope, "newAdder", Function([Name("x")], AdderBody(), 0)), None)] == s0;
    assert EvalStmt(ctx, Root, 0, p[0], 1) == Done(Res(None, s0));
    NewAdderCall(ctx);
    assert CheckInner(s1[0].scope, "addTwo") == Undeclared;
    assert s1[0 := Frame(Set(s1[0].scope, "addTwo", AddTwo()), None)] == s2;
    assert EvalStmt(ctx, s0, 0, p[1], 1) == Done(Res(None, s2));
    AddTwoCall(ctx, s2);
    var s3 := s2 + [Frame(Scope(map["y" := Int(2)], map[]), Some(1))];
    assert EvalStmt(ctx, s2, 0, p[2], 1) == Done(Res(Some(Int(4)), s3));
    assert ProgramFrom(ctx, s2, 0, p, 2, None, 1) == Done(Res(Some(Int(4)), s3));
    assert ProgramFrom(ctx, s0, 0, p, 1, None, 1) == Done(Res(Some(Int(4)), s3));
  }

  // `let adder = fn() { let x = 1; return fn() { x = x + 1; x }; }; let f = adder(); f(); f(); f(); f()`

  function CounterBody(): A.BlockStmt
  {
    [A.ReAssign(Name("x"), A.Infix(A.Infix.Plus, Var("x"), Num(1))), A.Stmt.Expr(Var("x"))]
  }

  function Counter(): Object
  {
    Function([], CounterBody(), 1)
  }

  function MakerBody(): A.BlockStmt
  {
    [A.Let(Name("x"), Num(1)), A.Return(A.Expr.Function([], CounterBody()))]
  }

  /** The frame the counter captured, holding `x == n`. */
  function CountFrame(n: int64): Frame
  {
    Frame(Scope(map["x" := Int(n)], map[]), Some(0))
  }

  /** `adder()` binds `x` to 1 in its frame and returns a function over that frame. */
  lemma MakerCall(ctx: Ctx, s: Store)
    requires s == [Frame(Scope(map["adder" := Function([], MakerBody(), 0)], map[]), None)]
    ensures EvalExpr(ctx, s, 0, A.Expr.Call(Var("adder"), []), 1) == Done(Res(Some(Counter()), s + [CountFrame(1)]))
  {
    assert StoreGet(s, 0, "adder") == Some(Function([], MakerBody(), 0));
    assert EvalExpr(ctx, s, 0, Var("adder"), 1) == Done(Res(Some(Function([], MakerBody(), 0)), s));
    P.NoArgumentCall(ctx, s, 0, Var("adder"), MakerBody(), 0, 1);
    P.ClosureResult(ctx, s, [], MakerBody(), 0, [], 1);
    assert BindParams(EmptyScope, [], [], 0) == EmptyScope;
    MakerBodyRun(ctx, s);
  }

  /** The maker's body binds `x` to 1 in the new frame and returns the counter closure. */
  lemma MakerBodyRun(ctx: Ctx, s: Store)
    requires s == [Frame(Scope(map["adder" := Function([], MakerBody(), 0)], map[]), None)]
    ensures BlockFrom(ctx, s + [Frame(EmptyScope, Some(0))], 1, MakerBody(), 0, None, 0) ==
      Done(Res(Some(ReturnValue(Counter())), s + [CountFrame(1)]))
  {
    var t := s + [Frame(EmptyScope, Some(0))];
    var u := s + [CountFrame(1)];
    assert CheckInner(EmptyScope, "x") == Undeclared;
    assert t[1 := Frame(Set(EmptyScope, "x", Int(1)), Some(0))] == u;
    assert EvalStmt(ctx, t, 1, MakerBody()[0], 0) == Done(Res(None, u));
    assert EvalStmt(ctx, u, 1, MakerBody()[1], 0) == Done(Res(Some(ReturnValue(Counter())), u));
    assert BlockFrom(ctx, u, 1, MakerBody(), 1, None, 0) == Done(Res(Some(ReturnValue(Counter())), u));
  }

  /** `f()` adds one to the `x` of the frame it captured, and returns the new value. */
  lemma CounterCall(ctx: Ctx, s: Store, n: int64)
    requires 0 <= n < 10 && |s| >= 2 && s[1] == CountFrame(n)
    requires "f" in s[0].scope.identifiers && s[0].scope.identifiers["f"] == Counter()
    ensures EvalExpr(ctx, s, 0, A.Expr.Call(Var("f"), []), 1) ==
      Done(Res(Some(Int(n + 1)), s[1 := CountFrame(n + 1)] + [Frame(EmptyScope, Some(1))]))
  {
    assert StoreGet(s, 0, "f") == Some(Counter());
    assert EvalExpr(ctx, s, 0, Var("f"), 1) == Done(Res(Some(Counter()), s));
    P.NoArgumentCall(ctx, s, 0, Var("f"), CounterBody(), 1, 1);
    P.ClosureResult(ctx, s, [], CounterBody(), 1, [], 1);
    assert BindParams(EmptyScope, [], [], 0) == EmptyScope;
    CounterBodyRun(ctx, s, n);
  }

  /** The counter's body adds one to the captured `x` and yields the new value. */
  lemma CounterBodyRun(ctx: Ctx, s: Store, n: int64)
    requires 0 <= n < 10 && |s| >= 2 && s[1] == CountFrame(n)
    ensures BlockFrom(ctx, s + [Frame(EmptyScope, Some(1))], |s|, CounterBody(), 0, None, 0) ==
      Done(Res(Some(Int(n + 1)), s[1 := CountFrame(n + 1)] + [Frame(EmptyScope, Some(1))]))
  {
    var e := |s|;
    var t := s + [Frame(EmptyScope, Some(1))];
    var u := t[1 := CountFrame(n + 1)];
    assert u == s[1 := CountFrame(n + 1)] + [Frame(EmptyScope, Some(1))];
    assert OuterOf(t, e) == Some(1);
    assert StoreGet(t, e, "x") == Some(Int(n));
    assert IntInfix(A.Infix.Plus, n, 1) == Done(Int(n + 1));
    assert EvalExpr(ctx, t, e, A.Infix(A.Infix.Plus, Var("x"), Num(1)), 0) == Done(Res(Some(Int(n + 1)), t));
    assert map["x" := Int(n)]["x" := Int(n + 1)] == map["x" := Int(n + 1)];
    assert Frame(Set(t[1].scope, "x", Int(n + 1)), t[1].outer) == CountFrame(n + 1);
    assert StoreUpdate(t, e, "x", Int(n + 1)) == (Succeed, u);
    assert EvalStmt(ctx, t, e, CounterBody()[0], 0) == Done(Res(None, u));
    assert OuterOf(u, e) == Some(1);
    assert StoreGet(u, e, "x") == Some(Int(n + 1));
    assert EvalStmt(ctx, u, e, CounterBody()[1], 0) == Done(Res(Some(Int(n + 1)), u));
    assert BlockFrom(ctx, u, e, CounterBody(), 1, None, 0) == Done(Res(Some(Int(n + 1)), u));
  }


  /** The result of `f()` after the step in which the counter held `n`. */
  function Bumped(s: Store, n: int64): Store
    requires |s| >= 2 && 0 <= n < 9
  {
    s[1 := CountFrame(n + 1)] + [Frame(EmptyScope, Some(1))]
  }

  /** One `f()` statement of the program: it counts once and the program goes on. */
  lemma CountStep(ctx: Ctx, s: Store, n: int64, p: A.Program, k: nat, prev: Option<Object>)
    requires k < |p| && 0 <= n < 9 && |s| >= 2 && s[1] == CountFrame(n)
    requires "f" in s[0].scope.identifiers && s[0].scope.identifiers["f"] == Counter()
    requires p[k] == A.Stmt.Expr(A.Expr.Call(Var("f"), []))
    ensures ProgramFrom(ctx, s, 0, p, k, prev, 1) == ProgramFrom(ctx, Bumped(s, n), 0, p, k + 1, Some(Int(n + 1)), 1)
  {
    CounterCall(ctx, s, n);
    assert EvalStmt(ctx, s, 0, p[k], 1) == Done(Res(Some(Int(n + 1)), Bumped(s, n)));
  }

  /** The counter test: the four calls share one captured frame, so the last gives 5. */
  lemma ClosureSharesFrame(ctx: Ctx)
    ensures
      var f := A.Stmt.Expr(A.Expr.Call(Var("f"), []));
      var p := [A.Let(Name("adder"), A.Expr.Function([], MakerBody())),
                A.Let(Name("f"), A.Expr.Call(Var("adder"), [])), f, f, f, f];
      var r := Eval(ctx, Root, 0, p, 1);
      r.Done? && r.value.value == Some(Int(5))
  {
    var f := A.Stmt.Expr(A.Expr.Call(Var("f"), []));
    var p := [A.Let(Name("adder"), A.Expr.Function([], MakerBody())),
              A.Let(Name("f"), A.Expr.Call(Var("adder"), [])), f, f, f, f];
    var maker := Function([], MakerBody(), 0);
    var s0 := [Frame(Scope(map["adder" := maker], map[]), None)];
    var g := Frame(Scope(map["adder" := maker, "f" := Counter()], map[]), None);
    var s1 := [g, CountFrame(1)];
    assert CheckInner(EmptyScope, "adder") == Undeclared;
    assert Root[0 := Frame(Set(EmptyScope, "adder", maker), None)] == s0;
    assert EvalStmt(ctx, Root, 0, p[0], 1) == Done(Res(None, s0));
    MakerCall(ctx, s0);
    assert CheckInner((s0 + [CountFrame(1)])[0].scope, "f") == Undeclared;
    assert (s0 + [CountFrame(1)])[0 := Frame(Set(s0[0].scope, "f", Counter()), None)] == s1;
    assert EvalStmt(ctx, s0, 0, p[1], 1) == Done(Res(None, s1));
    assert ProgramFrom(ctx, s0, 0, p, 1, None, 1) == ProgramFrom(ctx, s1, 0, p, 2, None, 1);
    CountStep(ctx, s1, 1, p, 2, None);
    var s2 := Bumped(s1, 1);
    CountStep(ctx, s2, 2, p, 3, Some(Int(2)));
    var s3 := Bumped(s2, 2);
    CountStep(ctx, s3, 3, p, 4, Some(Int(3)));
    var s4 := Bumped(s3, 3);
    CountStep(ctx, s4, 4, p, 5, Some(Int(4)));
    assert ProgramFrom(ctx, Bumped(s4, 4), 0, p, 6, Some(Int(5)), 1) == Done(Res(Some(Int(5)), Bumped(s4, 4)));
  }

  function BoolLit(b: bool): A.Expr { A.Expr.Literal(A.Literal.Bool(b)) }

  function Globals(cond: bool, a: int64): Store
  {
    [Frame(Scope(map["cond" := Object.Bool(cond), "a" := Int(a)], map[]), None)]
  }

  /** One round of `while (cond) { a = 3; cond = false; }` assigns both names in the outer frame. */
  lemma WhileBodyRound(ctx: Ctx)
    ensures LoopBlockFrom(ctx, Globals(true, 5), 0, [A.ReAssign(Name("a"), Num(3)), A.ReAssign(Name("cond"), BoolLit(false))],
                          0, None, 1) == Done(Res(None, Globals(false, 3)))
  {
    var body := [A.ReAssign(Name("a"), Num(3)), A.ReAssign(Name("cond"), BoolLit(false))];
    var s0 := Globals(true, 5);
    var s1 := Globals(true, 3);
    var s2 := Globals(false, 3);
    assert s0[0].scope.identifiers["a" := Int(3)] == s1[0].scope.identifiers;
    assert "a" in s0[0].scope.identifiers && !IsConstant(s0[0].scope, "a");
    assert s0[0 := Frame(Set(s0[0].scope, "a", Int(3)), None)] == s1;
    assert StoreUpdate(s0, 0, "a", Int(3)) == (Succeed, s1);
    assert EvalStmt(ctx, s0, 0, body[0], 1) == Done(Res(None, s1));
    assert s1[0].scope.identifiers["cond" := Object.Bool(false)] == s2[0].scope.identifiers;
    assert "cond" in s1[0].scope.identifiers && !IsConstant(s1[0].scope, "cond");
    assert s1[0 := Frame(Set(s1[0].scope, "cond", Object.Bool(false)), None)] == s2;
    assert StoreUpdate(s1, 0, "cond", Object.Bool(false)) == (Succeed, s2);
    assert EvalStmt(ctx, s1, 0, body[1], 1) == Done(Res(None, s2));
    assert LoopBlockFrom(ctx, s1, 0, body, 1, None, 1) == Done(Res(None, s2));
  }

  /** `let cond = true; let a = 5; while (cond) { a = 3; cond = false; } a;` gives 3. */
  lemma WhileAssignsOuter(ctx: Ctx)
    ensures
      var w := A.While(Var("cond"), [A.ReAssign(Name("a"), Num(3)), A.ReAssign(Name("cond"), BoolLit(false))]);
      var p := [A.Let(Name("cond"), BoolLit(true)), A.Let(Name("a"), Num(5)), A.Stmt.Expr(w), A.Stmt.Expr(Var("a"))];
      Eval(ctx, Root, 0, p, 1) == Done(Res(Some(Int(3)), Globals(false, 3)))
  {
    var w := A.While(Var("cond"), [A.ReAssign(Name("a"), Num(3)), A.ReAssign(Name("cond"), BoolLit(false))]);
    var p := [A.Let(Name("cond"), BoolLit(true)), A.Let(Name("a"), Num(5)), A.Stmt.Expr(w), A.Stmt.Expr(Var("a"))];
    WhileProgramLets(ctx);
    WhileProgramLoop(ctx);
    assert ProgramFrom(ctx, Globals(false, 3), 0, p, 3, None, 1) == Done(Res(Some(Int(3)), Globals(false, 3)));
    assert ProgramFrom(ctx, Globals(true, 5), 0, p, 2, None, 1) == Done(Res(Some(Int(3)), Globals(false, 3)));
  }

  /** The two `let` statements in front of the loop. */
  lemma WhileProgramLets(ctx: Ctx)
    ensures var s0 := [Frame(Scope(map["cond" := Object.Bool(true)], map[]), None)];
      && EvalStmt(ctx, Root, 0, A.Let(Name("cond"), BoolLit(true)), 1) == Done(Res(None, s0))
      && EvalStmt(ctx, s0, 0, A.Let(Name("a"), Num(5)), 1) == Done(Res(None, Globals(true, 5)))
  {
    var s0 := [Frame(Scope(map["cond" := Object.Bool(true)], map[]), None)];
    assert CheckInner(EmptyScope, "cond") == Undeclared;
    assert Root[0 := Frame(Set(EmptyScope, "cond", Object.Bool(true)), None)] == s0;
    assert CheckInner(s0[0].scope, "a") == Undeclared;
    assert s0[0 := Frame(Set(s0[0].scope, "a", Int(5)), None)] == Globals(true, 5);
  }

  /** The loop runs its body once, and `a` then reads the value the body assigned. */
  lemma WhileProgramLoop(ctx: Ctx)
    ensures
      var w := A.While(Var("cond"), [A.ReAssign(Name("a"), Num(3)), A.ReAssign(Name("cond"), BoolLit(false))]);
      && EvalStmt(ctx, Globals(true, 5), 0, A.Stmt.Expr(w), 1) == Done(Res(None, Globals(false, 3)))
      && EvalStmt(ctx, Globals(false, 3), 0, A.Stmt.Expr(Var("a")), 1) == Done(Res(Some(Int(3)), Globals(false, 3)))
  {
    var w := A.While(Var("cond"), [A.ReAssign(Name("a"), Num(3)), A.ReAssign(Name("cond"), BoolLit(false))]);
    assert EvalExpr(ctx, Globals(true, 5), 0, w.cond, 1) == Done(Res(Some(Object.Bool(true)), Globals(true, 5)));
    WhileBodyRound(ctx);
    assert EvalExpr(ctx, Globals(false, 3), 0, w.cond, 0) == Done(Res(Some(Object.Bool(false)), Globals(false, 3)));
    assert WhileLoop(ctx, Globals(false, 3), 0, w, None, 0) == Done(Res(None, Globals(false, 3)));
    assert WhileLoop(ctx, Globals(true, 5), 0, w, None, 1) == Done(Res(None, Globals(false, 3)));
    assert StoreGet(Globals(false, 3), 0, "a") == Some(Int(3));
  }

}
