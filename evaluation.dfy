/**
 * The meaning of evaluation in the `interpreter` snapshot, as functions.
 *
 * A computation runs against a frame store (`Environment.Store`) and the index
 * `env` of the current frame, and gives an optional value (statements that
 * bind give none) with the new store. Calling a function appends a frame whose
 * outer frame is the one the function captured; the caller's frame index
 * stays what it was. `fuel` bounds the number of loop iterations and calls
 * along any path, and running out of it is reported as `FuelExhausted`; a Rust
 * panic (integer overflow, division by zero, a `todo!()`) is a `Panic` too.
 */
module Evaluation {
  import opened Wrappers
  import opened I64
  import A = Ast
  import opened Objects
  import opened Environment
  import B = Builtins

  /** The collaborators outside the model: `escape_str`, and the host side of the effectful builtins. */
  datatype Ctx = Ctx(esc: string -> string, host: B.Host)

  /** A value-or-nothing together with the store after computing it. */
  datatype Res = Res(value: Option<Object>, store: Store)

  /** A list of values together with the store after computing them. */
  datatype Vals = Vals(values: seq<Object>, store: Store)

  function OrNull(v: Option<Object>): Object
  {
    if v.Some? then v.value else Null
  }

  // ---------------------------------------------------------------------------
  // The pure rules.
  // ---------------------------------------------------------------------------

  /** `is_truthy`: only Null and `false` are falsy. */
  predicate IsTruthy(o: Object)
  {
    !o.Null? && !(o.Bool? && !o.flag)
  }

  function NotOp(right: Object): Object
  {
    if right.Bool? then Bool(!right.flag) else Bool(right.Null?)
  }

  function EvalPrefix(esc: string -> string, p: A.Prefix, right: Object): Outcome<Object>
  {
    match p
    case Not => Done(NotOp(right))
    case Minus =>
      if right.Int? then var n :- Neg(right.value); Done(Int(n))
      else Done(Error("unknown operator: -" + Show(esc, right)))
    case Plus =>
      if right.Int? then Done(right) else Done(Error("unknown operator: " + Show(esc, right)))
  }

  function IntInfix(op: A.Infix, a: int64, b: int64): Outcome<Object>
  {
    match op
    case Plus => var n :- Add(a, b); Done(Int(n))
    case Minus => var n :- Sub(a, b); Done(Int(n))
    case Multiply => var n :- Mul(a, b); Done(Int(n))
    case Divide => var n :- Div(a, b); Done(Int(n))
    case LT => Done(Bool(a < b))
    case LTEQ => Done(Bool(a <= b))
    case GT => Done(Bool(a > b))
    case GTEQ => Done(Bool(a >= b))
    case Equal => Done(Bool(a == b))
    case NotEqual => Done(Bool(a != b))
  }

  /** Only `+` is defined on strings; the message shows both strings unquoted. */
  function StringInfix(op: A.Infix, a: string, b: string): Object
  {
    if op.Plus? then String(a + b)
    else Error("unknown operator: " + a + " " + A.InfixSymbol(op) + " " + b)
  }

  function EvalInfix(esc: string -> string, op: A.Infix, left: Object, right: Object): Outcome<Object>
  {
    if left.Int? then
      if right.Int? then IntInfix(op, left.value, right.value)
      else Done(Error("type mismatch: " + Show(esc, left) + " " + A.InfixSymbol(op) + " " + Show(esc, right)))
    else if left.String? then
      if right.String? then Done(StringInfix(op, left.text, right.text))
      else Done(Error("type mismatch: " + left.text + " " + A.InfixSymbol(op) + " " + Show(esc, right)))
    else Done(Error("unknown operator: " + Show(esc, left) + " " + A.InfixSymbol(op) + " " + Show(esc, right)))
  }

  /** `eval_array_index_expr`: indices outside `[0, len]` are Null, and so is `len` itself. */
  function ArrayIndex(es: seq<Object>, i: int64): Object
  {
    if i < 0 || i > B.LengthAsI64(|es|) then Null
    else if (i as int) < |es| then es[i] else Null
  }

  function EvalIndex(esc: string -> string, left: Object, index: Object): Object
  {
    if left.Array? then
      if index.Int? then ArrayIndex(left.elements, index.value)
      else Error("index operator not supported: " + Show(esc, left))
    else if left.Hash? then
      if Hashable(index) then OrNull(Lookup(left.entries, index))
      else if index.Error? then index
      else Error("unusable as hash key: " + Show(esc, index))
    else Error("uknown operator: " + Show(esc, left) + " " + Show(esc, index))
  }

  /** `eval_ident`. */
  function EvalIdent(store: Store, env: nat, name: string): Object
    requires env < |store|
  {
    var v := StoreGet(store, env, name);
    if v.Some? then v.value else Error("identifier not found: " + name)
  }

  /** `usize as i32`: the low 32 bits read as a signed number. */
  function LengthAsI32(n: nat): (r: int)
    ensures n < 0x8000_0000 ==> r == n
  {
    var m := n % 0x1_0000_0000;
    if m < 0x8000_0000 then m else m - 0x1_0000_0000
  }

  /** The parameters of a call bound one after the other in a fresh scope. */
  function BindParams(s: Scope, ps: seq<A.Ident>, args: seq<Object>, k: nat): Scope
    requires |ps| == |args| && k <= |ps|
    decreases |ps| - k
  {
    if k == |ps| then s else BindParams(Set(s, ps[k].name, args[k]), ps, args, k + 1)
  }

  /** `let` and `const`: bind in the current frame only if it does not yet hold the name. */
  function Declare(store: Store, env: nat, name: string, v: Object, constant: bool): (r: Res)
    requires env < |store|
    ensures |r.store| == |store|
  {
    var s := store[env].scope;
    match CheckInner(s, name)
    case ConstantExist => Res(Some(Error("Can not redeclare constant variable " + name + "!")), store)
    case VariableExist => Res(Some(Error("Can not redeclare variable " + name + "!")), store)
    case Undeclared =>
      var s' := if constant then MarkConstant(Set(s, name, v), name) else Set(s, name, v);
      Res(None, store[env := Frame(s', store[env].outer)])
  }

  /** `ReAssign`: the outcome of `update` as the statement's value. */
  function Reassign(store: Store, env: nat, name: string, v: Object): (r: Res)
    requires env < |store|
    ensures |r.store| == |store|
  {
    var u := StoreUpdate(store, env, name, v);
    match u.0
    case ConstantForbidden => Res(Some(Error("Can not assign to constant variable " + name + "!")), store)
    case NoIdentifier => Res(Some(Error("No identifier " + name + "!")), store)
    case Succeed => Res(None, u.1)
  }

  // ---------------------------------------------------------------------------
  // Evaluation.
  // ---------------------------------------------------------------------------

  /** `eval`: the program's statements in order, stopping at a return or an error. */
  function Eval(ctx: Ctx, store: Store, env: nat, program: A.Program, fuel: nat): (r: Outcome<Res>)
    requires env < |store|
    ensures r.Done? ==> |r.value.store| >= |store|
  {
    ProgramFrom(ctx, store, env, program, 0, None, fuel)
  }

  function ProgramFrom(ctx: Ctx, store: Store, env: nat, program: A.Program, k: nat,
                       result: Option<Object>, fuel: nat): (r: Outcome<Res>)
    requires env < |store| && k <= |program|
    ensures r.Done? ==> |r.value.store| >= |store|
    decreases |program| - k
  {
    if k == |program| then Done(Res(result, store))
    else if program[k].Blank? then ProgramFrom(ctx, store, env, program, k + 1, result, fuel)
    else
      var r :- EvalStmt(ctx, store, env, program[k], fuel);
      if r.value.Some? && r.value.value.ReturnValue? then Done(Res(Some(r.value.value.inner), r.store))
      else if r.value.Some? && r.value.value.Error? then Done(r)
      else ProgramFrom(ctx, r.store, env, program, k + 1, r.value, fuel)
  }

  function EvalStmt(ctx: Ctx, store: Store, env: nat, s: A.Stmt, fuel: nat): (r: Outcome<Res>)
    requires env < |store|
    ensures r.Done? ==> |r.value.store| >= |store|
    decreases fuel, s, 2
  {
    match s
    case Let(id, e) =>
      var r :- EvalExpr(ctx, store, env, e, fuel);
      if r.value.None? then Done(r)
      else if r.value.value.Error? then Done(r)
      else Done(Declare(r.store, env, id.name, r.value.value, false))
    case Const(id, e) =>
      var r :- EvalExpr(ctx, store, env, e, fuel);
      if r.value.None? then Done(r)
      else if r.value.value.Error? then Done(r)
      else Done(Declare(r.store, env, id.name, r.value.value, true))
    case Break => Done(Res(Some(BreakStatement), store))
    case Continue => Done(Res(Some(ContinueStatement), store))
    case Return(e) =>
      var r :- EvalExpr(ctx, store, env, e, fuel);
      if r.value.None? then Done(r) else Done(Res(Some(ReturnValue(r.value.value)), r.store))
    case Expr(e) => EvalExpr(ctx, store, env, e, fuel)
    case ReAssign(id, e) =>
      var r :- EvalExpr(ctx, store, env, e, fuel);
      if r.value.None? then Done(r)
      else if r.value.value.Error? then Done(r)
      else Done(Reassign(r.store, env, id.name, r.value.value))
    case Blank => Panic(Unimplemented)
  }

  function EvalExpr(ctx: Ctx, store: Store, env: nat, e: A.Expr, fuel: nat): (r: Outcome<Res>)
    requires env < |store|
    ensures r.Done? ==> |r.value.store| >= |store|
    decreases fuel, e, 2
  {
    match e
    case Ident(id) => Done(Res(Some(EvalIdent(store, env, id.name)), store))
    case Literal(lit) => EvalLiteral(ctx, store, env, e, fuel)
    case Prefix(p, right) =>
      var r :- EvalExpr(ctx, store, env, right, fuel);
      if r.value.None? then Done(r)
      else var o :- EvalPrefix(ctx.esc, p, r.value.value); Done(Res(Some(o), r.store))
    case Infix(op, left, right) =>
      var a :- EvalExpr(ctx, store, env, left, fuel);
      var b :- EvalExpr(ctx, a.store, env, right, fuel);
      if a.value.None? || b.value.None? then Done(Res(None, b.store))
      else var o :- EvalInfix(ctx.esc, op, a.value.value, b.value.value); Done(Res(Some(o), b.store))
    case Index(target, index) =>
      var a :- EvalExpr(ctx, store, env, target, fuel);
      var b :- EvalExpr(ctx, a.store, env, index, fuel);
      if a.value.None? || b.value.None? then Done(Res(None, b.store))
      else Done(Res(Some(EvalIndex(ctx.esc, a.value.value, b.value.value)), b.store))
    case While(_, _) => WhileLoop(ctx, store, env, e, None, fuel)
    case If(cond, consequence, alternative) =>
      var c :- EvalExpr(ctx, store, env, cond, fuel);
      if c.value.None? then Done(c)
      else if IsTruthy(c.value.value) then BlockFrom(ctx, c.store, env, consequence, 0, None, fuel)
      else if alternative.Else? then BlockFrom(ctx, c.store, env, alternative.block, 0, None, fuel)
      else Done(Res(None, c.store))
    case Function(params, body) => Done(Res(Some(Function(params, body, env)), store))
    case Call(_, _) => EvalCall(ctx, store, env, e, fuel)
  }

  /**
   * A function value applied to as many arguments as it has parameters: the
   * body runs in a new frame that binds the parameters and has the captured
   * frame as its outer frame. A body without a value gives Null and a
   * `return` gives its inner value.
   */
  function CallClosure(ctx: Ctx, store: Store, ps: seq<A.Ident>, body: A.BlockStmt, captured: nat,
                       args: seq<Object>, fuel: nat): (r: Outcome<Res>)
    requires fuel > 0 && |ps| == |args|
    ensures r.Done? ==> |r.value.store| > |store| && r.value.value.Some?
    decreases fuel - 1, body, |body| + 1
  {
    var frame := Frame(BindParams(EmptyScope, ps, args, 0), Some(captured));
    var b :- BlockFrom(ctx, store + [frame], |store|, body, 0, None, fuel - 1);
    var o := if b.value.None? then Null
             else if b.value.value.ReturnValue? then b.value.value.inner
             else b.value.value;
    Done(Res(Some(o), b.store))
  }

  /** `eval_literal`, with the array and hash literals evaluated element by element. */
  function EvalLiteral(ctx: Ctx, store: Store, env: nat, e: A.Expr, fuel: nat): (r: Outcome<Res>)
    requires env < |store| && e.Literal?
    ensures r.Done? ==> |r.value.store| >= |store|
    decreases fuel, e, 1
  {
    match e.lit
    case Int(n) => Done(Res(Some(Int(n)), store))
    case String(s) => Done(Res(Some(String(s)), store))
    case Bool(b) => Done(Res(Some(Bool(b)), store))
    case Array(es) =>
      var vs :- EvalList(ctx, store, env, es, 0, [], fuel);
      Done(Res(Some(Array(vs.values)), vs.store))
    case Hash(pairs) => HashFrom(ctx, store, env, pairs, 0, [], fuel)
  }

  /** Each expression in turn, a missing value read as Null (`unwrap_or(Null)`). */
  function EvalList(ctx: Ctx, store: Store, env: nat, es: seq<A.Expr>, k: nat,
                    acc: seq<Object>, fuel: nat): (r: Outcome<Vals>)
    requires env < |store| && k <= |es|
    ensures r.Done? ==> |r.value.store| >= |store| && |r.value.values| == |acc| + |es| - k
    decreases fuel, es, |es| - k
  {
    if k == |es| then Done(Vals(acc, store))
    else
      var r :- EvalExpr(ctx, store, env, es[k], fuel);
      EvalList(ctx, r.store, env, es, k + 1, acc + [OrNull(r.value)], fuel)
  }

  /** `eval_hash_literal`: keys and values in turn; the first error key or value is the result. */
  function HashFrom(ctx: Ctx, store: Store, env: nat, pairs: seq<A.Pair>, k: nat,
                    kvs: seq<Entry>, fuel: nat): (r: Outcome<Res>)
    requires env < |store| && k <= |pairs|
    ensures r.Done? ==> |r.value.store| >= |store|
    decreases fuel, pairs, |pairs| - k
  {
    if k == |pairs| then Done(Res(Some(Hash(kvs)), store))
    else
      assert pairs[k] in pairs && pairs[k].key < pairs[k] && pairs[k].value < pairs[k];
      var kr :- EvalExpr(ctx, store, env, pairs[k].key, fuel);
      var key := OrNull(kr.value);
      if key.Error? then Done(Res(Some(key), kr.store))
      else
        var vr :- EvalExpr(ctx, kr.store, env, pairs[k].value, fuel);
        var value := OrNull(vr.value);
        if value.Error? then Done(Res(Some(value), vr.store))
        else HashFrom(ctx, vr.store, env, pairs, k + 1, Insert(kvs, key, value), fuel)
  }

  /**
   * `eval_while_expr`: the result is None until a `break` or `continue` makes
   * it Null; a return leaves the loop; anything else the body gives, errors
   * included, is dropped. Every further iteration takes one unit of fuel.
   */
  function WhileLoop(ctx: Ctx, store: Store, env: nat, e: A.Expr, result: Option<Object>,
                     fuel: nat): (r: Outcome<Res>)
    requires env < |store| && e.While?
    ensures r.Done? ==> |r.value.store| >= |store|
    decreases fuel, e, 1
  {
    var c :- EvalExpr(ctx, store, env, e.cond, fuel);
    if c.value.None? || !IsTruthy(c.value.value) then Done(Res(result, c.store))
    else
      var b :- LoopBlockFrom(ctx, c.store, env, e.consequence, 0, None, fuel);
      if b.value.Some? && b.value.value.BreakStatement? then Done(Res(Some(Null), b.store))
      else if b.value.Some? && b.value.value.ReturnValue? then Done(b)
      else
        var result' := if b.value.Some? && b.value.value.ContinueStatement? then Some(Null) else result;
        if fuel == 0 then Panic(FuelExhausted)
        else WhileLoop(ctx, b.store, env, e, result', fuel - 1)
  }

  /** `eval_block_stmt_with_continue_and_break_statement`: also stops at `break` and `continue`. */
  function LoopBlockFrom(ctx: Ctx, store: Store, env: nat, stmts: A.BlockStmt, k: nat,
                         result: Option<Object>, fuel: nat): (r: Outcome<Res>)
    requires env < |store| && k <= |stmts|
    ensures r.Done? ==> |r.value.store| >= |store|
    decreases fuel, stmts, |stmts| - k
  {
    if k == |stmts| then Done(Res(result, store))
    else if stmts[k].Blank? then LoopBlockFrom(ctx, store, env, stmts, k + 1, result, fuel)
    else
      var r :- EvalStmt(ctx, store, env, stmts[k], fuel);
      if r.value.Some? && (r.value.value.ReturnValue? || r.value.value.BreakStatement? ||
                           r.value.value.ContinueStatement? || r.value.value.Error?)
      then Done(r)
      else LoopBlockFrom(ctx, r.store, env, stmts, k + 1, r.value, fuel)
  }

  /** `eval_block_stmt`: stops at a return or an error; `break` and `continue` are plain values here. */
  function BlockFrom(ctx: Ctx, store: Store, env: nat, stmts: A.BlockStmt, k: nat,
                     result: Option<Object>, fuel: nat): (r: Outcome<Res>)
    requires env < |store| && k <= |stmts|
    ensures r.Done? ==> |r.value.store| >= |store|
    decreases fuel, stmts, |stmts| - k
  {
    if k == |stmts| then Done(Res(result, store))
    else if stmts[k].Blank? then BlockFrom(ctx, store, env, stmts, k + 1, result, fuel)
    else
      var r :- EvalStmt(ctx, store, env, stmts[k], fuel);
      if r.value.Some? && (r.value.value.ReturnValue? || r.value.value.Error?) then Done(r)
      else BlockFrom(ctx, r.store, env, stmts, k + 1, r.value, fuel)
  }

  /**
   * `eval_call_expr`: the arguments first, then the callee, both in the
   * caller's frame. A function's body runs in a new frame over the frame it
   * captured, which takes one unit of fuel.
   */
  function EvalCall(ctx: Ctx, store: Store, env: nat, e: A.Expr, fuel: nat): (r: Outcome<Res>)
    requires env < |store| && e.Call?
    ensures r.Done? ==> |r.value.store| >= |store| && r.value.value.Some?
    decreases fuel, e, 1
  {
    var av :- EvalList(ctx, store, env, e.args, 0, [], fuel);
    var args := av.values;
    var fr :- EvalExpr(ctx, av.store, env, e.func, fuel);
    if fr.value.None? then Done(Res(Some(Null), fr.store))
    else
      match fr.value.value {
      case Function(ps, body, captured) =>
        if |ps| != |args| then
          Done(Res(Some(Error("wrong number of arguments: " + Decimal(|ps|) + " expected but " +
                              Decimal(|args|) + " given")), fr.store))
        else if fuel == 0 then Panic(FuelExhausted)
        else CallClosure(ctx, fr.store, ps, body, captured, args, fuel)
      case Builtin(arity, f) =>
        if arity < 0 || arity == LengthAsI32(|args|) then
          var o :- B.Apply(ctx.esc, ctx.host, f, args);
          Done(Res(Some(o), fr.store))
        else
          Done(Res(Some(Error("wrong number of arguments. got=" + Decimal(|args|) + ", want=" +
                              Decimal(arity))), fr.store))
      case o => Done(Res(Some(Error(Show(ctx.esc, o) + " is not valid function")), fr.store))
      }
  }
}
