/**
 * The evaluator of the `interpreter` snapshot as an object: the frame store
 * stands for the web of `Rc<RefCell<Env>>` frames, and `env` for the field
 * `self.env`, which a call moves to a fresh frame and then restores. Every
 * method is proved to compute what `Evaluation` defines: the same outcome, and
 * the same store afterwards.
 */
module Evaluator {
  import opened Wrappers
  import I64
  import A = Ast
  import opened Objects
  import opened Environment
  import B = Builtins
  import S = Evaluation

  /** A method's outcome and the store it leaves are the ones the specification gives. */
  predicate Agrees(r: Outcome<Option<Object>>, s: Store, spec: Outcome<S.Res>)
  {
    match spec
    case Done(res) => r == Done(res.value) && s == res.store
    case Panic(f) => r == Panic(f)
  }

  predicate AgreesList(r: Outcome<seq<Object>>, s: Store, spec: Outcome<S.Vals>)
  {
    match spec
    case Done(vs) => r == Done(vs.values) && s == vs.store
    case Panic(f) => r == Panic(f)
  }

  /** A value the host produced, or its panic, as a statement's outcome. */
  function Produced(o: Outcome<Object>): (r: Outcome<Option<Object>>)
    ensures o.Done? <==> r.Done?
    ensures r.Done? ==> r.value == Some(o.value)
    ensures r.Panic? ==> r.reason == o.reason
  {
    if o.Done? then Done(Some(o.value)) else Panic(o.reason)
  }

  class Evaluator {
    var store: Store
    /** The frame `self.env` designates. */
    var env: nat
    const ctx: S.Ctx

    ghost predicate Valid()
      reads this
    {
      env < |store|
    }

    /** `Evaluator::new(env)`: evaluation starts in a single frame holding `globals`. */
    constructor (ctx: S.Ctx, globals: Scope)
      ensures Valid() && this.ctx == ctx
      ensures store == [Frame(globals, None)] && env == 0
    {
      this.ctx := ctx;
      store := [Frame(globals, None)];
      env := 0;
    }

    /** `get` on the current frame, following the outer links one frame at a time. */
    method Get(name: string) returns (v: Option<Object>)
      requires Valid()
      ensures v == StoreGet(store, env, name)
    {
      var i: nat := env;
      while name !in store[i].scope.identifiers && OuterOf(store, i).Some?
        invariant i < |store|
        invariant StoreGet(store, i, name) == StoreGet(store, env, name)
        decreases i
      {
        i := OuterOf(store, i).value;
      }
      v := if name in store[i].scope.identifiers then Some(store[i].scope.identifiers[name]) else None;
    }

    /** `update` on the current frame: the first frame outwards that binds the name takes the value. */
    method Update(name: string, v: Object) returns (info: UpdateInfo)
      requires Valid()
      modifies this
      ensures Valid() && env == old(env)
      ensures (info, store) == StoreUpdate(old(store), env, name, v)
      ensures info != Succeed ==> store == old(store)
    {
      var i: nat := env;
      while name !in store[i].scope.identifiers && OuterOf(store, i).Some?
        invariant i < |store|
        invariant StoreUpdate(store, i, name, v) == StoreUpdate(store, env, name, v)
        decreases i
      {
        i := OuterOf(store, i).value;
      }
      var s := store[i].scope;
      if name !in s.identifiers {
        info := NoIdentifier;
      } else if IsConstant(s, name) {
        info := ConstantForbidden;
      } else {
        store := store[i := Frame(Set(s, name, v), store[i].outer)];
        info := Succeed;
      }
    }

    /** The binding half of `let` and `const`, after `check_inner` on the current frame. */
    method Declare(name: string, v: Object, constant: bool) returns (r: Outcome<Option<Object>>)
      requires Valid()
      modifies this
      ensures Valid() && env == old(env)
      ensures Agrees(r, store, Done(S.Declare(old(store), env, name, v, constant)))
    {
      var s := store[env].scope;
      match CheckInner(s, name) {
        case ConstantExist =>
          r := Done(Some(Error("Can not redeclare constant variable " + name + "!")));
        case VariableExist =>
          r := Done(Some(Error("Can not redeclare variable " + name + "!")));
        case Undeclared =>
          s := Set(s, name, v);
          if constant {
            s := MarkConstant(s, name);
          }
          store := store[env := Frame(s, store[env].outer)];
          r := Done(None);
      }
    }

    /** `eval`. */
    method Eval(program: A.Program, fuel: nat) returns (r: Outcome<Option<Object>>)
      requires Valid()
      modifies this
      ensures Valid() && env == old(env) && |store| >= old(|store|)
      ensures Agrees(r, store, S.Eval(ctx, old(store), env, program, fuel))
    {
      ghost var spec := S.Eval(ctx, store, env, program, fuel);
      var result: Option<Object> := None;
      var k := 0;
      while k < |program|
        invariant Valid() && env == old(env) && |store| >= old(|store|) && k <= |program|
        invariant spec == S.ProgramFrom(ctx, store, env, program, k, result, fuel)
      {
        if !program[k].Blank? {
          var o := EvalStmt(program[k], fuel);
          if o.Panic? || (o.value.Some? && o.value.value.Error?) {
            r := o;
            return;
          } else if o.value.Some? && o.value.value.ReturnValue? {
            r := Done(Some(o.value.value.inner));
            return;
          }
          result := o.value;
        }
        k := k + 1;
      }
      r := Done(result);
    }

    /** `eval_stmt`. */
    method EvalStmt(s: A.Stmt, fuel: nat) returns (r: Outcome<Option<Object>>)
      requires Valid()
      modifies this
      ensures Valid() && env == old(env) && |store| >= old(|store|)
      ensures Agrees(r, store, S.EvalStmt(ctx, old(store), env, s, fuel))
      decreases fuel, s, 2
    {
      match s
      case Let(id, e) =>
        r := EvalExpr(e, fuel);
        if r.Done? && r.value.Some? && !r.value.value.Error? {
          r := Declare(id.name, r.value.value, false);
        }
      case Const(id, e) =>
        r := EvalExpr(e, fuel);
        if r.Done? && r.value.Some? && !r.value.value.Error? {
          r := Declare(id.name, r.value.value, true);
        }
      case Break =>
        r := Done(Some(BreakStatement));
      case Continue =>
        r := Done(Some(ContinueStatement));
      case Return(e) =>
        r := EvalExpr(e, fuel);
        if r.Done? && r.value.Some? {
          r := Done(Some(ReturnValue(r.value.value)));
        }
      case Expr(e) =>
        r := EvalExpr(e, fuel);
      case ReAssign(id, e) =>
        r := EvalExpr(e, fuel);
        if r.Done? && r.value.Some? && !r.value.value.Error? {
          var info := Update(id.name, r.value.value);
          match info {
            case ConstantForbidden =>
              r := Done(Some(Error("Can not assign to constant variable " + id.name + "!")));
            case NoIdentifier =>
              r := Done(Some(Error("No identifier " + id.name + "!")));
            case Succeed =>
              r := Done(None);
          }
        }
      case Blank =>
        r := Panic(Unimplemented);
    }

    /** `eval_expr`. */
    method EvalExpr(e: A.Expr, fuel: nat) returns (r: Outcome<Option<Object>>)
      requires Valid()
      modifies this
      ensures Valid() && env == old(env) && |store| >= old(|store|)
      ensures Agrees(r, store, S.EvalExpr(ctx, old(store), env, e, fuel))
      decreases fuel, e, 2
    {
      match e
      case Ident(id) =>
        var v := Get(id.name);
        r := Done(Some(if v.Some? then v.value else Error("identifier not found: " + id.name)));
      case Literal(_) =>
        r := EvalLiteral(e, fuel);
      case Prefix(p, right) =>
        r := EvalExpr(right, fuel);
        if r.Done? && r.value.Some? {
          r := Produced(S.EvalPrefix(ctx.esc, p, r.value.value));
        }
      case Infix(_, _, _) =>
        r := EvalOperands(e, fuel);
      case Index(_, _) =>
        r := EvalOperands(e, fuel);
      case While(_, _) =>
        r := EvalWhile(e, fuel);
      case If(_, _, _) =>
        r := EvalIf(e, fuel);
      case Function(params, body) =>
        r := Done(Some(Function(params, body, env)));
      case Call(_, _) =>
        r := EvalCall(e, fuel);
    }

    /** The two operands of an infix or index expression, left first, and then the operator. */
    method EvalOperands(e: A.Expr, fuel: nat) returns (r: Outcome<Option<Object>>)
      requires Valid() && (e.Infix? || e.Index?)
      modifies this
      ensures Valid() && env == old(env) && |store| >= old(|store|)
      ensures Agrees(r, store, S.EvalExpr(ctx, old(store), env, e, fuel))
      decreases fuel, e, 1
    {
      var a := EvalExpr(if e.Infix? then e.left else e.target, fuel);
      if a.Panic? {
        r := a;
        return;
      }
      var b := EvalExpr(if e.Infix? then e.right else e.index, fuel);
      if b.Panic? {
        r := b;
      } else if a.value.None? || b.value.None? {
        r := Done(None);
      } else if e.Infix? {
        r := Produced(S.EvalInfix(ctx.esc, e.infix, a.value.value, b.value.value));
      } else {
        r := Done(Some(S.EvalIndex(ctx.esc, a.value.value, b.value.value)));
      }
    }

    /** `eval_literal`. */
    method EvalLiteral(e: A.Expr, fuel: nat) returns (r: Outcome<Option<Object>>)
      requires Valid() && e.Literal?
      modifies this
      ensures Valid() && env == old(env) && |store| >= old(|store|)
      ensures Agrees(r, store, S.EvalExpr(ctx, old(store), env, e, fuel))
      decreases fuel, e, 1
    {
      match e.lit
      case Int(n) =>
        r := Done(Some(Int(n)));
      case String(s) =>
        r := Done(Some(String(s)));
      case Bool(b) =>
        r := Done(Some(Bool(b)));
      case Array(es) =>
        var vs := EvalList(es, fuel);
        r := if vs.Done? then Done(Some(Array(vs.value))) else Panic(vs.reason);
      case Hash(pairs) =>
        r := EvalHash(pairs, fuel);
    }

    /** `eval_array_literal`, and the arguments of a call: each value, or Null for none. */
    method EvalList(es: seq<A.Expr>, fuel: nat) returns (r: Outcome<seq<Object>>)
      requires Valid()
      modifies this
      ensures Valid() && env == old(env) && |store| >= old(|store|)
      ensures AgreesList(r, store, S.EvalList(ctx, old(store), env, es, 0, [], fuel))
      decreases fuel, es, 0
    {
      ghost var spec := S.EvalList(ctx, store, env, es, 0, [], fuel);
      var values: seq<Object> := [];
      var k := 0;
      while k < |es|
        invariant Valid() && env == old(env) && |store| >= old(|store|) && k <= |es|
        invariant spec == S.EvalList(ctx, store, env, es, k, values, fuel)
      {
        var v := EvalExpr(es[k], fuel);
        if v.Panic? {
          r := Panic(v.reason);
          return;
        }
        values := values + [S.OrNull(v.value)];
        k := k + 1;
      }
      r := Done(values);
    }

    /** `eval_hash_literal`. */
    method EvalHash(pairs: seq<A.Pair>, fuel: nat) returns (r: Outcome<Option<Object>>)
      requires Valid()
      modifies this
      ensures Valid() && env == old(env) && |store| >= old(|store|)
      ensures Agrees(r, store, S.HashFrom(ctx, old(store), env, pairs, 0, [], fuel))
      decreases fuel, pairs, 0
    {
      ghost var spec := S.HashFrom(ctx, store, env, pairs, 0, [], fuel);
      var entries: seq<Entry> := [];
      var k := 0;
      while k < |pairs|
        invariant Valid() && env == old(env) && |store| >= old(|store|) && k <= |pairs|
        invariant spec == S.HashFrom(ctx, store, env, pairs, k, entries, fuel)
      {
        assert pairs[k] in pairs && pairs[k].key < pairs[k] && pairs[k].value < pairs[k];
        var kr := EvalExpr(pairs[k].key, fuel);
        if kr.Panic? {
          r := kr;
          return;
        }
        var key := S.OrNull(kr.value);
        if key.Error? {
          r := Done(Some(key));
          return;
        }
        var vr := EvalExpr(pairs[k].value, fuel);
        if vr.Panic? {
          r := vr;
          return;
        }
        var value := S.OrNull(vr.value);
        if value.Error? {
          r := Done(Some(value));
          return;
        }
        entries := Insert(entries, key, value);
        k := k + 1;
      }
      r := Done(Some(Hash(entries)));
    }

    /** `eval_if_expr`. */
    method EvalIf(e: A.Expr, fuel: nat) returns (r: Outcome<Option<Object>>)
      requires Valid() && e.If?
      modifies this
      ensures Valid() && env == old(env) && |store| >= old(|store|)
      ensures Agrees(r, store, S.EvalExpr(ctx, old(store), env, e, fuel))
      decreases fuel, e, 1
    {
      var c := EvalExpr(e.cond, fuel);
      if c.Panic? || c.value.None? {
        r := c;
      } else if S.IsTruthy(c.value.value) {
        r := EvalBlock(e.consequence, fuel);
      } else if e.alternative.Else? {
        r := EvalBlock(e.alternative.block, fuel);
      } else {
        r := Done(None);
      }
    }

    /** `eval_while_expr`. */
    method EvalWhile(e: A.Expr, fuel: nat) returns (r: Outcome<Option<Object>>)
      requires Valid() && e.While?
      modifies this
      ensures Valid() && env == old(env) && |store| >= old(|store|)
      ensures Agrees(r, store, S.EvalExpr(ctx, old(store), env, e, fuel))
      decreases fuel, e, 1
    {
      ghost var spec := S.WhileLoop(ctx, store, env, e, None, fuel);
      var result: Option<Object> := None;
      var f: nat := fuel;
      var looping := true;
      r := Done(None);
      while looping
        invariant Valid() && env == old(env) && |store| >= old(|store|) && f <= fuel
        invariant looping ==> spec == S.WhileLoop(ctx, store, env, e, result, f)
        invariant !looping ==> Agrees(r, store, spec)
        decreases f, if looping then 1 else 0
      {
        var c := EvalExpr(e.cond, f);
        if c.Panic? {
          r := c;
          looping := false;
        } else if c.value.None? || !S.IsTruthy(c.value.value) {
          r := Done(result);
          looping := false;
        } else {
          var b := EvalLoopBlock(e.consequence, f);
          if b.Panic? || (b.value.Some? && b.value.value.ReturnValue?) {
            r := b;
            looping := false;
          } else if b.value.Some? && b.value.value.BreakStatement? {
            r := Done(Some(Null));
            looping := false;
          } else {
            if b.value.Some? && b.value.value.ContinueStatement? {
              result := Some(Null);
            }
            if f == 0 {
              r := Panic(FuelExhausted);
              looping := false;
            } else {
              f := f - 1;
            }
          }
        }
      }
    }

    /** `eval_block_stmt_with_continue_and_break_statement`. */
    method EvalLoopBlock(stmts: A.BlockStmt, fuel: nat) returns (r: Outcome<Option<Object>>)
      requires Valid()
      modifies this
      ensures Valid() && env == old(env) && |store| >= old(|store|)
      ensures Agrees(r, store, S.LoopBlockFrom(ctx, old(store), env, stmts, 0, None, fuel))
      decreases fuel, stmts, 0
    {
      ghost var spec := S.LoopBlockFrom(ctx, store, env, stmts, 0, None, fuel);
      var result: Option<Object> := None;
      var k := 0;
      while k < |stmts|
        invariant Valid() && env == old(env) && |store| >= old(|store|) && k <= |stmts|
        invariant spec == S.LoopBlockFrom(ctx, store, env, stmts, k, result, fuel)
      {
        if !stmts[k].Blank? {
          var o := EvalStmt(stmts[k], fuel);
          if o.Panic? || (o.value.Some? && (o.value.value.ReturnValue? || o.value.value.BreakStatement? ||
                                            o.value.value.ContinueStatement? || o.value.value.Error?)) {
            r := o;
            return;
          }
          result := o.value;
        }
        k := k + 1;
      }
      r := Done(result);
    }

    /** `eval_block_stmt`. */
    method EvalBlock(stmts: A.BlockStmt, fuel: nat) returns (r: Outcome<Option<Object>>)
      requires Valid()
      modifies this
      ensures Valid() && env == old(env) && |store| >= old(|store|)
      ensures Agrees(r, store, S.BlockFrom(ctx, old(store), env, stmts, 0, None, fuel))
      decreases fuel, stmts, 0
    {
      ghost var spec := S.BlockFrom(ctx, store, env, stmts, 0, None, fuel);
      var result: Option<Object> := None;
      var k := 0;
      while k < |stmts|
        invariant Valid() && env == old(env) && |store| >= old(|store|) && k <= |stmts|
        invariant spec == S.BlockFrom(ctx, store, env, stmts, k, result, fuel)
      {
        if !stmts[k].Blank? {
          var o := EvalStmt(stmts[k], fuel);
          if o.Panic? || (o.value.Some? && (o.value.value.ReturnValue? || o.value.value.Error?)) {
            r := o;
            return;
          }
          result := o.value;
        }
        k := k + 1;
      }
      r := Done(result);
    }

    /** Runs a function value's body in a new frame binding its parameters. */
    method CallClosure(ps: seq<A.Ident>, body: A.BlockStmt, captured: nat, args: seq<Object>, fuel: nat)
      returns (r: Outcome<Option<Object>>)
      requires Valid() && fuel > 0 && |ps| == |args|
      modifies this
      ensures Valid() && env == old(env) && |store| >= old(|store|)
      ensures Agrees(r, store, S.CallClosure(ctx, old(store), ps, body, captured, args, fuel))
      decreases fuel - 1, body, |body| + 1
    {
      var scope := EmptyScope;
      for i := 0 to |ps|
        invariant S.BindParams(EmptyScope, ps, args, 0) == S.BindParams(scope, ps, args, i)
      {
        scope := Set(scope, ps[i].name, args[i]);
      }
      var current := env;
      store := store + [Frame(scope, Some(captured))];
      env := |store| - 1;
      var b := EvalBlock(body, fuel - 1);
      env := current;
      if b.Panic? {
        r := b;
      } else if b.value.None? {
        r := Done(Some(Null));
      } else if b.value.value.ReturnValue? {
        r := Done(Some(b.value.value.inner));
      } else {
        r := b;
      }
    }

    /**
     * `eval_call_expr`: a function's parameters are set one by one in a fresh
     * frame over the frame it captured; `env` moves there for the body and is
     * restored afterwards.
     */
    method EvalCall(e: A.Expr, fuel: nat) returns (r: Outcome<Option<Object>>)
      requires Valid() && e.Call?
      modifies this
      ensures Valid() && env == old(env) && |store| >= old(|store|)
      ensures Agrees(r, store, S.EvalExpr(ctx, old(store), env, e, fuel))
      decreases fuel, e, 1
    {
      var av := EvalList(e.args, fuel);
      if av.Panic? {
        r := Panic(av.reason);
        return;
      }
      var args := av.value;
      var fv := EvalExpr(e.func, fuel);
      if fv.Panic? {
        r := fv;
        return;
      }
      if fv.value.None? {
        r := Done(Some(Null));
        return;
      }
      match fv.value.value {
        case Function(ps, body, captured) =>
          if |ps| != |args| {
            r := Done(Some(Error("wrong number of arguments: " + I64.Decimal(|ps|) + " expected but " +
                                 I64.Decimal(|args|) + " given")));
          } else if fuel == 0 {
            r := Panic(FuelExhausted);
          } else {
            r := CallClosure(ps, body, captured, args, fuel);
          }
        case Builtin(arity, f) =>
          if arity < 0 || arity == S.LengthAsI32(|args|) {
            r := Produced(B.Apply(ctx.esc, ctx.host, f, args));
          } else {
            r := Done(Some(Error("wrong number of arguments. got=" + I64.Decimal(|args|) + ", want=" +
                                 I64.Decimal(arity))));
          }
        case _ =>
          r := Done(Some(Error(Show(ctx.esc, fv.value.value) + " is not valid function")));
      }
    }
  }
}
