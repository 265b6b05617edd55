/**
 * What the evaluation of the `interpreter` snapshot promises: the operator,
 * truthiness and indexing rules, the sentinels that stop statement sequences,
 * bindings and their errors, loops, and calls that run in a fresh frame over
 * the captured one.
 */
module EvaluationProps {
  import opened Wrappers
  import opened I64
  import A = Ast
  import opened Objects
  import opened Environment
  import opened Evaluation

  // ---------------------------------------------------------------------------
  // Truthiness and the prefix operators.
  // ---------------------------------------------------------------------------

  /** Only Null and `false` are falsy, and `!x` is the negation of `x`'s truthiness. */
  lemma NotIsFalsity(esc: string -> string, o: Object)
    ensures IsTruthy(o) <==> o != Null && o != Bool(false)
    ensures EvalPrefix(esc, A.Prefix.Not, o) == Done(Bool(!IsTruthy(o)))
  {
  }

  /**
   * `-` undoes itself on every Int whose negation fits, panics on the one that
   * does not, and names the operand of any other type in its error; `+` is the
   * identity on Int.
   */
  lemma MinusRules(esc: string -> string, o: Object)
    ensures EvalPrefix(esc, A.Prefix.Minus, o).Panic? <==> o.Int? && o.value as int == MIN
    ensures o.Int? && o.value as int != MIN ==>
      EvalPrefix(esc, A.Prefix.Minus, o).Done? &&
      EvalPrefix(esc, A.Prefix.Minus, o).value.Int? &&
      EvalPrefix(esc, A.Prefix.Minus, o).value.value as int == - (o.value as int) &&
      EvalPrefix(esc, A.Prefix.Minus, EvalPrefix(esc, A.Prefix.Minus, o).value) == Done(o)
    ensures !o.Int? ==> EvalPrefix(esc, A.Prefix.Minus, o) == Done(Error("unknown operator: -" + Show(esc, o)))
    ensures o.Int? ==> EvalPrefix(esc, A.Prefix.Plus, o) == Done(o)
    ensures !o.Int? ==> EvalPrefix(esc, A.Prefix.Plus, o) == Done(Error("unknown operator: " + Show(esc, o)))
  {
  }

  // ---------------------------------------------------------------------------
  // The infix operators.
  // ---------------------------------------------------------------------------

  /** Integer operators are exact whenever the result fits in an i64; otherwise the host panics. */
  lemma IntArithmetic(a: int64, b: int64)
    ensures IntInfix(A.Infix.Plus, a, b) ==
      if MIN <= a as int + b as int <= MAX then Done(Int((a as int + b as int) as int64)) else Panic(IntOverflow)
    ensures IntInfix(A.Infix.Minus, a, b) ==
      if MIN <= a as int - b as int <= MAX then Done(Int((a as int - b as int) as int64)) else Panic(IntOverflow)
    ensures IntInfix(A.Infix.Multiply, a, b) ==
      if MIN <= a as int * b as int <= MAX then Done(Int((a as int * b as int) as int64)) else Panic(IntOverflow)
    ensures b == 0 ==> IntInfix(A.Infix.Divide, a, b) == Panic(DivisionByZero)
    ensures b != 0 ==> (IntInfix(A.Infix.Divide, a, b).Panic? <==> a as int == MIN && b == -1)
    ensures b != 0 && IntInfix(A.Infix.Divide, a, b).Done? ==>
      IntInfix(A.Infix.Divide, a, b) == Done(Int(TruncDiv(a as int, b as int) as int64))
  {
    if b != 0 {
      DivOverflowOnlyAtMin(a, b);
    }
  }

  /** The comparisons never panic and give the Bool the comparison of the two numbers gives. */
  lemma IntComparisons(a: int64, b: int64)
    ensures IntInfix(A.Infix.LT, a, b) == Done(Bool(a < b))
    ensures IntInfix(A.Infix.LTEQ, a, b) == Done(Bool(a <= b))
    ensures IntInfix(A.Infix.GT, a, b) == Done(Bool(a > b))
    ensures IntInfix(A.Infix.GTEQ, a, b) == Done(Bool(a >= b))
    ensures IntInfix(A.Infix.Equal, a, b) == Done(Bool(a == b))
    ensures IntInfix(A.Infix.NotEqual, a, b) == Done(Bool(a != b))
  {
  }

  /**
   * Dispatch on the operand types: two Ints use integer arithmetic, two Strings
   * only concatenate, an Int or String meets a different type with a type
   * mismatch, and every other left operand is an unknown operator. Only
   * integer arithmetic can panic.
   */
  lemma InfixDispatch(esc: string -> string, op: A.Infix, l: Object, r: Object)
    ensures l.Int? && r.Int? ==> EvalInfix(esc, op, l, r) == IntInfix(op, l.value, r.value)
    ensures l.String? && r.String? ==>
      EvalInfix(esc, op, l, r) ==
        Done(if op.Plus? then String(l.text + r.text)
             else Error("unknown operator: " + l.text + " " + A.InfixSymbol(op) + " " + r.text))
    ensures l.Int? && !r.Int? ==>
      EvalInfix(esc, op, l, r) ==
        Done(Error("type mismatch: " + Show(esc, l) + " " + A.InfixSymbol(op) + " " + Show(esc, r)))
    ensures l.String? && !r.String? ==>
      EvalInfix(esc, op, l, r) ==
        Done(Error("type mismatch: " + l.text + " " + A.InfixSymbol(op) + " " + Show(esc, r)))
    ensures !l.Int? && !l.String? ==>
      EvalInfix(esc, op, l, r) ==
        Done(Error("unknown operator: " + Show(esc, l) + " " + A.InfixSymbol(op) + " " + Show(esc, r)))
    ensures EvalInfix(esc, op, l, r).Panic? ==> l.Int? && r.Int?
  {
  }

  /** Booleans have no operators at all: even `true == true` is an error. */
  lemma BoolsDoNotCompare(esc: string -> string, a: bool, b: bool)
    ensures EvalInfix(esc, A.Infix.Equal, Bool(a), Bool(b)).Done?
    ensures EvalInfix(esc, A.Infix.Equal, Bool(a), Bool(b)).value.Error?
  {
  }

  // ---------------------------------------------------------------------------
  // Indexing.
  // ---------------------------------------------------------------------------

  /**
   * An array index yields the element exactly when it lies in `[0, len)`, and
   * Null otherwise, `len` itself included. (Every array that can exist has
   * fewer than 2^63 elements, so its length converts to an i64 unchanged.)
   */
  lemma ArrayIndexRule(es: seq<Object>, i: int64)
    requires |es| <= MAX
    ensures ArrayIndex(es, i) == if 0 <= i as int < |es| then es[i] else Null
  {
  }

  /**
   * Indexing a hash by an Int, Bool or String finds the value stored under an
   * equal key: the value just inserted under a key is found under it, other
   * keys find what they found before, and a key no entry carries gives Null.
   * An Error index is passed on, any other index is unusable, and a non-Int
   * index into an array is not supported.
   */
  lemma HashIndexRule(esc: string -> string, kvs: seq<Entry>, k: Object, v: Object, k': Object)
    ensures Hashable(k) ==> EvalIndex(esc, Hash(Insert(kvs, k, v)), k) == v
    ensures Hashable(k') && k' != k ==> EvalIndex(esc, Hash(Insert(kvs, k, v)), k') == EvalIndex(esc, Hash(kvs), k')
    ensures Hashable(k) && (forall i :: 0 <= i < |kvs| ==> kvs[i].key != k) ==> EvalIndex(esc, Hash(kvs), k) == Null
    ensures k.Error? ==> EvalIndex(esc, Hash(kvs), k) == k
    ensures !Hashable(k) && !k.Error? ==> EvalIndex(esc, Hash(kvs), k) == Error("unusable as hash key: " + Show(esc, k))
    ensures forall es :: !k.Int? ==> EvalIndex(esc, Array(es), k) == Error("index operator not supported: " + Show(esc, Array(es)))
  {
    InsertLookup(kvs, k, v, k);
    InsertLookup(kvs, k, v, k');
    LookupFinds(kvs, k);
  }

  /** Only arrays and hashes can be indexed. */
  lemma IndexOtherBases(esc: string -> string, left: Object, index: Object)
    requires !left.Array? && !left.Hash?
    ensures EvalIndex(esc, left, index) == Error("uknown operator: " + Show(esc, left) + " " + Show(esc, index))
  {
  }

  /** A hash literal never holds two entries with the same key: a repeated key keeps its place and takes the later value. */
  lemma {:induction false} HashLiteralDistinct(ctx: Ctx, store: Store, env: nat, pairs: seq<A.Pair>, k: nat,
                                               kvs: seq<Entry>, fuel: nat)
    requires env < |store| && k <= |pairs| && DistinctKeys(kvs)
    ensures var r := HashFrom(ctx, store, env, pairs, k, kvs, fuel);
      r.Done? && r.value.value.Some? && r.value.value.value.Hash? ==> DistinctKeys(r.value.value.value.entries)
    decreases |pairs| - k
  {
    if k < |pairs| {
      var kr := EvalExpr(ctx, store, env, pairs[k].key, fuel);
      if kr.Done? && !OrNull(kr.value.value).Error? {
        var vr := EvalExpr(ctx, kr.value.store, env, pairs[k].value, fuel);
        if vr.Done? && !OrNull(vr.value.value).Error? {
          InsertDistinct(kvs, OrNull(kr.value.value), OrNull(vr.value.value));
          HashLiteralDistinct(ctx, vr.value.store, env, pairs, k + 1,
                              Insert(kvs, OrNull(kr.value.value), OrNull(vr.value.value)), fuel);
        }
      }
    }
  }

  // ---------------------------------------------------------------------------
  // Statement sequences.
  // ---------------------------------------------------------------------------

  /**
   * A program runs statement by statement: `Blank` is skipped; a return value
   * ends the program with the value it wraps; an error ends it as it is;
   * anything else becomes the result so far and the rest runs in the new store.
   */
  lemma ProgramStep(ctx: Ctx, store: Store, env: nat, s: A.Stmt, rest: A.Program, result: Option<Object>, fuel: nat)
    requires env < |store|
    ensures s.Blank? ==>
      ProgramFrom(ctx, store, env, [s] + rest, 0, result, fuel) == ProgramFrom(ctx, store, env, rest, 0, result, fuel)
    ensures !s.Blank? ==>
      ProgramFrom(ctx, store, env, [s] + rest, 0, result, fuel) ==
        match EvalStmt(ctx, store, env, s, fuel)
        case Panic(f) => Panic(f)
        case Done(r) =>
          if r.value.Some? && r.value.value.ReturnValue? then Done(Res(Some(r.value.value.inner), r.store))
          else if r.value.Some? && r.value.value.Error? then Done(r)
          else ProgramFrom(ctx, r.store, env, rest, 0, r.value, fuel)
  {
    if !s.Blank? {
      var e := EvalStmt(ctx, store, env, s, fuel);
      if e.Done? {
        ProgramShift(ctx, e.value.store, env, s, rest, 0, e.value.value, fuel);
      }
    } else {
      ProgramShift(ctx, store, env, s, rest, 0, result, fuel);
    }
  }

  /** Running the statements after the first of `[s] + rest` is running `rest`. */
  lemma {:induction false} ProgramShift(ctx: Ctx, store: Store, env: nat, s: A.Stmt, rest: A.Program, k: nat,
                                        result: Option<Object>, fuel: nat)
    requires env < |store| && k <= |rest|
    ensures ProgramFrom(ctx, store, env, [s] + rest, k + 1, result, fuel) == ProgramFrom(ctx, store, env, rest, k, result, fuel)
    decreases |rest| - k
  {
    var p := [s] + rest;
    if k < |rest| {
      assert p[k + 1] == rest[k];
      if !rest[k].Blank? {
        var e := EvalStmt(ctx, store, env, rest[k], fuel);
        if e.Done? {
          ProgramShift(ctx, e.value.store, env, s, rest, k + 1, e.value.value, fuel);
        }
      } else {
        ProgramShift(ctx, store, env, s, rest, k + 1, result, fuel);
      }
    }
  }

  /**
   * Inside a loop body `break` and `continue` end the body, but a plain block
   * (the body of an `if` or a function) takes them as ordinary values and
   * goes on with the next statement.
   */
  lemma BreakEndsOnlyLoopBodies(ctx: Ctx, store: Store, env: nat, rest: A.BlockStmt, result: Option<Object>, fuel: nat)
    requires env < |store|
    ensures LoopBlockFrom(ctx, store, env, [A.Break] + rest, 0, result, fuel) == Done(Res(Some(BreakStatement), store))
    ensures LoopBlockFrom(ctx, store, env, [A.Continue] + rest, 0, result, fuel) == Done(Res(Some(ContinueStatement), store))
    ensures BlockFrom(ctx, store, env, [A.Break] + rest, 0, result, fuel) ==
      BlockFrom(ctx, store, env, rest, 0, Some(BreakStatement), fuel)
  {
    BlockShift(ctx, store, env, A.Break, rest, 0, Some(BreakStatement), fuel);
  }

  lemma {:induction false} BlockShift(ctx: Ctx, store: Store, env: nat, s: A.Stmt, rest: A.BlockStmt, k: nat,
                                      result: Option<Object>, fuel: nat)
    requires env < |store| && k <= |rest|
    ensures BlockFrom(ctx, store, env, [s] + rest, k + 1, result, fuel) == BlockFrom(ctx, store, env, rest, k, result, fuel)
    decreases |rest| - k
  {
    var p := [s] + rest;
    if k < |rest| {
      assert p[k + 1] == rest[k];
      if !rest[k].Blank? {
        var e := EvalStmt(ctx, store, env, rest[k], fuel);
        if e.Done? {
          BlockShift(ctx, e.value.store, env, s, rest, k + 1, e.value.value, fuel);
        }
      } else {
        BlockShift(ctx, store, env, s, rest, k + 1, result, fuel);
      }
    }
  }

  // ---------------------------------------------------------------------------
  // Bindings.
  // ---------------------------------------------------------------------------

  /**
   * `let` and `const` of a name the current frame does not hold bind it there,
   * `const` marks it constant, and nothing else in the store changes.
   */
  lemma DeclareFresh(store: Store, env: nat, name: string, v: Object, constant: bool)
    requires env < |store| && name !in store[env].scope.identifiers
    ensures var r := Declare(store, env, name, v, constant);
      && r.value.None?
      && StoreGet(r.store, env, name) == Some(v)
      && (constant ==> IsConstant(r.store[env].scope, name))
      && (!constant ==> IsConstant(r.store[env].scope, name) == IsConstant(store[env].scope, name))
      && r.store[env].outer == store[env].outer
      && (forall i :: 0 <= i < |store| && i != env ==> r.store[i] == store[i])
      && (forall m :: m != name ==> StoreGet(r.store, env, m) == StoreGet(store, env, m))
  {
    var r := Declare(store, env, name, v, constant);
    forall m | m != name ensures StoreGet(r.store, env, m) == StoreGet(store, env, m) {
      assert OuterOf(r.store, env) == OuterOf(store, env);
      match OuterOf(store, env)
      case None =>
      case Some(j) =>
        StoreBelow(store, r.store, j, m);
    }
  }

  /** Changing frames above `i` does not change what `get` finds from `i`. */
  lemma {:induction false} StoreBelow(store: Store, store': Store, i: nat, n: string)
    requires i < |store| <= |store'|
    requires forall k :: 0 <= k <= i ==> store'[k] == store[k]
    ensures StoreGet(store', i, n) == StoreGet(store, i, n)
  {
    ChainBelow(store, store', i);
    StoreGetIsGet(store, i, n);
    StoreGetIsGet(store', i, n);
  }

  /** Declaring a name the current frame already holds is refused, with a message naming it, and changes nothing. */
  lemma DeclareTaken(store: Store, env: nat, name: string, v: Object, constant: bool)
    requires env < |store| && name in store[env].scope.identifiers
    ensures Declare(store, env, name, v, constant) ==
      Res(Some(Error(if IsConstant(store[env].scope, name) then "Can not redeclare constant variable " + name + "!"
                     else "Can not redeclare variable " + name + "!")), store)
  {
  }

  /**
   * `let`, `const` and reassignment pass on an error value unbound, and a
   * statement whose expression has no value has none either.
   */
  lemma BindingPassesErrors(ctx: Ctx, store: Store, env: nat, id: A.Ident, e: A.Expr, fuel: nat)
    requires env < |store|
    requires EvalExpr(ctx, store, env, e, fuel).Done?
    requires var r := EvalExpr(ctx, store, env, e, fuel).value; r.value.None? || r.value.value.Error?
    ensures EvalStmt(ctx, store, env, A.Let(id, e), fuel) == EvalExpr(ctx, store, env, e, fuel)
    ensures EvalStmt(ctx, store, env, A.Const(id, e), fuel) == EvalExpr(ctx, store, env, e, fuel)
    ensures EvalStmt(ctx, store, env, A.ReAssign(id, e), fuel) == EvalExpr(ctx, store, env, e, fuel)
  {
  }

  /**
   * Reassignment is `update` on the current frame's chain: it reports a missing
   * name exactly when no frame outwards binds it, and a constant exactly when
   * the innermost frame binding it marks it constant; in both cases the store
   * is unchanged. Otherwise `get` afterwards finds the new value.
   */
  lemma ReassignMeaning(store: Store, env: nat, name: string, v: Object)
    requires env < |store|
    ensures var r := Reassign(store, env, name, v);
      && (r.value == Some(Error("No identifier " + name + "!")) <==> Get(ChainAt(store, env), name).None?)
      && (r.value == Some(Error("Can not assign to constant variable " + name + "!")) <==>
            exists i :: BindsAt(ChainAt(store, env), name, i) && IsConstant(ChainAt(store, env)[i], name))
      && (r.value.Some? ==> r.store == store)
      && (r.value.None? ==> StoreGet(r.store, env, name) == Some(v))
  {
    var chain := ChainAt(store, env);
    StoreUpdateIsUpdate(store, env, name, v);
    UpdateOutcome(chain, name, v);
    var u := StoreUpdate(store, env, name, v);
    assert ("No identifier " + name + "!")[0] == 'N';
    assert ("Can not assign to constant variable " + name + "!")[0] == 'C';
    if u.0 == Succeed {
      UpdateThenGet(chain, name, v, name);
      StoreGetIsGet(u.1, env, name);
    }
  }

  /** Once a name is constant in the frame that binds it innermost, every reassignment of it is refused. */
  lemma ConstantStaysConstant(store: Store, env: nat, name: string, v: Object)
    requires env < |store| && name in store[env].scope.identifiers && IsConstant(store[env].scope, name)
    ensures Reassign(store, env, name, v) == Res(Some(Error("Can not assign to constant variable " + name + "!")), store)
  {
  }

  // ---------------------------------------------------------------------------
  // Conditionals and loops.
  // ---------------------------------------------------------------------------

  /** An `if` with a falsy condition and no `else` has no value at all, not Null. */
  lemma IfWithoutElse(ctx: Ctx, store: Store, env: nat, cond: A.Expr, consequence: A.BlockStmt, fuel: nat)
    requires env < |store|
    requires var c := EvalExpr(ctx, store, env, cond, fuel); c.Done? && c.value.value.Some? && !IsTruthy(c.value.value.value)
    ensures EvalExpr(ctx, store, env, A.If(cond, consequence, A.NoElse), fuel) ==
      Done(Res(None, EvalExpr(ctx, store, env, cond, fuel).value.store))
  {
  }

  /**
   * One round of `while` whose condition holds: `break` ends the loop with
   * Null, a return value leaves it unchanged, `continue` makes the result Null
   * and tests the condition again, and any other outcome of the body, an error
   * included, leaves the result as it was and tests the condition again.
   */
  lemma WhileRound(ctx: Ctx, store: Store, env: nat, e: A.Expr, result: Option<Object>, fuel: nat)
    requires env < |store| && e.While?
    requires var c := EvalExpr(ctx, store, env, e.cond, fuel); c.Done? && c.value.value.Some? && IsTruthy(c.value.value.value)
    requires LoopBlockFrom(ctx, EvalExpr(ctx, store, env, e.cond, fuel).value.store, env, e.consequence, 0, None, fuel).Done?
    ensures var b := LoopBlockFrom(ctx, EvalExpr(ctx, store, env, e.cond, fuel).value.store, env, e.consequence, 0, None, fuel).value;
      && (b.value == Some(BreakStatement) ==> WhileLoop(ctx, store, env, e, result, fuel) == Done(Res(Some(Null), b.store)))
      && (b.value.Some? && b.value.value.ReturnValue? ==> WhileLoop(ctx, store, env, e, result, fuel) == Done(b))
      && (b.value == Some(ContinueStatement) && fuel > 0 ==>
            WhileLoop(ctx, store, env, e, result, fuel) == WhileLoop(ctx, b.store, env, e, Some(Null), fuel - 1))
      && (b.value.Some? && b.value.value.Error? && fuel > 0 ==>
            WhileLoop(ctx, store, env, e, result, fuel) == WhileLoop(ctx, b.store, env, e, result, fuel - 1))
  {
  }

  /** A loop whose condition is falsy at once has no value: its body never runs. */
  lemma WhileNeverEntered(ctx: Ctx, store: Store, env: nat, e: A.Expr, fuel: nat)
    requires env < |store| && e.While?
    requires var c := EvalExpr(ctx, store, env, e.cond, fuel); c.Done? && c.value.value.Some? && !IsTruthy(c.value.value.value)
    ensures EvalExpr(ctx, store, env, e, fuel) == Done(Res(None, EvalExpr(ctx, store, env, e.cond, fuel).value.store))
  {
  }

  // ---------------------------------------------------------------------------
  // Calls.
  // ---------------------------------------------------------------------------

  /** The arguments are evaluated first: if one of them panics, the callee is never evaluated. */
  lemma ArgumentsFirst(ctx: Ctx, store: Store, env: nat, func: A.Expr, args: seq<A.Expr>, fuel: nat)
    requires env < |store|
    requires EvalList(ctx, store, env, args, 0, [], fuel).Panic?
    ensures EvalExpr(ctx, store, env, A.Expr.Call(func, args), fuel) == Panic(EvalList(ctx, store, env, args, 0, [], fuel).reason)
  {
  }

  /**
   * A call's fresh frame sees its parameters first and then exactly what the
   * captured frame sees; the frames that were there before are untouched.
   */
  lemma CallFrameChain(store: Store, scope: Scope, captured: nat)
    requires captured < |store|
    ensures ChainAt(store + [Frame(scope, Some(captured))], |store|) == [scope] + ChainAt(store, captured)
    ensures forall i :: 0 <= i < |store| ==> ChainAt(store + [Frame(scope, Some(captured))], i) == ChainAt(store, i)
  {
    var s' := store + [Frame(scope, Some(captured))];
    ChainBelow(store, s', captured);
    forall i | 0 <= i < |store| ensures ChainAt(s', i) == ChainAt(store, i) {
      ChainBelow(store, s', i);
    }
  }

  /**
   * Calling a function value with the right number of arguments runs its body
   * in a new frame, placed after every existing frame, whose outer frame is the
   * captured one and which binds the parameters; a return value is unwrapped
   * and no value becomes Null.
   */
  lemma CallRunsBodyOverCapturedFrame(ctx: Ctx, store: Store, env: nat, func: A.Expr, args: seq<A.Expr>, fuel: nat)
    requires env < |store| && fuel > 0
    requires EvalList(ctx, store, env, args, 0, [], fuel).Done?
    requires var av := EvalList(ctx, store, env, args, 0, [], fuel).value;
      var fr := EvalExpr(ctx, av.store, env, func, fuel);
      fr.Done? && fr.value.value.Some? && fr.value.value.value.Function? &&
      |fr.value.value.value.params| == |av.values|
    ensures var av := EvalList(ctx, store, env, args, 0, [], fuel).value;
      var fr := EvalExpr(ctx, av.store, env, func, fuel).value;
      var f := fr.value.value;
      var frame := Frame(BindParams(EmptyScope, f.params, av.values, 0), Some(f.env));
      var b := BlockFrom(ctx, fr.store + [frame], |fr.store|, f.body, 0, None, fuel - 1);
      && (f.env < |fr.store| ==>
            ChainAt(fr.store + [frame], |fr.store|) == [frame.scope] + ChainAt(fr.store, f.env))
      && EvalExpr(ctx, store, env, A.Expr.Call(func, args), fuel) ==
           if b.Panic? then Panic(b.reason)
           else Done(Res(Some(if b.value.value.None? then Null
                              else if b.value.value.value.ReturnValue? then b.value.value.value.inner
                              else b.value.value.value), b.value.store))
  {
    var av := EvalList(ctx, store, env, args, 0, [], fuel).value;
    var fr := EvalExpr(ctx, av.store, env, func, fuel).value;
    var f := fr.value.value;
    if f.env < |fr.store| {
      CallFrameChain(fr.store, BindParams(EmptyScope, f.params, av.values, 0), f.env);
    }
    CallIsClosure(ctx, store, env, func, args, fuel);
    ClosureResult(ctx, fr.store, f.params, f.body, f.env, av.values, fuel);
  }

  /** A call whose callee is a function value of the right arity is that closure's run. */
  lemma CallIsClosure(ctx: Ctx, store: Store, env: nat, func: A.Expr, args: seq<A.Expr>, fuel: nat)
    requires env < |store| && fuel > 0
    requires EvalList(ctx, store, env, args, 0, [], fuel).Done?
    requires var av := EvalList(ctx, store, env, args, 0, [], fuel).value;
      var fr := EvalExpr(ctx, av.store, env, func, fuel);
      fr.Done? && fr.value.value.Some? && fr.value.value.value.Function? &&
      |fr.value.value.value.params| == |av.values|
    ensures var av := EvalList(ctx, store, env, args, 0, [], fuel).value;
      var fr := EvalExpr(ctx, av.store, env, func, fuel).value;
      var f := fr.value.value;
      EvalExpr(ctx, store, env, A.Expr.Call(func, args), fuel) ==
        CallClosure(ctx, fr.store, f.params, f.body, f.env, av.values, fuel)
  {
  }

  /** A call without arguments to an expression that yields a function value of no parameters. */
  lemma NoArgumentCall(ctx: Ctx, store: Store, env: nat, func: A.Expr, body: A.BlockStmt, captured: nat, fuel: nat)
    requires env < |store| && fuel > 0
    requires EvalExpr(ctx, store, env, func, fuel) == Done(Res(Some(Function([], body, captured)), store))
    ensures EvalExpr(ctx, store, env, A.Expr.Call(func, []), fuel) == CallClosure(ctx, store, [], body, captured, [], fuel)
  {
    assert EvalList(ctx, store, env, [], 0, [], fuel) == Done(Vals([], store));
  }

  /** The run of a closure, told as the block it evaluates and what becomes of that block's value. */
  lemma ClosureResult(ctx: Ctx, store: Store, ps: seq<A.Ident>, body: A.BlockStmt, captured: nat,
                      args: seq<Object>, fuel: nat)
    requires fuel > 0 && |ps| == |args|
    ensures var frame := Frame(BindParams(EmptyScope, ps, args, 0), Some(captured));
      var b := BlockFrom(ctx, store + [frame], |store|, body, 0, None, fuel - 1);
      CallClosure(ctx, store, ps, body, captured, args, fuel) ==
        if b.Panic? then Panic(b.reason)
        else Done(Res(Some(if b.value.value.None? then Null
                           else if b.value.value.value.ReturnValue? then b.value.value.value.inner
                           else b.value.value.value), b.value.store))
  {
  }

  /** Argument counts are checked: a function against its parameters, a builtin against its arity unless that is negative. */
  lemma CallArity(ctx: Ctx, store: Store, env: nat, func: A.Expr, args: seq<A.Expr>, fuel: nat)
    requires env < |store|
    requires EvalList(ctx, store, env, args, 0, [], fuel).Done?
    requires var av := EvalList(ctx, store, env, args, 0, [], fuel).value;
      EvalExpr(ctx, av.store, env, func, fuel).Done? && EvalExpr(ctx, av.store, env, func, fuel).value.value.Some?
    ensures var av := EvalList(ctx, store, env, args, 0, [], fuel).value;
      var fr := EvalExpr(ctx, av.store, env, func, fuel).value;
      var f := fr.value.value;
      var n := |av.values|;
      && (f.Function? && |f.params| != n ==>
            EvalExpr(ctx, store, env, A.Expr.Call(func, args), fuel) ==
              Done(Res(Some(Error("wrong number of arguments: " + Decimal(|f.params|) + " expected but " +
                                  Decimal(n) + " given")), fr.store)))
      && (f.Builtin? && f.arity >= 0 && f.arity != LengthAsI32(n) ==>
            EvalExpr(ctx, store, env, A.Expr.Call(func, args), fuel) ==
              Done(Res(Some(Error("wrong number of arguments. got=" + Decimal(n) + ", want=" +
                                  Decimal(f.arity))), fr.store)))
      && (!f.Function? && !f.Builtin? ==>
            EvalExpr(ctx, store, env, A.Expr.Call(func, args), fuel) ==
              Done(Res(Some(Error(Show(ctx.esc, f) + " is not valid function")), fr.store)))
  {
    assert EvalExpr(ctx, store, env, A.Expr.Call(func, args), fuel) ==
      EvalCall(ctx, store, env, A.Expr.Call(func, args), fuel);
  }

  /** Binding the parameters binds every parameter name, keeps every other binding, and marks nothing constant. */
  lemma {:induction false} BindParamsDomain(s: Scope, ps: seq<A.Ident>, args: seq<Object>, k: nat)
    requires |ps| == |args| && k <= |ps|
    ensures var r := BindParams(s, ps, args, k);
      && r.statuses == s.statuses
      && (forall n :: n in r.identifiers <==> n in s.identifiers || exists i :: k <= i < |ps| && ps[i].name == n)
    decreases |ps| - k
  {
    if k < |ps| {
      var s' := Set(s, ps[k].name, args[k]);
      BindParamsDomain(s', ps, args, k + 1);
      assert forall n :: n in s'.identifiers <==> n in s.identifiers || n == ps[k].name;
    }
  }

  /**
   * A parameter name is bound to the argument at its last position, and a name
   * that is no parameter keeps its value.
   */
  lemma BindParamsValues(s: Scope, ps: seq<A.Ident>, args: seq<Object>, k: nat)
    requires |ps| == |args| && k <= |ps|
    ensures var r := BindParams(s, ps, args, k);
      && (forall n :: n in s.identifiers && NotRebound(ps, k, n) ==>
            n in r.identifiers && r.identifiers[n] == s.identifiers[n])
      && (forall i :: k <= i < |ps| && NotRebound(ps, i + 1, ps[i].name) ==>
            ps[i].name in r.identifiers && r.identifiers[ps[i].name] == args[i])
  {
    BindParamsKeeps(s, ps, args, k);
    BindParamsLast(s, ps, args, k);
  }

  /** No parameter from position `k` on is named `n`. */
  predicate NotRebound(ps: seq<A.Ident>, k: nat, n: string)
  {
    forall i :: k <= i < |ps| ==> ps[i].name != n
  }

  /** A name no remaining parameter has keeps its binding. */
  lemma {:induction false} BindParamsKeeps(s: Scope, ps: seq<A.Ident>, args: seq<Object>, k: nat)
    requires |ps| == |args| && k <= |ps|
    ensures var r := BindParams(s, ps, args, k);
      forall n :: n in s.identifiers && NotRebound(ps, k, n) ==>
        n in r.identifiers && r.identifiers[n] == s.identifiers[n]
    decreases |ps| - k
  {
    if k < |ps| {
      BindParamsKeeps(Set(s, ps[k].name, args[k]), ps, args, k + 1);
    }
  }

  /** A parameter that no later parameter shadows is bound to its argument. */
  lemma {:induction false} BindParamsLast(s: Scope, ps: seq<A.Ident>, args: seq<Object>, k: nat)
    requires |ps| == |args| && k <= |ps|
    ensures var r := BindParams(s, ps, args, k);
      forall i :: k <= i < |ps| && NotRebound(ps, i + 1, ps[i].name) ==>
        ps[i].name in r.identifiers && r.identifiers[ps[i].name] == args[i]
    decreases |ps| - k
  {
    if k < |ps| {
      var s' := Set(s, ps[k].name, args[k]);
      BindParamsLast(s', ps, args, k + 1);
      BindParamsKeeps(s', ps, args, k + 1);
      assert ps[k].name in s'.identifiers && s'.identifiers[ps[k].name] == args[k];
    }
  }


}
