/**
 * The builtin functions every snapshot binds in its global environment, and
 * the pure ones among them: `len`, `first`, `last`, `rest`, `push` and the
 * display-based deep-equal `没关系的都一样`. The three snapshots share the
 * definitions of the pure builtins line for line; they differ in which names
 * their registries bind.
 */
module Builtins {
  import opened Wrappers
  import opened I64
  import opened Objects
  import A = Ast

  // ---------------------------------------------------------------------------
  // Registries (`new_builtins`).
  // ---------------------------------------------------------------------------

  /** The registry of the `interpreter` snapshot. */
  function InterpreterBuiltins(): map<string, Object>
  {
    map[
      "len" := Builtin(1, Len), "first" := Builtin(1, First), "last" := Builtin(1, Last),
      "rest" := Builtin(1, Rest), "push" := Builtin(2, Push),
      "广播" := Builtin(1, Puts), "二向箔清理" := Builtin(0, Clear), "毁灭" := Builtin(0, Exit),
      "冬眠" := Builtin(1, Sleep), "random" := Builtin(1, Random),
      "没关系的都一样" := Builtin(2, DeepEqual)]
  }

  /** The registry of the `three_body_e2021` snapshot: no deep-equal, but `import`. */
  function E2021Builtins(): map<string, Object>
  {
    map[
      "len" := Builtin(1, Len), "first" := Builtin(1, First), "last" := Builtin(1, Last),
      "rest" := Builtin(1, Rest), "push" := Builtin(2, Push),
      "广播" := Builtin(1, Puts), "二向箔清理" := Builtin(0, Clear), "毁灭" := Builtin(0, Exit),
      "冬眠" := Builtin(1, Sleep), "import" := Builtin(1, Import), "random" := Builtin(1, Random)]
  }

  /** The registry of the `src` snapshot: `import` under two names. */
  function SrcBuiltins(): map<string, Object>
  {
    map[
      "len" := Builtin(1, Len), "first" := Builtin(1, First), "last" := Builtin(1, Last),
      "rest" := Builtin(1, Rest), "push" := Builtin(2, Push),
      "广播" := Builtin(1, Puts), "二向箔清理" := Builtin(0, Clear), "毁灭" := Builtin(0, Exit),
      "冬眠" := Builtin(1, Sleep), "import" := Builtin(1, Import), "引入" := Builtin(1, Import),
      "random" := Builtin(1, Random)]
  }

  /** The bindings every registry shares: the five list builtins at their arities. */
  predicate BindsListBuiltins(r: map<string, Object>)
  {
    && "len" in r && r["len"] == Builtin(1, Len)
    && "first" in r && r["first"] == Builtin(1, First)
    && "last" in r && r["last"] == Builtin(1, Last)
    && "rest" in r && r["rest"] == Builtin(1, Rest)
    && "push" in r && r["push"] == Builtin(2, Push)
  }

  lemma InterpreterRegistry()
    ensures BindsListBuiltins(InterpreterBuiltins())
    ensures InterpreterBuiltins()["没关系的都一样"] == Builtin(2, DeepEqual)
    ensures "import" !in InterpreterBuiltins()
    ensures forall n :: n in InterpreterBuiltins() ==> InterpreterBuiltins()[n].Builtin?
  {
  }

  lemma E2021Registry()
    ensures BindsListBuiltins(E2021Builtins())
    ensures E2021Builtins()["import"] == Builtin(1, Import)
    ensures "没关系的都一样" !in E2021Builtins()
    ensures forall n :: n in E2021Builtins() ==> E2021Builtins()[n].Builtin?
  {
  }

  /** Both import names are bound to the same function at the same arity, so they compare equal. */
  lemma SrcRegistry()
    ensures BindsListBuiltins(SrcBuiltins())
    ensures SrcBuiltins()["import"] == SrcBuiltins()["引入"] == Builtin(1, Import)
    ensures "没关系的都一样" !in SrcBuiltins()
    ensures forall n :: n in SrcBuiltins() ==> SrcBuiltins()[n].Builtin?
  {
  }

  /** What a call of the builtin bound to `name` in registry `r` gives. */
  function CallBound(r: map<string, Object>, name: string, esc: string -> string, host: Host,
                     args: seq<Object>): Outcome<Object>
    requires name in r && r[name].Builtin?
  {
    Apply(esc, host, r[name].func, args)
  }

  /**
   * A registry that binds the list builtins gives, on an array, its length, its
   * ends (Null when empty), its tail (Null when empty) and the appended copy,
   * and the "must be array" error for anything else.
   */
  lemma ListBuiltinsOf(r: map<string, Object>, esc: string -> string, host: Host,
                       es: seq<Object>, v: Object, o: Object)
    requires BindsListBuiltins(r)
    ensures |es| <= MAX ==> CallBound(r, "len", esc, host, [Array(es)]) == Done(Int(|es| as int64))
    ensures CallBound(r, "first", esc, host, [Array(es)]) == Done(if |es| > 0 then es[0] else Null)
    ensures CallBound(r, "last", esc, host, [Array(es)]) == Done(if |es| > 0 then es[|es| - 1] else Null)
    ensures CallBound(r, "rest", esc, host, [Array(es)]) == Done(if |es| > 0 then Array(es[1..]) else Null)
    ensures CallBound(r, "push", esc, host, [Array(es), v]) == Done(Array(es + [v]))
    ensures !o.Array? ==>
      CallBound(r, "first", esc, host, [o]) == Done(Error("argument to `first` must be array. got " + Show(esc, o)))
    ensures !o.Array? && !o.String? ==>
      CallBound(r, "len", esc, host, [o]) == Done(Error("argument to `len` not supported, got " + Show(esc, o)))
  {
  }

  /** The `three_body_e2021` registry binds the same list builtins. */
  lemma E2021ListBuiltins(esc: string -> string, host: Host, es: seq<Object>, v: Object)
    ensures CallBound(E2021Builtins(), "rest", esc, host, [Array(es)]) == Done(if |es| > 0 then Array(es[1..]) else Null)
    ensures CallBound(E2021Builtins(), "push", esc, host, [Array(es), v]) == Done(Array(es + [v]))
    ensures CallBound(E2021Builtins(), "first", esc, host, [Array(es)]) == Done(if |es| > 0 then es[0] else Null)
    ensures CallBound(E2021Builtins(), "last", esc, host, [Array(es)]) == Done(if |es| > 0 then es[|es| - 1] else Null)
  {
    E2021Registry();
    ListBuiltinsOf(E2021Builtins(), esc, host, es, v, Null);
  }

  /** The `src` registry binds the same list builtins. */
  lemma SrcListBuiltins(esc: string -> string, host: Host, es: seq<Object>, v: Object)
    ensures CallBound(SrcBuiltins(), "rest", esc, host, [Array(es)]) == Done(if |es| > 0 then Array(es[1..]) else Null)
    ensures CallBound(SrcBuiltins(), "push", esc, host, [Array(es), v]) == Done(Array(es + [v]))
    ensures CallBound(SrcBuiltins(), "first", esc, host, [Array(es)]) == Done(if |es| > 0 then es[0] else Null)
    ensures CallBound(SrcBuiltins(), "last", esc, host, [Array(es)]) == Done(if |es| > 0 then es[|es| - 1] else Null)
  {
    SrcRegistry();
    ListBuiltinsOf(SrcBuiltins(), esc, host, es, v, Null);
  }

  // ---------------------------------------------------------------------------
  // Lengths.
  // ---------------------------------------------------------------------------

  /** The number of bytes the UTF-8 encoding of `c` takes (RFC 3629, section 3). */
  function Utf8Width(c: char): (w: nat)
    ensures 1 <= w <= 4
  {
    if c as int < 0x80 then 1 else if c as int < 0x800 then 2 else if c as int < 0x1_0000 then 3 else 4
  }

  /** `str::len`: the length of the UTF-8 encoding, not the number of chars. */
  function Utf8Length(s: string): (n: nat)
    ensures |s| <= n <= 4 * |s|
  {
    if |s| == 0 then 0 else Utf8Length(s[..|s| - 1]) + Utf8Width(s[|s| - 1])
  }

  lemma {:induction false} Utf8LengthAppend(s: string, t: string)
    ensures Utf8Length(s + t) == Utf8Length(s) + Utf8Length(t)
    decreases |t|
  {
    if |t| == 0 {
      assert s + t == s;
    } else {
      assert (s + t)[..|s + t| - 1] == s + t[..|t| - 1];
      Utf8LengthAppend(s, t[..|t| - 1]);
    }
  }

  /** For ASCII text the byte length is the number of chars. */
  lemma {:induction false} AsciiLength(s: string)
    requires forall i :: 0 <= i < |s| ==> s[i] as int < 0x80
    ensures Utf8Length(s) == |s|
  {
    if |s| > 0 {
      AsciiLength(s[..|s| - 1]);
    }
  }

  /** `usize as i64`: the low 64 bits read as a signed number. */
  function LengthAsI64(n: nat): (r: int64)
    ensures n <= MAX ==> r as int == n
  {
    var m := n % 0x1_0000_0000_0000_0000;
    if m <= MAX then m as int64 else (m - 0x1_0000_0000_0000_0000) as int64
  }

  // ---------------------------------------------------------------------------
  // The pure builtins. `args[0]` on too few arguments panics.
  // ---------------------------------------------------------------------------

  function Length(esc: string -> string, args: seq<Object>): (r: Outcome<Object>)
  {
    if |args| == 0 then Panic(MissingArgument)
    else match args[0]
      case String(s) => Done(Int(LengthAsI64(Utf8Length(s))))
      case Array(es) => Done(Int(LengthAsI64(|es|)))
      case o => Done(Error("argument to `len` not supported, got " + Show(esc, o)))
  }

  function FirstOf(esc: string -> string, args: seq<Object>): (r: Outcome<Object>)
  {
    if |args| == 0 then Panic(MissingArgument)
    else match args[0]
      case Array(es) => Done(if |es| > 0 then es[0] else Null)
      case o => Done(Error("argument to `first` must be array. got " + Show(esc, o)))
  }

  function LastOf(esc: string -> string, args: seq<Object>): (r: Outcome<Object>)
  {
    if |args| == 0 then Panic(MissingArgument)
    else match args[0]
      case Array(es) => Done(if |es| > 0 then es[|es| - 1] else Null)
      case o => Done(Error("argument to `last` must be array. got " + Show(esc, o)))
  }

  function RestOf(esc: string -> string, args: seq<Object>): (r: Outcome<Object>)
  {
    if |args| == 0 then Panic(MissingArgument)
    else match args[0]
      case Array(es) => Done(if |es| > 0 then Array(es[1..]) else Null)
      case o => Done(Error("argument to `rest` must be array. got " + Show(esc, o)))
  }

  /** The second argument is read only when the first is an array. */
  function PushOnto(esc: string -> string, args: seq<Object>): (r: Outcome<Object>)
  {
    if |args| == 0 then Panic(MissingArgument)
    else match args[0]
      case Array(es) => if |args| < 2 then Panic(MissingArgument) else Done(Array(es + [args[1]]))
      case o => Done(Error("argument to `push` must be array. got " + Show(esc, o)))
  }

  /** Two values are deep-equal when they render alike. */
  function DeepEqualOf(esc: string -> string, args: seq<Object>): (r: Outcome<Object>)
  {
    if |args| < 2 then Panic(MissingArgument)
    else Done(Bool(Show(esc, args[0]) == Show(esc, args[1])))
  }

  /**
   * Effects a builtin may have on the host (printing, clearing the screen,
   * exiting, sleeping, random numbers, file import) are outside the model: the
   * host gives their results.
   */
  type Host = (BuiltinFn, seq<Object>) -> Outcome<Object>

  /** Calling the native function of a builtin. */
  function Apply(esc: string -> string, host: Host, f: BuiltinFn, args: seq<Object>): Outcome<Object>
  {
    match f
    case Len => Length(esc, args)
    case First => FirstOf(esc, args)
    case Last => LastOf(esc, args)
    case Rest => RestOf(esc, args)
    case Push => PushOnto(esc, args)
    case DeepEqual => DeepEqualOf(esc, args)
    case _ => host(f, args)
  }

  // ---------------------------------------------------------------------------
  // What the builtins promise.
  // ---------------------------------------------------------------------------

  /** `len` counts the bytes of a string and the elements of an array and rejects anything else. */
  lemma LenResult(esc: string -> string, o: Object, rest: seq<Object>)
    ensures o.String? && Utf8Length(o.text) <= MAX ==>
      Length(esc, [o] + rest) == Done(Int(Utf8Length(o.text) as int64))
    ensures o.Array? && |o.elements| <= MAX ==> Length(esc, [o] + rest) == Done(Int(|o.elements| as int64))
    ensures !o.String? && !o.Array? ==>
      Length(esc, [o] + rest) == Done(Error("argument to `len` not supported, got " + Show(esc, o)))
  {
  }

  /**
   * `first` and `last` pick the ends of a non-empty array (one element is both),
   * give Null for an empty one, and reject anything else.
   */
  lemma FirstLastResult(esc: string -> string, o: Object)
    ensures o.Array? && |o.elements| > 0 ==>
      FirstOf(esc, [o]) == Done(o.elements[0]) && LastOf(esc, [o]) == Done(o.elements[|o.elements| - 1])
    ensures o.Array? && |o.elements| == 1 ==> FirstOf(esc, [o]) == LastOf(esc, [o])
    ensures o == Array([]) ==> FirstOf(esc, [o]) == LastOf(esc, [o]) == Done(Null)
    ensures !o.Array? ==>
      && FirstOf(esc, [o]) == Done(Error("argument to `first` must be array. got " + Show(esc, o)))
      && LastOf(esc, [o]) == Done(Error("argument to `last` must be array. got " + Show(esc, o)))
  {
  }

  /** `rest` drops the first element: `[x]` gives `[]`, but `[]` gives Null. */
  lemma RestResult(esc: string -> string, x: Object, es: seq<Object>)
    ensures RestOf(esc, [Array([x] + es)]) == Done(Array(es))
    ensures RestOf(esc, [Array([x])]) == Done(Array([]))
    ensures RestOf(esc, [Array([])]) == Done(Null)
  {
    assert ([x] + es)[1..] == es;
    assert [x][1..] == [];
  }

  /** `first` and `rest` of a non-empty array put back together give the array. */
  lemma FirstRestSplit(esc: string -> string, es: seq<Object>)
    requires |es| > 0
    ensures FirstOf(esc, [Array(es)]).Done? && RestOf(esc, [Array(es)]).Done?
    ensures [FirstOf(esc, [Array(es)]).value] + RestOf(esc, [Array(es)]).value.elements == es
  {
    assert [es[0]] + es[1..] == es;
  }

  /**
   * `push(a, v)` gives `a` with `v` appended, one longer: its last element is
   * `v`, its first is `a`'s first when `a` is not empty. (Values are immutable
   * here, so `a` itself is untouched.)
   */
  lemma PushResult(esc: string -> string, es: seq<Object>, v: Object)
    ensures PushOnto(esc, [Array(es), v]) == Done(Array(es + [v]))
    ensures |PushOnto(esc, [Array(es), v]).value.elements| == |es| + 1
    ensures LastOf(esc, [PushOnto(esc, [Array(es), v]).value]) == Done(v)
    ensures |es| > 0 ==> FirstOf(esc, [PushOnto(esc, [Array(es), v]).value]) == FirstOf(esc, [Array(es)])
    ensures |es| < MAX ==>
      Length(esc, [PushOnto(esc, [Array(es), v]).value]) == Done(Int((|es| + 1) as int64))
  {
  }

  /** `push` onto something that is not an array is an error and ignores the value. */
  lemma PushRejects(esc: string -> string, o: Object, v: Object)
    requires !o.Array?
    ensures PushOnto(esc, [o, v]) == Done(Error("argument to `push` must be array. got " + Show(esc, o)))
    ensures PushOnto(esc, [o]) == PushOnto(esc, [o, v])
  {
  }

  /** Deep-equal is reflexive and symmetric. */
  lemma DeepEqualIsEquivalence(esc: string -> string, a: Object, b: Object)
    ensures DeepEqualOf(esc, [a, a]) == Done(Bool(true))
    ensures DeepEqualOf(esc, [a, b]) == DeepEqualOf(esc, [b, a])
  {
  }

  /**
   * Under deep-equal any two builtins are equal, two functions are equal
   * exactly when their parameter names are (for names as the lexer produces
   * them), and a builtin never equals a function.
   */
  lemma DeepEqualCallables(esc: string -> string, a1: int, f1: BuiltinFn, a2: int, f2: BuiltinFn,
                           p1: seq<A.Ident>, b1: A.BlockStmt, e1: nat,
                           p2: seq<A.Ident>, b2: A.BlockStmt, e2: nat)
    requires PlainNames(Names(p1)) && PlainNames(Names(p2))
    ensures DeepEqualOf(esc, [Builtin(a1, f1), Builtin(a2, f2)]) == Done(Bool(true))
    ensures DeepEqualOf(esc, [Function(p1, b1, e1), Function(p2, b2, e2)]) == Done(Bool(Names(p1) == Names(p2)))
    ensures DeepEqualOf(esc, [Builtin(a1, f1), Function(p1, b1, e1)]) == Done(Bool(false))
  {
    var s1 := Show(esc, Function(p1, b1, e1));
    var s2 := Show(esc, Function(p2, b2, e2));
    FunctionRendering(esc, p1, b1, e1);
    FunctionRendering(esc, p2, b2, e2);
    JoinInjective(Names(p1), Names(p2));
    RenderingInjective(Join(Names(p1)), Join(Names(p2)));
    BuiltinRendering(esc, a1, f1);
    BuiltinRendering(esc, a2, f2);
    assert s1[0] == 'f';
  }

  /** A builtin renders as the same bracketed text whatever its arity and function. */
  lemma BuiltinRendering(esc: string -> string, a: int, f: BuiltinFn)
    ensures Show(esc, Builtin(a, f)) == "[builtin function]"
  {
  }

  /** Two function renderings are the same text exactly when their parameter lists are. */
  lemma RenderingInjective(j1: string, j2: string)
    ensures "fn(" + j1 + ") { ... }" == "fn(" + j2 + ") { ... }" <==> j1 == j2
  {
    var s1, s2 := "fn(" + j1 + ") { ... }", "fn(" + j2 + ") { ... }";
    if s1 == s2 {
      assert |j1| == |j2|;
      assert s1[3..3 + |j1|] == j1 && s2[3..3 + |j2|] == j2;
    }
  }

}
