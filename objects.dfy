/**
 * The runtime values of the interpreter, their canonical rendering (the
 * `Display` implementation every error message and the deep-equal builtin
 * rely on) and the hash that decides which values can share a hash bucket.
 *
 * Both object modules of the repository have this shape; the older one calls
 * the function variant `Func` and has no `Native` variant.
 */
module Objects {
  import opened Wrappers
  import opened I64
  import A = Ast

  /** The identity of a builtin's native function: Rust compares these by address. */
  datatype BuiltinFn =
    | Len | First | Last | Rest | Push   // the pure builtins of this model
    | DeepEqual                          // `没关系的都一样`
    | Puts | Clear | Exit | Sleep | Random | Import   // side effects, outside the model

  datatype Object =
    | Int(value: int64)
    | String(text: string)
    | Bool(flag: bool)
    | Array(elements: seq<Object>)
    | Hash(entries: seq<Entry>)          // a map, kept in insertion order with distinct keys
    | Function(params: seq<A.Ident>, body: A.BlockStmt, env: nat)   // `env`: the captured frame
    | Builtin(arity: int, func: BuiltinFn)   // a negative arity accepts any number of arguments
    | ReturnValue(inner: Object)
    | BreakStatement
    | ContinueStatement
    | Error(message: string)
    | Null

  datatype Entry = Entry(key: Object, value: Object)

  // ---------------------------------------------------------------------------
  // Rendering. The quoting of strings (`escape_str`) is a parameter `esc`.
  // ---------------------------------------------------------------------------

  /** The canonical text of a value. */
  function Show(esc: string -> string, o: Object): string
    decreases o, 2
  {
    match o
    case Int(v) => Decimal(v as int)
    case String(s) => esc(s)
    case Bool(b) => if b then "true" else "false"
    case Array(es) => "[" + Built(Shown(esc, es), |es|) + "]"
    case Hash(kvs) => "{" + Built(ShownEntries(esc, kvs), |kvs|) + "}"
    case Function(ps, _, _) => "fn(" + Built(Names(ps), |ps|) + ") { ... }"
    case Builtin(_, _) => "[builtin function]"
    case ReturnValue(v) => "ReturnValue(" + Show(esc, v) + ")"
    case BreakStatement => "BreakStatement"
    case ContinueStatement => "ContinueStatement"
    case Error(m) => "Error(" + m + ")"
    case Null => "null"
  }

  function Shown(esc: string -> string, es: seq<Object>): (r: seq<string>)
    ensures |r| == |es|
    decreases es, 1
  {
    seq(|es|, i requires 0 <= i < |es| => Show(esc, es[i]))
  }

  function ShownEntries(esc: string -> string, kvs: seq<Entry>): (r: seq<string>)
    ensures |r| == |kvs|
    decreases kvs, 1
  {
    seq(|kvs|, i requires 0 <= i < |kvs| => ShowEntry(esc, kvs[i]))
  }

  function ShowEntry(esc: string -> string, kv: Entry): string
    decreases kv, 1
  {
    Show(esc, kv.key) + ": " + Show(esc, kv.value)
  }

  function Names(ps: seq<A.Ident>): (r: seq<string>)
    ensures |r| == |ps|
  {
    seq(|ps|, i requires 0 <= i < |ps| => ps[i].name)
  }

  /** What the rendering loops append for item `i`: the item, preceded by `, ` after the first. */
  function Piece(i: nat, s: string): string
  {
    if i < 1 then s else ", " + s
  }

  /** The text a rendering loop has built after the first `k` of `parts`. */
  function Built(parts: seq<string>, k: nat): string
    requires k <= |parts|
  {
    if k == 0 then "" else Built(parts, k - 1) + Piece(k - 1, parts[k - 1])
  }

  // ---------------------------------------------------------------------------
  // The reference reading of the loops: items joined by `, `.
  // ---------------------------------------------------------------------------

  function Join(parts: seq<string>): string
  {
    if |parts| == 0 then "" else if |parts| == 1 then parts[0] else parts[0] + ", " + Join(parts[1..])
  }

  /** Appending one more part to a join adds `, part`, or just the part to an empty join. */
  lemma {:induction false} JoinSnoc(parts: seq<string>, s: string)
    ensures Join(parts + [s]) == Join(parts) + Piece(|parts|, s)
    decreases |parts|
  {
    if |parts| == 0 {
      assert parts + [s] == [s];
    } else if |parts| == 1 {
      assert (parts + [s])[1..] == [s];
    } else {
      assert (parts + [s])[1..] == parts[1..] + [s];
      JoinSnoc(parts[1..], s);
    }
  }

  /** The loop's left-to-right text is the reference join of the parts seen so far. */
  lemma {:induction false} BuiltIsJoin(parts: seq<string>, k: nat)
    requires k <= |parts|
    ensures Built(parts, k) == Join(parts[..k])
  {
    if k > 0 {
      BuiltIsJoin(parts, k - 1);
      assert parts[..k] == parts[..k - 1] + [parts[k - 1]];
      JoinSnoc(parts[..k - 1], parts[k - 1]);
    }
  }

  lemma BuiltAll(parts: seq<string>)
    ensures Built(parts, |parts|) == Join(parts)
  {
    BuiltIsJoin(parts, |parts|);
    assert parts[..|parts|] == parts;
  }

  // ---------------------------------------------------------------------------
  // The promised renderings.
  // ---------------------------------------------------------------------------

  /** An array renders as its elements' renderings joined by `, ` in brackets; `[]` when empty. */
  lemma ArrayRendering(esc: string -> string, es: seq<Object>)
    ensures Show(esc, Array(es)) == "[" + Join(Shown(esc, es)) + "]"
    ensures es == [] ==> Show(esc, Array(es)) == "[]"
  {
    BuiltAll(Shown(esc, es));
  }

  /** A hash renders its `key: value` pairs joined by `, ` in braces, in the order of its entries. */
  lemma HashRendering(esc: string -> string, kvs: seq<Entry>)
    ensures Show(esc, Hash(kvs)) == "{" + Join(ShownEntries(esc, kvs)) + "}"
  {
    BuiltAll(ShownEntries(esc, kvs));
  }

  /** A hash with one entry renders `{k: v}`, whatever order the map would iterate in. */
  lemma SingleEntryHash(esc: string -> string, k: Object, v: Object)
    ensures Show(esc, Hash([Entry(k, v)])) == "{" + Show(esc, k) + ": " + Show(esc, v) + "}"
  {
    HashRendering(esc, [Entry(k, v)]);
  }

  /**
   * A function renders as `fn(` + its parameter names joined by `, ` + `) { ... }`:
   * neither its body nor its captured environment appears.
   */
  lemma FunctionRendering(esc: string -> string, ps: seq<A.Ident>, body: A.BlockStmt, env: nat)
    ensures Show(esc, Function(ps, body, env)) == "fn(" + Join(Names(ps)) + ") { ... }"
  {
    BuiltAll(Names(ps));
  }

  /** Integers render in decimal and booleans as `true`/`false`, as the object tests expect. */
  lemma {:induction false} ScalarRenderings(esc: string -> string)
    ensures Show(esc, Int(520)) == "520" && Show(esc, Int(-7)) == "-7"
    ensures Show(esc, Bool(true)) == "true" && Show(esc, Bool(false)) == "false"
  {
    assert NatToDecimal(52) == "52";
    assert NatToDecimal(520) == "520";
  }

  /**
   * The variants with fixed text; a builtin renders alike whatever its arity and
   * function, and a string is rendered by `escape_str`, which supplies the quotes.
   */
  lemma FixedRenderings(esc: string -> string, arity: int, f: BuiltinFn, m: string, v: Object, s: string)
    ensures Show(esc, String(s)) == esc(s)
    ensures Show(esc, Builtin(arity, f)) == "[builtin function]"
    ensures Show(esc, Null) == "null"
    ensures Show(esc, BreakStatement) == "BreakStatement"
    ensures Show(esc, ContinueStatement) == "ContinueStatement"
    ensures Show(esc, Error(m)) == "Error(" + m + ")"
    ensures Show(esc, ReturnValue(v)) == "ReturnValue(" + Show(esc, v) + ")"
  {
  }

  /** `[1, 2, 3]`, as the array test expects. */
  lemma {:induction false} ArrayTestRendering(esc: string -> string)
    ensures Show(esc, Array([Int(1), Int(2), Int(3)])) == "[1, 2, 3]"
  {
    var es := Shown(esc, [Int(1), Int(2), Int(3)]);
    assert es[0] == "1" && es[1] == "2" && es[2] == "3";
    assert Built(es, 1) == "1";
    assert Built(es, 2) == "1, 2";
  }

  /** `fn(x, y) { ... }`, as the function test expects, for any body and environment. */
  lemma {:induction false} FunctionTestRendering(esc: string -> string, body: A.BlockStmt, env: nat)
    ensures Show(esc, Function([A.Ident.Ident("x"), A.Ident.Ident("y")], body, env)) == "fn(x, y) { ... }"
  {
    var ns := Names([A.Ident.Ident("x"), A.Ident.Ident("y")]);
    assert ns[0] == "x" && ns[1] == "y";
    assert Built(ns, 1) == "x";
    assert Built(ns, 2) == "x, y";
  }

  /** `ReturnValue(42)`, as the return-value test expects. */
  lemma {:induction false} ReturnTestRendering(esc: string -> string)
    ensures Show(esc, ReturnValue(Int(42))) == "ReturnValue(42)"
  {
    assert NatToDecimal(42) == "42";
  }

  /** A hash whose map iterates two entries renders them in that order, `, `-separated. */
  lemma TwoEntryHash(esc: string -> string, e: Entry, f: Entry)
    ensures Show(esc, Hash([e, f])) == "{" + ShowEntry(esc, e) + ", " + ShowEntry(esc, f) + "}"
  {
    HashRendering(esc, [e, f]);
    var a := ShownEntries(esc, [e, f]);
    assert a[1..] == [ShowEntry(esc, f)];
  }

  /** An entry with a string key and an integer value renders `esc(key): decimal`. */
  lemma StringIntEntry(esc: string -> string, k: string, n: int64)
    ensures ShowEntry(esc, Entry(String(k), Int(n))) == esc(k) + ": " + Decimal(n as int)
  {
  }

  /** `{"foo": 42, "bar": 1337}`, as the older object tests expect when the map iterates `foo` first. */
  lemma {:induction false} TwoEntryHashRendering(esc: string -> string)
    requires esc("foo") == "\"foo\"" && esc("bar") == "\"bar\""
    ensures Show(esc, Hash([Entry(String("foo"), Int(42)), Entry(String("bar"), Int(1337))]))
         == "{\"foo\": 42, \"bar\": 1337}"
  {
    TwoEntryHash(esc, Entry(String("foo"), Int(42)), Entry(String("bar"), Int(1337)));
    StringIntEntry(esc, "foo", 42);
    StringIntEntry(esc, "bar", 1337);
    assert Decimal(42) == "42" by {
      assert NatToDecimal(42) == "42";
    }
    assert Decimal(1337) == "1337" by {
      assert NatToDecimal(133) == "133";
      assert NatToDecimal(1337) == "1337";
    }
  }

  // ---------------------------------------------------------------------------
  // Parameter names as the lexer produces them: the rendering keeps them apart.
  // ---------------------------------------------------------------------------

  /** Non-empty names without a comma, as every identifier token is. */
  predicate PlainNames(names: seq<string>)
  {
    forall i :: 0 <= i < |names| ==> |names[i]| > 0 && ',' !in names[i]
  }

  /** The index of the first comma, or the length when there is none. */
  function Cut(s: string): (c: nat)
    ensures c <= |s|
  {
    if |s| == 0 || s[0] == ',' then 0 else 1 + Cut(s[1..])
  }

  /** Reads a joined list of names back: the inverse of `Join` on plain names. */
  function SplitNames(s: string): seq<string>
    decreases |s|
  {
    if |s| == 0 then []
    else if Cut(s) == |s| then [s]
    else [s[..Cut(s)]] + SplitNames(s[if Cut(s) + 2 <= |s| then Cut(s) + 2 else |s|..])
  }

  lemma {:induction false} CutAfter(x: string, y: string)
    requires ',' !in x
    ensures Cut(x + y) == |x| + Cut(y)
  {
    if |x| > 0 {
      assert (x + y)[0] == x[0];
      assert (x + y)[1..] == x[1..] + y;
      CutAfter(x[1..], y);
    } else {
      assert x + y == y;
    }
  }

  /** Splitting the join of plain names gives the names back. */
  lemma {:induction false} SplitJoin(names: seq<string>)
    requires PlainNames(names)
    ensures SplitNames(Join(names)) == names
  {
    if |names| == 1 {
      CutAfter(names[0], "");
      assert names[0] + "" == names[0];
    } else if |names| > 1 {
      var x, rest := names[0], Join(names[1..]);
      var s := x + (", " + rest);
      assert Join(names) == s;
      CutAfter(x, ", " + rest);
      assert s[..|x|] == x && s[|x| + 2..] == rest;
      assert PlainNames(names[1..]) by {
        forall i | 0 <= i < |names| - 1
          ensures |names[1..][i]| > 0 && ',' !in names[1..][i]
        {
          assert names[1..][i] == names[i + 1];
        }
      }
      SplitJoin(names[1..]);
      assert names == [x] + names[1..];
    }
  }

  /** So distinct lists of plain names render distinctly. */
  lemma JoinInjective(a: seq<string>, b: seq<string>)
    requires PlainNames(a) && PlainNames(b)
    ensures Join(a) == Join(b) <==> a == b
  {
    if Join(a) == Join(b) {
      SplitJoin(a);
      SplitJoin(b);
    }
  }

  // ---------------------------------------------------------------------------
  // Hashing: only the payload of an Int, a Bool or a String is fed to the hasher.
  // ---------------------------------------------------------------------------

  /** The data a value feeds to the hasher; every other variant feeds the string `""`. */
  datatype HashInput = IntInput(i: int64) | BoolInput(b: bool) | StrInput(s: string)

  function HashOf(o: Object): HashInput
  {
    match o
    case Int(i) => IntInput(i)
    case Bool(b) => BoolInput(b)
    case String(s) => StrInput(s)
    case _ => StrInput("")
  }

  predicate Hashable(o: Object) { o.Int? || o.Bool? || o.String? }

  /** Two hashable values hash alike exactly when they are equal. */
  lemma ScalarHashExact(a: Object, b: Object)
    requires Hashable(a) && Hashable(b)
    ensures HashOf(a) == HashOf(b) <==> a == b
  {
  }

  /** Every value that is not an Int, a Bool or a String shares the bucket of the empty string. */
  lemma SharedBucket(o: Object)
    requires !Hashable(o)
    ensures HashOf(o) == HashOf(String(""))
  {
  }

  // ---------------------------------------------------------------------------
  // The `HashMap` of a Hash value, as a list of entries with distinct keys.
  // ---------------------------------------------------------------------------

  predicate DistinctKeys(kvs: seq<Entry>)
  {
    forall i, j :: 0 <= i < j < |kvs| ==> kvs[i].key != kvs[j].key
  }

  /** `HashMap::get`: the value stored under `k`, if any. */
  function Lookup(kvs: seq<Entry>, k: Object): (r: Option<Object>)
  {
    if |kvs| == 0 then None
    else if kvs[0].key == k then Some(kvs[0].value)
    else Lookup(kvs[1..], k)
  }

  /** `HashMap::insert`: a present key gets the new value in place; a new key goes last. */
  function Insert(kvs: seq<Entry>, k: Object, v: Object): (r: seq<Entry>)
    ensures |r| == |kvs| || |r| == |kvs| + 1
  {
    if |kvs| == 0 then [Entry(k, v)]
    else if kvs[0].key == k then [Entry(k, v)] + kvs[1..]
    else [kvs[0]] + Insert(kvs[1..], k, v)
  }

  /** A key is found exactly when some entry carries it. */
  lemma {:induction false} LookupFinds(kvs: seq<Entry>, k: Object)
    ensures Lookup(kvs, k).Some? <==> exists i :: 0 <= i < |kvs| && kvs[i].key == k
  {
    if |kvs| > 0 && kvs[0].key != k {
      LookupFinds(kvs[1..], k);
      if exists i :: 0 <= i < |kvs| && kvs[i].key == k {
        var i :| 0 <= i < |kvs| && kvs[i].key == k;
        assert kvs[1..][i - 1].key == k;
      }
    }
  }

  /** After an insert the key maps to the new value and every other key is unaffected. */
  lemma {:induction false} InsertLookup(kvs: seq<Entry>, k: Object, v: Object, k': Object)
    ensures Lookup(Insert(kvs, k, v), k') == if k' == k then Some(v) else Lookup(kvs, k')
  {
    if |kvs| > 0 && kvs[0].key != k {
      InsertLookup(kvs[1..], k, v, k');
      assert Insert(kvs, k, v)[1..] == Insert(kvs[1..], k, v);
    } else if |kvs| > 0 {
      assert (([Entry(k, v)] + kvs[1..])[1..]) == kvs[1..];
    }
  }

  /** The keys after an insert: unchanged if `k` was present, otherwise `k` appended. */
  function Keys(kvs: seq<Entry>): (ks: seq<Object>)
    ensures |ks| == |kvs|
  {
    seq(|kvs|, i requires 0 <= i < |kvs| => kvs[i].key)
  }

  lemma {:induction false} InsertKeys(kvs: seq<Entry>, k: Object, v: Object)
    ensures Keys(Insert(kvs, k, v)) == if k in Keys(kvs) then Keys(kvs) else Keys(kvs) + [k]
  {
    var r := Insert(kvs, k, v);
    if |kvs| == 0 {
      assert Keys(r) == [k];
    } else if kvs[0].key == k {
      assert Keys(kvs)[0] == k;
      assert Keys(r) == Keys(kvs);
    } else {
      var tail := kvs[1..];
      InsertKeys(tail, k, v);
      KeysCons(kvs[0], tail);
      assert [kvs[0]] + tail == kvs;
      KeysCons(kvs[0], Insert(tail, k, v));
      assert k in Keys(kvs) <==> k in Keys(tail);
      if k !in Keys(tail) {
        assert [kvs[0].key] + (Keys(tail) + [k]) == ([kvs[0].key] + Keys(tail)) + [k];
      }
    }
  }

  /** The keys of an entry followed by more entries. */
  lemma KeysCons(e: Entry, rest: seq<Entry>)
    ensures Keys([e] + rest) == [e.key] + Keys(rest)
  {
  }

  /** Inserting keeps the keys distinct. */
  lemma InsertDistinct(kvs: seq<Entry>, k: Object, v: Object)
    requires DistinctKeys(kvs)
    ensures DistinctKeys(Insert(kvs, k, v))
  {
    var r := Insert(kvs, k, v);
    InsertKeys(kvs, k, v);
    forall i, j | 0 <= i < j < |r| ensures r[i].key != r[j].key {
      assert Keys(r)[i] == r[i].key && Keys(r)[j] == r[j].key;
      if j == |kvs| {
        assert Keys(kvs)[i] == kvs[i].key;
      } else {
        assert Keys(kvs)[i] == kvs[i].key && Keys(kvs)[j] == kvs[j].key;
      }
    }
  }
}
