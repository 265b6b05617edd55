/**
 * The meaning of an environment: a chain of scopes, innermost first, each
 * mapping names to values and recording which names are constant. `get` and
 * `update` walk the chain outwards; `set` and `constant` touch one scope.
 *
 * Two representations are proved against these definitions: the heap class of
 * the environment module (`InterpreterEnv.Env`, whose frames share their outer
 * frames the way `Rc<RefCell<Env>>` does), and the frame store the evaluator
 * keeps (`Store`), where a frame names its outer frame by index.
 */
module Environment {
  import opened Wrappers
  import opened Objects

  /** `Info`, the outcome of `update`. */
  datatype UpdateInfo = ConstantForbidden | NoIdentifier | Succeed

  /** The outcome of `check_inner`: what the innermost scope already says about a name. */
  datatype CheckInnerInfo = ConstantExist | VariableExist | Undeclared

  /** One frame's own bindings; `statuses[n]` is the `constant` flag of `n`. */
  datatype Scope = Scope(identifiers: map<string, Object>, statuses: map<string, bool>)

  const EmptyScope := Scope(map[], map[])

  // ---------------------------------------------------------------------------
  // One scope.
  // ---------------------------------------------------------------------------

  /** `is_constant`: a name is constant only when its status says so. */
  function IsConstant(s: Scope, n: string): bool
  {
    n in s.statuses && s.statuses[n]
  }

  /** `set`: binds `n` in this scope; the constant flags are untouched. */
  function Set(s: Scope, n: string, v: Object): Scope
  {
    Scope(s.identifiers[n := v], s.statuses)
  }

  /** `constant`: the status of `n` becomes constant, whether or not it had one. */
  function MarkConstant(s: Scope, n: string): Scope
  {
    Scope(s.identifiers, s.statuses[n := true])
  }

  /** `check_inner`: looks at this scope only. */
  function CheckInner(s: Scope, n: string): CheckInnerInfo
  {
    if n !in s.identifiers then Undeclared
    else if IsConstant(s, n) then ConstantExist
    else VariableExist
  }

  lemma SetBinds(s: Scope, n: string, v: Object, m: string)
    ensures n in Set(s, n, v).identifiers && Set(s, n, v).identifiers[n] == v
    ensures m != n ==> (m in Set(s, n, v).identifiers <==> m in s.identifiers)
    ensures m != n && m in s.identifiers ==> Set(s, n, v).identifiers[m] == s.identifiers[m]
    ensures IsConstant(Set(s, n, v), m) == IsConstant(s, m)
  {
  }

  /** `constant(n)` makes `n` constant and leaves the other names and all bindings as they were. */
  lemma MarkConstantMarks(s: Scope, n: string, m: string)
    ensures IsConstant(MarkConstant(s, n), n)
    ensures m != n ==> IsConstant(MarkConstant(s, n), m) == IsConstant(s, m)
    ensures MarkConstant(s, n).identifiers == s.identifiers
    ensures !IsConstant(EmptyScope, m)
  {
  }

  // ---------------------------------------------------------------------------
  // Chains, innermost scope first.
  // ---------------------------------------------------------------------------

  /** `get`: the binding of the innermost scope that has one. */
  function Get(chain: seq<Scope>, n: string): Option<Object>
  {
    if |chain| == 0 then None
    else if n in chain[0].identifiers then Some(chain[0].identifiers[n])
    else Get(chain[1..], n)
  }

  /**
   * `update`: the innermost scope that binds `n` takes the new value unless the
   * name is constant there; with no such scope nothing changes.
   */
  function Update(chain: seq<Scope>, n: string, v: Object): (r: (UpdateInfo, seq<Scope>))
    ensures |r.1| == |chain|
  {
    if |chain| == 0 then (NoIdentifier, chain)
    else if n in chain[0].identifiers then
      if IsConstant(chain[0], n) then (ConstantForbidden, chain)
      else (Succeed, [Set(chain[0], n, v)] + chain[1..])
    else
      var r := Update(chain[1..], n, v);
      (r.0, [chain[0]] + r.1)
  }

  /** The index of the innermost scope binding `n`, if any. */
  predicate BindsAt(chain: seq<Scope>, n: string, i: int)
  {
    0 <= i < |chain| && n in chain[i].identifiers &&
    forall j :: 0 <= j < i ==> n !in chain[j].identifiers
  }

  /** `get` finds exactly the binding of the innermost scope that has the name. */
  lemma {:induction false} GetInnermost(chain: seq<Scope>, n: string)
    ensures Get(chain, n).None? <==> forall i :: 0 <= i < |chain| ==> n !in chain[i].identifiers
    ensures forall i :: BindsAt(chain, n, i) ==> Get(chain, n) == Some(chain[i].identifiers[n])
  {
    if |chain| > 0 && n !in chain[0].identifiers {
      GetInnermost(chain[1..], n);
      forall i | BindsAt(chain, n, i) ensures Get(chain, n) == Some(chain[i].identifiers[n]) {
        assert BindsAt(chain[1..], n, i - 1);
      }
      if Get(chain, n).None? {
        forall i | 0 <= i < |chain| ensures n !in chain[i].identifiers {
          if i > 0 { assert chain[1..][i - 1] == chain[i]; }
        }
      }
    }
  }

  /**
   * `update` fails with `ConstantForbidden` exactly when the innermost scope
   * holding the name marks it constant, and with `NoIdentifier` exactly when no
   * scope holds it; a failed update changes nothing.
   */
  lemma {:induction false} UpdateOutcome(chain: seq<Scope>, n: string, v: Object)
    ensures Update(chain, n, v).0 == NoIdentifier <==> Get(chain, n).None?
    ensures Update(chain, n, v).0 == ConstantForbidden <==>
      exists i :: BindsAt(chain, n, i) && IsConstant(chain[i], n)
    ensures Update(chain, n, v).0 != Succeed ==> Update(chain, n, v).1 == chain
  {
    if |chain| > 0 && n !in chain[0].identifiers {
      UpdateOutcome(chain[1..], n, v);
      ConstantBehindFirst(chain, n);
      if Update(chain, n, v).0 != Succeed {
        assert [chain[0]] + chain[1..] == chain;
      }
    } else if |chain| > 0 {
      BindsAtFirst(chain, n);
    }
  }

  /** When the first scope lacks `n`, a constant binding of `n` lies in the rest of the chain. */
  lemma ConstantBehindFirst(chain: seq<Scope>, n: string)
    requires |chain| > 0 && n !in chain[0].identifiers
    ensures (exists i :: BindsAt(chain, n, i) && IsConstant(chain[i], n)) <==>
      (exists i :: BindsAt(chain[1..], n, i) && IsConstant(chain[1..][i], n))
  {
    if exists i :: BindsAt(chain, n, i) && IsConstant(chain[i], n) {
      var i :| BindsAt(chain, n, i) && IsConstant(chain[i], n);
      assert BindsAt(chain[1..], n, i - 1);
    }
    if exists i :: BindsAt(chain[1..], n, i) && IsConstant(chain[1..][i], n) {
      var i :| BindsAt(chain[1..], n, i) && IsConstant(chain[1..][i], n);
      assert BindsAt(chain, n, i + 1);
    }
  }

  /** When the first scope has `n`, it is the innermost scope binding it. */
  lemma BindsAtFirst(chain: seq<Scope>, n: string)
    requires |chain| > 0 && n in chain[0].identifiers
    ensures forall i :: BindsAt(chain, n, i) <==> i == 0
  {
  }

  /**
   * After a successful update `get(n)` gives the new value, every other name
   * reads as before, and the constant flags are unchanged.
   */
  lemma {:induction false} UpdateThenGet(chain: seq<Scope>, n: string, v: Object, m: string)
    requires Update(chain, n, v).0 == Succeed
    ensures Get(Update(chain, n, v).1, n) == Some(v)
    ensures m != n ==> Get(Update(chain, n, v).1, m) == Get(chain, m)
    ensures forall i :: 0 <= i < |chain| ==> Update(chain, n, v).1[i].statuses == chain[i].statuses
  {
    var r := Update(chain, n, v).1;
    if n in chain[0].identifiers {
      assert r[1..] == chain[1..];
    } else {
      UpdateThenGet(chain[1..], n, v, m);
      assert r[1..] == Update(chain[1..], n, v).1;
      forall i | 0 <= i < |chain| ensures r[i].statuses == chain[i].statuses {
        if i > 0 { assert r[i] == r[1..][i - 1]; }
      }
    }
  }

  // ---------------------------------------------------------------------------
  // The evaluator's frame store: frame `i` names its outer frame by index.
  // ---------------------------------------------------------------------------

  datatype Frame = Frame(scope: Scope, outer: Option<nat>)

  type Store = seq<Frame>

  /**
   * The outer frame of frame `i`. Frames are only ever created above the frame
   * they enclose, so an outer index that is not below `i` does not occur; the
   * model reads it as having no outer frame.
   */
  function OuterOf(store: Store, i: nat): (r: Option<nat>)
    requires i < |store|
    ensures r.Some? ==> r.value < i
  {
    if store[i].outer.Some? && store[i].outer.value < i then store[i].outer else None
  }

  /** The chain of scopes seen from frame `i`. */
  function ChainAt(store: Store, i: nat): (chain: seq<Scope>)
    requires i < |store|
    ensures |chain| > 0 && chain[0] == store[i].scope
    decreases i
  {
    [store[i].scope] + match OuterOf(store, i) case None => [] case Some(j) => ChainAt(store, j)
  }

  /** `get` from frame `i`, following outer indices. */
  function StoreGet(store: Store, i: nat, n: string): Option<Object>
    requires i < |store|
    decreases i
  {
    if n in store[i].scope.identifiers then Some(store[i].scope.identifiers[n])
    else match OuterOf(store, i) case None => None case Some(j) => StoreGet(store, j, n)
  }

  /** `update` from frame `i`: the frame that takes the value is changed in place in the store. */
  function StoreUpdate(store: Store, i: nat, n: string, v: Object): (r: (UpdateInfo, Store))
    requires i < |store|
    ensures |r.1| == |store|
    ensures forall k :: 0 <= k < |store| ==> r.1[k].outer == store[k].outer
    ensures forall k :: i < k < |store| ==> r.1[k] == store[k]
    decreases i
  {
    var s := store[i].scope;
    if n in s.identifiers then
      if IsConstant(s, n) then (ConstantForbidden, store)
      else (Succeed, store[i := Frame(Set(s, n, v), store[i].outer)])
    else match OuterOf(store, i)
      case None => (NoIdentifier, store)
      case Some(j) => StoreUpdate(store, j, n, v)
  }

  /** Changes to the store above frame `i` do not affect what frame `i` sees. */
  lemma {:induction false} ChainBelow(store: Store, store': Store, i: nat)
    requires i < |store| <= |store'|
    requires forall k :: 0 <= k <= i ==> store'[k] == store[k]
    ensures ChainAt(store', i) == ChainAt(store, i)
    decreases i
  {
    if OuterOf(store, i).Some? {
      ChainBelow(store, store', OuterOf(store, i).value);
    }
  }

  /** The store's lookup is the chain semantics of the frame's chain. */
  lemma {:induction false} StoreGetIsGet(store: Store, i: nat, n: string)
    requires i < |store|
    ensures StoreGet(store, i, n) == Get(ChainAt(store, i), n)
    decreases i
  {
    var chain := ChainAt(store, i);
    if n !in store[i].scope.identifiers {
      match OuterOf(store, i)
      case None =>
        assert chain[1..] == [];
      case Some(j) =>
        assert chain[1..] == ChainAt(store, j);
        StoreGetIsGet(store, j, n);
    }
  }

  /**
   * The store's update is the chain semantics' update of the frame's chain:
   * the same outcome, and afterwards frame `i` sees the updated chain.
   */
  lemma {:induction false} StoreUpdateIsUpdate(store: Store, i: nat, n: string, v: Object)
    requires i < |store|
    ensures StoreUpdate(store, i, n, v).0 == Update(ChainAt(store, i), n, v).0
    ensures ChainAt(StoreUpdate(store, i, n, v).1, i) == Update(ChainAt(store, i), n, v).1
    decreases i
  {
    var chain := ChainAt(store, i);
    var s := store[i].scope;
    var r := StoreUpdate(store, i, n, v);
    if n in s.identifiers {
      if !IsConstant(s, n) {
        var store' := r.1;
        assert OuterOf(store', i) == OuterOf(store, i);
        match OuterOf(store, i)
        case None =>
        case Some(j) =>
          ChainBelow(store, store', j);
          assert chain[1..] == ChainAt(store, j);
      }
    } else {
      match OuterOf(store, i)
      case None =>
        assert chain[1..] == [];
      case Some(j) =>
        StoreUpdateIsUpdate(store, j, n, v);
        assert chain[1..] == ChainAt(store, j);
        assert r.1[i] == store[i];
        assert OuterOf(r.1, i) == Some(j);
        assert ChainAt(r.1, i) == [s] + ChainAt(r.1, j);
    }
  }
}
