/**
 * The environment of the `interpreter` snapshot as a heap object: a frame with
 * its own bindings and constant flags, and a fixed link to an outer frame that
 * other frames may share. Every operation is proved against the chain
 * semantics of `Environment`.
 */
module InterpreterEnv {
  import opened Wrappers
  import opened Objects
  import E = Environment

  class Env {
    var identifiers: map<string, Object>
    var statuses: map<string, bool>
    const outer: Env?
    /** This frame and every frame outwards of it. */
    ghost const Repr: set<object>
    /** The number of frames outwards of this one. */
    ghost const depth: nat

    ghost predicate Valid()
      decreases depth
    {
      && this in Repr
      && (outer == null ==> Repr == {this} && depth == 0)
      && (outer != null ==>
            && outer in Repr && this !in outer.Repr && Repr == {this} + outer.Repr
            && depth == outer.depth + 1 && outer.Valid())
    }

    /** The scopes this frame sees, itself first. */
    ghost function Chain(): (chain: seq<E.Scope>)
      requires Valid()
      reads Repr
      ensures |chain| == depth + 1 && chain[0] == E.Scope(identifiers, statuses)
      decreases depth
    {
      [E.Scope(identifiers, statuses)] + if outer == null then [] else outer.Chain()
    }

    /** `Env::new()`: no bindings, no constants, no outer frame. */
    constructor ()
      ensures Valid() && fresh(Repr)
      ensures identifiers == map[] && statuses == map[] && outer == null
      ensures Chain() == [E.EmptyScope]
    {
      identifiers := map[];
      statuses := map[];
      outer := null;
      Repr := {this};
      depth := 0;
    }

    /** `Env::from(m)`: bindings exactly `m`, no constants, no outer frame. */
    constructor From(m: map<string, Object>)
      ensures Valid() && fresh(Repr)
      ensures identifiers == m && statuses == map[] && outer == null
      ensures Chain() == [E.Scope(m, map[])]
    {
      identifiers := m;
      statuses := map[];
      outer := null;
      Repr := {this};
      depth := 0;
    }

    /** `Env::new_with_outer(o)`: an empty frame in front of `o`'s chain. */
    constructor WithOuter(o: Env)
      requires o.Valid()
      ensures Valid() && fresh(Repr - o.Repr)
      ensures identifiers == map[] && statuses == map[] && outer == o
      ensures Chain() == [E.EmptyScope] + o.Chain()
    {
      identifiers := map[];
      statuses := map[];
      outer := o;
      Repr := {this} + o.Repr;
      depth := o.depth + 1;
    }

    /** `set`: binds `n` in this frame only. */
    method Set(n: string, v: Object)
      requires Valid()
      modifies this
      ensures Valid()
      ensures identifiers == old(identifiers)[n := v] && statuses == old(statuses)
      ensures Chain() == [E.Set(old(Chain())[0], n, v)] + old(Chain())[1..]
    {
      identifiers := identifiers[n := v];
    }

    /** `constant`: marks `n` constant in this frame. */
    method Constant(n: string)
      requires Valid()
      modifies this
      ensures Valid()
      ensures identifiers == old(identifiers) && statuses == old(statuses)[n := true]
      ensures Chain() == [E.MarkConstant(old(Chain())[0], n)] + old(Chain())[1..]
    {
      statuses := statuses[n := true];
    }

    method IsConstant(n: string) returns (b: bool)
      requires Valid()
      ensures b == E.IsConstant(E.Scope(identifiers, statuses), n)
    {
      b := n in statuses && statuses[n];
    }

    /** `get`: this frame's binding, else the outer frame's. */
    method Get(n: string) returns (r: Option<Object>)
      requires Valid()
      ensures r == E.Get(Chain(), n)
      decreases depth
    {
      if n in identifiers {
        r := Some(identifiers[n]);
      } else if outer == null {
        r := None;
      } else {
        r := outer.Get(n);
        assert Chain()[1..] == outer.Chain();
      }
    }

    /** `update`: the innermost frame binding `n` takes `v`, unless `n` is constant there. */
    method Update(n: string, v: Object) returns (info: E.UpdateInfo)
      requires Valid()
      modifies Repr
      ensures Valid()
      ensures (info, Chain()) == E.Update(old(Chain()), n, v)
      decreases depth
    {
      ghost var chain := Chain();
      if n in identifiers {
        var constant := IsConstant(n);
        if constant {
          info := E.ConstantForbidden;
        } else {
          identifiers := identifiers[n := v];
          info := E.Succeed;
        }
      } else if outer == null {
        info := E.NoIdentifier;
      } else {
        assert chain[1..] == outer.Chain();
        info := outer.Update(n, v);
      }
    }
  }

  /** A fresh inner frame shadows the outer binding of a name and leaves the outer frame's untouched. */
  method ShadowingExample(v: Object, w: Object) returns (inner: Option<Object>, outer: Option<Object>)
    ensures inner == Some(w) && outer == Some(v)
  {
    var root := new Env.From(map["x" := v]);
    var child := new Env.WithOuter(root);
    child.Set("x", w);
    inner := child.Get("x");
    outer := root.Get("x");
  }

  /**
   * Updating a name the inner frame does not bind changes it in the outer frame,
   * where every frame sharing that outer frame sees it; a constant cannot be updated.
   */
  method OuterUpdateExample(v: Object, w: Object) returns (info: E.UpdateInfo, seen: Option<Object>, blocked: E.UpdateInfo)
    ensures info == E.Succeed && seen == Some(w) && blocked == E.ConstantForbidden
  {
    var root := new Env();
    root.Set("x", v);
    root.Set("k", v);
    root.Constant("k");
    var a := new Env.WithOuter(root);
    var b := new Env.WithOuter(root);
    info := a.Update("x", w);
    seen := b.Get("x");
    blocked := a.Update("k", w);
  }
}
