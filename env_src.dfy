/**
 * The environment of the `src` snapshot: a frame holds a `store` of bindings
 * and a fixed link to a shared outer frame; it has no constant flags and no
 * `update`. Its chain is read by the same `Environment.Get` as the newer
 * environment's, with every constant flag absent.
 */
module SrcEnv {
  import opened Wrappers
  import opened Objects
  import E = Environment

  class Env {
    var store: map<string, Object>
    const outer: Env?
    ghost const Repr: set<object>
    ghost const depth: nat

    ghost predicate Valid()
      decreases depth
    {
      && this in Repr
      && (outer == null ==> Repr == {this} && depth == 0)
      && (outer != null ==>
            && outer in Repr && this !in outer.Repr && Repr == {this} + outer.Repr
            && depth == outer.depth + 1 && outer.Valid())
    }

    /** The stores this frame sees, itself first, as scopes without constants. */
    ghost function Chain(): (chain: seq<E.Scope>)
      requires Valid()
      reads Repr
      ensures |chain| == depth + 1 && chain[0] == E.Scope(store, map[])
      decreases depth
    {
      [E.Scope(store, map[])] + if outer == null then [] else outer.Chain()
    }

    /** `Env::new()`: an empty store and no outer frame. */
    constructor ()
      ensures Valid() && fresh(Repr)
      ensures store == map[] && outer == null
    {
      store := map[];
      outer := null;
      Repr := {this};
      depth := 0;
    }

    /** `Env::from(m)`: the store is exactly `m`, with no outer frame. */
    constructor From(m: map<string, Object>)
      ensures Valid() && fresh(Repr)
      ensures store == m && outer == null
    {
      store := m;
      outer := null;
      Repr := {this};
      depth := 0;
    }

    /** `Env::new_with_outer(o)`: an empty store in front of `o`. */
    constructor WithOuter(o: Env)
      requires o.Valid()
      ensures Valid() && fresh(Repr - o.Repr)
      ensures store == map[] && outer == o
      ensures Chain() == [E.EmptyScope] + o.Chain()
    {
      store := map[];
      outer := o;
      Repr := {this} + o.Repr;
      depth := o.depth + 1;
    }

    /** `get`: the local binding, else the outer frame's, else None at the root. */
    method Get(n: string) returns (r: Option<Object>)
      requires Valid()
      ensures r == E.Get(Chain(), n)
      decreases depth
    {
      if n in store {
        r := Some(store[n]);
      } else if outer == null {
        r := None;
      } else {
        r := outer.Get(n);
        assert Chain()[1..] == outer.Chain();
      }
    }

    /** `set`: binds `n` in this frame; outer frames are never touched. */
    method Set(n: string, v: Object)
      requires Valid()
      modifies this
      ensures Valid()
      ensures store == old(store)[n := v]
      ensures Chain() == [E.Set(old(Chain())[0], n, v)] + old(Chain())[1..]
    {
      store := store[n := v];
    }
  }

  /** After `set(n, v)`, `get(n)` is `v` and a name set before reads as it did. */
  method SetGetExample(v: Object, w: Object) returns (got: Option<Object>, other: Option<Object>, missing: Option<Object>)
    ensures got == Some(w) && other == Some(v) && missing == None
  {
    var root := new Env();
    root.Set("a", v);
    var child := new Env.WithOuter(root);
    child.Set("b", w);
    got := child.Get("b");
    other := child.Get("a");
    missing := root.Get("b");
  }
}
