/**
 Go's `context.Context`, reduced to what xlog uses: an immutable chain of
 key/value bindings. `WithValue` derives a child that carries one more
 binding; `Lookup` (Go's `ctx.Value(key)`) walks the chain from the newest
 binding to the oldest and stops at the first one under the key.
 */
module GoContext {
  datatype Option<T> = None | Some(value: T)

  /** A key as Go compares interface values: equal dynamic type and equal
      value. */
  datatype Key = Key(typeName: string, name: string)

  /** One binding of a key to a value of type `V`, which stands for Go's
      `any`: the context knows nothing of what it stores. */
  datatype Binding<V> = Binding(key: Key, value: V)

  /** The bindings of a context, oldest first. */
  type Context<V> = seq<Binding<V>>

  /** `context.Background()`: no bindings. */
  function Background<V>(): (r: Context<V>)
    ensures |r| == 0
  {
    []
  }

  /** `context.WithValue`: a child context; the parent's bindings are kept
      as they are and the new one is the newest. */
  function WithValue<V>(parent: Context<V>, k: Key, v: V): (r: Context<V>)
    ensures |r| == |parent| + 1
    ensures r[..|parent|] == parent
    ensures r[|parent|] == Binding(k, v)
    ensures Lookup(r, k) == Some(v)
    ensures forall k' :: k' != k ==> Lookup(r, k') == Lookup(parent, k')
  {
    var r := parent + [Binding(k, v)];
    assert r[..|r| - 1] == parent;
    r
  }

  /** Binding `i` is the newest one under `k`. */
  ghost predicate NewestAt<V>(ctx: Context<V>, k: Key, i: int)
  {
    0 <= i < |ctx| && ctx[i].key == k && forall j :: i < j < |ctx| ==> ctx[j].key != k
  }

  /** `ctx.Value(k)`: the value of the newest binding under `k`, if any. */
  function Lookup<V>(ctx: Context<V>, k: Key): (r: Option<V>)
    ensures r.None? <==> forall i :: 0 <= i < |ctx| ==> ctx[i].key != k
    ensures forall i :: NewestAt(ctx, k, i) ==> r == Some(ctx[i].value)
    decreases |ctx|
  {
    if |ctx| == 0 then None
    else if ctx[|ctx| - 1].key == k then Some(ctx[|ctx| - 1].value)
    else
      var parent := ctx[..|ctx| - 1];
      assert forall i :: NewestAt(ctx, k, i) ==> NewestAt(parent, k, i);
      Lookup(parent, k)
  }

  /** The bindings of `ctx` under `k` alone, in the same order. */
  function Only<V>(ctx: Context<V>, k: Key): (r: Context<V>)
    ensures forall i :: 0 <= i < |r| ==> r[i].key == k
    ensures forall i :: 0 <= i < |r| ==> r[i] in ctx
    ensures forall i :: 0 <= i < |ctx| && ctx[i].key == k ==> ctx[i] in r
    ensures |r| <= |ctx|
    decreases |ctx|
  {
    if |ctx| == 0 then []
    else
      var last := ctx[|ctx| - 1];
      Only(ctx[..|ctx| - 1], k) + (if last.key == k then [last] else [])
  }

  /** Bindings under other keys never change what a lookup of `k` finds. */
  lemma {:induction false} LookupOnly<V>(ctx: Context<V>, k: Key)
    ensures Lookup(ctx, k) == Lookup(Only(ctx, k), k)
    decreases |ctx|
  {
    if |ctx| > 0 {
      var parent := ctx[..|ctx| - 1];
      var last := ctx[|ctx| - 1];
      LookupOnly(parent, k);
      if last.key == k {
        var r := Only(parent, k) + [last];
        assert NewestAt(r, k, |r| - 1);
      } else {
        assert Only(ctx, k) == Only(parent, k);
      }
    }
  }
}
