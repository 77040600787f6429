/** An insertion-ordered map from names to values.

    It is the shape of two things in the renderer: the set of helper bindings handed to a
    template (`template.FuncValues`: `Set` overwrites, `SetDefault` binds only an absent name,
    `AppendValues`/`Append` merge other sets, later ones winning) and the registry of function
    map makers (a map plus the slice of names in first-registration order). */
module OrderedMaps {
  import opened Wrappers

  datatype OrderedMap<V> = OrderedMap(keys: seq<string>, vals: map<string, V>) {

    /** `keys` lists every bound name exactly once. */
    ghost predicate Valid() {
      && (forall i, j :: 0 <= i < j < |keys| ==> keys[i] != keys[j])
      && (forall k :: k in vals <==> k in keys)
    }

    function Get(k: string): Option<V> {
      if k in vals then Some(vals[k]) else None
    }

    /** Binds `k` to `v`; a new name goes to the end of the order, a bound one keeps its place. */
    function Set(k: string, v: V): (r: OrderedMap<V>)
      ensures r.Get(k) == Some(v)
      ensures forall j :: j != k ==> r.Get(j) == Get(j)
      ensures k in vals ==> r.keys == keys
      ensures k !in vals ==> r.keys == keys + [k]
      ensures Valid() ==> r.Valid()
    {
      if k in vals then OrderedMap(keys, vals[k := v])
      else OrderedMap(keys + [k], vals[k := v])
    }

    /** Binds `k` to `v` only if `k` is not bound yet: an existing binding is never clobbered. */
    function SetDefault(k: string, v: V): (r: OrderedMap<V>)
      ensures r.Get(k) == if k in vals then Get(k) else Some(v)
      ensures forall j :: j != k ==> r.Get(j) == Get(j)
      ensures r.keys == if k in vals then keys else keys + [k]
      ensures Valid() ==> r.Valid()
    {
      if k in vals then this else Set(k, v)
    }

    /** Sets, in the order of `ks`, every name of `ks` that `src` binds. */
    function SetAll(ks: seq<string>, src: map<string, V>): (r: OrderedMap<V>)
      decreases |ks|
      ensures forall k :: r.Get(k) == if k in ks && k in src then Some(src[k]) else Get(k)
      ensures Valid() ==> r.Valid()
      ensures |keys| <= |r.keys| && r.keys[..|keys|] == keys
    {
      if ks == [] then this
      else if ks[0] in src then Set(ks[0], src[ks[0]]).SetAll(ks[1..], src)
      else SetAll(ks[1..], src)
    }

    /** Merges `other` into this set in `other`'s order; on a shared name `other` wins. */
    function AppendValues(other: OrderedMap<V>): (r: OrderedMap<V>)
      ensures other.Valid() ==> forall k :: r.Get(k) == if k in other.vals then other.Get(k) else Get(k)
      ensures Valid() ==> r.Valid()
      ensures |keys| <= |r.keys| && r.keys[..|keys|] == keys
    {
      SetAll(other.keys, other.vals)
    }

    /** Merges every set of `others`, left to right; later sets win. */
    function Append(others: seq<OrderedMap<V>>): (r: OrderedMap<V>)
      decreases |others|
      ensures (forall i :: 0 <= i < |others| ==> others[i].Valid()) ==>
                forall k :: r.Get(k) == (var b := LastBinding(others, k); if b.Some? then b else Get(k))
      ensures Valid() ==> r.Valid()
    {
      if others == [] then this
      else Append(others[..|others| - 1]).AppendValues(others[|others| - 1])
    }
  }

  function Empty<V>(): (r: OrderedMap<V>)
    ensures r.Valid() && forall k :: r.Get(k) == None
  {
    OrderedMap([], map[])
  }

  /** The binding of `k` in the last set of `others` that binds it. */
  function LastBinding<V>(others: seq<OrderedMap<V>>, k: string): Option<V>
    decreases |others|
  {
    if others == [] then None
    else if k in others[|others| - 1].vals then Some(others[|others| - 1].vals[k])
    else LastBinding(others[..|others| - 1], k)
  }
}
