/**
 * A JavaScript `Map<string, V>` as MemStorage uses it: lookup by key, `set` that
 * inserts or overwrites, and `values()` iterating in the order keys were first set.
 */
module OrderedMaps {
  import opened Wrappers

  /** `keys` records first-insertion order; `entries` holds the current value of each key. */
  datatype OrderedMap<V> = OrderedMap(keys: seq<string>, entries: map<string, V>)
  {
    /** Keys are listed once each, and exactly the keys that have an entry are listed. */
    ghost predicate Valid()
    {
      && (forall i, j :: 0 <= i < j < |keys| ==> keys[i] != keys[j])
      && (forall k :: k in entries <==> k in keys)
    }

    /** `Map.prototype.get`: the value stored under `k`, or undefined when `k` was never set. */
    function Get(k: string): (r: Option<V>)
      ensures Valid() ==> (r.Some? <==> k in keys)
      ensures r.Some? ==> k in entries && entries[k] == r.value
    {
      if k in entries then Some(entries[k]) else None
    }

    /**
     * `Array.from(map.values())`: one value per key, the i-th being what `get` returns
     * for the i-th key in insertion order.
     */
    function Values(): (vs: seq<V>)
      requires Valid()
      ensures |vs| == |keys|
      ensures forall i :: 0 <= i < |vs| ==> Get(keys[i]) == Some(vs[i])
    {
      seq(|keys|, i requires 0 <= i < |keys| => entries[keys[i]])
    }

    /**
     * `Map.prototype.set`: a new key goes to the end of the iteration order; an
     * existing key keeps its place and only its value is replaced.
     */
    function Set(k: string, v: V): (r: OrderedMap<V>)
      requires Valid()
      ensures r.Valid()
      ensures r.Get(k) == Some(v)
      ensures forall k' :: k' != k ==> r.Get(k') == Get(k')
      ensures r.entries.Keys == entries.Keys + {k}
    {
      if k in entries then OrderedMap(keys, entries[k := v])
      else OrderedMap(keys + [k], entries[k := v])
    }
  }

  /** A list of distinct keys has as many elements as the set of its keys. */
  lemma {:induction false} DistinctKeysCount(ks: seq<string>, s: set<string>)
    requires forall i, j :: 0 <= i < j < |ks| ==> ks[i] != ks[j]
    requires forall k :: k in s <==> k in ks
    ensures |s| == |ks|
  {
    if ks != [] {
      var last := ks[|ks| - 1];
      var init := ks[..|ks| - 1];
      assert forall k :: k in s - {last} <==> k in init by {
        forall k ensures k in s - {last} <==> k in init {
          if k in init {
            var i :| 0 <= i < |init| && init[i] == k;
            assert ks[i] == k;
          }
          if k in ks && k != last {
            var i :| 0 <= i < |ks| && ks[i] == k;
            assert i < |ks| - 1 && init[i] == k;
          }
        }
      }
      DistinctKeysCount(init, s - {last});
    } else {
      assert s == {};
    }
  }

  /** `values()` yields exactly `size` values: one per entry of the map. */
  lemma ValuesCountEntries<V>(m: OrderedMap<V>)
    requires m.Valid()
    ensures |m.Values()| == |m.entries|
  {
    DistinctKeysCount(m.keys, m.entries.Keys);
  }

  /** `new Map()`. */
  function Empty<V>(): (m: OrderedMap<V>)
    ensures m.Valid() && m.Values() == []
    ensures forall k :: m.Get(k) == None
  {
    OrderedMap([], map[])
  }

  /** Setting a key that is not yet present appends its value to the iteration order. */
  lemma SetFreshAppends<V>(m: OrderedMap<V>, k: string, v: V)
    requires m.Valid() && k !in m.entries
    ensures m.Set(k, v).Values() == m.Values() + [v]
  {
    var r := m.Set(k, v);
    forall i | 0 <= i < |r.Values()|
      ensures r.Values()[i] == (m.Values() + [v])[i]
    {
      if i < |m.keys| {
        assert r.keys[i] == m.keys[i] && m.keys[i] != k;
      }
    }
  }

  /**
   * Setting a key that is already present leaves the length and the order alone and
   * replaces the value at that key's position.
   */
  lemma SetExistingInPlace<V>(m: OrderedMap<V>, k: string, v: V)
    requires m.Valid() && k in m.entries
    ensures exists i :: 0 <= i < |m.keys| && m.keys[i] == k && m.Set(k, v).Values() == m.Values()[i := v]
  {
  }

  /** A value is among `values()` exactly when some key maps to it. */
  lemma ValuesAreEntries<V>(m: OrderedMap<V>, v: V)
    requires m.Valid()
    ensures v in m.Values() <==> exists k :: k in m.entries && m.entries[k] == v
  {
    if v in m.Values() {
      var i :| 0 <= i < |m.Values()| && m.Values()[i] == v;
      assert m.keys[i] in m.entries;
    }
    if exists k :: k in m.entries && m.entries[k] == v {
      var k :| k in m.entries && m.entries[k] == v;
      var i :| 0 <= i < |m.keys| && m.keys[i] == k;
      assert m.Values()[i] == v;
    }
  }

  /** Two sets under distinct fresh keys leave both values at the end, in call order. */
  lemma SetTwiceFresh<V>(m: OrderedMap<V>, k1: string, v1: V, k2: string, v2: V)
    requires m.Valid() && k1 !in m.entries && k2 !in m.entries && k1 != k2
    ensures m.Set(k1, v1).Set(k2, v2).Values() == m.Values() + [v1, v2]
  {
    var m1 := m.Set(k1, v1);
    SetFreshAppends(m, k1, v1);
    SetFreshAppends(m1, k2, v2);
    var vs := m.Values();
    assert m1.Set(k2, v2).Values() == vs + [v1] + [v2];
    assert vs + [v1] + [v2] == vs + [v1, v2];
  }
}
