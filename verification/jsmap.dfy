/**
 * A JavaScript `Map` keyed by strings: the entries together with the order in
 * which their keys were first inserted, which is the order `values()`
 * iterates in. `set` on a present key replaces the value and keeps the key's
 * place; `delete` removes the key and keeps the order of the others.
 */
module JsMaps {
  import opened Wrappers
  import Seqs

  datatype JsMap<V> = JsMap(keys: seq<string>, entries: map<string, V>) {

    /** The insertion order lists every key of the entries exactly once. */
    ghost predicate Valid() {
      && Seqs.NoDuplicates(keys)
      && (forall k :: k in entries <==> k in keys)
    }

    /** `map.get(k)`. */
    function Get(k: string): (r: Option<V>)
      requires Valid()
      ensures r.Some? <==> k in keys
      ensures r.Some? ==> r.value == entries[k]
    {
      if k in entries then Some(entries[k]) else None
    }

    /** `map.set(k, v)`: a new key goes last, a present key keeps its place. */
    function Set(k: string, v: V): (r: JsMap<V>)
      requires Valid()
      ensures r.Valid()
      ensures r.entries == entries[k := v]
      ensures k in keys ==> r.keys == keys
      ensures k !in keys ==> r.keys == keys + [k]
    {
      if k in entries then
        JsMap(keys, entries[k := v])
      else
        var r := JsMap(keys + [k], entries[k := v]);
        assert Seqs.NoDuplicates(r.keys) by {
          forall i, j | 0 <= i < j < |r.keys| ensures r.keys[i] != r.keys[j] {
            if j == |keys| { assert r.keys[i] == keys[i]; }
          }
        }
        r
    }

    /** `map.delete(k)`: the map without `k`, and whether `k` was there. */
    function Delete(k: string): (r: (JsMap<V>, bool))
      requires Valid()
      ensures r.0.Valid()
      ensures r.1 <==> k in keys
      ensures r.0.entries == entries - {k}
      ensures r.0.keys == Seqs.Filter(keys, (x: string) => x != k)
    {
      var ks := Seqs.Filter(keys, (x: string) => x != k);
      Seqs.FilterMembers(keys, (x: string) => x != k);
      Seqs.FilterNoDuplicates(keys, (x: string) => x != k);
      assert forall x :: x in ks <==> x in keys && x != k by {
        forall x ensures x in ks <==> x in keys && x != k {
          if x in keys && x != k {
            var i :| 0 <= i < |keys| && keys[i] == x;
          }
          if x in ks {
            var i :| 0 <= i < |ks| && ks[i] == x;
          }
        }
      }
      (JsMap(ks, entries - {k}), k in entries)
    }

    /** `Array.from(map.values())`: the values in insertion order of their keys. */
    function Values(): (r: seq<V>)
      requires Valid()
      ensures |r| == |keys|
      ensures forall i :: 0 <= i < |keys| ==> r[i] == entries[keys[i]]
    {
      seq(|keys|, i requires 0 <= i < |keys| => entries[keys[i]])
    }
  }

  /** `new Map()`. */
  function Empty<V>(): (m: JsMap<V>)
    ensures m.Valid() && m.Values() == []
    ensures forall k :: m.Get(k) == None
  {
    JsMap([], map[])
  }

  /** After `set(k, v)`, `get(k)` returns `v` and every other key reads as before. */
  lemma GetAfterSet<V>(m: JsMap<V>, k: string, v: V, other: string)
    requires m.Valid()
    ensures m.Set(k, v).Get(k) == Some(v)
    ensures other != k ==> m.Set(k, v).Get(other) == m.Get(other)
  {
  }

  /** Setting a present key leaves the iteration order, and so the positions of all values, unchanged. */
  lemma SetPresentKeepsPosition<V>(m: JsMap<V>, k: string, v: V, i: int)
    requires m.Valid() && k in m.keys
    requires 0 <= i < |m.keys|
    ensures m.Set(k, v).keys == m.keys
    ensures m.Set(k, v).Values()[i] == (if m.keys[i] == k then v else m.Values()[i])
  {
  }

  /** After `delete(k)` the key is gone, a second `delete(k)` reports false, and every other key reads as before. */
  lemma DeleteTwice<V>(m: JsMap<V>, k: string, other: string)
    requires m.Valid()
    ensures m.Delete(k).0.Get(k) == None
    ensures !m.Delete(k).0.Delete(k).1
    ensures m.Delete(k).0.Delete(k).0 == m.Delete(k).0
    ensures other != k ==> m.Delete(k).0.Get(other) == m.Get(other)
  {
    var m1 := m.Delete(k).0;
    Seqs.FilterKeepsAll(m1.keys, (x: string) => x != k);
  }
}
