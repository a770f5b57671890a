/**
 * A Python `dict`: a finite map that remembers the order in which its keys
 * were first inserted. Assigning to a key that is already present replaces the
 * value in place and keeps the key's position; a new key goes to the end.
 */
module Dicts {

  datatype Dict<K, V> = Dict(keys: seq<K>, entries: map<K, V>)
  {
    /** The keys are listed once each, and exactly the keys of the map are listed. */
    predicate Valid() {
      && (forall i, j :: 0 <= i < j < |keys| ==> keys[i] != keys[j])
      && (forall k | k in entries :: k in keys)
      && (forall i | 0 <= i < |keys| :: keys[i] in entries)
    }

    /** `len(d)` */
    function Size(): nat {
      |keys|
    }

    /** Position of a present key in insertion order. */
    function IndexOf(k: K): (i: nat)
      requires k in keys
      ensures i < |keys| && keys[i] == k
      decreases |keys|
    {
      if keys[0] == k then 0 else 1 + Dict(keys[1..], entries).IndexOf(k)
    }

    /** `list(d.values())`: the values in insertion order of their keys. */
    function Values(): (vs: seq<V>)
      requires Valid()
      ensures |vs| == |keys|
    {
      seq(|keys|, i requires 0 <= i < |keys| => entries[keys[i]])
    }

    /** `d[k] = v` */
    function Put(k: K, v: V): (r: Dict<K, V>)
      requires Valid()
      ensures r.Valid()
      ensures r.entries == entries[k := v]
      ensures k in keys ==> r.keys == keys && r.Values() == Values()[IndexOf(k) := v]
      ensures k !in keys ==> r.keys == keys + [k] && r.Values() == Values() + [v]
    {
      var r := Dict(if k in entries then keys else keys + [k], entries[k := v]);
      if k in keys then PutInPlace(k, v); r else r
    }

    /** Replacing the value of a present key changes only that key's value. */
    lemma PutInPlace(k: K, v: V)
      requires Valid() && k in keys
      ensures Dict(keys, entries[k := v]).Values() == Values()[IndexOf(k) := v]
    {
      var idx := IndexOf(k);
      var got, want := Dict(keys, entries[k := v]).Values(), Values()[idx := v];
      forall i | 0 <= i < |keys| ensures got[i] == want[i] {
        if i != idx {
          assert keys[i] != k;
        }
      }
    }
  }

  /** `{}` */
  function Empty<K, V>(): (d: Dict<K, V>)
    ensures d.Valid() && d.Size() == 0
  {
    Dict([], map[])
  }
}
