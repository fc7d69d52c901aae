/** `java.util.TreeMap<String, V>` as the aggregators use it: put, get and the
    values in ascending key order. */
module SortedMaps {
  import opened Wrappers
  import opened StringOrder

  class TreeMap<V> {
    /** The keys in ascending order. */
    var keys: seq<string>
    /** The entries of the map. */
    var entries: map<string, V>

    ghost predicate Valid()
      reads this
    {
      Ascending(keys) && (forall k :: k in entries <==> k in keys)
    }

    constructor ()
      ensures Valid() && keys == [] && entries == map[]
    {
      keys := [];
      entries := map[];
    }

    /** `get(k)`: null (`None`) when `k` has no entry. */
    function Get(k: string): (r: Option<V>)
      reads this
      ensures r.Some? <==> k in entries
      ensures r.Some? ==> r.value == entries[k]
    {
      if k in entries then Some(entries[k]) else None
    }

    /** `put(k, v)`: replaces the value of an existing key, or inserts the
        key at its place in the order. */
    method Put(k: string, v: V)
      requires Valid()
      modifies this
      ensures Valid()
      ensures entries == old(entries)[k := v]
      ensures k in old(entries) ==> keys == old(keys)
    {
      var i := 0;
      while i < |keys| && Less(keys[i], k)
        invariant 0 <= i <= |keys|
        invariant forall j :: 0 <= j < i ==> Less(keys[j], k)
      {
        i := i + 1;
      }
      if i < |keys| && keys[i] == k {
        entries := entries[k := v];
      } else {
        forall j | i <= j < |keys|
          ensures Less(k, keys[j])
        {
          LessTotal(keys[i], k);
          if j > i {
            LessTransitive(k, keys[i], keys[j]);
          }
        }
        LessIrreflexive(k);
        keys := keys[..i] + [k] + keys[i..];
        entries := entries[k := v];
      }
    }

    /** `values()`: the values in ascending key order. */
    function Values(): (r: seq<V>)
      reads this
      requires Valid()
      ensures |r| == |keys|
      ensures forall i :: 0 <= i < |keys| ==> r[i] == entries[keys[i]]
    {
      ValuesOf(keys, entries)
    }
  }

  /** A valid map's key sequence is its keys in ascending order. */
  lemma KeysSorted<V>(t: TreeMap<V>)
    requires t.Valid()
    ensures t.keys == Sorted(t.entries.Keys)
  {
    AscendingUnique(t.keys, Sorted(t.entries.Keys));
  }

  function ValuesOf<V>(ks: seq<string>, m: map<string, V>): (r: seq<V>)
    requires forall k :: k in ks ==> k in m
    ensures |r| == |ks|
    ensures forall i :: 0 <= i < |ks| ==> r[i] == m[ks[i]]
  {
    if ks == [] then [] else [m[ks[0]]] + ValuesOf(ks[1..], m)
  }
}
