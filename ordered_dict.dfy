/** Python dicts keep their keys in insertion order. A dict is modelled as the key order
    plus the key-to-value map; assigning to a present key keeps its position. */
module OrderedDicts {
  import opened Wrappers

  datatype ODict<K(==, !new), V> = ODict(keys: seq<K>, vals: map<K, V>)

  predicate Distinct<K(==, !new)>(s: seq<K>)
  {
    forall i, j :: 0 <= i < j < |s| ==> s[i] != s[j]
  }

  /** Each key once, and exactly the keys of the map. */
  ghost predicate Valid<K(!new), V>(d: ODict<K, V>)
  {
    Distinct(d.keys) && forall k :: k in d.vals <==> k in d.keys
  }

  function Empty<K(==, !new), V>(): (d: ODict<K, V>)
    ensures Valid(d) && d.keys == []
  {
    ODict([], map[])
  }

  /** `d[k] = v`. */
  function Put<K(==, !new), V>(d: ODict<K, V>, k: K, v: V): (r: ODict<K, V>)
    requires Valid(d)
    ensures Valid(r)
    ensures r.keys == if k in d.keys then d.keys else d.keys + [k]
    ensures r.vals == d.vals[k := v]
  {
    ODict(if k in d.keys then d.keys else d.keys + [k], d.vals[k := v])
  }

  /** `d.setdefault(k, []).append(v)`. */
  function AppendTo<K(==, !new), V>(d: ODict<K, seq<V>>, k: K, v: V): (r: ODict<K, seq<V>>)
    requires Valid(d)
    ensures Valid(r)
    ensures r.keys == if k in d.keys then d.keys else d.keys + [k]
    ensures r.vals == d.vals[k := if k in d.vals then d.vals[k] + [v] else [v]]
  {
    Put(d, k, if k in d.vals then d.vals[k] + [v] else [v])
  }

  /** `d.get(k)`. */
  function Get<K(==, !new), V>(d: ODict<K, V>, k: K): (r: Option<V>)
    ensures r.Some? <==> k in d.vals
    ensures r.Some? ==> r.value == d.vals[k]
  {
    if k in d.vals then Some(d.vals[k]) else None
  }

  /** The values in key order: `list(d.values())`. */
  function Values<K(==, !new), V>(d: ODict<K, V>): (r: seq<V>)
    requires Valid(d)
    ensures |r| == |d.keys|
    ensures forall i :: 0 <= i < |d.keys| ==> r[i] == d.vals[d.keys[i]]
  {
    seq(|d.keys|, i requires 0 <= i < |d.keys| => d.vals[d.keys[i]])
  }

  /** The distinct entries of s in order of first occurrence. */
  function Dedup<K(==, !new)>(s: seq<K>): (r: seq<K>)
    ensures Distinct(r)
    ensures forall k :: k in r <==> k in s
  {
    if s == [] then []
    else
      var front := Dedup(s[..|s| - 1]);
      if s[|s| - 1] in s[..|s| - 1] then front else front + [s[|s| - 1]]
  }

  lemma DedupAppend<K(!new)>(s: seq<K>, k: K)
    ensures Dedup(s + [k]) == if k in s then Dedup(s) else Dedup(s) + [k]
  {
    assert (s + [k])[..|s|] == s;
  }
}
