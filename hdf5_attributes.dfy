/** `save_attributes_to_hdf5_group`: an HDF5 object header holds at most 64512 bytes, so a
    list attribute (layer names, weight names) that is too large is stored in numbered
    chunks, as many as needed. The list becomes a numpy array of fixed-width byte strings,
    each item taking as many bytes as the longest; `np.array_split` cuts it into nearly
    equal contiguous chunks. The HDF5 group itself is left out: the attributes written are
    returned. */
module Hdf5Attributes {
  import opened Wrappers
  import opened PyMath
  import opened Functional

  const HeaderLimit: nat := 64512

  type Bytes = seq<bv8>

  /** The length of the longest item (0 for no items). */
  function MaxLen(data: seq<Bytes>): (m: nat)
    ensures forall i :: 0 <= i < |data| ==> |data[i]| <= m
    ensures data != [] ==> exists i :: 0 <= i < |data| && |data[i]| == m
    ensures data == [] ==> m == 0
  {
    if data == [] then 0
    else
      var m := MaxLen(data[1..]);
      assert forall i :: 1 <= i < |data| ==> data[i] == data[1..][i - 1];
      if |data[0]| >= m then |data[0]| else m
  }

  /** The item size numpy gives the array: the longest item, at least one byte; an empty
      list becomes a float64 array. */
  function Itemsize(data: seq<Bytes>): (s: nat)
    ensures s >= 1
    ensures data != [] && (forall i :: 0 <= i < |data| ==> |data[i]| <= HeaderLimit) ==> s <= HeaderLimit
  {
    if data == [] then 8 else if MaxLen(data) >= 1 then MaxLen(data) else 1
  }

  /** q, plus one for the first r entries, n entries in all. */
  function Spread(q: nat, r: nat, n: nat): (s: seq<int>)
    ensures |s| == n
    ensures forall i :: 0 <= i < n ==> s[i] == q + (if i < r then 1 else 0)
  {
    if n == 0 then []
    else [q + (if r > 0 then 1 else 0)] + Spread(q, if r > 0 then r - 1 else 0, n - 1)
  }

  lemma {:induction false} SpreadSum(q: nat, r: nat, n: nat)
    requires r <= n
    ensures Sum(Spread(q, r, n)) == n * q + r
  {
    if n > 0 {
      SpreadSum(q, if r > 0 then r - 1 else 0, n - 1);
      assert Spread(q, r, n)[1..] == Spread(q, if r > 0 then r - 1 else 0, n - 1);
    }
  }

  /** The chunk lengths of `np.array_split(a, n)` for an array of `len` items: the first
      `len % n` chunks get one item more than the others. */
  function ArraySplitSizes(len: nat, n: nat): (s: seq<int>)
    requires n >= 1
    ensures |s| == n
    ensures forall i :: 0 <= i < n ==> s[i] >= 0 && s[i] <= s[0]
    ensures Sum(s) == len
  {
    var s := Spread(len / n, len % n, n);
    SpreadSum(len / n, len % n, n);
    s
  }

  /** No chunk of the n-way split exceeds the header limit. */
  predicate Fits(data: seq<Bytes>, n: nat)
    requires n >= 1
  {
    var sizes := ArraySplitSizes(|data|, n);
    forall i :: 0 <= i < n ==> sizes[i] * Itemsize(data) <= HeaderLimit
  }

  /** One chunk per item always fits once no item is too large. */
  lemma OnePerItemFits(data: seq<Bytes>)
    requires forall i :: 0 <= i < |data| ==> |data[i]| <= HeaderLimit
    ensures Fits(data, if |data| >= 1 then |data| else 1)
  {
    var n := if |data| >= 1 then |data| else 1;
    var sizes := ArraySplitSizes(|data|, n);
    assert forall i :: 0 <= i < n ==> sizes[i] <= 1;
    forall i | 0 <= i < n
      ensures sizes[i] * Itemsize(data) <= HeaderLimit
    {
      MulLe(sizes[i], 1, Itemsize(data));
    }
  }

  lemma MulLe(a: int, b: int, c: nat)
    requires a <= b
    ensures a * c <= b * c
  {
  }

  /** The chunks, in order. */
  function Chunks(data: seq<Bytes>, n: nat): (r: seq<seq<Bytes>>)
    requires n >= 1
    ensures |r| == n
  {
    SplitSeq(data, ArraySplitSizes(|data|, n))
  }

  /** The chunks laid end to end give back the list. */
  lemma ChunksCoverData(data: seq<Bytes>, n: nat)
    requires n >= 1
    ensures Flatten(Chunks(data, n)) == data
  {
    var sizes := ArraySplitSizes(|data|, n);
    SplitFlatten(data, sizes);
    assert data[..|data|] == data;
  }

  /** One attribute set on the group: `group.attrs[key] = items`. */
  datatype Attribute = Attribute(key: string, items: seq<Bytes>)

  /** The attributes written for n chunks: `name0`, `name1`, ... for several chunks, and
      the list itself under `name` for one. */
  function Attributes(name: string, data: seq<Bytes>, n: nat): (r: seq<Attribute>)
    requires n >= 1
    ensures n == 1 ==> r == [Attribute(name, data)]
    ensures n > 1 ==> |r| == n && forall i :: 0 <= i < n ==> r[i].key == name + NatToString(i)
    ensures n > 1 ==> forall i :: 0 <= i < n ==> r[i].items == Chunks(data, n)[i]
  {
    if n > 1 then
      var chunks := Chunks(data, n);
      seq(n, i requires 0 <= i < n => Attribute(name + IntToString(i), chunks[i]))
    else [Attribute(name, data)]
  }

  /** Reading the attributes back in order and laying their items end to end gives the
      list that was saved. */
  lemma AttributesCoverData(name: string, data: seq<Bytes>, n: nat)
    requires n >= 1
    ensures var r := Attributes(name, data, n);
      Flatten(seq(|r|, i requires 0 <= i < |r| => r[i].items)) == data
  {
    var r := Attributes(name, data, n);
    var items := seq(|r|, i requires 0 <= i < |r| => r[i].items);
    if n > 1 {
      assert items == Chunks(data, n);
      ChunksCoverData(data, n);
    } else {
      assert items == [data];
      assert Flatten(items) == Flatten(items[..0]) + data;
    }
  }

  /** The chunk keys are all different. */
  lemma AttributeKeysDistinct(name: string, data: seq<Bytes>, n: nat, i: nat, j: nat)
    requires n > 1 && i < j < n
    ensures Attributes(name, data, n)[i].key != Attributes(name, data, n)[j].key
  {
    var r := Attributes(name, data, n);
    if r[i].key == r[j].key {
      assert NatToString(i) == r[i].key[|name|..];
      NatToStringInjective(i, j);
    }
  }

  /** `save_attributes_to_hdf5_group`. The chunk count is returned beside the attributes. */
  method SaveAttributesToHdf5Group(name: string, data: seq<Bytes>)
    returns (r: Result<seq<Attribute>>, numChunks: nat)
    ensures r.Err? <==> exists i :: 0 <= i < |data| && |data[i]| > HeaderLimit
    ensures r.Err? ==> r.error == RuntimeError
    ensures r.Ok? ==> 1 <= numChunks <= (if |data| >= 1 then |data| else 1)
    ensures r.Ok? ==> Fits(data, numChunks) && forall m :: 1 <= m < numChunks ==> !Fits(data, m)
    ensures r.Ok? ==> r.value == Attributes(name, data, numChunks)
  {
    var i := 0;
    while i < |data|
      invariant 0 <= i <= |data|
      invariant forall j :: 0 <= j < i ==> |data[j]| <= HeaderLimit
    {
      if |data[i]| > HeaderLimit {
        return Err(RuntimeError), 0;
      }
      i := i + 1;
    }
    var most := if |data| >= 1 then |data| else 1;
    OnePerItemFits(data);
    numChunks := 1;
    while !Fits(data, numChunks)
      invariant 1 <= numChunks <= most
      invariant forall m :: 1 <= m < numChunks ==> !Fits(data, m)
      decreases most - numChunks
    {
      numChunks := numChunks + 1;
    }
    r := Ok(Attributes(name, data, numChunks));
  }
}
