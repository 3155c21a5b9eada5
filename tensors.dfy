/** Dense tensors as numpy and torch hold them: a shape and the value stored at each
    multi-index. Only the index bookkeeping of `transpose`, `.T`, `expand_dims` and
    `squeeze` is modelled; the element values are left abstract. */
module Tensors {

  datatype Tensor = Tensor(shape: seq<nat>, at: seq<nat> -> real)

  /** `idx` addresses an element of a tensor of this shape. */
  predicate InBounds(shape: seq<nat>, idx: seq<nat>)
  {
    |idx| == |shape| && forall i :: 0 <= i < |idx| ==> idx[i] < shape[i]
  }

  /** `p` lists each of the axes 0..n-1 exactly once. */
  predicate IsPerm(p: seq<nat>, n: nat)
  {
    && |p| == n
    && (forall i :: 0 <= i < n ==> p[i] < n)
    && (forall k :: 0 <= k < n ==> k in p)
    && (forall i, j :: 0 <= i < j < n ==> p[i] != p[j])
  }

  /** Entry i of the result is entry p[i] of s, as numpy's `transpose(x, p)` reorders a shape. */
  function Permute<T>(s: seq<T>, p: seq<nat>): (r: seq<T>)
    requires forall i :: 0 <= i < |p| ==> p[i] < |s|
    ensures |r| == |p|
    ensures forall i :: 0 <= i < |p| ==> r[i] == s[p[i]]
  {
    seq(|p|, i requires 0 <= i < |p| => s[p[i]])
  }

  /** The position at which axis k appears in p. */
  function IndexOf(p: seq<nat>, k: nat): (i: nat)
    requires k in p
    ensures i < |p| && p[i] == k
  {
    if p[0] == k then 0 else 1 + IndexOf(p[1..], k)
  }

  /** The permutation that undoes p. */
  function Inverse(p: seq<nat>): (q: seq<nat>)
    requires IsPerm(p, |p|)
    ensures |q| == |p|
    ensures forall k :: 0 <= k < |p| ==> q[k] < |p| && p[q[k]] == k
  {
    seq(|p|, k requires 0 <= k < |p| => IndexOf(p, k))
  }

  lemma InverseIsPerm(p: seq<nat>)
    requires IsPerm(p, |p|)
    ensures IsPerm(Inverse(p), |p|)
    ensures forall i :: 0 <= i < |p| ==> Inverse(p)[p[i]] == i
  {
    var q := Inverse(p);
    forall i | 0 <= i < |p|
      ensures q[p[i]] == i
    {
      var j := q[p[i]];
      assert p[j] == p[i];
    }
    forall k | 0 <= k < |p|
      ensures k in q
    {
      assert q[p[k]] == k;
    }
  }

  /** numpy `transpose(t, p)`: axis i of the result is axis p[i] of t. */
  function Transpose(t: Tensor, p: seq<nat>): (r: Tensor)
    requires IsPerm(p, |t.shape|)
    ensures |r.shape| == |t.shape|
    ensures forall i :: 0 <= i < |p| ==> r.shape[i] == t.shape[p[i]]
  {
    var inv := Inverse(p);
    Tensor(Permute(t.shape, p),
           idx => if |idx| == |p| then t.at(Permute(idx, inv)) else t.at(idx))
  }

  /** The element at q moves to the permuted index, and that index lies inside the new shape. */
  lemma TransposeAt(t: Tensor, p: seq<nat>, q: seq<nat>)
    requires IsPerm(p, |t.shape|)
    requires InBounds(t.shape, q)
    ensures InBounds(Transpose(t, p).shape, Permute(q, p))
    ensures Transpose(t, p).at(Permute(q, p)) == t.at(q)
  {
    var inv := Inverse(p);
    var moved := Permute(q, p);
    assert Permute(moved, inv) == q;
  }

  /** Transposing back with the inverse permutation restores shape and elements. */
  lemma TransposeInverse(t: Tensor, p: seq<nat>, q: seq<nat>)
    requires IsPerm(p, |t.shape|)
    requires |q| == |t.shape|
    ensures IsPerm(Inverse(p), |t.shape|)
    ensures Transpose(Transpose(t, p), Inverse(p)).shape == t.shape
    ensures Transpose(Transpose(t, p), Inverse(p)).at(q) == t.at(q)
  {
    InverseIsPerm(p);
    var inv := Inverse(p);
    var u := Transpose(t, p);
    assert Permute(u.shape, inv) == t.shape;
    var inv2 := Inverse(inv);
    assert forall k :: 0 <= k < |p| ==> inv2[k] == p[k] by {
      forall k | 0 <= k < |p|
        ensures inv2[k] == p[k]
      {
        assert inv[p[k]] == k;
        assert inv[inv2[k]] == k;
      }
    }
    assert Permute(Permute(q, inv2), inv) == q;
  }

  /** The axes in reverse order: numpy's `.T`. */
  function Reversal(n: nat): (p: seq<nat>)
    ensures IsPerm(p, n)
    ensures forall i :: 0 <= i < n ==> p[i] == n - 1 - i
  {
    var p := seq(n, i requires 0 <= i < n => n - 1 - i);
    forall k | 0 <= k < n
      ensures k in p
    {
      assert p[n - 1 - k] == k;
    }
    p
  }

  /** numpy `x.T`. */
  function T(t: Tensor): (r: Tensor)
    ensures |r.shape| == |t.shape|
    ensures forall i :: 0 <= i < |t.shape| ==> r.shape[i] == t.shape[|t.shape| - 1 - i]
  {
    Transpose(t, Reversal(|t.shape|))
  }

  /** numpy `expand_dims(x, 0)`: a new leading axis of size 1. */
  function ExpandDims0(t: Tensor): (r: Tensor)
    ensures r.shape == [1] + t.shape
    ensures forall q :: r.at([0] + q) == t.at(q)
  {
    Tensor([1] + t.shape, idx => if |idx| > 0 then t.at(idx[1..]) else t.at(idx))
  }

  /** The shape numpy `squeeze` leaves: every axis of size 1 removed. */
  function SqueezeShape(shape: seq<nat>): (r: seq<nat>)
    ensures |r| <= |shape|
    ensures forall i :: 0 <= i < |r| ==> r[i] != 1
    ensures 1 !in shape ==> r == shape
  {
    if shape == [] then []
    else if shape[0] == 1 then SqueezeShape(shape[1..])
    else [shape[0]] + SqueezeShape(shape[1..])
  }

  /** The squeezed index that addresses the same element as q. */
  function DropUnit(shape: seq<nat>, q: seq<nat>): seq<nat>
    requires |q| == |shape|
  {
    if shape == [] then []
    else if shape[0] == 1 then DropUnit(shape[1..], q[1..])
    else [q[0]] + DropUnit(shape[1..], q[1..])
  }

  /** The full index for a squeezed index: 0 on every axis of size 1. */
  function Unsqueeze(shape: seq<nat>, idx: seq<nat>): (q: seq<nat>)
    ensures |q| == |shape|
  {
    if shape == [] then []
    else if shape[0] == 1 then [0] + Unsqueeze(shape[1..], idx)
    else if idx == [] then [0] + Unsqueeze(shape[1..], [])
    else [idx[0]] + Unsqueeze(shape[1..], idx[1..])
  }

  lemma UnsqueezeDropUnit(shape: seq<nat>, q: seq<nat>)
    requires InBounds(shape, q)
    ensures InBounds(SqueezeShape(shape), DropUnit(shape, q))
    ensures Unsqueeze(shape, DropUnit(shape, q)) == q
  {
    DropUnitInBounds(shape, q);
    UnsqueezeAfterDrop(shape, q);
  }

  lemma {:induction false} DropUnitInBounds(shape: seq<nat>, q: seq<nat>)
    requires InBounds(shape, q)
    ensures InBounds(SqueezeShape(shape), DropUnit(shape, q))
  {
    if shape != [] {
      DropUnitInBounds(shape[1..], q[1..]);
      if shape[0] != 1 {
        var d := DropUnit(shape[1..], q[1..]);
        assert DropUnit(shape, q) == [q[0]] + d;
        assert SqueezeShape(shape) == [shape[0]] + SqueezeShape(shape[1..]);
      }
    }
  }

  lemma {:induction false} UnsqueezeAfterDrop(shape: seq<nat>, q: seq<nat>)
    requires InBounds(shape, q)
    ensures Unsqueeze(shape, DropUnit(shape, q)) == q
  {
    if shape != [] {
      UnsqueezeAfterDrop(shape[1..], q[1..]);
      assert q == [q[0]] + q[1..];
      if shape[0] != 1 {
        var d := DropUnit(shape[1..], q[1..]);
        assert DropUnit(shape, q) == [q[0]] + d;
        assert ([q[0]] + d)[1..] == d;
      }
    }
  }

  /** numpy `squeeze(x)`. */
  function Squeeze(t: Tensor): (r: Tensor)
    ensures r.shape == SqueezeShape(t.shape)
  {
    Tensor(SqueezeShape(t.shape), idx => t.at(Unsqueeze(t.shape, idx)))
  }

  /** Squeezing keeps every element, addressed by its squeezed index. */
  lemma SqueezeAt(t: Tensor, q: seq<nat>)
    requires InBounds(t.shape, q)
    ensures InBounds(Squeeze(t).shape, DropUnit(t.shape, q))
    ensures Squeeze(t).at(DropUnit(t.shape, q)) == t.at(q)
  {
    UnsqueezeDropUnit(t.shape, q);
  }
}
