/** Python list and string semantics used by the modelled code: slice bounds that
    wrap and clamp, `list.insert`, indexing with negative positions, `str.split` and
    `str.join` on one separator character. */
module PySeq {
  import opened Wrappers

  /** A slice bound or an insert position as Python normalises it for a list of length n:
      negative positions count from the end, and the result is clamped to [0, n]. */
  function ClampIndex(i: int, n: nat): (r: nat)
    ensures r <= n
    ensures 0 <= i <= n ==> r == i
    ensures i < 0 && i + n >= 0 ==> r == i + n
    ensures i + n < 0 ==> r == 0
    ensures i > n ==> r == n
  {
    if i < 0 then (if i + n < 0 then 0 else i + n) else (if i > n then n else i)
  }

  /** `s[a:b]`. */
  function Slice<T>(s: seq<T>, a: int, b: int): (r: seq<T>)
    ensures |r| <= |s|
    ensures 0 <= a <= b <= |s| ==> r == s[a..b]
  {
    var lo, hi := ClampIndex(a, |s|), ClampIndex(b, |s|);
    if lo < hi then s[lo..hi] else []
  }

  /** `s[a:]`. */
  function SliceFrom<T>(s: seq<T>, a: int): (r: seq<T>)
    ensures |r| <= |s|
    ensures a < 0 && a + |s| >= 0 ==> r == s[|s| + a..]
    ensures a == 0 ==> r == s
  {
    Slice(s, a, |s|)
  }

  /** `s.insert(i, x)`. */
  function Insert<T>(s: seq<T>, i: int, x: T): (r: seq<T>)
    ensures |r| == |s| + 1
    ensures 0 <= i <= |s| ==> r[i] == x && r[..i] == s[..i] && r[i + 1..] == s[i..]
    ensures i < 0 && i + |s| >= 0 ==>
      r[i + |s|] == x && r[..i + |s|] == s[..i + |s|] && r[i + |s| + 1..] == s[i + |s|..]
    ensures i + |s| < 0 ==> r == [x] + s
    ensures i > |s| ==> r == s + [x]
    ensures multiset(r) == multiset(s) + multiset{x}
  {
    var k := ClampIndex(i, |s|);
    assert s == s[..k] + s[k..];
    s[..k] + [x] + s[k..]
  }

  /** `s[i]`, with its IndexError. */
  function Index<T>(s: seq<T>, i: int): (r: Result<T>)
    ensures r.Ok? <==> -|s| <= i < |s|
    ensures 0 <= i < |s| ==> r == Ok(s[i])
    ensures -|s| <= i < 0 ==> r == Ok(s[|s| + i])
  {
    if 0 <= i < |s| then Ok(s[i])
    else if -|s| <= i < 0 then Ok(s[|s| + i])
    else Err(IndexError)
  }

  /** `s.split(c)`: never empty, and no part holds the separator. */
  function SplitOn(s: string, c: char): (parts: seq<string>)
    ensures |parts| >= 1
    ensures forall i :: 0 <= i < |parts| ==> c !in parts[i]
    ensures c !in s ==> parts == [s]
    ensures c in s ==> |parts| >= 2
    decreases |s|
  {
    if |s| == 0 then [""]
    else
      var rest := SplitOn(s[1..], c);
      assert s == [s[0]] + s[1..];
      if s[0] == c then [""] + rest
      else [[s[0]] + rest[0]] + rest[1..]
  }

  /** `c.join(parts)`. */
  function Join(parts: seq<string>, c: char): string
  {
    if |parts| == 0 then ""
    else if |parts| == 1 then parts[0]
    else parts[0] + [c] + Join(parts[1..], c)
  }

  /** The sequence without position c. */
  function RemoveAt<T>(s: seq<T>, c: nat): (r: seq<T>)
    requires c < |s|
    ensures |r| == |s| - 1
  {
    s[..c] + s[c + 1..]
  }

  /** A prefix one longer is the shorter prefix and one more element. */
  lemma PrefixSnoc<T>(s: seq<T>, k: nat)
    requires 0 < k <= |s|
    ensures s[..k] == s[..k - 1] + [s[k - 1]]
  {
  }

  /** Behind one element in front, position i holds what was at i - 1. */
  lemma ConsIndex<T>(a: T, s: seq<T>, i: nat)
    requires 1 <= i <= |s|
    ensures |[a] + s| == |s| + 1 && ([a] + s)[i] == s[i - 1]
  {
  }

  /** Appending one element keeps every earlier position and puts the element last. */
  lemma SnocIndex<T>(s: seq<T>, x: T)
    ensures |s + [x]| == |s| + 1 && (s + [x])[|s|] == x
    ensures forall i :: 0 <= i < |s| ==> (s + [x])[i] == s[i]
  {
  }

  /** Splitting and joining again gives back the string. */
  lemma {:induction false} JoinSplit(s: string, c: char)
    ensures Join(SplitOn(s, c), c) == s
    decreases |s|
  {
    if |s| > 0 {
      JoinSplit(s[1..], c);
      if s[0] == c {
        JoinSplitAtSeparator(s, c);
      } else {
        JoinSplitAtOther(s, c);
      }
    }
  }

  /** The step of `JoinSplit` when the string starts with the separator. */
  lemma JoinSplitAtSeparator(s: string, c: char)
    requires |s| > 0 && s[0] == c
    requires Join(SplitOn(s[1..], c), c) == s[1..]
    ensures Join(SplitOn(s, c), c) == s
  {
    var rest := SplitOn(s[1..], c);
    assert [""] + rest == SplitOn(s, c);
    assert ([""] + rest)[1..] == rest;
    assert s == [c] + s[1..];
  }

  /** The step of `JoinSplit` when the string starts with another character. */
  lemma JoinSplitAtOther(s: string, c: char)
    requires |s| > 0 && s[0] != c
    requires Join(SplitOn(s[1..], c), c) == s[1..]
    ensures Join(SplitOn(s, c), c) == s
  {
    var rest := SplitOn(s[1..], c);
    assert SplitOn(s, c) == [[s[0]] + rest[0]] + rest[1..];
    JoinPrepend(s[0], rest, c);
    assert s == [s[0]] + s[1..];
  }

  /** A character put in front of the first part comes first in the joined string. */
  lemma JoinPrepend(a: char, parts: seq<string>, c: char)
    requires |parts| >= 1
    ensures Join([[a] + parts[0]] + parts[1..], c) == [a] + Join(parts, c)
  {
    var moved := [[a] + parts[0]] + parts[1..];
    if |parts| > 1 {
      assert moved[1..] == parts[1..];
    }
  }

  /** Joining a prefix and a suffix of the parts separately, with one separator between. */
  lemma {:induction false} JoinConcat(a: seq<string>, b: seq<string>, c: char)
    requires |a| >= 1 && |b| >= 1
    ensures Join(a + b, c) == Join(a, c) + [c] + Join(b, c)
    decreases |a|
  {
    if |a| == 1 {
      assert (a + b)[1..] == b;
    } else {
      assert (a + b)[1..] == a[1..] + b;
      JoinConcat(a[1..], b, c);
    }
  }

  /** `s.endswith(t)`. */
  predicate EndsWith(s: string, t: string)
  {
    |t| <= |s| && s[|s| - |t|..] == t
  }

  /** `t in s` for strings: a substring test. */
  predicate IsSubstring(t: string, s: string)
  {
    exists i :: 0 <= i <= |s| - |t| && OccursAt(t, s, i)
  }

  predicate OccursAt(t: string, s: string, i: nat)
    requires i + |t| <= |s|
  {
    s[i..i + |t|] == t
  }

  /** The last position holding x, as `{v: i for i, v in enumerate(s)}[x]` finds it. */
  function LastIndexOf<T(==)>(s: seq<T>, x: T): (r: Option<nat>)
    ensures r.None? <==> x !in s
    ensures r.Some? ==> r.value < |s| && s[r.value] == x
    ensures r.Some? ==> forall j :: r.value < j < |s| ==> s[j] != x
  {
    if |s| == 0 then None
    else if s[|s| - 1] == x then Some(|s| - 1)
    else LastIndexOf(s[..|s| - 1], x)
  }
}
