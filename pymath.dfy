/** Python integer arithmetic as the modelled code uses it.
    Dafny's `/` on `int` is Euclidean; Python's `//` floors, `int(float(a) / b)` truncates
    toward zero and `math.ceil(a / b)` rounds up, so each is written out here. */
module PyMath {
  import opened Wrappers

  /** Python `a // b`. */
  function FloorDiv(a: int, b: int): (q: int)
    requires b != 0
    ensures b > 0 ==> q * b <= a < q * b + b
    ensures b < 0 ==> q * b >= a > q * b + b
  {
    if b > 0 then a / b else (-a) / (-b)
  }

  /** Python `int(float(a) / b)`: the quotient truncated toward zero. */
  function TruncDiv(a: int, b: int): (q: int)
    requires b != 0
    ensures a >= 0 && b > 0 ==> q == a / b
    ensures (a >= 0) == (b > 0) ==> q >= 0
    ensures (a >= 0) != (b > 0) ==> q <= 0
    ensures Abs(q) * Abs(b) <= Abs(a) < (Abs(q) + 1) * Abs(b)
  {
    var m := Abs(a) / Abs(b);
    DivBracket(Abs(a), Abs(b));
    if (a >= 0) == (b > 0) then m else -m
  }

  /** The Euclidean quotient of naturals is bracketed by the divisor's multiples. */
  lemma DivBracket(a: nat, b: nat)
    requires b > 0
    ensures a / b >= 0 && (a / b) * b <= a < (a / b + 1) * b
  {
    assert a == (a / b) * b + a % b;
  }

  function Abs(x: int): nat
  {
    if x >= 0 then x else -x
  }

  /** Python `math.ceil(a / b)`. */
  function CeilDiv(a: int, b: int): (q: int)
    requires b > 0
    ensures (q - 1) * b < a <= q * b
  {
    -FloorDiv(-a, b)
  }

  /** The integer square root: the largest r with r * r <= n. */
  function ISqrt(n: nat): (r: nat)
    ensures r * r <= n < (r + 1) * (r + 1)
  {
    if n == 0 then 0
    else
      var r := ISqrt(n - 1);
      if (r + 1) * (r + 1) <= n then r + 1 else r
  }

  lemma ISqrtUnique(n: nat, r: nat)
    requires r * r <= n < (r + 1) * (r + 1)
    ensures ISqrt(n) == r
  {
    var s := ISqrt(n);
    if s < r {
      assert s + 1 <= r;
      MulMono(s + 1, r);
    } else if s > r {
      assert r + 1 <= s;
      MulMono(r + 1, s);
    }
  }

  lemma MulMono(a: nat, b: nat)
    requires a <= b
    ensures a * a <= b * b
  {
    assert a * a <= a * b <= b * b;
  }

  /** The only multiple of m strictly between -m and m is 0. */
  lemma MulSmall(k: int, m: int)
    requires m > 0 && -m < k * m < m
    ensures k == 0
  {
  }

  /** Dividing an exact multiple gives the factor back. */
  lemma ExactDiv(a: nat, b: nat)
    requires b > 0
    ensures (a * b) / b == a
  {
    var q := (a * b) / b;
    var r := (a * b) % b;
    assert (a - q) * b == r;
    MulSmall(a - q, b);
  }

  /** Python `int(float(n) ** 0.5)`: a negative `n` gives a complex number, which `int`
      refuses with a TypeError. */
  function FloatSqrtFloor(n: int): (r: Result<nat>)
    ensures r.Ok? <==> n >= 0
    ensures r.Ok? ==> r.value * r.value <= n < (r.value + 1) * (r.value + 1)
  {
    if n < 0 then Err(TypeError) else Ok(ISqrt(n))
  }

  /** Python `int(float(a) / b)` with its ZeroDivisionError. */
  function FloatDivTrunc(a: int, b: int): (r: Result<int>)
    ensures r.Ok? <==> b != 0
    ensures r.Ok? && a >= 0 && b > 0 ==> r.value == a / b
  {
    if b == 0 then Err(ZeroDivisionError) else Ok(TruncDiv(a, b))
  }

  function Sum(s: seq<int>): int
  {
    if s == [] then 0 else s[0] + Sum(s[1..])
  }

  function Prod(s: seq<int>): int
  {
    if s == [] then 1 else s[0] * Prod(s[1..])
  }

  lemma {:induction false} SumAppend(a: seq<int>, b: seq<int>)
    ensures Sum(a + b) == Sum(a) + Sum(b)
  {
    if a == [] {
      assert a + b == b;
    } else {
      assert (a + b)[1..] == a[1..] + b;
      SumAppend(a[1..], b);
    }
  }

  lemma SumPrefixStep(s: seq<int>, i: nat)
    requires i < |s|
    ensures Sum(s[..i + 1]) == Sum(s[..i]) + s[i]
  {
    assert s[..i + 1] == s[..i] + [s[i]];
    SumAppend(s[..i], [s[i]]);
  }

  lemma {:induction false} ProdAppend(a: seq<int>, b: seq<int>)
    ensures Prod(a + b) == Prod(a) * Prod(b)
  {
    if a == [] {
      assert a + b == b;
    } else {
      assert (a + b)[1..] == a[1..] + b;
      ProdAppend(a[1..], b);
    }
  }

  /** Reordering the entries of a shape does not change its element count. */
  lemma {:induction false} ProdPermutation(a: seq<int>, b: seq<int>)
    requires multiset(a) == multiset(b)
    ensures Prod(a) == Prod(b)
    decreases |a|
  {
    if a == [] {
      assert |b| == |multiset(b)| == 0;
    } else {
      assert a[0] in multiset(b);
      var j :| 0 <= j < |b| && b[j] == a[0];
      var rest := b[..j] + b[j + 1..];
      RemoveAtMultiset(b, j);
      assert a == [a[0]] + a[1..];
      assert multiset(a[1..]) == multiset(a) - multiset{a[0]};
      ProdPermutation(a[1..], rest);
      ProdRemoveAt(b, j);
    }
  }

  lemma RemoveAtMultiset<T>(b: seq<T>, j: nat)
    requires j < |b|
    ensures multiset(b[..j] + b[j + 1..]) == multiset(b) - multiset{b[j]}
  {
    assert b == b[..j] + [b[j]] + b[j + 1..];
  }

  lemma ProdRemoveAt(b: seq<int>, j: nat)
    requires j < |b|
    ensures Prod(b) == b[j] * Prod(b[..j] + b[j + 1..])
  {
    var x, y := Prod(b[..j]), Prod(b[j + 1..]);
    assert b == b[..j] + ([b[j]] + b[j + 1..]);
    ProdAppend(b[..j], [b[j]] + b[j + 1..]);
    assert ([b[j]] + b[j + 1..])[1..] == b[j + 1..];
    assert Prod([b[j]] + b[j + 1..]) == b[j] * y;
    ProdAppend(b[..j], b[j + 1..]);
    MulSwap(x, b[j], y);
  }

  lemma MulSwap(x: int, c: int, y: int)
    ensures x * (c * y) == c * (x * y)
  {
  }

  function Digit(d: nat): char
    requires d < 10
  {
    (48 + d) as char
  }

  /** The decimal spelling of a natural number, as Python's `str` and `%d` give it. */
  function NatToString(n: nat): (s: string)
    ensures |s| >= 1
    ensures forall i :: 0 <= i < |s| ==> '0' <= s[i] <= '9'
    ensures n >= 10 <==> |s| >= 2
    decreases n
  {
    if n < 10 then [Digit(n)] else NatToString(n / 10) + [Digit(n % 10)]
  }

  function IntToString(i: int): (s: string)
    ensures |s| >= 1
  {
    if i >= 0 then NatToString(i) else "-" + NatToString(-i)
  }

  /** Reading the digits back gives the number: the spelling is faithful. */
  function DigitsValue(s: string): int
  {
    if s == [] then 0 else 10 * DigitsValue(s[..|s| - 1]) + (s[|s| - 1] as int - '0' as int)
  }

  lemma {:induction false} NatToStringValue(n: nat)
    ensures DigitsValue(NatToString(n)) == n
    decreases n
  {
    if n >= 10 {
      NatToStringValue(n / 10);
      var s := NatToString(n);
      var d := n % 10;
      assert s == NatToString(n / 10) + [Digit(d)];
      assert s[..|s| - 1] == NatToString(n / 10);
      assert s[|s| - 1] as int - '0' as int == d by {
        assert s[|s| - 1] == Digit(d);
      }
      assert DigitsValue(s) == 10 * (n / 10) + d;
    } else {
      var s := NatToString(n);
      assert s[..|s| - 1] == [];
      assert s[0] == Digit(n);
    }
  }

  lemma NatToStringInjective(m: nat, n: nat)
    requires NatToString(m) == NatToString(n)
    ensures m == n
  {
    NatToStringValue(m);
    NatToStringValue(n);
  }
}
