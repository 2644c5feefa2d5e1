/** Python integer truncation and list slicing, as the split arithmetic uses them. */
module PySlice {

  type Positive = n: int | n > 0 witness 1

  /** A training fraction `num / den`, standing in for the float `train_frac`. */
  datatype Fraction = Fraction(num: int, den: Positive)

  /** True for fractions in the closed interval [0, 1]. */
  predicate UnitInterval(f: Fraction) {
    0 <= f.num <= f.den
  }

  /** Python's `int(a / b)`: division that truncates toward zero, unlike Dafny's
      Euclidean `/`. The quotient keeps the sign of `a` and never exceeds it in size. */
  function TruncDiv(a: int, b: Positive): (q: int)
    ensures a >= 0 ==> 0 <= q <= a
    ensures a < 0 ==> a <= q <= 0
  {
    if a >= 0 then DivAtMost(a, b); a / b
    else DivAtMost(-a, b); -((-a) / b)
  }

  lemma DivAtMost(a: nat, b: Positive)
    ensures 0 <= a / b <= a
  {
    var q := a / b;
    assert a == b * q + a % b;
    assert q <= b * q by { MulAtLeast(q, b); }
  }

  lemma MulAtLeast(q: int, b: Positive)
    requires q >= 0
    ensures q <= b * q
  {
  }

  /** The truncated quotient is the integer part of `a / b`: for `a >= 0` it is the
      greatest `q` with `q * b <= a`, and for `a < 0` the least `q` with `a <= q * b`. */
  lemma TruncDivBounds(a: int, b: Positive)
    ensures a >= 0 ==> TruncDiv(a, b) * b <= a < (TruncDiv(a, b) + 1) * b
    ensures a < 0 ==> (TruncDiv(a, b) - 1) * b < a <= TruncDiv(a, b) * b
  {
  }

  /** `int(n * train_frac)`: the split point of a class of `n` records. It is never
      positive for a negative fraction and lies in [0, n] for a fraction in [0, 1]. */
  function SplitPoint(n: nat, f: Fraction): (k: int)
    ensures f.num < 0 ==> k <= 0
    ensures f.num >= 0 ==> k >= 0
    ensures UnitInterval(f) ==> 0 <= k <= n
  {
    var a := n * f.num;
    var q := TruncDiv(a, f.den);
    if UnitInterval(f) then
      TruncDivBounds(a, f.den);
      FloorAtMost(n, f.num, f.den, q);
      q
    else
      assert f.num < 0 ==> a <= 0 by { if f.num < 0 { MulSign(n, f.num); } }
      q
  }

  /** For a non-negative fraction the split point is `floor(n * num / den)`. */
  lemma SplitPointIsFloor(n: nat, f: Fraction)
    requires f.num >= 0
    ensures SplitPoint(n, f) * f.den <= n * f.num < (SplitPoint(n, f) + 1) * f.den
  {
    TruncDivBounds(n * f.num, f.den);
  }

  lemma MulSign(n: nat, m: int)
    requires m < 0
    ensures n * m <= 0
  {
  }

  /** If `q * den <= n * num` and `num <= den`, then `q <= n`. */
  lemma FloorAtMost(n: nat, num: int, den: Positive, q: int)
    requires 0 <= num <= den
    requires q * den <= n * num
    ensures q <= n
  {
    assert n * num <= n * den;
    assert (q - n) * den == q * den - n * den;
    NonPositiveFactor(q - n, den);
  }

  lemma NonPositiveFactor(x: int, d: Positive)
    requires x * d <= 0
    ensures x <= 0
  {
  }

  /** The index a slice bound `k` selects in a list of length `n`: a negative bound
      counts from the end, and a bound past either end is clamped to it. */
  function Bound(k: int, n: nat): (i: nat)
    ensures i <= n
    ensures 0 <= k <= n ==> i == k
    ensures k > n ==> i == n
    ensures k < 0 ==> i == if n + k < 0 then 0 else n + k
  {
    if k < 0 then (if n + k < 0 then 0 else n + k)
    else if k > n then n
    else k
  }

  /** `s[:k]` */
  function Take<T>(s: seq<T>, k: int): (r: seq<T>)
    ensures |r| == Bound(k, |s|) && r == s[..|r|]
  {
    s[..Bound(k, |s|)]
  }

  /** `s[k:]` */
  function Drop<T>(s: seq<T>, k: int): (r: seq<T>)
    ensures |r| == |s| - Bound(k, |s|) && r == s[|s| - |r|..]
  {
    s[Bound(k, |s|)..]
  }

  /** `s[:k] + s[k:] == s` for every bound, however Python normalises it. */
  lemma TakeDrop<T>(s: seq<T>, k: int)
    ensures Take(s, k) + Drop(s, k) == s
  {
    var i := Bound(k, |s|);
    assert s[..i] + s[i..] == s;
  }
}
