/** Exact-real stand-ins for the JavaScript number helpers the quote tool uses:
    Math.round, Math.ceil, Math.floor, Math.max, Math.min, Math.pow with an
    integer exponent, and Array.reduce over a sum. */
module Numeric {

  datatype Option<T> = None | Some(value: T)

  function Max(a: real, b: real): real { if a >= b then a else b }

  function Min(a: real, b: real): real { if a <= b then a else b }

  function IntMax(a: int, b: int): int { if a >= b then a else b }

  /** Math.abs */
  function Abs(x: real): real { if x >= 0.0 then x else -x }

  /** Math.floor */
  function Floor(x: real): (r: int)
    ensures r as real <= x < r as real + 1.0
  {
    x.Floor
  }

  /** Math.ceil */
  function Ceil(x: real): (r: int)
    ensures x <= r as real < x + 1.0
  {
    -((-x).Floor)
  }

  /** Math.round: the nearest integer, a half rounded towards +infinity. */
  function Round(x: real): (r: int)
    ensures x - 0.5 < r as real <= x + 0.5
  {
    Floor(x + 0.5)
  }

  /** round2(n) = Math.round(n * 100) / 100: to the nearest cent. */
  function Round2(x: real): (r: real)
    ensures x - 0.005 < r <= x + 0.005
  {
    Round(x * 100.0) as real / 100.0
  }

  /** round2 always yields a whole number of cents. */
  lemma Round2IsCents(x: real)
    ensures Round2(x) == Round(x * 100.0) as real / 100.0
    ensures Floor(Round2(x) * 100.0) as real == Round2(x) * 100.0
  {
    var k := Round(x * 100.0);
    assert (k as real / 100.0) * 100.0 == k as real;
  }

  lemma RoundMonotone(x: real, y: real)
    requires x <= y
    ensures Round(x) <= Round(y)
  {
  }

  lemma Round2Monotone(x: real, y: real)
    requires x <= y
    ensures Round2(x) <= Round2(y)
  {
    RoundMonotone(x * 100.0, y * 100.0);
  }

  lemma Round2NonNegative(x: real)
    requires x >= 0.0
    ensures Round2(x) >= 0.0
  {
    Round2Monotone(0.0, x);
  }

  /** A value that is already a whole number of cents is left unchanged. */
  lemma Round2OfCents(k: int)
    ensures Round2(k as real / 100.0) == k as real / 100.0
  {
    var x := k as real / 100.0;
    assert x * 100.0 == k as real;
    assert Round(k as real) == k;
  }

  lemma MulMonotone(a: real, b: real, c: real)
    requires a <= b && c >= 0.0
    ensures a * c <= b * c && c * a <= c * b
  {
  }

  lemma MulStrictMonotone(a: real, b: real, c: real)
    requires a < b && c > 0.0
    ensures a * c < b * c && c * a < c * b
  {
  }

  /** Math.ceil(x / d) is the least integer k with x <= k * d. */
  lemma CeilQuotientBounds(x: real, d: real)
    requires d > 0.0
    ensures x <= Ceil(x / d) as real * d < x + d
  {
    CeilQuotientLower(x, d);
    CeilQuotientUpper(x, d);
  }

  lemma CeilQuotientLower(x: real, d: real)
    requires d > 0.0
    ensures x <= Ceil(x / d) as real * d
  {
    var q := x / d;
    assert q * d == x;
    MulMonotone(q, Ceil(q) as real, d);
  }

  lemma CeilQuotientUpper(x: real, d: real)
    requires d > 0.0
    ensures Ceil(x / d) as real * d < x + d
  {
    var q := x / d;
    var k := Ceil(q) as real;
    assert q <= k < q + 1.0;
    assert q * d == x;
    assert k * d < x + d by {
      MulStrictMonotone(k, q + 1.0, d);
      assert k * d < (q + 1.0) * d;
      assert (q + 1.0) * d == q * d + d;
    }
  }

  /** Math.floor(x / d) is the greatest integer k with k * d <= x. */
  lemma FloorQuotientBounds(x: real, d: real)
    requires d > 0.0
    ensures Floor(x / d) as real * d <= x < Floor(x / d) as real * d + d
  {
    var q := x / d;
    var k := Floor(q) as real;
    assert q * d == x;
    assert k * d <= x by {
      MulMonotone(k, q, d);
    }
    BelowNextMultiple(x, d, q, k);
  }

  lemma BelowNextMultiple(x: real, d: real, q: real, k: real)
    requires d > 0.0 && q == x / d && q < k + 1.0
    ensures x < k * d + d
  {
    var a := q * d;
    var b := (k + 1.0) * d;
    assert a == x;
    assert a < b by {
      MulStrictMonotone(q, k + 1.0, d);
    }
    assert b == k * d + d;
  }

  /** Math.pow(x, n) for a natural exponent: never zero for a non-zero base,
      positive for a positive one. */
  function Pow(x: real, n: nat): (r: real)
    ensures x != 0.0 ==> r != 0.0
    ensures x > 0.0 ==> r > 0.0
  {
    if n == 0 then 1.0
    else
      MulNonZero(x, Pow(x, n - 1));
      x * Pow(x, n - 1)
  }

  lemma MulNonZero(a: real, b: real)
    ensures a != 0.0 && b != 0.0 ==> a * b != 0.0
    ensures a > 0.0 && b > 0.0 ==> a * b > 0.0
  {
  }

  lemma {:induction false} PowOne(n: nat)
    ensures Pow(1.0, n) == 1.0
  {
    if n > 0 {
      PowOne(n - 1);
    }
  }

  /** Left-to-right sum, as `reduce((a, b) => a + b, 0)`. */
  function Sum(s: seq<real>): real
  {
    if |s| == 0 then 0.0 else Sum(s[..|s| - 1]) + s[|s| - 1]
  }

  lemma {:induction false} SumScale(s: seq<real>, c: real, t: seq<real>)
    requires |t| == |s|
    requires forall i :: 0 <= i < |s| ==> t[i] == s[i] * c
    ensures Sum(t) == Sum(s) * c
  {
    if |s| > 0 {
      SumScale(s[..|s| - 1], c, t[..|t| - 1]);
    }
  }

  lemma {:induction false} SumNonNegative(s: seq<real>)
    requires forall i :: 0 <= i < |s| ==> s[i] >= 0.0
    ensures Sum(s) >= 0.0
  {
    if |s| > 0 {
      SumNonNegative(s[..|s| - 1]);
    }
  }
}
