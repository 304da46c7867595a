/**
 Integer and real helpers the legend layout needs: the integer square root
 that stands for `math.sqrt(len(polygons))` on a perfect-square cell count,
 Python's `int()` on a float (truncation toward zero), and a few facts about
 multiplying and flooring reals.
 */
module Numeric {

  /** The largest natural whose square does not exceed `n`. */
  function ISqrt(n: nat): (r: nat)
    ensures r * r <= n < (r + 1) * (r + 1)
  {
    if n == 0 then 0
    else
      var s := ISqrt(n - 1);
      if (s + 1) * (s + 1) <= n then s + 1 else s
  }

  /** `n` is the square of a natural; then `ISqrt(n)` is that natural exactly. */
  predicate IsPerfectSquare(n: nat) {
    ISqrt(n) * ISqrt(n) == n
  }

  /** A square of a natural is recognised as a perfect square, and its root is recovered. */
  lemma {:induction false} ISqrtOfSquare(k: nat)
    ensures ISqrt(k * k) == k
    ensures IsPerfectSquare(k * k)
  {
    var r := ISqrt(k * k);
    if r < k {
      MulMonoNat(r + 1, k);
      assert false;
    } else if r > k {
      MulMonoNat(k + 1, r);
      assert false;
    }
  }

  lemma MulMonoNat(a: nat, b: nat)
    requires a <= b
    ensures a * a <= b * b
  {
    assert a * a <= a * b;
  }

  /** Python's `int(x)` on a float: rounds toward zero, so the magnitude never grows. */
  function Trunc(x: real): (r: int)
    ensures 0.0 <= x ==> 0 <= r && r as real <= x < r as real + 1.0
    ensures x < 0.0 ==> r <= 0 && r as real - 1.0 < x <= r as real
  {
    if x >= 0.0 then x.Floor else -((-x).Floor)
  }

  /** On a non-negative argument, truncation toward zero and flooring agree. */
  lemma TruncIsFloorWhenNonNegative(x: real)
    requires 0.0 <= x
    ensures Trunc(x) == x.Floor
  {
  }

  /** Multiplying both sides of `a <= b` by a non-negative real keeps the order. */
  lemma MulLeMono(a: real, b: real, c: real)
    requires a <= b
    requires 0.0 <= c
    ensures a * c <= b * c
  {
    assert b * c - a * c == (b - a) * c;
  }

  /** Multiplying both sides of `a < b` by a positive real keeps the strict order. */
  lemma MulLtMono(a: real, b: real, c: real)
    requires a < b
    requires 0.0 < c
    ensures a * c < b * c
  {
    assert b * c - a * c == (b - a) * c;
  }

  /** The floor of `a / c` counts how many whole steps of size `c` fit below `a`. */
  lemma FloorDivBounds(a: real, c: real) returns (k: int)
    requires 0.0 <= a
    requires 0.0 < c
    ensures k == (a / c).Floor
    ensures 0 <= k
    ensures k as real * c <= a < (k + 1) as real * c
  {
    var q := a / c;
    k := q.Floor;
    var k1 := (k + 1) as real;
    assert q < k1;
    MulLeMono(k as real, q, c);
    MulLtMono(q, k1, c);
    calc {
      a;
    ==
      q * c;
    <
      k1 * c;
    }
  }
}
