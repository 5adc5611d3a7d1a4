/** JavaScript's `Math.round` on a non-negative ratio of integers. */
module Rounding {

  /** `Math.round(num / den)` for `num >= 0` and `den > 0`: the integer
      nearest to `num / den`, a half rounding up. */
  function RoundHalfUp(num: nat, den: nat): (r: nat)
    requires den > 0
    ensures 2 * den * r <= 2 * num + den < 2 * den * (r + 1)
  {
    (2 * num + den) / (2 * den)
  }

  /** The bracket in RoundHalfUp's contract admits exactly one integer. */
  lemma RoundHalfUpUnique(num: nat, den: nat, q: int)
    requires den > 0
    requires 2 * den * q <= 2 * num + den < 2 * den * (q + 1)
    ensures q == RoundHalfUp(num, den)
  {
    var r := RoundHalfUp(num, den);
    if q < r {
      assert 2 * den * (q + 1) <= 2 * den * r by {
        MulMonotone(2 * den, q + 1, r);
      }
    } else if q > r {
      assert 2 * den * (r + 1) <= 2 * den * q by {
        MulMonotone(2 * den, r + 1, q);
      }
    }
  }

  lemma MulMonotone(c: nat, a: int, b: int)
    requires a <= b
    ensures c * a <= c * b
  {
  }

  /** A larger numerator never rounds to a smaller value. */
  lemma RoundHalfUpMonotone(a: nat, b: nat, den: nat)
    requires den > 0 && a <= b
    ensures RoundHalfUp(a, den) <= RoundHalfUp(b, den)
  {
    var ra, rb := RoundHalfUp(a, den), RoundHalfUp(b, den);
    if rb < ra {
      assert 2 * den * (rb + 1) <= 2 * den * ra by {
        MulMonotone(2 * den, rb + 1, ra);
      }
    }
  }

  /** An exact multiple rounds to its quotient. */
  lemma RoundHalfUpExact(q: nat, den: nat)
    requires den > 0
    ensures RoundHalfUp(q * den, den) == q
  {
    assert 2 * den * q == 2 * (q * den);
    assert 2 * den * (q + 1) == 2 * den * q + 2 * den;
    RoundHalfUpUnique(q * den, den, q);
  }

  /** A rounded percentage `count` out of `total` lies between 0 and 100,
      and is 0 for none and 100 for all. */
  lemma PercentBounds(count: nat, total: nat)
    requires 0 < total && count <= total
    ensures RoundHalfUp(100 * count, total) <= 100
    ensures count == 0 ==> RoundHalfUp(100 * count, total) == 0
    ensures count == total ==> RoundHalfUp(100 * count, total) == 100
  {
    assert 100 * count <= 100 * total;
    RoundHalfUpMonotone(100 * count, 100 * total, total);
    RoundHalfUpExact(100, total);
    RoundHalfUpExact(0, total);
  }
}
