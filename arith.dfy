/** Facts about integer multiplication and Euclidean division that the block
    arithmetic of the effects (blocks of samples, steps of a pattern) relies on. */
module Arith {

  lemma MulAtLeast(a: int, d: int)
    requires a >= 1 && d > 0
    ensures a * d >= d
  {
    assert a * d == (a - 1) * d + d;
    assert (a - 1) * d >= 0;
  }

  lemma MulMonotone(a: int, b: int, d: int)
    requires a <= b && d >= 0
    ensures a * d <= b * d
  {
    assert b * d - a * d == (b - a) * d;
    assert (b - a) * d >= 0;
  }

  /** Euclidean division is determined by its quotient-remainder equation. */
  lemma DivModUnique(x: int, d: int, q: int, r: int)
    requires d > 0 && 0 <= r < d && x == q * d + r
    ensures x / d == q && x % d == r
  {
    var q0, r0 := x / d, x % d;
    assert x == q0 * d + r0;
    assert (q - q0) * d == r0 - r;
    if q > q0 {
      MulAtLeast(q - q0, d);
    } else if q < q0 {
      MulAtLeast(q0 - q, d);
    }
  }

  /** A sample p lies in block k of length d exactly when k * d <= p < k * d + d. */
  lemma InBlock(p: int, k: int, d: int)
    requires d > 0 && k * d <= p < k * d + d
    ensures p / d == k && p % d == p - k * d
  {
    DivModUnique(p, d, k, p - k * d);
  }

  lemma DivAddMultiple(i: int, k: int, d: int)
    requires d > 0
    ensures (i + k * d) / d == i / d + k
    ensures (i + k * d) % d == i % d
  {
    var q, r := i / d, i % d;
    assert i + k * d == (q + k) * d + r;
    DivModUnique(i + k * d, d, q + k, r);
  }

  /** Division by a positive divisor is monotone. */
  lemma DivMonotone(x: int, y: int, d: int)
    requires d > 0 && x <= y
    ensures x / d <= y / d
  {
    var qx, qy := x / d, y / d;
    assert (qx - qy) * d == qx * d - qy * d;
    if qx > qy {
      MulAtLeast(qx - qy, d);
    }
  }

  /** A block start k * d is below p exactly when the block of p is at least k. */
  lemma BlockStartBelow(p: int, k: int, d: int)
    requires d > 0
    ensures k * d <= p <==> k <= p / d
  {
    var q := p / d;
    assert q * d <= p < q * d + d;
    if k <= q {
      MulMonotone(k, q, d);
    } else {
      MulMonotone(q + 1, k, d);
    }
  }

  /** Within a cycle of eight steps of d samples, the step of p is its overall step
      modulo eight. */
  lemma StepWithinCycle(p: int, d: int)
    requires p >= 0 && d > 0
    ensures (p % (8 * d)) / d == (p / d) % 8
  {
    var q, r := p / (8 * d), p % (8 * d);
    CycleSplit(p, d, q, r);
    DivModUnique(p / d, 8, q, r / d);
  }

  /** The step of p is eight steps per whole cycle plus the step within its cycle,
      which is one of the eight. */
  lemma CycleSplit(p: int, d: int, q: int, r: int)
    requires p >= 0 && d > 0 && q == p / (8 * d) && r == p % (8 * d)
    ensures p / d == q * 8 + r / d && 0 <= r / d < 8
  {
    assert p == q * (8 * d) + r;
    assert q * (8 * d) == (q * 8) * d;
    DivAddMultiple(r, q * 8, d);
    BlockStartBelow(r, 8, d);
  }
}
