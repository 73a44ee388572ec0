/** Facts about floor division on non-negative integers used by the window floors. */
module Arithmetic {

  /** A larger factor adds at least one multiple of `d`. */
  lemma {:induction false} MulGap(d: nat, a: int, b: int)
    requires b < a
    ensures d * a >= d * b + d
    decreases a - b
  {
    if a - 1 > b {
      MulGap(d, a - 1, b);
      assert d * a == d * (a - 1) + d;
    } else {
      assert d * a == d * b + d;
    }
  }

  /** Quotient and remainder are unique. */
  lemma DivUnique(x: int, d: int, q: int, r: int)
    requires 0 < d && 0 <= r < d && x == d * q + r
    ensures x / d == q
  {
    var q', r' := x / d, x % d;
    assert x == d * q' + r';
    if q' > q {
      MulGap(d, q', q);
      assert false;
    } else if q' < q {
      MulGap(d, q, q');
      assert false;
    }
  }

  lemma DivMonotone(x: int, y: int, d: int)
    requires 0 <= x <= y && 0 < d
    ensures x / d <= y / d
  {
    var qx, qy := x / d, y / d;
    assert x == d * qx + x % d;
    assert y == d * qy + y % d;
    if qx > qy {
      MulGap(d, qx, qy);
      assert false;
    }
  }

  lemma MulDivExact(k: nat, d: int)
    requires 0 < d
    ensures k * d / d == k
  {
    DivUnique(k * d, d, k, 0);
  }

  /** Scaling by a larger factor never gives a smaller floor-divided result. */
  lemma MulDivMonotone(a: int, b: int, k: nat, d: int)
    requires 0 <= a <= b && 0 < d
    ensures a * k / d <= b * k / d
  {
    if a < b {
      MulGap(k, b, a);
      assert a * k == k * a && b * k == k * b;
    }
    DivMonotone(a * k, b * k, d);
  }

  /** Dividing by a million and then by two is dividing by two million. */
  lemma DivDiv(x: nat)
    ensures x / 1000000 / 2 == x / 2000000
  {
  }
}
