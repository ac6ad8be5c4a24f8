/** Facts about real multiplication and division that the solver does not find unaided. */
module RealAlgebra {

  lemma MulDiv(a: real, b: real, q: real)
    requires q != 0.0
    ensures (a * b) / q == a * (b / q)
  {
    var x := b / q;
    assert q * x == b;
    var y := (a * b) / q;
    assert q * y == a * b;
    assert q * (a * x) == a * (q * x);
    CancelLeft(q, y, a * x);
  }

  lemma CancelLeft(q: real, x: real, y: real)
    requires q != 0.0 && q * x == q * y
    ensures x == y
  {
    assert q * (x - y) == 0.0;
  }

  lemma SquareMonotone(x: real, y: real)
    requires x >= 0.0 && y >= 0.0
    ensures x > y <==> x * x > y * y
  {
    if x > y {
      assert x * x - y * y == (x - y) * (x + y);
      var u, v := x - y, x + y;
      assert u > 0.0 && v > 0.0;
      assert u * v > 0.0;
    } else {
      assert y * y - x * x == (y - x) * (y + x);
      assert (y - x) * (y + x) >= 0.0;
    }
  }

  lemma DivSelf(q: real)
    requires q != 0.0
    ensures q / q == 1.0
  {
    CancelLeft(q, q / q, 1.0);
  }

  lemma DivMul(x: real, q: real)
    requires q != 0.0
    ensures (x / q) * q == x
  {
  }

  /** Dividing numerator and denominator by the same n leaves the quotient unchanged. */
  lemma DivCommonFactor(a: real, b: real, n: real)
    requires n != 0.0 && b != 0.0
    ensures (a / n) / (b / n) == a / b
  {
    var x, y := a / n, b / n;
    assert x * n == a && y * n == b;
    assert y != 0.0;
    var z := x / y;
    assert z * y == x;
    assert b * z == (z * y) * n;
    assert b * z == a;
    assert b * (a / b) == a;
    CancelLeft(b, z, a / b);
  }

  lemma MulPositive(a: real, b: real)
    requires a > 0.0 && b > 0.0
    ensures a * b > 0.0
  {
  }

  /** Multiplying both sides by a positive c keeps a strict inequality. */
  lemma ScaleLess(x: real, y: real, c: real)
    requires c > 0.0
    ensures x < y <==> x * c < y * c
  {
    if x < y {
      MulPositive(y - x, c);
    } else if x > y {
      MulPositive(x - y, c);
    }
  }

  lemma MulSucc(c: real, x: real)
    ensures (c + 1.0) * x == c * x + x
  {
  }

  /** A common non-zero factor of numerator and denominator cancels. */
  lemma DivCancel(a: real, b: real, c: real)
    requires c != 0.0 && b != 0.0
    ensures (c * a) / (c * b) == a / b
  {
    var z := (c * a) / (c * b);
    assert z * (c * b) == c * a;
    assert c * (z * b) == c * a;
    CancelLeft(c, z * b, a);
    assert b * z == b * (a / b);
    CancelLeft(b, z, a / b);
  }

  /** p s0^2 == r <= s0^2 with s0 > 0 bounds p by 1. */
  lemma FractionBelowOne(p: real, s0: real, r: real)
    requires s0 > 0.0 && p * (s0 * s0) == r && r <= s0 * s0
    ensures p <= 1.0
  {
    if p > 1.0 {
      MulPositive(p - 1.0, s0);
      MulPositive((p - 1.0) * s0, s0);
    }
  }

  /** A non-negative square root of a value at most 1 is at most 1. */
  lemma RootBelowOne(root: real, p: real)
    requires root >= 0.0 && root * root == p && p <= 1.0
    ensures root <= 1.0
  {
    SquareMonotone(root, 1.0);
  }

  /** a (4c/a) / 4 == c. */
  lemma QuarterForward(a: real, c: real)
    requires a != 0.0
    ensures a * (4.0 * c / a) / 4.0 == c
  {
    assert a * (4.0 * c / a) == 4.0 * c;
  }
  /** p (4c/a) / 4 == c p / a. */
  lemma QuarterMix(a: real, p: real, c: real)
    requires a != 0.0
    ensures p * (4.0 * c / a) / 4.0 == c * p / a
  {
    assert a * (p * (4.0 * c / a) / 4.0) == p * c;
    assert a * (c * p / a) == c * p;
    CancelLeft(a, p * (4.0 * c / a) / 4.0, c * p / a);
  }
  /** 2 (a0 - c (1 + k) / (1 - k)) / 2 + (1 + k) (4c / (1 - k)) / 4 == a0. */
  lemma OffsetForward(k: real, a0: real, c: real)
    requires k != 1.0
    ensures 2.0 * (a0 - c * (1.0 + k) / (1.0 - k)) / 2.0 + (1.0 + k) * (4.0 * c / (1.0 - k)) / 4.0 == a0
  {
    var y := (1.0 + k) * (4.0 * c / (1.0 - k)) / 4.0;
    QuarterMix(1.0 - k, 1.0 + k, c);
    assert y == c * (1.0 + k) / (1.0 - k);
    UndoOffset(a0, c * (1.0 + k) / (1.0 - k), y);
  }

  lemma UndoOffset(a0: real, x: real, y: real)
    requires x == y
    ensures 2.0 * (a0 - x) / 2.0 + y == a0
  {
  }

  /** -(-2b/a) a / 2 == b. */
  lemma HalfForward(a: real, b: real)
    requires a != 0.0
    ensures -(-2.0 * b / a) * a / 2.0 == b
  {
    assert (-2.0 * b / a) * a == -2.0 * b;
  }
  /** c == a x / 4 with a != 0 gives x == 4c/a. */
  lemma QuarterInverse(a: real, x: real, c: real)
    requires a != 0.0 && c == a * x / 4.0
    ensures 4.0 * c / a == x
  {
    assert a * (4.0 * c / a) == a * x;
    CancelLeft(a, 4.0 * c / a, x);
  }
  /** b == -x a / 2 with a != 0 gives x == -2b/a. */
  lemma HalfInverse(a: real, x: real, b: real)
    requires a != 0.0 && b == -x * a / 2.0
    ensures -2.0 * b / a == x
  {
    assert a * (-2.0 * b / a) == a * x;
    CancelLeft(a, -2.0 * b / a, x);
  }

  /** A mean m of n >= 1 counts adding up to total is below t exactly when
      total is below t n. */
  lemma MeanThreshold(m: real, n: nat, total: int, t: nat)
    requires n >= 1 && m * (n as real) == total as real
    ensures m < t as real <==> total < t * n
  {
    ScaleLess(m, t as real, n as real);
    assert (t * n) as real == (t as real) * (n as real);
  }

  /** Equal factors give equal products. */
  lemma MulEqual(m: real, x: real, y: real)
    requires x == y
    ensures m * x == m * y
  {
  }
}
