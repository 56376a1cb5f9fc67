/** Facts about products and quotients of reals that the metrics rely on.
    Each is stated over plain variables so that the nonlinear reasoning stays
    in one small proof. */
module RealArith {

  function Square(x: real): real {
    x * x
  }

  function Product(a: real, b: real): real {
    a * b
  }

  lemma ProductPositive(a: real, b: real)
    requires a > 0.0 && b > 0.0
    ensures Product(a, b) > 0.0
  {
  }

  lemma SquareSign(x: real)
    ensures Square(x) >= 0.0
    ensures Square(x) > 0.0 <==> x != 0.0
  {
    if x > 0.0 {
      ProductPositive(x, x);
    } else if x < 0.0 {
      ProductPositive(-x, -x);
      assert Product(-x, -x) == Square(x);
    }
  }

  /** Multiplying by a positive factor keeps values apart. */
  lemma Cancel(n: real, a: real, b: real)
    requires n > 0.0
    ensures n * a != n * b <==> a != b
  {
    if a > b {
      ProductPositive(n, a - b);
    } else if a < b {
      ProductPositive(n, b - a);
    }
  }

  /** A quotient `a / b` with `0 <= a <= b` lies in [0, 1], is 1 exactly when
      `a == b` and positive exactly when `a` is. */
  lemma DivisionBounds(a: real, b: real)
    requires 0.0 <= a <= b && b > 0.0
    ensures 0.0 <= a / b <= 1.0
    ensures a / b == 1.0 <==> a == b
    ensures a / b > 0.0 <==> a > 0.0
  {
    var r := a / b;
    assert r * b == a;
    if r > 1.0 {
      ProductPositive(r - 1.0, b);
    }
    if r < 0.0 {
      ProductPositive(-r, b);
    }
    if r > 0.0 {
      ProductPositive(r, b);
    }
  }

  /** Dividing by a positive number preserves strict order. */
  lemma DivisionMonotone(a: real, b: real, d: real)
    requires a < b && d > 0.0
    ensures a / d < b / d
  {
    var r, s := a / d, b / d;
    assert r * d == a && s * d == b;
    if r > s {
      ProductPositive(r - s, d);
      assert false;
    }
  }

  lemma QuotientNonNegative(a: real, b: real)
    requires a >= 0.0 && b > 0.0
    ensures a / b >= 0.0
  {
    if a > 0.0 {
      DivisionMonotone(0.0, a, b);
    }
  }

  /** Dividing a positive number by a larger positive divisor gives less. */
  lemma QuotientDecreasing(a: real, d1: real, d2: real)
    requires a > 0.0 && 0.0 < d1 < d2
    ensures 0.0 < a / d2 < a / d1
  {
    var r1, r2 := a / d1, a / d2;
    assert r1 * d1 == a && r2 * d2 == a;
    if r2 < 0.0 {
      ProductPositive(-r2, d2);
      assert false;
    }
    if r2 > 0.0 {
      ProductPositive(r2, d2 - d1);
      if r1 < r2 {
        ProductPositive(r2 - r1, d1);
        assert false;
      }
    }
  }
}
