/**
 * Facts of real arithmetic behind the monotone cubic scheme, kept apart from
 * the interpolation functions so that each nonlinear step is proved in a
 * small context of its own.
 */
module HermiteAlgebra {

  /**
   * The weighted harmonic mean `(a + b) / (a/m + b/n)` of two slopes of the
   * same sign lies between them, has their sign, and is at most three times
   * either one in magnitude when `b <= 2a` and `a <= 2b`.
   */
  lemma HarmonicBlend(a: real, b: real, m: real, n: real)
    requires a > 0.0 && b > 0.0 && m * n > 0.0
    ensures a / m + b / n != 0.0
    ensures m <= n ==> m <= (a + b) / (a / m + b / n) <= n
    ensures n <= m ==> n <= (a + b) / (a / m + b / n) <= m
    ensures b <= 2.0 * a && 0.0 < m ==> (a + b) / (a / m + b / n) <= 3.0 * m
    ensures a <= 2.0 * b && 0.0 < n ==> (a + b) / (a / m + b / n) <= 3.0 * n
    ensures b <= 2.0 * a && m < 0.0 ==> 3.0 * m <= (a + b) / (a / m + b / n)
    ensures a <= 2.0 * b && n < 0.0 ==> 3.0 * n <= (a + b) / (a / m + b / n)
  {
    var p, q := a / m, b / n;
    BlendTerms(a, b, m, n);
    var d := p + q;
    var c := (a + b) / d;
    QuotientTimesDivisor(a + b, d);
    BlendOffset(a, b, m, n, c, d);
    BlendOffset(b, a, n, m, c, d);
    if 0.0 < m {
      BlendCap(a, b, m, c, p, q);
      BlendCap(b, a, n, c, q, p);
    } else {
      BlendFloor(a, b, m, c, p, q);
      BlendFloor(b, a, n, c, q, p);
    }
  }

  /** Both terms of the denominator have the sign of the slopes, so `m*d` and `n*d` are positive. */
  lemma BlendTerms(a: real, b: real, m: real, n: real)
    requires a > 0.0 && b > 0.0 && m * n > 0.0
    ensures m != 0.0 && n != 0.0
    ensures (a / m) * m == a && (b / n) * n == b
    ensures m > 0.0 ==> n > 0.0 && a / m > 0.0 && b / n > 0.0
    ensures m < 0.0 ==> n < 0.0 && a / m < 0.0 && b / n < 0.0
  {
  }

  lemma QuotientTimesDivisor(u: real, d: real)
    requires d != 0.0
    ensures (u / d) * d == u
  {
  }

  /**
   * `c - m` has the sign of `n - m`: from `c*d == a + b` and
   * `d == a/m + b/n` one gets `(c - m) * d * n == b * (n - m)`.
   */
  lemma BlendOffset(a: real, b: real, m: real, n: real, c: real, d: real)
    requires a > 0.0 && b > 0.0 && m * n > 0.0
    requires (a / m) * m == a && (b / n) * n == b
    requires d == a / m + b / n && c * d == a + b
    requires (m > 0.0 && n > 0.0 && d > 0.0) || (m < 0.0 && n < 0.0 && d < 0.0)
    ensures m <= n ==> m <= c
    ensures n <= m ==> c <= m
  {
    var q := b / n;
    assert (c - m) * d == b - m * q;
    assert (c - m) * d * n == b * (n - m) by {
      assert (b - m * q) * n == b * n - m * (q * n);
    }
    assert d * n > 0.0;
    SignOfQuotient(c - m, d * n, b * (n - m));
  }

  /** For positive slopes, `c <= 3m` once `b <= 2a`: the denominator is at least `a/m`. */
  lemma BlendCap(a: real, b: real, m: real, c: real, p: real, q: real)
    requires a > 0.0 && b > 0.0 && m > 0.0 && p > 0.0 && q > 0.0
    requires p * m == a && c * (p + q) == a + b
    ensures b <= 2.0 * a ==> c <= 3.0 * m
  {
    assert c > 0.0;
    assert c * p <= a + b;
    assert c * p * m == c * a;
    assert c * a <= (a + b) * m;
  }

  /** For negative slopes, `3m <= c` once `b <= 2a`. */
  lemma BlendFloor(a: real, b: real, m: real, c: real, p: real, q: real)
    requires a > 0.0 && b > 0.0 && m < 0.0 && p < 0.0 && q < 0.0
    requires p * m == a && c * (p + q) == a + b
    ensures b <= 2.0 * a ==> 3.0 * m <= c
  {
    assert c < 0.0;
    assert c * p <= a + b;
    assert c * p * m == c * a;
    assert c * a >= (a + b) * m;
  }

  /** `u * w == v` with `w > 0` gives `u` the sign of `v`. */
  lemma SignOfQuotient(u: real, w: real, v: real)
    requires w > 0.0 && u * w == v
    ensures v >= 0.0 ==> u >= 0.0
    ensures v <= 0.0 ==> u <= 0.0
  {
  }

  /** The quadratic coefficient of a Hermite segment, as the builder computes it. */
  function Quadratic(c1: real, c1Next: real, m: real, dx: real): real
    requires dx != 0.0
  {
    var common := c1 + c1Next - m - m;
    (m - c1 - common) * (1.0 / dx)
  }

  /** The cubic coefficient of a Hermite segment, as the builder computes it. */
  function CubicTerm(c1: real, c1Next: real, m: real, dx: real): real
    requires dx != 0.0
  {
    var common := c1 + c1Next - m - m;
    common * (1.0 / dx) * (1.0 / dx)
  }

  /** The segment polynomial `y + c1 d + c2 d² + c3 d³` in the builder's evaluation order. */
  function Poly(y: real, c1: real, c2: real, c3: real, d: real): real
  {
    y + c1 * d + c2 * (d * d) + c3 * d * (d * d)
  }

  /** Its derivative `c1 + 2 c2 d + 3 c3 d²`. */
  function PolySlope(c1: real, c2: real, c3: real, d: real): real
  {
    c1 + 2.0 * c2 * d + 3.0 * c3 * (d * d)
  }

  /**
   * With these coefficients the segment starting at height `y` with slope
   * `c1` arrives, after a run of `dx`, at height `y + m*dx` with slope `c1Next`.
   */
  lemma HermiteEnd(y: real, c1: real, c1Next: real, m: real, dx: real)
    requires dx != 0.0
    ensures Poly(y, c1, Quadratic(c1, c1Next, m, dx), CubicTerm(c1, c1Next, m, dx), dx) == y + m * dx
    ensures PolySlope(c1, Quadratic(c1, c1Next, m, dx), CubicTerm(c1, c1Next, m, dx), dx) == c1Next
  {
    var common := c1 + c1Next - m - m;
    var inv := 1.0 / dx;
    assert inv * dx == 1.0;
    var c2 := (m - c1 - common) * inv;
    var c3 := common * inv * inv;
    assert c2 * (dx * dx) == (m - c1 - common) * dx by {
      assert c2 * (dx * dx) == (m - c1 - common) * (inv * dx) * dx;
    }
    assert c3 * dx * (dx * dx) == common * dx by {
      assert c3 * dx * (dx * dx) == common * (inv * dx) * (inv * dx) * dx;
    }
    assert c2 * dx == m - c1 - common by {
      assert c2 * dx == (m - c1 - common) * (inv * dx);
    }
    assert c3 * (dx * dx) == common by {
      assert c3 * (dx * dx) == common * (inv * dx) * (inv * dx);
    }
  }

  /**
   * A segment from `(0, y)` to `(dx, yNext)` with secant `m` and the
   * builder's coefficients starts at `y` with slope `c1` and ends at `yNext`
   * with slope `c1Next`.
   */
  lemma HermiteSegment(y: real, yNext: real, c1: real, c1Next: real, c2: real, c3: real, m: real, dx: real)
    requires dx != 0.0 && m * dx == yNext - y
    requires c2 == Quadratic(c1, c1Next, m, dx) && c3 == CubicTerm(c1, c1Next, m, dx)
    ensures Poly(y, c1, c2, c3, 0.0) == y && PolySlope(c1, c2, c3, 0.0) == c1
    ensures Poly(y, c1, c2, c3, dx) == yNext && PolySlope(c1, c2, c3, dx) == c1Next
  {
    HermiteEnd(y, c1, c1Next, m, dx);
  }

  /** A segment with zero secant and zero end slopes is the constant `y`. */
  lemma FlatHermite(y: real, c1: real, c1Next: real, c2: real, c3: real, m: real, dx: real, d: real)
    requires dx != 0.0 && m == 0.0 && c1 == 0.0 && c1Next == 0.0
    requires c2 == Quadratic(c1, c1Next, m, dx) && c3 == CubicTerm(c1, c1Next, m, dx)
    ensures Poly(y, c1, c2, c3, d) == y
  {
  }
}
