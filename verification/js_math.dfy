/** The pieces of JavaScript number semantics that the core relies on,
    restated over Dafny's exact integers and reals. */
module JsMath {

  /** A value of `Math.random()`: a real in the half-open interval [0, 1). */
  type Unit01 = r: real | 0.0 <= r < 1.0

  /** A real in the closed interval [0, 1]. */
  type Unit = r: real | 0.0 <= r <= 1.0

  /** `Math.round`: halves round up, so it is floor(x + 0.5). */
  function Round(x: real): (n: int)
    ensures x - 0.5 < n as real <= x + 0.5
  {
    (x + 0.5).Floor
  }

  /** `Math.floor` of a real. */
  function Floor(x: real): (n: int)
    ensures n as real <= x < n as real + 1.0
  {
    x.Floor
  }

  /** `Math.max(lo, Math.min(hi, v))`. */
  function Clamp(lo: real, hi: real, v: real): (r: real)
    requires lo <= hi
    ensures lo <= r <= hi
    ensures lo <= v <= hi ==> r == v
    ensures v < lo ==> r == lo
    ensures v > hi ==> r == hi
  {
    if v < lo then lo else if v > hi then hi else v
  }

  function Abs(x: real): (r: real)
    ensures r >= 0.0
    ensures r == x || r == -x
  {
    if x < 0.0 then -x else x
  }

  /** `Math.abs` on an integer. */
  function IntAbs(n: int): (r: nat)
    ensures r == n || r == -n
  {
    if n < 0 then -n else n
  }

  /** `Math.sign` on an integer, as a real factor. */
  function Sign(n: int): (r: real)
    ensures n > 0 ==> r == 1.0
    ensures n < 0 ==> r == -1.0
    ensures n == 0 ==> r == 0.0
  {
    if n > 0 then 1.0 else if n < 0 then -1.0 else 0.0
  }

  /** Scaling by a factor in [0, 1] stays in [0, n], and strictly below n
      when the factor is below 1. */
  lemma Scale(u: real, n: real)
    requires 0.0 <= u <= 1.0 && n >= 0.0
    ensures 0.0 <= u * n <= n
    ensures u < 1.0 && n > 0.0 ==> u * n < n
  {
    assert n - u * n == (1.0 - u) * n;
    assert (1.0 - u) * n >= 0.0;
    assert u < 1.0 && n > 0.0 ==> (1.0 - u) * n > 0.0;
  }

  /** `Math.floor(Math.random() * n)`: an index in [0, n). */
  function Pick(u: Unit01, n: nat): (i: nat)
    requires n > 0
    ensures i < n
  {
    var k := Floor(u * n as real);
    Scale(u, n as real);
    k as nat
  }

  // ---------------------------------------------------------------------
  // Radius tests. The source compares `Math.sqrt(x*x + z*z)` against an
  // integer radius; these predicates make the same comparison on the squared
  // distance, with the sign of the radius taken into account so that no
  // precondition is needed.

  function Dist2(x: int, z: int): (d2: nat)
  {
    x * x + z * z
  }

  /** dist < r */
  predicate Inside(d2: nat, r: int) { r > 0 && d2 < r * r }

  /** dist > r */
  predicate Beyond(d2: nat, r: int) { r < 0 || d2 > r * r }

  /** dist <= r */
  predicate Within(d2: nat, r: int) { !Beyond(d2, r) }

  lemma MulStrict(a: real, b: real)
    requires 0.0 <= a < b
    ensures a * a < b * b
  {
    assert (b - a) * a >= 0.0;
    assert (b - a) * b > 0.0;
  }

  lemma IntSquareGrows(a: int, r: int)
    requires r >= 0 && (a > r || a < -r)
    ensures a * a > r * r
  {
    var b := if a < 0 then -a else a;
    assert b * b == a * a;
    assert b > r;
    assert (b - r) * b > 0;
    assert (b - r) * r >= 0;
  }

  /** The squared tests agree with the square-root tests they replace: for
      the non-negative square root d of d2, d < r exactly when Inside(d2, r)
      and d > r exactly when Beyond(d2, r). */
  lemma SquaredTestsExact(d: real, d2: nat, r: int)
    requires d >= 0.0 && d * d == d2 as real
    ensures d < r as real <==> Inside(d2, r)
    ensures d > r as real <==> Beyond(d2, r)
  {
    var rr := r as real;
    assert (r * r) as real == rr * rr;
    if r > 0 {
      if d < rr { MulStrict(d, rr); }
      if rr < d { MulStrict(rr, d); }
    } else if r == 0 {
      if d > 0.0 {
        MulStrict(0.0, d);
        assert d2 > 0;
        assert Beyond(d2, r);
      }
    }
  }

  /** A radius inclusion bounds both coordinates. */
  lemma WithinBox(x: int, z: int, r: int)
    requires Within(Dist2(x, z), r)
    ensures -r <= x <= r && -r <= z <= r
  {
    if r < 0 {
    } else {
      assert x * x <= r * r && z * z <= r * r by {
        assert x * x >= 0 && z * z >= 0;
      }
      if x > r || x < -r { IntSquareGrows(x, r); }
      if z > r || z < -r { IntSquareGrows(z, r); }
    }
  }
}
