/** Plane geometry on real numbers.

    The simulation measures lengths with `Math.hypot`. Dafny has no square root on
    `real`, so every member that needs one takes the square root as a parameter
    `sqrt` together with the promise `IsSqrt(sqrt)`: on the non-negative reals it
    returns the non-negative number whose square is its argument. Rounding of the
    floating-point original is not modelled. */
module Geometry {

  /** `r` is the non-negative square root of `a`. */
  predicate IsRootOf(r: real, a: real) {
    0.0 <= r && r * r == a
  }

  /** `sqrt` is the non-negative square root on the non-negative reals. The fact for
      one radicand is brought into a proof by `SqrtFacts`. */
  ghost predicate IsSqrt(sqrt: real -> real) {
    forall x {:trigger IsRootOf(sqrt(x), x)} :: 0.0 <= x ==> IsRootOf(sqrt(x), x)
  }

  lemma SqrtFacts(sqrt: real -> real, a: real)
    requires IsSqrt(sqrt) && 0.0 <= a
    ensures 0.0 <= sqrt(a) && sqrt(a) * sqrt(a) == a
  {
    assert IsRootOf(sqrt(a), a);
  }

  /** Squared length of the vector (x, y). */
  function NormSq(x: real, y: real): real {
    x * x + y * y
  }

  /** `Math.hypot(x, y)`: the length of the vector (x, y). */
  function Hypot(sqrt: real -> real, x: real, y: real): real {
    sqrt(NormSq(x, y))
  }

  lemma SquareNonNeg(r: real)
    ensures r * r >= 0.0
  {
    if r < 0.0 {
      calc { r * r; == (-r) * (-r); >= 0.0; }
    }
  }

  lemma NormSqNonNeg(x: real, y: real)
    ensures NormSq(x, y) >= 0.0
  {
    SquareNonNeg(x);
    SquareNonNeg(y);
  }

  lemma SquareStrictMono(r: real, s: real)
    requires 0.0 <= r < s
    ensures r * r < s * s
  {
    calc { r * r; <= r * s; < s * s; }
  }

  /** The square root is unique: any non-negative `r` whose square is `a` is `sqrt(a)`. */
  lemma SqrtUnique(sqrt: real -> real, a: real, r: real)
    requires IsSqrt(sqrt) && 0.0 <= r && r * r == a
    ensures sqrt(a) == r
  {
    SquareNonNeg(r);
    SqrtFacts(sqrt, a);
    var s := sqrt(a);
    if s > r {
      SquareStrictMono(r, s);
    } else if s < r {
      SquareStrictMono(s, r);
    }
  }

  lemma SqrtMono(sqrt: real -> real, a: real, b: real)
    requires IsSqrt(sqrt) && 0.0 <= a <= b
    ensures sqrt(a) <= sqrt(b)
  {
    SqrtFacts(sqrt, a);
    SqrtFacts(sqrt, b);
    if sqrt(a) > sqrt(b) {
      SquareStrictMono(sqrt(b), sqrt(a));
    }
  }

  /** Comparing a square root with a bound is comparing the radicand with the bound squared. */
  lemma SqrtCompare(sqrt: real -> real, a: real, r: real)
    requires IsSqrt(sqrt) && 0.0 <= a && 0.0 <= r
    ensures sqrt(a) <= r <==> a <= r * r
    ensures sqrt(a) < r <==> a < r * r
  {
    SqrtFacts(sqrt, a);
    var s := sqrt(a);
    if s < r {
      SquareStrictMono(s, r);
    } else if s > r {
      SquareStrictMono(r, s);
    }
  }

  lemma SqrtZeroIff(sqrt: real -> real, a: real)
    requires IsSqrt(sqrt) && 0.0 <= a
    ensures sqrt(a) == 0.0 <==> a == 0.0
  {
    SqrtFacts(sqrt, a);
    if a == 0.0 {
      SqrtUnique(sqrt, 0.0, 0.0);
    }
  }

  /** A square root of a number in [0, 1] lies in [0, 1]. */
  lemma SqrtAtMostOne(sqrt: real -> real, a: real)
    requires IsSqrt(sqrt) && 0.0 <= a <= 1.0
    ensures 0.0 <= sqrt(a) <= 1.0
  {
    SqrtFacts(sqrt, a);
    SqrtUnique(sqrt, 1.0, 1.0);
    SqrtMono(sqrt, a, 1.0);
  }

  lemma HypotNonNeg(sqrt: real -> real, x: real, y: real)
    requires IsSqrt(sqrt)
    ensures 0.0 <= Hypot(sqrt, x, y)
  {
    HypotBasics(sqrt, x, y);
  }

  lemma HypotBasics(sqrt: real -> real, x: real, y: real)
    requires IsSqrt(sqrt)
    ensures 0.0 <= Hypot(sqrt, x, y)
    ensures Hypot(sqrt, x, y) * Hypot(sqrt, x, y) == NormSq(x, y)
  {
    NormSqNonNeg(x, y);
    SqrtFacts(sqrt, NormSq(x, y));
  }

  /** A vector has length zero exactly when both of its components are zero. */
  lemma HypotZeroIff(sqrt: real -> real, x: real, y: real)
    requires IsSqrt(sqrt)
    ensures Hypot(sqrt, x, y) == 0.0 <==> x == 0.0 && y == 0.0
  {
    NormSqNonNeg(x, y);
    SqrtZeroIff(sqrt, NormSq(x, y));
    SquareNonNeg(x);
    SquareNonNeg(y);
    if x != 0.0 {
      if x > 0.0 { SquareStrictMono(0.0, x); } else { SquareStrictMono(0.0, -x); }
    }
    if y != 0.0 {
      if y > 0.0 { SquareStrictMono(0.0, y); } else { SquareStrictMono(0.0, -y); }
    }
  }

  /** Scaling a vector by a non-negative factor scales its length by that factor:
      (a, b) = (x * k, y * k) has length k times that of (x, y). */
  lemma HypotScale(sqrt: real -> real, x: real, y: real, k: real, a: real, b: real)
    requires IsSqrt(sqrt) && 0.0 <= k && a == x * k && b == y * k
    ensures Hypot(sqrt, a, b) == k * Hypot(sqrt, x, y)
  {
    var h := Hypot(sqrt, x, y);
    HypotBasics(sqrt, x, y);
    calc {
      (k * h) * (k * h);
      == (k * k) * (h * h);
      == (k * k) * (x * x + y * y);
      == (x * k) * (x * k) + (y * k) * (y * k);
      == a * a + b * b;
    }
    SqrtUnique(sqrt, NormSq(a, b), k * h);
  }

  /** Scaling a nonzero vector by `radius / length` gives a vector of length `radius`. */
  lemma HypotRescale(sqrt: real -> real, x: real, y: real, radius: real, a: real, b: real)
    requires IsSqrt(sqrt) && 0.0 <= radius && Hypot(sqrt, x, y) != 0.0
    requires a == x * (radius / Hypot(sqrt, x, y)) && b == y * (radius / Hypot(sqrt, x, y))
    ensures Hypot(sqrt, a, b) == radius
  {
    var h := Hypot(sqrt, x, y);
    HypotBasics(sqrt, x, y);
    var k := radius / h;
    assert 0.0 <= k;
    HypotScale(sqrt, x, y, k, a, b);
    assert k * h == radius;
  }

  /** Dividing a nonzero vector by its own length gives a unit vector. */
  lemma HypotUnit(sqrt: real -> real, x: real, y: real)
    requires IsSqrt(sqrt) && Hypot(sqrt, x, y) != 0.0
    ensures NormSq(x / Hypot(sqrt, x, y), y / Hypot(sqrt, x, y)) == 1.0
    ensures Hypot(sqrt, x / Hypot(sqrt, x, y), y / Hypot(sqrt, x, y)) == 1.0
  {
    var h := Hypot(sqrt, x, y);
    HypotBasics(sqrt, x, y);
    var u, v := x / h, y / h;
    assert u * h == x && v * h == y;
    calc {
      NormSq(u, v) * (h * h);
      == (u * h) * (u * h) + (v * h) * (v * h);
      == x * x + y * y;
      == 1.0 * (h * h);
    }
    SquareStrictMono(0.0, h);
    assert NormSq(u, v) == 1.0;
    SqrtUnique(sqrt, 1.0, 1.0);
  }

  /** Comparing a length with a non-negative bound can be done on squares. */
  lemma HypotCompare(sqrt: real -> real, x: real, y: real, r: real)
    requires IsSqrt(sqrt) && 0.0 <= r
    ensures Hypot(sqrt, x, y) <= r <==> NormSq(x, y) <= r * r
    ensures Hypot(sqrt, x, y) < r <==> NormSq(x, y) < r * r
  {
    NormSqNonNeg(x, y);
    SqrtCompare(sqrt, NormSq(x, y), r);
  }

  /** Length does not depend on the orientation of the vector. */
  lemma HypotNegate(sqrt: real -> real, x: real, y: real)
    ensures Hypot(sqrt, -x, -y) == Hypot(sqrt, x, y)
  {
    assert NormSq(-x, -y) == NormSq(x, y);
  }
}
