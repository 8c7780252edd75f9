/** The square root the renderers call (`Math.sqrt`). It is a foreign call here: every function
    that needs it takes it as a parameter `sqrt` and requires `IsSqrt(sqrt)`, which pins its
    value down on the non-negative reals. The defining fact at a point, `RootAt`, is brought in
    explicitly by the lemmas below. */
module Roots {

  function Id(r: real): real { r }

  /** `Math.pow(r, 2)`. The second factor is written `Id(r)`: with a literal `r * r` the
      solver's arithmetic gives up even on linear steps about the square. */
  function Sq(r: real): real { r * Id(r) }

  ghost predicate RootAt(sqrt: real -> real, x: real)
  {
    0.0 <= x ==> 0.0 <= sqrt(x) && Sq(sqrt(x)) == x
  }

  ghost predicate IsSqrt(sqrt: real -> real)
  {
    forall x :: RootAt(sqrt, x)
  }

  lemma SquareMonotone(a: real, b: real)
    requires 0.0 <= a <= b
    ensures Sq(a) <= Sq(b)
  {
    assert a * Id(a) <= a * b;
    assert a * b <= b * Id(b);
  }

  lemma SquareStrictlyMonotone(a: real, b: real)
    requires 0.0 <= a < b
    ensures Sq(a) < Sq(b)
  {
    assert Sq(a) == a * Id(a) <= a * b;
    assert a * b < b * Id(b) == Sq(b);
  }

  /** The root of a square is the non-negative base. */
  lemma SqrtOfSquare(sqrt: real -> real, r: real)
    requires IsSqrt(sqrt) && r >= 0.0
    ensures sqrt(Sq(r)) == r
  {
    assert r * Id(r) >= 0.0;
    assert RootAt(sqrt, Sq(r));
    var s := sqrt(Sq(r));
    if s < r {
      SquareStrictlyMonotone(s, r);
    } else if r < s {
      SquareStrictlyMonotone(r, s);
    }
  }

  lemma SqrtMonotone(sqrt: real -> real, a: real, b: real)
    requires IsSqrt(sqrt) && 0.0 <= a <= b
    ensures sqrt(a) <= sqrt(b)
  {
    assert RootAt(sqrt, a) && RootAt(sqrt, b);
    if sqrt(b) < sqrt(a) {
      SquareStrictlyMonotone(sqrt(b), sqrt(a));
    }
  }

  lemma SqrtStrictlyMonotone(sqrt: real -> real, a: real, b: real)
    requires IsSqrt(sqrt) && 0.0 <= a < b
    ensures sqrt(a) < sqrt(b)
  {
    assert RootAt(sqrt, a) && RootAt(sqrt, b);
    if sqrt(b) <= sqrt(a) {
      SquareMonotone(sqrt(b), sqrt(a));
    }
  }

  /** On [0, 1] the root stays in [0, 1], is positive exactly on (0, 1] and below 1 on [0, 1). */
  lemma SqrtUnitInterval(sqrt: real -> real, x: real)
    requires IsSqrt(sqrt) && 0.0 <= x <= 1.0
    ensures 0.0 <= sqrt(x) <= 1.0
    ensures 0.0 < sqrt(x) <==> 0.0 < x
    ensures sqrt(x) < 1.0 <==> x < 1.0
  {
    assert Sq(1.0) == 1.0 && Sq(0.0) == 0.0;
    SqrtOfSquare(sqrt, 1.0);
    SqrtOfSquare(sqrt, 0.0);
    SqrtMonotone(sqrt, 0.0, x);
    SqrtMonotone(sqrt, x, 1.0);
    if 0.0 < x {
      SqrtStrictlyMonotone(sqrt, 0.0, x);
    }
    if x < 1.0 {
      SqrtStrictlyMonotone(sqrt, x, 1.0);
    }
  }

  /** A distance strictly inside a half-width gives a ratio in [0, 1), positive when the
      distance is. */
  lemma UnitRatio(d: real, h: real)
    requires 0.0 <= d < h
    ensures 0.0 <= d / h < 1.0
    ensures 0.0 < d ==> 0.0 < d / h
  {
    assert (d / h) * h == d;
  }

  /** Dividing a product by one of its non-zero factors gives back the other factor. */
  lemma Cancel(h: real, t: real)
    requires h != 0.0
    ensures (h * t) / h == t
  {
    assert t * h == h * t;
  }

  /** Scaling a length by a factor in (0, 1] keeps it between 0 and itself. */
  lemma Scale(a: real, s: real)
    requires 0.0 < s <= 1.0
    ensures a >= 0.0 ==> 0.0 <= a * s <= a
    ensures a > 0.0 ==> 0.0 < a * s
    ensures a > 0.0 && s < 1.0 ==> a * s < a
  {
    if a >= 0.0 {
      assert a * (1.0 - s) >= 0.0;
    }
    if a > 0.0 && s < 1.0 {
      assert a * (1.0 - s) > 0.0;
    }
  }

  /** A ratio in [0, 1) has its square in [0, 1), positive when the ratio is. */
  lemma UnitSquare(r: real)
    requires 0.0 <= r < 1.0
    ensures 0.0 <= Sq(r) < 1.0
    ensures 0.0 < r ==> 0.0 < Sq(r)
  {
    assert r * Id(r) <= r * 1.0;
  }

  /** sqrt(1 - r * r): the height of the unit half-circle at distance `r` from its centre. */
  function UnitArc(sqrt: real -> real, r: real): (s: real)
    requires IsSqrt(sqrt) && 0.0 <= r < 1.0
    ensures 0.0 < s <= 1.0
    ensures r == 0.0 ==> s == 1.0
    ensures 0.0 < r ==> s < 1.0
  {
    UnitSquare(r);
    SqrtUnitInterval(sqrt, 1.0 - Sq(r));
    assert r == 0.0 ==> Sq(r) == 0.0;
    assert Sq(1.0) == 1.0;
    SqrtOfSquare(sqrt, 1.0);
    sqrt(1.0 - Sq(r))
  }

  /** The unit arc's defining equation: the point at distance `r` and height UnitArc(r) lies on
      the unit circle. */
  lemma UnitArcOnCircle(sqrt: real -> real, r: real)
    requires IsSqrt(sqrt) && 0.0 <= r < 1.0
    ensures Sq(UnitArc(sqrt, r)) == 1.0 - Sq(r)
  {
    UnitSquare(r);
    assert RootAt(sqrt, 1.0 - Sq(r));
  }

  /** Going up the half-circle and back across: the unit arc is its own inverse on (0, 1). */
  lemma UnitArcInvolution(sqrt: real -> real, r: real)
    requires IsSqrt(sqrt) && 0.0 < r < 1.0
    ensures UnitArc(sqrt, UnitArc(sqrt, r)) == r
  {
    var s := UnitArc(sqrt, r);
    UnitArcOnCircle(sqrt, r);
    assert 1.0 - Sq(s) == Sq(r);
    SqrtOfSquare(sqrt, r);
  }

  /** The unit arc falls as the distance from the centre grows. */
  lemma UnitArcAntitone(sqrt: real -> real, r1: real, r2: real)
    requires IsSqrt(sqrt) && 0.0 <= r1 <= r2 < 1.0
    ensures UnitArc(sqrt, r2) <= UnitArc(sqrt, r1)
  {
    SquareMonotone(r1, r2);
    UnitSquare(r2);
    SqrtMonotone(sqrt, 1.0 - Sq(r2), 1.0 - Sq(r1));
  }
}
