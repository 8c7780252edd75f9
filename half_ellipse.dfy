/** The upper half of an axis-aligned ellipse, as the arched window uses it for its glazing: the
    height of the arch above a given x (`getArcYAtX`) and the width of the opening at a given y
    (`getArcWidthAtY`). Canvas y grows downwards, so the arch rises from its springing line
    `springY` to its apex at `springY - height`. */
module HalfEllipse {
  import opened Geometry
  import opened Roots

  /** An arch over the span `[centerX - width / 2, centerX + width / 2]`. */
  datatype Arch = Arch(centerX: real, springY: real, width: real, height: real)

  function Apex(a: Arch): real { a.springY - a.height }

  /** How far an arch of the given height and half-width rises above its springing line at
      distance `dist` from its axis: height * sqrt(1 - (dist / halfWidth)^2). It is the full
      height on the axis and lies between 0 and the height elsewhere in the span, strictly
      positive when the height is. */
  function Rise(sqrt: real -> real, height: real, halfWidth: real, dist: real): (rise: real)
    requires IsSqrt(sqrt) && 0.0 <= dist < halfWidth
    ensures dist == 0.0 ==> rise == height
    ensures height >= 0.0 ==> 0.0 <= rise <= height
    ensures height > 0.0 ==> 0.0 < rise
    ensures height > 0.0 && 0.0 < dist ==> rise < height
  {
    UnitRatio(dist, halfWidth);
    var s := UnitArc(sqrt, dist / halfWidth);
    Scale(height, s);
    height * s
  }

  /** `getArcYAtX`: the y of the arch above `x`, plus `margin`. Outside the span it is the
      springing line; inside it lies between the apex and the springing line, strictly below the
      springing line when the arch has a height. */
  function YAt(sqrt: real -> real, a: Arch, x: real, margin: real): (y: real)
    requires IsSqrt(sqrt)
    ensures Abs(x - a.centerX) >= a.width / 2.0 ==> y == a.springY + margin
    ensures Abs(x - a.centerX) < a.width / 2.0 && a.height >= 0.0 ==>
              Apex(a) + margin <= y <= a.springY + margin
    ensures Abs(x - a.centerX) < a.width / 2.0 && a.height > 0.0 ==> y < a.springY + margin
  {
    var dist := Abs(x - a.centerX);
    if dist >= a.width / 2.0 then a.springY + margin
    else a.springY - Rise(sqrt, a.height, a.width / 2.0, dist) + margin
  }

  /** The chord of an arch of the given width and height, `depth` above its springing line:
      width * sqrt(1 - (depth / height)^2). */
  function Chord(sqrt: real -> real, width: real, height: real, depth: real): (w: real)
    requires IsSqrt(sqrt) && 0.0 <= depth < height
    ensures width >= 0.0 ==> 0.0 <= w <= width
    ensures width > 0.0 && 0.0 < depth ==> 0.0 < w < width
  {
    UnitRatio(depth, height);
    var s := UnitArc(sqrt, depth / height);
    Scale(width, s);
    width * s
  }

  /** `getArcWidthAtY`: the width of the opening at height `y`. At or below the springing line
      it is the full width; at or above the apex it is 0; in between it is the chord of the
      arch, strictly between the two. */
  function WidthAt(sqrt: real -> real, a: Arch, y: real): (w: real)
    requires IsSqrt(sqrt) && a.height >= 0.0
    ensures y >= a.springY ==> w == a.width
    ensures y < a.springY && y <= Apex(a) ==> w == 0.0
    ensures a.width >= 0.0 ==> 0.0 <= w <= a.width
    ensures Apex(a) < y < a.springY && a.width > 0.0 ==> 0.0 < w < a.width
  {
    if y >= a.springY then a.width
    else if a.springY - y >= a.height then 0.0
    else Chord(sqrt, a.width, a.height, a.springY - y)
  }

  /** With a non-empty span the arch peaks at its apex, on its axis. */
  lemma ApexOnAxis(sqrt: real -> real, a: Arch, margin: real)
    requires IsSqrt(sqrt) && a.width > 0.0
    ensures YAt(sqrt, a, a.centerX, margin) == Apex(a) + margin
  {
    UnitRatio(0.0, a.width / 2.0);
  }

  /** The arch is symmetric about its axis. */
  lemma Symmetric(sqrt: real -> real, a: Arch, d: real, margin: real)
    requires IsSqrt(sqrt)
    ensures YAt(sqrt, a, a.centerX + d, margin) == YAt(sqrt, a, a.centerX - d, margin)
  {
    assert Abs(a.centerX + d - a.centerX) == Abs(a.centerX - d - a.centerX);
  }

  lemma SqOfProduct(u: real, v: real)
    ensures Sq(u * v) == Sq(u) * Sq(v)
  {
    assert (u * v) * Id(u * v) == (u * Id(u)) * (v * Id(v));
  }

  lemma SqOfAbs(u: real)
    ensures Sq(Abs(u)) == Sq(u)
  {
    assert (-u) * Id(-u) == u * Id(u);
  }

  /** The point (x, y) lies on the ellipse with centre (cx, cy) and semi-axes rx and ry. */
  predicate OnEllipseAt(cx: real, cy: real, rx: real, ry: real, x: real, y: real)
  {
    Sq(x - cx) * Sq(ry) + Sq(cy - y) * Sq(rx) == Sq(rx) * Sq(ry)
  }

  lemma EllipseIdentity(r: real, s: real, hw: real, h: real)
    requires Sq(s) == 1.0 - Sq(r)
    ensures Sq(r * hw) * Sq(h) + Sq(h * s) * Sq(hw) == Sq(hw) * Sq(h)
  {
    SqOfProduct(r, hw);
    SqOfProduct(h, s);
    var a, b, c, d := Sq(r), Sq(hw), Sq(h), Sq(s);
    assert a * b * c + c * d * b == b * c * (a + d);
  }

  /** The rise at distance `dist` satisfies the ellipse equation with semi-axes `halfWidth`
      and `height`. */
  lemma RiseOnEllipse(sqrt: real -> real, height: real, halfWidth: real, dist: real)
    requires IsSqrt(sqrt) && 0.0 <= dist < halfWidth
    ensures Sq(dist) * Sq(height) + Sq(Rise(sqrt, height, halfWidth, dist)) * Sq(halfWidth)
            == Sq(halfWidth) * Sq(height)
  {
    UnitRatio(dist, halfWidth);
    var r := dist / halfWidth;
    var s := UnitArc(sqrt, r);
    UnitArcOnCircle(sqrt, r);
    assert dist == r * halfWidth;
    EllipseIdentity(r, s, halfWidth, height);
  }

  /** Inside the span, the point of the arch above `x` lies on the ellipse with centre
      (centerX, springY) and semi-axes width / 2 and height. */
  lemma OnEllipse(sqrt: real -> real, a: Arch, x: real)
    requires IsSqrt(sqrt) && Abs(x - a.centerX) < a.width / 2.0
    ensures OnEllipseAt(a.centerX, a.springY, a.width / 2.0, a.height, x, YAt(sqrt, a, x, 0.0))
  {
    var d := Abs(x - a.centerX);
    SqOfAbs(x - a.centerX);
    RiseOnEllipse(sqrt, a.height, a.width / 2.0, d);
    assert a.springY - YAt(sqrt, a, x, 0.0) == Rise(sqrt, a.height, a.width / 2.0, d);
  }

  lemma ChordOfRise(sqrt: real -> real, width: real, height: real, dist: real)
    requires IsSqrt(sqrt) && 0.0 < height && 0.0 < dist < width / 2.0
    ensures Rise(sqrt, height, width / 2.0, dist) < height
    ensures Chord(sqrt, width, height, Rise(sqrt, height, width / 2.0, dist)) == 2.0 * dist
  {
    var hw := width / 2.0;
    UnitRatio(dist, hw);
    var r := dist / hw;
    var s := UnitArc(sqrt, r);
    assert Rise(sqrt, height, hw, dist) == height * s;
    Cancel(height, s);
    UnitArcInvolution(sqrt, r);
    assert width * r == 2.0 * dist;
  }

  /** Round trip from x to y and back: the width of the opening at the arch's height above `x`
      is twice the distance from `x` to the axis. */
  lemma WidthAtYAt(sqrt: real -> real, a: Arch, x: real)
    requires IsSqrt(sqrt) && a.height > 0.0 && Abs(x - a.centerX) < a.width / 2.0
    ensures WidthAt(sqrt, a, YAt(sqrt, a, x, 0.0)) == 2.0 * Abs(x - a.centerX)
  {
    var d := Abs(x - a.centerX);
    if 0.0 < d {
      ChordOfRise(sqrt, a.width, a.height, d);
    }
  }

  /** Round trip from y to x and back: at either end of the chord of width WidthAt(y), the arch
      is at height `y`, for every `y` strictly between the apex and the springing line. */
  lemma YAtWidthAt(sqrt: real -> real, a: Arch, y: real)
    requires IsSqrt(sqrt) && a.width > 0.0 && Apex(a) < y < a.springY
    ensures YAt(sqrt, a, a.centerX + WidthAt(sqrt, a, y) / 2.0, 0.0) == y
    ensures YAt(sqrt, a, a.centerX - WidthAt(sqrt, a, y) / 2.0, 0.0) == y
  {
    var hw := a.width / 2.0;
    UnitRatio(a.springY - y, a.height);
    var q := (a.springY - y) / a.height;
    var t := UnitArc(sqrt, q);
    var w := WidthAt(sqrt, a, y);
    assert w == a.width * t;
    assert w / 2.0 == hw * t;
    Scale(hw, t);
    assert Abs(a.centerX + w / 2.0 - a.centerX) == hw * t;
    Cancel(hw, t);
    UnitArcInvolution(sqrt, q);
    assert a.height * q == a.springY - y;
    Symmetric(sqrt, a, w / 2.0, 0.0);
  }

  lemma RatioMonotone(d1: real, d2: real, h: real)
    requires d1 <= d2 && 0.0 < h
    ensures d1 / h <= d2 / h
  {
    assert (d2 / h - d1 / h) * h == d2 - d1;
  }

  /** The chord shortens as it rises. */
  lemma ChordAntitone(sqrt: real -> real, width: real, height: real, d1: real, d2: real)
    requires IsSqrt(sqrt) && width >= 0.0 && 0.0 <= d2 <= d1 < height
    ensures Chord(sqrt, width, height, d1) <= Chord(sqrt, width, height, d2)
  {
    UnitRatio(d1, height);
    UnitRatio(d2, height);
    RatioMonotone(d2, d1, height);
    var q1, q2 := d1 / height, d2 / height;
    UnitArcAntitone(sqrt, q2, q1);
    assert width * (UnitArc(sqrt, q2) - UnitArc(sqrt, q1)) >= 0.0;
  }

  /** The opening only widens going down: the width is monotone in `y`. */
  lemma WidthMonotone(sqrt: real -> real, a: Arch, y1: real, y2: real)
    requires IsSqrt(sqrt) && a.height >= 0.0 && a.width >= 0.0 && y1 <= y2
    ensures WidthAt(sqrt, a, y1) <= WidthAt(sqrt, a, y2)
  {
    if y2 < a.springY && Apex(a) < y1 {
      ChordAntitone(sqrt, a.width, a.height, a.springY - y1, a.springY - y2);
    }
  }

  /** With a height and a non-empty span, the opening has no width exactly at and above the
      apex. */
  lemma WidthZeroIff(sqrt: real -> real, a: Arch, y: real)
    requires IsSqrt(sqrt) && a.width > 0.0 && a.height > 0.0
    ensures WidthAt(sqrt, a, y) == 0.0 <==> y <= Apex(a)
  {
  }
}
