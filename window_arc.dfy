/** The semicircular arch piece: an outer half-disc, an inner glazed half-disc, a frame strip
    along its base and two short filler strokes that hide the seam between strip and arcs. */
module WindowArc {
  import opened Geometry

  /** The component's props (`positionX` is the left edge, `positionY` the base line). */
  datatype Props = Props(width: real, positionX: real, positionY: real, margin: real)

  /** A Konva `Arc`: a sector of the disc around `center` between the two radii, `angle`
      degrees wide, starting at `rotation` degrees (clockwise from the +x axis). */
  datatype Sector = Sector(center: Point, innerRadius: real, outerRadius: real, angle: int, rotation: int)

  /** What the component draws, in drawing order. */
  datatype Shapes = Shapes(outer: Sector, inner: Sector, base: Rect, leftFiller: Segment, rightFiller: Segment)

  const Angle: int := 180
  const Rotation: int := 180

  /** The destructuring defaults: width 200 at (550, 250) with a 10 margin. */
  function ResolveProps(width: Option<real>, positionX: Option<real>, positionY: Option<real>,
                        margin: Option<real>): (p: Props)
    ensures width == None ==> p.width == 200.0
    ensures positionX == None ==> p.positionX == 550.0
    ensures positionY == None ==> p.positionY == 250.0
    ensures margin == None ==> p.margin == 10.0
    ensures width.Some? ==> p.width == width.value
    ensures positionX.Some? ==> p.positionX == positionX.value
    ensures positionY.Some? ==> p.positionY == positionY.value
    ensures margin.Some? ==> p.margin == margin.value
  {
    Props(if width.Some? then width.value else 200.0,
          if positionX.Some? then positionX.value else 550.0,
          if positionY.Some? then positionY.value else 250.0,
          if margin.Some? then margin.value else 10.0)
  }

  /** The outer half-disc's radius: the arch is exactly `width` across. */
  function OuterRadius(p: Props): (r: real)
    ensures 2.0 * r == p.width
  {
    p.width / 2.0
  }

  /** The inner half-disc's radius: `margin` short of the outer one. */
  function InnerRadius(p: Props): (r: real)
    ensures OuterRadius(p) - r == p.margin
    ensures 0.0 <= p.margin <= p.width / 2.0 ==> 0.0 <= r <= OuterRadius(p)
  {
    OuterRadius(p) - p.margin
  }

  /** The centre of both arcs: the middle of the base line. */
  function ArcCenter(p: Props): (c: Point)
    ensures c.y == p.positionY
    ensures c.x - p.positionX == p.positionX + p.width - c.x
  {
    Point(p.positionX + OuterRadius(p), p.positionY)
  }

  function Render(p: Props): (s: Shapes)
  {
    var c := ArcCenter(p);
    Shapes(
      Sector(c, 0.0, OuterRadius(p), Angle, Rotation),
      Sector(c, 0.0, InnerRadius(p), Angle, Rotation),
      Rect(p.positionX, p.positionY, p.width, p.margin),
      Segment(Point(p.positionX + 1.0, p.positionY), Point(p.positionX - 1.0 + p.margin, p.positionY)),
      Segment(Point(p.positionX + p.width - 1.0, p.positionY),
              Point(p.positionX + p.width + 1.0 - p.margin, p.positionY)))
  }

  /** Both half-discs share the centre at the middle of the base line, sweep the upper half
      (180 degrees from rotation 180), the outer one reaches the ends of the base line and the
      inner one stops `margin` inside them. */
  lemma ArcsShareCenter(p: Props)
    ensures var s := Render(p);
      s.outer.center == s.inner.center == ArcCenter(p) &&
      s.outer.angle == s.inner.angle == 180 && s.outer.rotation == s.inner.rotation == 180 &&
      s.outer.innerRadius == s.inner.innerRadius == 0.0 &&
      s.outer.center.x - s.outer.outerRadius == p.positionX &&
      s.outer.center.x + s.outer.outerRadius == p.positionX + p.width &&
      s.outer.outerRadius - s.inner.outerRadius == p.margin
  {
  }

  /** The base strip spans the whole width under the arcs, `margin` high. */
  lemma BaseUnderArcs(p: Props)
    ensures var s := Render(p);
      s.base.x == s.outer.center.x - s.outer.outerRadius &&
      Right(s.base) == s.outer.center.x + s.outer.outerRadius &&
      s.base.y == s.outer.center.y && s.base.height == p.margin
  {
  }

  /** The filler strokes lie on the base line and are mirror images of each other about the
      arcs' centre; each covers the band between the outer and the inner arc, one unit short
      of each arc at either end. */
  lemma FillersMirrored(p: Props)
    ensures var s := Render(p);
      var c := s.outer.center;
      s.leftFiller.from.y == s.leftFiller.to.y == s.rightFiller.from.y == s.rightFiller.to.y == p.positionY &&
      s.rightFiller.from == Reflect(s.leftFiller.from, c.x) &&
      s.rightFiller.to == Reflect(s.leftFiller.to, c.x) &&
      s.leftFiller.from.x == c.x - s.outer.outerRadius + 1.0 &&
      s.leftFiller.to.x == c.x - s.inner.outerRadius - 1.0
  {
  }
}
