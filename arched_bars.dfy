/** The arched window's glazing bars ("traverses") and the patches drawn over their crossings.
    Horizontal bars are cut to the arch's chord; vertical bars follow the arch at their top
    corners; a crossing patch is drawn only where the arch leaves room for it. */
module ArchedBars {
  import opened Geometry
  import opened Roots
  import opened Spacing
  import opened HalfEllipse
  import opened ArchedWindow

  /** Border drawn on each side of a bar's outer outline. */
  const Border: real := 2.0

  /** The line of horizontal bar `i`: equal spacing over the effective glazing height. */
  function TraverseY(p: Props, i: nat): (y: real)
    requires i < p.traverseCountY
    ensures EffectiveInnerHeight(p) > 0.0 ==> p.innerMargin < y < p.innerMargin + EffectiveInnerHeight(p)
  {
    BarCenter(p.innerMargin, EffectiveInnerHeight(p), p.traverseCountY, i)
  }

  /** The line of vertical bar `i`: equal spacing over the glazing width. */
  function TraverseX(p: Props, i: nat): (x: real)
    requires i < p.traverseCountX
    ensures InnerWidth(p) > 0.0 ==> p.innerMargin < x < p.innerMargin + InnerWidth(p)
  {
    BarCenter(p.innerMargin, InnerWidth(p), p.traverseCountX, i)
  }

  // ---------------------------------------------------------------- horizontal bars

  /** The width a horizontal band between `top` and `bottom` can have under the arch: the
      smaller of the arch's widths at its two edges, or nothing when both are 0. */
  function BandWidth(sqrt: real -> real, p: Props, top: real, bottom: real): (w: Option<real>)
    requires IsSqrt(sqrt) && p.innerMargin >= 0.0
    ensures w.None? <==> WidthAt(sqrt, Glazing(p), top) == 0.0 && WidthAt(sqrt, Glazing(p), bottom) == 0.0
    ensures w.Some? ==> w.value <= WidthAt(sqrt, Glazing(p), top) && w.value <= WidthAt(sqrt, Glazing(p), bottom)
    ensures w.Some? ==> w.value == WidthAt(sqrt, Glazing(p), top) || w.value == WidthAt(sqrt, Glazing(p), bottom)
  {
    var atTop := WidthAt(sqrt, Glazing(p), top);
    var atBottom := WidthAt(sqrt, Glazing(p), bottom);
    if atTop == 0.0 && atBottom == 0.0 then None else Some(Min(atTop, atBottom))
  }

  /** Since the arch only widens downwards, a band is omitted exactly when the arch has no
      width at its bottom edge, and otherwise it is as wide as the arch at its top edge. */
  lemma BandWidthAtTop(sqrt: real -> real, p: Props, top: real, bottom: real)
    requires IsSqrt(sqrt) && p.innerMargin >= 0.0 && InnerWidth(p) >= 0.0 && top <= bottom
    ensures BandWidth(sqrt, p, top, bottom).None? <==> WidthAt(sqrt, Glazing(p), bottom) == 0.0
    ensures BandWidth(sqrt, p, top, bottom).Some? ==>
      BandWidth(sqrt, p, top, bottom).value == WidthAt(sqrt, Glazing(p), top)
  {
    WidthMonotone(sqrt, Glazing(p), top, bottom);
  }

  /** The outer outline of horizontal bar `i` AS WRITTEN: the path goes along the bottom edge
      and then to `rightX - EF` and `leftX + EF` on the top edge, which are the LEFT and the
      RIGHT top corners, so it crosses itself. */
  function OuterTraverseAsWritten(sqrt: real -> real, p: Props, i: nat): (o: Option<Polygon>)
    requires IsSqrt(sqrt) && p.innerMargin >= 0.0 && i < p.traverseCountY
    ensures o.Some? ==> |o.value| == 5 && o.value[0] == o.value[4]
  {
    var centerX := p.innerMargin + InnerWidth(p) / 2.0;
    var half := (p.traverseWidth + Border * 2.0) / 2.0;
    var top, bottom := TraverseY(p, i) - half, TraverseY(p, i) + half;
    match BandWidth(sqrt, p, top, bottom)
    case None => None
    case Some(ef) =>
      var leftX, rightX := centerX - ef / 2.0, centerX + ef / 2.0;
      Some([Point(leftX, bottom), Point(rightX, bottom), Point(rightX - ef, top), Point(leftX + ef, top),
            Point(leftX, bottom)])
  }

  /** The band horizontal bar `i`'s outline is meant to trace: centred on the glazing's axis and
      on the bar's line, as wide as the band allows and a border thicker than the bar on each
      side. */
  function OuterBand(sqrt: real -> real, p: Props, i: nat): (r: Option<Rect>)
    requires IsSqrt(sqrt) && p.innerMargin >= 0.0 && i < p.traverseCountY
    ensures r.Some? ==> Center(r.value) == Point(Glazing(p).centerX, TraverseY(p, i))
    ensures r.Some? ==> r.value.height == p.traverseWidth + 2.0 * Border
    ensures var half := (p.traverseWidth + Border * 2.0) / 2.0;
      var band := BandWidth(sqrt, p, TraverseY(p, i) - half, TraverseY(p, i) + half);
      (r.Some? <==> band.Some?) && (r.Some? ==> r.value.width == band.value)
  {
    var centerX := p.innerMargin + InnerWidth(p) / 2.0;
    var half := (p.traverseWidth + Border * 2.0) / 2.0;
    var top, bottom := TraverseY(p, i) - half, TraverseY(p, i) + half;
    match BandWidth(sqrt, p, top, bottom)
    case None => None
    case Some(ef) => Some(Rect(centerX - ef / 2.0, top, ef, bottom - top))
  }

  /** The outline of a band centred on `centerX`, traced from its corners. */
  lemma BandOutline(centerX: real, ef: real, top: real, bottom: real)
    ensures RectOutline(Rect(centerX - ef / 2.0, top, ef, bottom - top)) ==
      [Point(centerX - ef / 2.0, bottom), Point(centerX + ef / 2.0, bottom), Point(centerX + ef / 2.0, top),
       Point(centerX - ef / 2.0, top), Point(centerX - ef / 2.0, bottom)]
  {
    var r := Rect(centerX - ef / 2.0, top, ef, bottom - top);
    assert Right(r) == centerX + ef / 2.0 && Bottom(r) == bottom;
  }

  /** The outer outline of horizontal bar `i` as evidently intended: along the bottom edge, up
      the right side, back along the top edge and down the left side. */
  function OuterTraverse(sqrt: real -> real, p: Props, i: nat): (o: Option<Polygon>)
    requires IsSqrt(sqrt) && p.innerMargin >= 0.0 && i < p.traverseCountY
    ensures o.Some? <==> OuterBand(sqrt, p, i).Some?
    ensures o.Some? ==> o.value == RectOutline(OuterBand(sqrt, p, i).value)
  {
    var centerX := p.innerMargin + InnerWidth(p) / 2.0;
    var half := (p.traverseWidth + Border * 2.0) / 2.0;
    var top, bottom := TraverseY(p, i) - half, TraverseY(p, i) + half;
    match BandWidth(sqrt, p, top, bottom)
    case None => None
    case Some(ef) =>
      var leftX, rightX := centerX - ef / 2.0, centerX + ef / 2.0;
      assert OuterBand(sqrt, p, i) == Some(Rect(centerX - ef / 2.0, top, ef, bottom - top));
      BandOutline(centerX, ef, top, bottom);
      Some([Point(leftX, bottom), Point(rightX, bottom), Point(rightX, top), Point(leftX, top),
            Point(leftX, bottom)])
  }

  /** The white inside of horizontal bar `i`: the bar's own height, and 4 wider than its own
      band under the arch. */
  function InnerTraverse(sqrt: real -> real, p: Props, i: nat): (r: Option<Rect>)
    requires IsSqrt(sqrt) && p.innerMargin >= 0.0 && i < p.traverseCountY
    ensures r.Some? ==> Center(r.value) == Point(Glazing(p).centerX, TraverseY(p, i))
    ensures r.Some? ==> r.value.height == p.traverseWidth
    ensures var band := BandWidth(sqrt, p, TraverseY(p, i) - p.traverseWidth / 2.0, TraverseY(p, i) + p.traverseWidth / 2.0);
      (r.Some? <==> band.Some?) && (r.Some? ==> r.value.width == band.value + 4.0)
  {
    var centerX := p.innerMargin + InnerWidth(p) / 2.0;
    var half := p.traverseWidth / 2.0;
    var top, bottom := TraverseY(p, i) - half, TraverseY(p, i) + half;
    match BandWidth(sqrt, p, top, bottom)
    case None => None
    case Some(w) =>
      var ef := w + 4.0;
      Some(Rect(centerX - ef / 2.0, top, ef, bottom - top))
  }

  /** The outline as written has its two top vertices swapped with respect to the intended
      one; whenever the bar is drawn with some width, its second and fourth edges are two
      different segments through the same midpoint, the centre of the bar, so the outline is a
      bow-tie rather than a band. */
  lemma OuterTraverseCrossesItself(sqrt: real -> real, p: Props, i: nat)
    requires IsSqrt(sqrt) && p.innerMargin >= 0.0 && i < p.traverseCountY
    requires OuterTraverseAsWritten(sqrt, p, i).Some?
    ensures var w, c := OuterTraverseAsWritten(sqrt, p, i).value, OuterTraverse(sqrt, p, i).value;
      w[0] == c[0] && w[1] == c[1] && w[2] == c[3] && w[3] == c[2] && w[4] == c[4]
    ensures var w, b := OuterTraverseAsWritten(sqrt, p, i).value, OuterBand(sqrt, p, i).value;
      b.width > 0.0 && b.height > 0.0 ==>
        Midpoint(w[1], w[2]) == Midpoint(w[3], w[4]) == Center(b) && w[1] != w[4]
  {
  }

  /** The intended outline fits the arch: when the bar's top edge is inside the arch, its top
      corners lie on the arch; when it is below the springing line, the band spans the whole
      glazing. */
  lemma OuterTraverseFitsArch(sqrt: real -> real, p: Props, i: nat)
    requires IsSqrt(sqrt) && p.innerMargin >= 0.0 && InnerWidth(p) > 0.0 && p.traverseWidth >= 0.0
    requires i < p.traverseCountY && OuterTraverse(sqrt, p, i).Some?
    ensures var o, g := OuterTraverse(sqrt, p, i).value, Glazing(p);
      (Apex(g) < o[2].y < g.springY ==>
         YAt(sqrt, g, o[2].x, 0.0) == o[2].y && YAt(sqrt, g, o[3].x, 0.0) == o[3].y) &&
      (o[2].y >= g.springY ==> o[3].x == p.innerMargin && o[2].x == p.innerMargin + InnerWidth(p))
  {
    var half := (p.traverseWidth + Border * 2.0) / 2.0;
    var top, bottom := TraverseY(p, i) - half, TraverseY(p, i) + half;
    BandWidthAtTop(sqrt, p, top, bottom);
    var g := Glazing(p);
    var ef := WidthAt(sqrt, g, top);
    assert BandWidth(sqrt, p, top, bottom) == Some(ef);
    var o := OuterTraverse(sqrt, p, i).value;
    assert o[2] == Point(g.centerX + ef / 2.0, top) && o[3] == Point(g.centerX - ef / 2.0, top);
    if Apex(g) < top < g.springY {
      YAtWidthAt(sqrt, g, top);
    }
  }

  /** With a non-empty glazing, horizontal bar `i` is drawn exactly when its bottom edge is
      below the top of the glazing. */
  lemma OuterTraverseDrawnIff(sqrt: real -> real, p: Props, i: nat)
    requires IsSqrt(sqrt) && p.innerMargin > 0.0 && InnerWidth(p) > 0.0 && p.traverseWidth >= 0.0
    requires i < p.traverseCountY
    ensures OuterTraverse(sqrt, p, i).Some? <==> TraverseY(p, i) + (p.traverseWidth + 2.0 * Border) / 2.0 > p.innerMargin
  {
    var half := (p.traverseWidth + Border * 2.0) / 2.0;
    var top, bottom := TraverseY(p, i) - half, TraverseY(p, i) + half;
    BandWidthAtTop(sqrt, p, top, bottom);
    WidthZeroIff(sqrt, Glazing(p), bottom);
  }

  /** The white inside is only drawn over a drawn outline, stays 2 inside it at the top and
      the bottom, and overhangs it by 2 on either side, hiding its side strokes. */
  lemma InnerTraverseCoversOutline(sqrt: real -> real, p: Props, i: nat)
    requires IsSqrt(sqrt) && p.innerMargin >= 0.0 && InnerWidth(p) >= 0.0 && p.traverseWidth >= 0.0
    requires i < p.traverseCountY
    ensures var inner, outer := InnerTraverse(sqrt, p, i), OuterBand(sqrt, p, i);
      inner.Some? ==>
        outer.Some? &&
        inner.value.y == outer.value.y + Border && Bottom(inner.value) == Bottom(outer.value) - Border &&
        inner.value.x <= outer.value.x - Border && Right(outer.value) + Border <= Right(inner.value)
  {
    var y, cx := TraverseY(p, i), p.innerMargin + InnerWidth(p) / 2.0;
    var oTop, oBottom := y - (p.traverseWidth + Border * 2.0) / 2.0, y + (p.traverseWidth + Border * 2.0) / 2.0;
    var iTop, iBottom := y - p.traverseWidth / 2.0, y + p.traverseWidth / 2.0;
    var wo, wi := BandWidth(sqrt, p, oTop, oBottom), BandWidth(sqrt, p, iTop, iBottom);
    if InnerTraverse(sqrt, p, i).Some? {
      BandWidthAtTop(sqrt, p, oTop, oBottom);
      BandWidthAtTop(sqrt, p, iTop, iBottom);
      WidthMonotone(sqrt, Glazing(p), oTop, iTop);
      WidthMonotone(sqrt, Glazing(p), iBottom, oBottom);
      assert wo.Some? && wo.value <= wi.value;
      assert OuterBand(sqrt, p, i) == Some(Rect(cx - wo.value / 2.0, oTop, wo.value, oBottom - oTop));
    }
  }

  // ---------------------------------------------------------------- vertical bars

  /** An outline `half` either side of the line `x`, from the arch down to the bottom of the
      effective glazing. */
  function BarOutline(sqrt: real -> real, p: Props, x: real, half: real): (o: Polygon)
    requires IsSqrt(sqrt)
    ensures |o| == 5 && o[0] == o[4]
    ensures o[0].x == o[3].x == x - half && o[1].x == o[2].x == x + half
    ensures o[2].y == o[3].y == p.innerMargin + EffectiveInnerHeight(p)
    ensures o[0].y == YAt(sqrt, Glazing(p), x - half, 0.0) && o[1].y == YAt(sqrt, Glazing(p), x + half, 0.0)
    ensures InnerArcHeight(p) >= 0.0 ==>
      p.innerMargin <= o[0].y <= Glazing(p).springY && p.innerMargin <= o[1].y <= Glazing(p).springY
  {
    var leftX, rightX := x - half, x + half;
    var bottom := p.innerMargin + EffectiveInnerHeight(p);
    [ Point(leftX, YAt(sqrt, Glazing(p), leftX, 0.0)), Point(rightX, YAt(sqrt, Glazing(p), rightX, 0.0)),
      Point(rightX, bottom), Point(leftX, bottom), Point(leftX, YAt(sqrt, Glazing(p), leftX, 0.0)) ]
  }

  /** Where a bar's sides are within the glazing's span, its top corners lie on the half-ellipse
      the glazing is drawn with. */
  lemma BarTopOnDrawnArch(sqrt: real -> real, p: Props, x: real, half: real)
    requires IsSqrt(sqrt)
    requires Abs(x - half - Glazing(p).centerX) < InnerWidth(p) / 2.0
    requires Abs(x + half - Glazing(p).centerX) < InnerWidth(p) / 2.0
    ensures var o, e := BarOutline(sqrt, p, x, half), GlazingOutline(p)[2];
      OnEllipseAt(e.center.x, e.center.y, e.radiusX, e.radiusY, o[0].x, o[0].y) &&
      OnEllipseAt(e.center.x, e.center.y, e.radiusX, e.radiusY, o[1].x, o[1].y)
  {
    ArcYOnDrawnGlazing(sqrt, p, x - half);
    ArcYOnDrawnGlazing(sqrt, p, x + half);
  }

  datatype VerticalBar = VerticalBar(outer: Polygon, inner: Polygon)

  /** Vertical bar `i`: a bordered outline and its white inside, both centred on the bar's line. */
  function VerticalTraverse(sqrt: real -> real, p: Props, i: nat): (b: VerticalBar)
    requires IsSqrt(sqrt) && i < p.traverseCountX
    ensures b.outer == BarOutline(sqrt, p, TraverseX(p, i), (p.traverseWidth + Border * 2.0) / 2.0)
    ensures b.inner == BarOutline(sqrt, p, TraverseX(p, i), p.traverseWidth / 2.0)
    ensures |b.outer| == |b.inner| == 5
    ensures b.outer[1].x - b.outer[0].x == b.inner[1].x - b.inner[0].x + 2.0 * Border
    ensures b.outer[0].x + b.outer[1].x == b.inner[0].x + b.inner[1].x == 2.0 * TraverseX(p, i)
  {
    VerticalBar(BarOutline(sqrt, p, TraverseX(p, i), (p.traverseWidth + Border * 2.0) / 2.0),
                BarOutline(sqrt, p, TraverseX(p, i), p.traverseWidth / 2.0))
  }

  /** The five-point outline `o` reflected about the vertical line at `c`, walked the other way
      round so that it still starts at its top left corner. */
  function Mirrored(o: Polygon, c: real): (m: Polygon)
    requires |o| == 5
    ensures |m| == 5
  {
    [Reflect(o[1], c), Reflect(o[0], c), Reflect(o[3], c), Reflect(o[2], c), Reflect(o[1], c)]
  }

  /** An outline about `y`, the mirror line of `x`, is the mirror image of the outline about
      `x`, walked the other way round. */
  lemma BarOutlineMirror(sqrt: real -> real, p: Props, x: real, y: real, half: real)
    requires IsSqrt(sqrt) && y == 2.0 * Glazing(p).centerX - x
    ensures BarOutline(sqrt, p, y, half) == Mirrored(BarOutline(sqrt, p, x, half), Glazing(p).centerX)
  {
    var c := Glazing(p).centerX;
    Symmetric(sqrt, Glazing(p), x + half - c, 0.0);
    Symmetric(sqrt, Glazing(p), x - half - c, 0.0);
  }

  /** Vertical bar `count - 1 - i` stands on the mirror line of bar `i` about the glazing's axis. */
  lemma TraverseXMirror(p: Props, i: nat)
    requires i < p.traverseCountX
    ensures TraverseX(p, p.traverseCountX - 1 - i) == 2.0 * Glazing(p).centerX - TraverseX(p, i)
  {
    BarMirror(p.innerMargin, InnerWidth(p), p.traverseCountX, i);
  }

  /** The outline of half-width `half` about bar `count - 1 - i` is the mirror image of the
      one about bar `i`. */
  lemma TraverseOutlineMirror(sqrt: real -> real, p: Props, i: nat, half: real)
    requires IsSqrt(sqrt) && i < p.traverseCountX
    ensures BarOutline(sqrt, p, TraverseX(p, p.traverseCountX - 1 - i), half)
         == Mirrored(BarOutline(sqrt, p, TraverseX(p, i), half), Glazing(p).centerX)
  {
    TraverseXMirror(p, i);
    BarOutlineMirror(sqrt, p, TraverseX(p, i), TraverseX(p, p.traverseCountX - 1 - i), half);
  }

  /** The outer outline of bar `count - 1 - i` mirrors that of bar `i`. */
  lemma OuterOutlinesMirrored(sqrt: real -> real, p: Props, i: nat)
    requires IsSqrt(sqrt) && i < p.traverseCountX
    ensures VerticalTraverse(sqrt, p, p.traverseCountX - 1 - i).outer
         == Mirrored(VerticalTraverse(sqrt, p, i).outer, Glazing(p).centerX)
  {
    var half := (p.traverseWidth + Border * 2.0) / 2.0;
    assert VerticalTraverse(sqrt, p, i).outer == BarOutline(sqrt, p, TraverseX(p, i), half);
    assert VerticalTraverse(sqrt, p, p.traverseCountX - 1 - i).outer
        == BarOutline(sqrt, p, TraverseX(p, p.traverseCountX - 1 - i), half);
    TraverseOutlineMirror(sqrt, p, i, half);
  }

  /** The inner outline of bar `count - 1 - i` mirrors that of bar `i`. */
  lemma InnerOutlinesMirrored(sqrt: real -> real, p: Props, i: nat)
    requires IsSqrt(sqrt) && i < p.traverseCountX
    ensures VerticalTraverse(sqrt, p, p.traverseCountX - 1 - i).inner
         == Mirrored(VerticalTraverse(sqrt, p, i).inner, Glazing(p).centerX)
  {
    var half := p.traverseWidth / 2.0;
    assert VerticalTraverse(sqrt, p, i).inner == BarOutline(sqrt, p, TraverseX(p, i), half);
    assert VerticalTraverse(sqrt, p, p.traverseCountX - 1 - i).inner
        == BarOutline(sqrt, p, TraverseX(p, p.traverseCountX - 1 - i), half);
    TraverseOutlineMirror(sqrt, p, i, half);
  }

  /** The vertical bars are laid out symmetrically: bar `count - 1 - i` is the mirror image of
      bar `i` about the glazing's axis, arch-following top included. */
  lemma VerticalTraversesMirrored(sqrt: real -> real, p: Props, i: nat)
    requires IsSqrt(sqrt) && i < p.traverseCountX
    ensures var a, b, c := VerticalTraverse(sqrt, p, i), VerticalTraverse(sqrt, p, p.traverseCountX - 1 - i), Glazing(p).centerX;
      b.outer == Mirrored(a.outer, c) && b.inner == Mirrored(a.inner, c)
  {
    OuterOutlinesMirrored(sqrt, p, i);
    InnerOutlinesMirrored(sqrt, p, i);
  }

  /** Each horizontal bar's outline and inside, one slot per bar when bars are enabled. */
  function HorizontalTraverseSlots(sqrt: real -> real, p: Props): (ts: seq<(Option<Polygon>, Option<Rect>)>)
    requires IsSqrt(sqrt) && p.innerMargin >= 0.0
    ensures |ts| == if p.hasTraverse then p.traverseCountY else 0
    ensures forall i :: 0 <= i < |ts| ==> ts[i] == (OuterTraverse(sqrt, p, i), InnerTraverse(sqrt, p, i))
  {
    if p.hasTraverse then
      seq(p.traverseCountY, i requires 0 <= i < p.traverseCountY => (OuterTraverse(sqrt, p, i), InnerTraverse(sqrt, p, i)))
    else []
  }

  /** The vertical bars, one per bar line when bars are enabled. */
  function VerticalTraverses(sqrt: real -> real, p: Props): (bs: seq<VerticalBar>)
    requires IsSqrt(sqrt)
    ensures |bs| == if p.hasTraverse then p.traverseCountX else 0
    ensures forall i :: 0 <= i < |bs| ==> bs[i] == VerticalTraverse(sqrt, p, i)
  {
    if p.hasTraverse then seq(p.traverseCountX, i requires 0 <= i < p.traverseCountX => VerticalTraverse(sqrt, p, i))
    else []
  }

  // ---------------------------------------------------------------- crossings

  /** The patch over the crossing of vertical bar `xi` and horizontal bar `yi`, drawn when the
      arch has width at the horizontal bar's line and the patch's anchor (2 left of the
      vertical bar) lies within it. The patch is centred on the vertical bar and a quarter
      below the horizontal bar's line. */
  function CrossingPatch(sqrt: real -> real, p: Props, xi: nat, yi: nat): (r: Option<Rect>)
    requires IsSqrt(sqrt) && p.innerMargin >= 0.0 && xi < p.traverseCountX && yi < p.traverseCountY
    ensures var w := WidthAt(sqrt, Glazing(p), TraverseY(p, yi));
      r.Some? <==> w > 0.0 && Abs(TraverseX(p, xi) - 2.0 - Glazing(p).centerX) <= w / 2.0
    ensures r.Some? ==> Center(r.value) == Point(TraverseX(p, xi), TraverseY(p, yi) + 0.25)
    ensures r.Some? ==> r.value.width == p.traverseWidth + 4.0 && r.value.height == p.traverseWidth + 0.5
  {
    var centerX := TraverseX(p, xi) - 2.0;
    var centerY := TraverseY(p, yi);
    var available := WidthAt(sqrt, Glazing(p), centerY);
    var leftBound := p.innerMargin + InnerWidth(p) / 2.0 - available / 2.0;
    var rightBound := p.innerMargin + InnerWidth(p) / 2.0 + available / 2.0;
    if centerX >= leftBound && centerX <= rightBound && available > 0.0 then
      Some(Rect(centerX - p.traverseWidth / 2.0, centerY - p.traverseWidth / 2.0,
                p.traverseWidth + 4.0, p.traverseWidth + 0.5))
    else None
  }

  function CrossingRow(sqrt: real -> real, p: Props, xi: nat): (row: seq<Option<Rect>>)
    requires IsSqrt(sqrt) && p.innerMargin >= 0.0 && xi < p.traverseCountX
    ensures |row| == p.traverseCountY
    ensures forall yi :: 0 <= yi < p.traverseCountY ==> row[yi] == CrossingPatch(sqrt, p, xi, yi)
  {
    seq(p.traverseCountY, yi requires 0 <= yi < p.traverseCountY => CrossingPatch(sqrt, p, xi, yi))
  }

  function CrossingRows(sqrt: real -> real, p: Props): (rows: seq<seq<Option<Rect>>>)
    requires IsSqrt(sqrt) && p.innerMargin >= 0.0
    ensures |rows| == p.traverseCountX
    ensures forall xi :: 0 <= xi < |rows| ==> rows[xi] == CrossingRow(sqrt, p, xi)
  {
    seq(p.traverseCountX, xi requires 0 <= xi < p.traverseCountX => CrossingRow(sqrt, p, xi))
  }

  /** The drawn patches, vertical bar by vertical bar (`.map(...).flat().filter(Boolean)`). */
  function Crossings(sqrt: real -> real, p: Props): (cs: seq<Rect>)
    requires IsSqrt(sqrt) && p.innerMargin >= 0.0
    ensures cs != [] ==> p.hasTraverse && p.traverseCountX > 0 && p.traverseCountY > 0
  {
    if p.hasTraverse && p.traverseCountX > 0 && p.traverseCountY > 0 then Somes(Flatten(CrossingRows(sqrt, p)))
    else []
  }

  /** At most one patch per grid intersection is drawn. */
  lemma CrossingsBound(sqrt: real -> real, p: Props)
    requires IsSqrt(sqrt) && p.innerMargin >= 0.0
    ensures |Crossings(sqrt, p)| <= p.traverseCountX * p.traverseCountY
  {
    FlattenUniformLength(CrossingRows(sqrt, p), p.traverseCountY);
  }

  /** A drawn patch is the patch of some grid intersection. */
  lemma CrossingsOnlyPatches(sqrt: real -> real, p: Props, r: Rect)
    requires IsSqrt(sqrt) && p.innerMargin >= 0.0 && r in Crossings(sqrt, p)
    ensures p.hasTraverse
    ensures exists xi: nat, yi: nat :: xi < p.traverseCountX && yi < p.traverseCountY &&
                                      CrossingPatch(sqrt, p, xi, yi) == Some(r)
  {
    var rows := CrossingRows(sqrt, p);
    SomesMember(Flatten(rows), r);
    FlattenMember(rows, Some(r));
    var xi :| 0 <= xi < |rows| && Some(r) in rows[xi];
    var yi :| 0 <= yi < |rows[xi]| && rows[xi][yi] == Some(r);
    assert CrossingPatch(sqrt, p, xi, yi) == Some(r);
  }

  /** Every patch the arch leaves room for is drawn. */
  lemma CrossingsAllPatches(sqrt: real -> real, p: Props, xi: nat, yi: nat)
    requires IsSqrt(sqrt) && p.innerMargin >= 0.0 && p.hasTraverse
    requires xi < p.traverseCountX && yi < p.traverseCountY && CrossingPatch(sqrt, p, xi, yi).Some?
    ensures CrossingPatch(sqrt, p, xi, yi).value in Crossings(sqrt, p)
  {
    var rows := CrossingRows(sqrt, p);
    var r := CrossingPatch(sqrt, p, xi, yi).value;
    FlattenUniformIndex(rows, p.traverseCountY, xi, yi);
    var flat := Flatten(rows);
    assert flat[xi * p.traverseCountY + yi] == rows[xi][yi] == Some(r);
    SomesMember(flat, r);
    assert Crossings(sqrt, p) == Somes(flat);
  }

  /** Below the springing line the arch spans the whole glazing, so a patch is drawn whenever
      its anchor, 2 left of the vertical bar, is still within the glazing. */
  lemma CrossingBelowArch(sqrt: real -> real, p: Props, xi: nat, yi: nat)
    requires IsSqrt(sqrt) && p.innerMargin >= 0.0 && InnerWidth(p) > 0.0
    requires xi < p.traverseCountX && yi < p.traverseCountY
    requires TraverseY(p, yi) >= Glazing(p).springY && TraverseX(p, xi) >= p.innerMargin + 2.0
    ensures CrossingPatch(sqrt, p, xi, yi).Some?
  {
  }

  /** When every horizontal bar lies at or below the springing line and the vertical bars are
      at least 2 apart, every intersection gets its patch. */
  lemma CrossingsBelowArch(sqrt: real -> real, p: Props)
    requires IsSqrt(sqrt) && p.innerMargin >= 0.0 && InnerWidth(p) > 0.0 && EffectiveInnerHeight(p) >= 0.0
    requires p.hasTraverse && p.traverseCountX > 0 && p.traverseCountY > 0
    requires Gap(InnerWidth(p), p.traverseCountX) >= 2.0
    requires Gap(EffectiveInnerHeight(p), p.traverseCountY) >= InnerArcHeight(p)
    ensures |Crossings(sqrt, p)| == p.traverseCountX * p.traverseCountY
  {
    var rows: seq<seq<Option<Rect>>> := CrossingRows(sqrt, p);
    forall xi: nat, yi: nat | xi < p.traverseCountX && yi < p.traverseCountY
      ensures rows[xi][yi].Some?
    {
      assert TraverseY(p, yi) >= Glazing(p).springY;
      assert TraverseX(p, xi) >= p.innerMargin + 2.0;
      CrossingBelowArch(sqrt, p, xi, yi);
    }
    FlattenAllPresent(rows, p.traverseCountY);
  }
}
