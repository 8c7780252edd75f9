/** The arched window: a frame whose top is a half-ellipse, the glazing inset by `innerMargin`
    with its own arch, an optional base panel, muntins ("petits bois") clipped by the arch, the
    two bottom mitre lines, opening indicators and dimension annotations. The glazing bars and
    their crossings are in module ArchedBars. Coordinates are the component's own (before the
    Group's translation); y grows downwards. */
module ArchedWindow {
  import opened Geometry
  import opened Roots
  import opened Spacing
  import opened HalfEllipse
  import Cotes

  /** The component's props as the form passes them. Opening directions are the strings the
      component compares with ("left" / "right", "up" / "down"), the arc type "plein-cintre"
      or anything else for the default shallow arc. */
  datatype Props = Props(
    windowWidth: real, windowHeight: real, innerMargin: real,
    horizontalOpeningDirection: string, verticalOpeningDirection: string,
    hasBase: bool, hasBaseWindow: bool, baseWindowMargin: real, baseHeight: real, baseMargin: real,
    hasSill: bool, sillCountX: nat, sillCountY: nat,
    hasTraverse: bool, traverseCountX: nat, traverseCountY: nat, traverseWidth: real,
    arcType: string, showWidthCote: bool, showHeightCote: bool)

  /** The props as a caller gives them: both dimensions are required, every other prop may be
      left out (`None`). An opening direction left out is `undefined`, which matches no
      direction; it is modelled as the empty string. */
  datatype GivenProps = GivenProps(
    windowWidth: real, windowHeight: real, innerMargin: Option<real>,
    horizontalOpeningDirection: Option<string>, verticalOpeningDirection: Option<string>,
    hasBase: Option<bool>, hasBaseWindow: Option<bool>, baseWindowMargin: Option<real>,
    baseHeight: Option<real>, baseMargin: Option<real>,
    hasSill: Option<bool>, sillCountX: Option<nat>, sillCountY: Option<nat>,
    hasTraverse: Option<bool>, traverseCountX: Option<nat>, traverseCountY: Option<nat>,
    traverseWidth: Option<real>, arcType: Option<string>,
    showWidthCote: Option<bool>, showHeightCote: Option<bool>)

  /** The component's destructuring defaults: a 10 margin, a 20 high base with 10 margins,
      2 × 2 muntins, one 6 wide bar each way, a shallow arc and both annotations, with every
      optional part switched off. */
  function ResolveProps(g: GivenProps): (p: Props)
    ensures p.windowWidth == g.windowWidth && p.windowHeight == g.windowHeight
    ensures p.innerMargin == OrDefault(g.innerMargin, 10.0)
    ensures p.horizontalOpeningDirection == OrDefault(g.horizontalOpeningDirection, "")
    ensures p.verticalOpeningDirection == OrDefault(g.verticalOpeningDirection, "")
    ensures p.hasBase == OrDefault(g.hasBase, false) && p.hasBaseWindow == OrDefault(g.hasBaseWindow, false)
    ensures p.baseWindowMargin == OrDefault(g.baseWindowMargin, 10.0)
    ensures p.baseHeight == OrDefault(g.baseHeight, 20.0) && p.baseMargin == OrDefault(g.baseMargin, 10.0)
    ensures p.hasSill == OrDefault(g.hasSill, false)
    ensures p.sillCountX == OrDefault(g.sillCountX, 2) && p.sillCountY == OrDefault(g.sillCountY, 2)
    ensures p.hasTraverse == OrDefault(g.hasTraverse, false)
    ensures p.traverseCountX == OrDefault(g.traverseCountX, 1) && p.traverseCountY == OrDefault(g.traverseCountY, 1)
    ensures p.traverseWidth == OrDefault(g.traverseWidth, 6.0)
    ensures p.arcType == OrDefault(g.arcType, "leger")
    ensures p.showWidthCote == OrDefault(g.showWidthCote, true) && p.showHeightCote == OrDefault(g.showHeightCote, true)
  {
    Props(g.windowWidth, g.windowHeight, OrDefault(g.innerMargin, 10.0),
          OrDefault(g.horizontalOpeningDirection, ""), OrDefault(g.verticalOpeningDirection, ""),
          OrDefault(g.hasBase, false), OrDefault(g.hasBaseWindow, false), OrDefault(g.baseWindowMargin, 10.0),
          OrDefault(g.baseHeight, 20.0), OrDefault(g.baseMargin, 10.0),
          OrDefault(g.hasSill, false), OrDefault(g.sillCountX, 2), OrDefault(g.sillCountY, 2),
          OrDefault(g.hasTraverse, false), OrDefault(g.traverseCountX, 1), OrDefault(g.traverseCountY, 1),
          OrDefault(g.traverseWidth, 6.0), OrDefault(g.arcType, "leger"),
          OrDefault(g.showWidthCote, true), OrDefault(g.showHeightCote, true))
  }

  /** Every prop given: the props as the renderer receives them. */
  function AllGiven(p: Props): GivenProps
  {
    GivenProps(p.windowWidth, p.windowHeight, Some(p.innerMargin),
               Some(p.horizontalOpeningDirection), Some(p.verticalOpeningDirection),
               Some(p.hasBase), Some(p.hasBaseWindow), Some(p.baseWindowMargin),
               Some(p.baseHeight), Some(p.baseMargin),
               Some(p.hasSill), Some(p.sillCountX), Some(p.sillCountY),
               Some(p.hasTraverse), Some(p.traverseCountX), Some(p.traverseCountY),
               Some(p.traverseWidth), Some(p.arcType), Some(p.showWidthCote), Some(p.showHeightCote))
  }

  /** Only the dimensions given. */
  function OnlyDimensions(width: real, height: real): GivenProps
  {
    GivenProps(width, height, None, None, None, None, None, None, None, None,
               None, None, None, None, None, None, None, None, None, None)
  }

  /** Props given in full are taken as they are. */
  lemma ResolveAllGiven(p: Props)
    ensures ResolveProps(AllGiven(p)) == p
  {
  }

  /** With only its dimensions the window is a plain shallow-arched frame: no opening, base,
      muntins or bars, a glazing arch at least the margin high, and both annotations. */
  lemma DefaultWindow(width: real, height: real)
    ensures var p := ResolveProps(OnlyDimensions(width, height));
      !HorizontalOpens(p) && !VerticalOpens(p) && !p.hasBase && !p.hasBaseWindow && !p.hasSill &&
      !p.hasTraverse && p.arcType != "plein-cintre" && InnerArcHeight(p) >= p.innerMargin == 10.0 &&
      |WindowCotes(p)| == 1
  {
  }

  /** A step of a canvas path. `UpperHalfEllipse` is `ellipse(center, radiusX, radiusY, 0, PI, 0)`:
      from the left end of the horizontal axis over the top to its right end. */
  datatype PathOp =
    | MoveTo(to: Point)
    | LineTo(to: Point)
    | UpperHalfEllipse(center: Point, radiusX: real, radiusY: real)

  // ---------------------------------------------------------------- dimensions

  /** The frame's arch height: a semicircle ("plein-cintre") rises half the width; the shallow
      arc rises 15% of the height, but never more than a quarter of the width. */
  function ArcHeight(p: Props): (h: real)
    ensures p.arcType == "plein-cintre" ==> h == RadiusX(p)
    ensures p.arcType != "plein-cintre" ==>
      h <= p.windowHeight * 0.15 && h <= p.windowWidth * 0.25 &&
      (h == p.windowHeight * 0.15 || h == p.windowWidth * 0.25)
  {
    if p.arcType == "plein-cintre" then p.windowWidth / 2.0
    else Min(p.windowHeight * 0.15, p.windowWidth * 0.25)
  }

  function RadiusX(p: Props): real { p.windowWidth / 2.0 }

  function InnerWidth(p: Props): real { p.windowWidth - p.innerMargin * 2.0 }

  function InnerHeight(p: Props): real { p.windowHeight - p.innerMargin * 2.0 }

  /** The glazing's arch height: the frame's arch less the margin, but at least the margin. */
  function InnerArcHeight(p: Props): (h: real)
    ensures h >= ArcHeight(p) - p.innerMargin && h >= p.innerMargin
    ensures h == ArcHeight(p) - p.innerMargin || h == p.innerMargin
  {
    Max(ArcHeight(p) - p.innerMargin, p.innerMargin)
  }

  /** The glazing height above the base panel, if any: with a base, glazing and base share
      the inner height between them. */
  function EffectiveInnerHeight(p: Props): (h: real)
    ensures p.hasBase ==> h + p.baseHeight == InnerHeight(p)
    ensures !p.hasBase ==> h == InnerHeight(p)
    ensures 0.0 <= p.baseHeight <= InnerHeight(p) ==> 0.0 <= h <= InnerHeight(p)
  {
    if p.hasBase then InnerHeight(p) - p.baseHeight else InnerHeight(p)
  }

  function BaseInsetWidth(p: Props): real { InnerWidth(p) - p.baseMargin * 2.0 }

  function BaseInsetHeight(p: Props): real { p.baseHeight - p.baseMargin * 2.0 }

  /** The glazing's arch (`getArcYAtX` and `getArcWidthAtY` both work on it): centred on the
      glazing, springing `innerArcHeight` below the glazing's top and peaking exactly there. */
  function Glazing(p: Props): (a: Arch)
    ensures a.centerX - a.width / 2.0 == p.innerMargin
    ensures a.centerX + a.width / 2.0 == p.innerMargin + InnerWidth(p)
    ensures Apex(a) == p.innerMargin && a.height == InnerArcHeight(p)
  {
    Arch(p.innerMargin + InnerWidth(p) / 2.0, p.innerMargin + InnerArcHeight(p), InnerWidth(p), InnerArcHeight(p))
  }

  /** The shallow arc fits within the frame's height and is never steeper than a semicircle;
      the semicircle is exactly half the width high, which exceeds the window's height whenever
      the window is more than twice as wide as it is high. */
  lemma ArcHeightBounds(p: Props)
    requires p.windowWidth >= 0.0 && p.windowHeight >= 0.0
    ensures p.arcType != "plein-cintre" ==> 0.0 <= ArcHeight(p) <= p.windowHeight && ArcHeight(p) <= RadiusX(p)
    ensures p.arcType == "plein-cintre" ==> (ArcHeight(p) > p.windowHeight <==> p.windowWidth > 2.0 * p.windowHeight)
  {
  }

  /** With a non-negative margin the glazing's arch is at least the margin high, so the
      glazing's arch never degenerates below the margin even under a flat frame arch. */
  lemma InnerArcAtLeastMargin(p: Props)
    requires p.innerMargin >= 0.0
    ensures InnerArcHeight(p) >= p.innerMargin >= 0.0
    ensures ArcHeight(p) >= 2.0 * p.innerMargin ==> ArcHeight(p) - InnerArcHeight(p) == p.innerMargin
  {
  }

  // ---------------------------------------------------------------- outlines

  /** The arched outline both the frame and the glazing are drawn with: up the left side to the
      springing line, over the half-ellipse, down the right side and back along the bottom. */
  function ArchOutline(left: real, top: real, width: real, height: real, arcHeight: real): (ops: seq<PathOp>)
    ensures |ops| == 5 && ops[0].MoveTo? && ops[1].LineTo? && ops[2].UpperHalfEllipse?
    ensures ops[3].LineTo? && ops[4].LineTo?
    ensures ops[4].to == ops[0].to == Point(left, top + height)
    ensures ops[1].to == Point(ops[2].center.x - ops[2].radiusX, ops[2].center.y)
    ensures ops[2].center.x + ops[2].radiusX == ops[3].to.x == left + width
    ensures ops[3].to.y == top + height && ops[2].center.y - ops[2].radiusY == top
  {
    [ MoveTo(Point(left, top + height)),
      LineTo(Point(left, top + arcHeight)),
      UpperHalfEllipse(Point(left + width / 2.0, top + arcHeight), width / 2.0, arcHeight),
      LineTo(Point(left + width, top + height)),
      LineTo(Point(left, top + height)) ]
  }

  /** The frame: the window's bounding box with its top replaced by a half-ellipse that spans
      the whole width and rises `ArcHeight` from its springing line to the top edge. */
  function OuterFrame(p: Props): (ops: seq<PathOp>)
    ensures |ops| == 5 && ops[0] == MoveTo(Point(0.0, p.windowHeight)) && ops[4] == LineTo(ops[0].to)
    ensures ops[2] == UpperHalfEllipse(Point(RadiusX(p), ArcHeight(p)), RadiusX(p), ArcHeight(p))
    ensures ops[3] == LineTo(Point(p.windowWidth, p.windowHeight))
  {
    ArchOutline(0.0, 0.0, p.windowWidth, p.windowHeight, ArcHeight(p))
  }

  /** The glazing: the inner area down to the base, if any, with its own arch `innerMargin`
      inside the frame. */
  function GlazingOutline(p: Props): (ops: seq<PathOp>)
    ensures |ops| == 5 && ops[0] == MoveTo(Point(p.innerMargin, p.innerMargin + EffectiveInnerHeight(p)))
    ensures ops[4] == LineTo(ops[0].to)
    ensures ops[2] == UpperHalfEllipse(Point(p.innerMargin + InnerWidth(p) / 2.0, p.innerMargin + InnerArcHeight(p)),
                                       InnerWidth(p) / 2.0, InnerArcHeight(p))
    ensures ops[3] == LineTo(Point(p.innerMargin + InnerWidth(p), p.innerMargin + EffectiveInnerHeight(p)))
  {
    ArchOutline(p.innerMargin, p.innerMargin, InnerWidth(p), EffectiveInnerHeight(p), InnerArcHeight(p))
  }

  /** The drawn glazing's half-ellipse is the arch `Glazing(p)`, and its bottom edge is the
      top of the base band when there is a base (the bottom of the inner area otherwise). */
  lemma GlazingOutlineIsGlazingArch(p: Props)
    ensures var e, g := GlazingOutline(p)[2], Glazing(p);
      e.center == Point(g.centerX, g.springY) && e.radiusX == g.width / 2.0 && e.radiusY == g.height
    ensures p.hasBase ==> GlazingOutline(p)[0].to.y == BaseBand(p).y
    ensures !p.hasBase ==> GlazingOutline(p)[0].to.y == p.innerMargin + InnerHeight(p)
  {
  }

  /** The frame's and the glazing's arches are concentric horizontally, and the glazing's arch
      starts `innerMargin` inside the frame's on either side. */
  lemma OutlinesConcentric(p: Props)
    ensures var o, i := OuterFrame(p)[2], GlazingOutline(p)[2];
      o.center.x == i.center.x && o.radiusX - i.radiusX == p.innerMargin &&
      o.center.y - o.radiusY == 0.0 && i.center.y - i.radiusY == p.innerMargin
  {
  }

  /** The arch height the glazing bars and muntins are clipped with (`getArcYAtX`) lies on the
      half-ellipse the glazing is drawn with. */
  lemma ArcYOnDrawnGlazing(sqrt: real -> real, p: Props, x: real)
    requires IsSqrt(sqrt) && Abs(x - Glazing(p).centerX) < InnerWidth(p) / 2.0
    ensures var e := GlazingOutline(p)[2];
      OnEllipseAt(e.center.x, e.center.y, e.radiusX, e.radiusY, x, YAt(sqrt, Glazing(p), x, 0.0))
  {
    var g := Glazing(p);
    GlazingOutlineIsGlazingArch(p);
    OnEllipse(sqrt, g, x);
  }

  // ---------------------------------------------------------------- base panel

  /** The base band: the glazing width, `baseHeight` high, resting on the bottom of the inner
      area, so that its top is where the effective glazing ends. */
  function BaseBand(p: Props): (r: Rect)
    ensures r.x == p.innerMargin && Right(r) == p.innerMargin + InnerWidth(p)
    ensures Bottom(r) == p.innerMargin + InnerHeight(p) && r.height == p.baseHeight
    ensures p.hasBase ==> r.y == p.innerMargin + EffectiveInnerHeight(p)
  {
    Rect(p.innerMargin, p.windowHeight - p.innerMargin - p.baseHeight, InnerWidth(p), p.baseHeight)
  }

  /** The recessed panel: the band shrunk by `baseMargin` on every side. */
  function BaseInset(p: Props): (r: Rect)
    ensures r == Inset(BaseBand(p), p.baseMargin)
  {
    Rect(p.innerMargin + p.baseMargin, p.windowHeight - p.innerMargin - p.baseHeight + p.baseMargin,
         BaseInsetWidth(p), BaseInsetHeight(p))
  }

  /** The glazed base's strip: placed like the recessed panel, `baseWindowMargin` high. */
  function GlazedBaseInset(p: Props): (r: Rect)
    ensures r.x == BaseInset(p).x && r.y == BaseInset(p).y && r.width == BaseInset(p).width
    ensures r.height == p.baseWindowMargin
  {
    Rect(p.innerMargin + p.baseMargin, p.windowHeight - p.innerMargin - p.baseHeight + p.baseMargin,
         BaseInsetWidth(p), p.baseWindowMargin)
  }

  /** Band and inset for a plain base, band and strip for a glazed one. */
  function BasePanels(p: Props): (rs: seq<Rect>)
    ensures |rs| == (if p.hasBase then 2 else 0) + (if p.hasBaseWindow then 2 else 0)
    ensures p.hasBase ==> rs[0] == BaseBand(p) && rs[1] == BaseInset(p)
    ensures p.hasBaseWindow ==> rs[|rs| - 2] == BaseBand(p) && rs[|rs| - 1] == GlazedBaseInset(p)
  {
    (if p.hasBase then [BaseBand(p), BaseInset(p)] else []) +
    (if p.hasBaseWindow then [BaseBand(p), GlazedBaseInset(p)] else [])
  }

  // ---------------------------------------------------------------- muntins

  /** Vertical muntin `i`, evenly spaced across the glazing; it runs from the arch down to the
      bottom of the effective glazing, and is not drawn where it would miss the arch. */
  function VerticalMuntin(sqrt: real -> real, p: Props, i: nat): (m: Option<Segment>)
    requires IsSqrt(sqrt) && i < p.sillCountX
    ensures var x := BarCenter(p.innerMargin, InnerWidth(p), p.sillCountX, i);
      m.Some? <==> Abs(x - Glazing(p).centerX) < InnerWidth(p) / 2.0
    ensures m.Some? ==>
      m.value.from.x == m.value.to.x == BarCenter(p.innerMargin, InnerWidth(p), p.sillCountX, i) &&
      m.value.from.y == YAt(sqrt, Glazing(p), m.value.from.x, 0.0) &&
      m.value.to.y == p.innerMargin + EffectiveInnerHeight(p)
    ensures m.Some? && InnerArcHeight(p) >= 0.0 ==> p.innerMargin <= m.value.from.y <= Glazing(p).springY
  {
    var x := BarCenter(p.innerMargin, InnerWidth(p), p.sillCountX, i);
    var dist := Abs(x - (p.innerMargin + InnerWidth(p) / 2.0));
    if dist >= InnerWidth(p) / 2.0 then None
    else Some(Segment(Point(x, YAt(sqrt, Glazing(p), x, 0.0)), Point(x, p.innerMargin + EffectiveInnerHeight(p))))
  }

  /** Horizontal muntin `i`, evenly spaced down the effective glazing. Below the springing line
      it crosses the whole glazing; in the arch it is the chord at its height, and it is not
      drawn at or above the arch's apex. */
  function HorizontalMuntin(sqrt: real -> real, p: Props, i: nat): (m: Option<Segment>)
    requires IsSqrt(sqrt) && p.innerMargin >= 0.0 && i < p.sillCountY
    ensures var y := BarCenter(p.innerMargin, EffectiveInnerHeight(p), p.sillCountY, i);
      m.Some? <==> (y >= Glazing(p).springY || y > p.innerMargin)
    ensures m.Some? ==>
      m.value.from.y == m.value.to.y == BarCenter(p.innerMargin, EffectiveInnerHeight(p), p.sillCountY, i)
    ensures m.Some? ==> m.value.to.x - Glazing(p).centerX == Glazing(p).centerX - m.value.from.x
    ensures m.Some? && m.value.from.y >= Glazing(p).springY ==>
      m.value.from.x == p.innerMargin && m.value.to.x == p.innerMargin + InnerWidth(p)
  {
    var y := BarCenter(p.innerMargin, EffectiveInnerHeight(p), p.sillCountY, i);
    var g := Glazing(p);
    if y < g.springY then
      if g.springY - y >= g.height then None
      else
        var half := WidthAt(sqrt, g, y) / 2.0;
        Some(Segment(Point(g.centerX - half, y), Point(g.centerX + half, y)))
    else Some(Segment(Point(p.innerMargin, y), Point(p.innerMargin + InnerWidth(p), y)))
  }

  function VerticalMuntinSlots(sqrt: real -> real, p: Props): (ms: seq<Option<Segment>>)
    requires IsSqrt(sqrt)
    ensures |ms| == if p.hasSill then p.sillCountX else 0
    ensures forall i :: 0 <= i < |ms| ==> ms[i] == VerticalMuntin(sqrt, p, i)
  {
    if p.hasSill then seq(p.sillCountX, i requires 0 <= i < p.sillCountX => VerticalMuntin(sqrt, p, i))
    else []
  }

  function HorizontalMuntinSlots(sqrt: real -> real, p: Props): (ms: seq<Option<Segment>>)
    requires IsSqrt(sqrt) && p.innerMargin >= 0.0
    ensures |ms| == if p.hasSill then p.sillCountY else 0
    ensures forall i :: 0 <= i < |ms| ==> ms[i] == HorizontalMuntin(sqrt, p, i)
  {
    if p.hasSill then seq(p.sillCountY, i requires 0 <= i < p.sillCountY => HorizontalMuntin(sqrt, p, i))
    else []
  }

  /** Vertical muntins are all drawn when the glazing has a width, and none otherwise. */
  lemma VerticalMuntinsCount(sqrt: real -> real, p: Props)
    requires IsSqrt(sqrt)
    ensures |Somes(VerticalMuntinSlots(sqrt, p))| == if p.hasSill && InnerWidth(p) > 0.0 then p.sillCountX else 0
  {
    var ms := VerticalMuntinSlots(sqrt, p);
    if InnerWidth(p) > 0.0 {
      forall i | 0 <= i < |ms| ensures ms[i].Some? {
        var x := BarCenter(p.innerMargin, InnerWidth(p), p.sillCountX, i);
        assert Abs(x - Glazing(p).centerX) < InnerWidth(p) / 2.0;
      }
      SomesAllPresent(ms);
    } else {
      forall i | 0 <= i < |ms| ensures ms[i].None? {
        var x := BarCenter(p.innerMargin, InnerWidth(p), p.sillCountX, i);
        assert Abs(x - Glazing(p).centerX) >= InnerWidth(p) / 2.0;
      }
      SomesAllAbsent(ms);
    }
  }

  /** Horizontal muntins are all drawn when the effective glazing has a height. */
  lemma HorizontalMuntinsCount(sqrt: real -> real, p: Props)
    requires IsSqrt(sqrt) && p.innerMargin >= 0.0 && p.hasSill && EffectiveInnerHeight(p) > 0.0
    ensures |Somes(HorizontalMuntinSlots(sqrt, p))| == p.sillCountY
  {
    var ms := HorizontalMuntinSlots(sqrt, p);
    forall i | 0 <= i < |ms| ensures ms[i].Some? {
      assert BarCenter(p.innerMargin, EffectiveInnerHeight(p), p.sillCountY, i) > p.innerMargin;
    }
    SomesAllPresent(ms);
  }

  /** Muntins meet the arch: a vertical muntin starts on it (the arch's chord at its top is
      twice its distance from the axis), and a horizontal muntin in the arch ends on it at both
      ends. */
  lemma MuntinsMeetArch(sqrt: real -> real, p: Props, i: nat, j: nat)
    requires IsSqrt(sqrt) && p.innerMargin >= 0.0 && InnerWidth(p) > 0.0
    requires i < p.sillCountX && j < p.sillCountY
    ensures var v := VerticalMuntin(sqrt, p, i);
      v.Some? && InnerArcHeight(p) > 0.0 ==>
        WidthAt(sqrt, Glazing(p), v.value.from.y) == 2.0 * Abs(v.value.from.x - Glazing(p).centerX)
    ensures var h := HorizontalMuntin(sqrt, p, j);
      h.Some? && h.value.from.y < Glazing(p).springY ==>
        YAt(sqrt, Glazing(p), h.value.from.x, 0.0) == h.value.from.y &&
        YAt(sqrt, Glazing(p), h.value.to.x, 0.0) == h.value.to.y
  {
    var v := VerticalMuntin(sqrt, p, i);
    if v.Some? && InnerArcHeight(p) > 0.0 {
      WidthAtYAt(sqrt, Glazing(p), v.value.from.x);
    }
    var h := HorizontalMuntin(sqrt, p, j);
    if h.Some? && h.value.from.y < Glazing(p).springY {
      YAtWidthAt(sqrt, Glazing(p), h.value.from.y);
    }
  }

  // ---------------------------------------------------------------- corner mitres

  /** The two mitre lines at the bottom corners, from the frame's corners to the inner area's. */
  function BottomDiagonals(p: Props): (ds: seq<Segment>)
    ensures |ds| == 2
    ensures ds[0].from == Point(0.0, p.windowHeight) && ds[1].from == Point(p.windowWidth, p.windowHeight)
    ensures ds[0].to.x == p.innerMargin && ds[1].to.x == p.innerMargin + InnerWidth(p)
    ensures ds[0].to.y == ds[1].to.y == p.innerMargin + InnerHeight(p)
  {
    [ Segment(Point(0.0, p.windowHeight), Point(p.innerMargin, p.innerMargin + InnerHeight(p))),
      Segment(Point(p.windowWidth, p.windowHeight), Point(p.innerMargin + InnerWidth(p), p.innerMargin + InnerHeight(p))) ]
  }

  /** Each bottom mitre runs `innerMargin` inwards along both axes (a 45-degree line), and the
      right one is the mirror image of the left one about the window's axis. */
  lemma BottomDiagonalsMirrored(p: Props)
    ensures var ds := BottomDiagonals(p);
      ds[1].from == Reflect(ds[0].from, RadiusX(p)) && ds[1].to == Reflect(ds[0].to, RadiusX(p)) &&
      ds[0].to.x - ds[0].from.x == ds[0].from.y - ds[0].to.y == p.innerMargin
  {
  }

  // ---------------------------------------------------------------- opening indicators

  predicate HorizontalOpens(p: Props)
  {
    p.horizontalOpeningDirection == "left" || p.horizontalOpeningDirection == "right"
  }

  predicate VerticalOpens(p: Props)
  {
    p.verticalOpeningDirection == "up" || p.verticalOpeningDirection == "down"
  }

  /** The handle sits on the frame's right stile when the window opens to the right, otherwise
      on the left stile. */
  function HandleX(p: Props): (x: real)
    ensures p.horizontalOpeningDirection == "right" ==> x + p.innerMargin == p.windowWidth
    ensures p.horizontalOpeningDirection != "right" ==> x == 0.0
  {
    if p.horizontalOpeningDirection == "right" then p.windowWidth - p.innerMargin else 0.0
  }

  /** The handle's height: half-way between the springing line and the bottom of the
      effective glazing, i.e. the middle of the glazing's straight part. */
  function HandleY(p: Props): (y: real)
    ensures y - Glazing(p).springY == p.innerMargin + EffectiveInnerHeight(p) - y
  {
    var straightHeight := EffectiveInnerHeight(p) - InnerArcHeight(p);
    p.innerMargin + (InnerArcHeight(p) + straightHeight * 0.5)
  }

  function Handle(p: Props): (r: Rect)
    ensures r.x == HandleX(p)
    ensures r.width == r.height == p.innerMargin && Center(r).y == HandleY(p)
  {
    Rect(HandleX(p), HandleY(p) - p.innerMargin / 2.0, p.innerMargin, p.innerMargin)
  }

  /** The two dashed lines of a side-hung opening, from the hinge side at the springing line
      and at the bottom of the glazing to the handle's height on the opposite side. */
  function HorizontalOpening(p: Props): (ls: seq<Segment>)
    ensures |ls| == if HorizontalOpens(p) then 2 else 0
  {
    if HorizontalOpens(p) then
      var right := p.horizontalOpeningDirection == "right";
      var hingeX := if right then p.innerMargin else p.innerMargin + InnerWidth(p);
      var handleSideX := if right then p.innerMargin + InnerWidth(p) else p.innerMargin;
      [ Segment(Point(hingeX, p.innerMargin + InnerArcHeight(p)), Point(handleSideX, HandleY(p))),
        Segment(Point(hingeX, p.innerMargin + EffectiveInnerHeight(p)), Point(handleSideX, HandleY(p))) ]
    else []
  }

  function HandleGlyph(p: Props): (hs: seq<Rect>)
    ensures |hs| == if HorizontalOpens(p) then 1 else 0
    ensures HorizontalOpens(p) ==> hs[0] == Handle(p)
  {
    if HorizontalOpens(p) then [Handle(p)] else []
  }

  /** Both side-hung lines start on the hinge side, at the springing line and at the bottom of
      the glazing, and meet on the handle's inner edge at the handle's height; the handle fills
      the stile on the handle side. */
  lemma HandleOnStile(p: Props)
    requires HorizontalOpens(p)
    ensures var h, ls := Handle(p), HorizontalOpening(p);
      ls[0].to == ls[1].to && ls[0].to.y == Center(h).y &&
      ls[0].from.x == ls[1].from.x && ls[0].from.y == Glazing(p).springY &&
      ls[1].from.y == p.innerMargin + EffectiveInnerHeight(p) &&
      (p.horizontalOpeningDirection == "right" ==>
         ls[0].from.x == p.innerMargin && ls[0].to.x == h.x && Right(h) == p.windowWidth) &&
      (p.horizontalOpeningDirection == "left" ==>
         ls[0].from.x == p.innerMargin + InnerWidth(p) && h.x == 0.0 && ls[0].to.x == Right(h))
  {
  }

  /** The two dashed lines of a top- or bottom-hung opening: "down" runs from the arch's ends
      to the bottom middle, "up" from the bottom corners to the top middle. */
  function VerticalOpening(sqrt: real -> real, p: Props): (ls: seq<Segment>)
    requires IsSqrt(sqrt)
    ensures |ls| == if VerticalOpens(p) then 2 else 0
  {
    var left, right := p.innerMargin, p.innerMargin + InnerWidth(p);
    var middle := p.innerMargin + InnerWidth(p) / 2.0;
    var bottom := p.innerMargin + EffectiveInnerHeight(p);
    if p.verticalOpeningDirection == "down" then
      [ Segment(Point(left, YAt(sqrt, Glazing(p), left, 0.0)), Point(middle, bottom)),
        Segment(Point(right, YAt(sqrt, Glazing(p), right, 0.0)), Point(middle, bottom)) ]
    else if p.verticalOpeningDirection == "up" then
      [ Segment(Point(left, bottom), Point(middle, p.innerMargin)),
        Segment(Point(right, bottom), Point(middle, p.innerMargin)) ]
    else []
  }

  /** A bottom-hung indicator starts where the arch springs from the sides; a top-hung one
      points at the arch's apex, which with a non-empty glazing lies on the arch. Either way the
      two lines are mirror images about the glazing's axis. */
  lemma VerticalOpeningMeetsArch(sqrt: real -> real, p: Props)
    requires IsSqrt(sqrt) && VerticalOpens(p)
    ensures var ls, g := VerticalOpening(sqrt, p), Glazing(p);
      ls[1].from == Reflect(ls[0].from, g.centerX) && ls[0].to == ls[1].to && ls[0].to.x == g.centerX &&
      ls[0].from.x == p.innerMargin &&
      (p.verticalOpeningDirection == "down" ==>
         ls[0].from.y == g.springY && ls[0].to.y == p.innerMargin + EffectiveInnerHeight(p)) &&
      (p.verticalOpeningDirection == "up" ==>
         ls[0].from.y == p.innerMargin + EffectiveInnerHeight(p) && ls[0].to.y == Apex(g) &&
         (InnerWidth(p) > 0.0 ==> YAt(sqrt, g, ls[0].to.x, 0.0) == ls[0].to.y))
  {
    if p.verticalOpeningDirection == "up" && InnerWidth(p) > 0.0 {
      ApexOnAxis(sqrt, Glazing(p), 0.0);
    }
  }

  // ---------------------------------------------------------------- dimensions

  /** The window's annotations: the whole frame (offsets 60 below, 80 left) and, with a base,
      the base band (offsets 40 and 50), when either axis is enabled. */
  function WindowCotes(p: Props): (groups: seq<seq<Cotes.Prim>>)
    ensures |groups| == if p.showWidthCote || p.showHeightCote then (if p.hasBase then 2 else 1) else 0
  {
    if p.showWidthCote || p.showHeightCote then
      Cotes.Cotes([Cotes.Metric(0.0, 0.0, p.windowWidth, p.windowHeight)],
                  Cotes.Options(p.showWidthCote, p.showHeightCote, 60.0, 80.0)) +
      (if p.hasBase then
         Cotes.Cotes([Cotes.Metric(p.innerMargin, p.windowHeight - p.innerMargin - p.baseHeight,
                                   p.windowWidth - p.innerMargin * 2.0, p.baseHeight)],
                     Cotes.Options(p.showWidthCote, p.showHeightCote, 40.0, 50.0))
       else [])
    else []
  }

  /** The annotations measure the frame's bounding box and the base band. */
  lemma CotesMeasureFrameAndBand(p: Props)
    requires p.showWidthCote || p.showHeightCote
    ensures WindowCotes(p)[0] ==
      Cotes.Group(Cotes.Metric(0.0, 0.0, p.windowWidth, p.windowHeight),
                  Cotes.Options(p.showWidthCote, p.showHeightCote, 60.0, 80.0))
    ensures p.hasBase ==>
      var b := BaseBand(p);
      WindowCotes(p)[1] == Cotes.Group(Cotes.Metric(b.x, b.y, b.width, b.height),
                                       Cotes.Options(p.showWidthCote, p.showHeightCote, 40.0, 50.0))
  {
    var frame, o := Cotes.Metric(0.0, 0.0, p.windowWidth, p.windowHeight),
                    Cotes.Options(p.showWidthCote, p.showHeightCote, 60.0, 80.0);
    var head := Cotes.Cotes([frame], o);
    assert head[0] == Cotes.Group(frame, o);
    if p.hasBase {
      var band := Cotes.Metric(p.innerMargin, p.windowHeight - p.innerMargin - p.baseHeight, p.windowWidth - p.innerMargin * 2.0, p.baseHeight);
      var ob := Cotes.Options(p.showWidthCote, p.showHeightCote, 40.0, 50.0);
      var b := BaseBand(p);
      assert band == Cotes.Metric(b.x, b.y, b.width, b.height);
      var tail := Cotes.Cotes([band], ob);
      assert tail[0] == Cotes.Group(band, ob);
      assert WindowCotes(p) == head + tail;
    } else {
      assert WindowCotes(p) == head;
    }
  }
}
