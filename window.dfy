/** The rectangular window: outer frame, inset glazing, optional base panel ("soubassement"),
    glazing bars ("traverses") with their crossing patches, muntins ("petits bois"), the four
    mitre lines at the corners, opening indicators and dimension annotations. */
module Window {
  import opened Geometry
  import opened Spacing
  import Cotes

  /** The component's props. Opening directions are the strings the component compares with
      ("gauche" / "droite", "haut" / "bas"); any other string, or none, means no indicator. */
  datatype Props = Props(
    windowWidth: real, windowHeight: real, margin: real,
    horizontalOpeningDirection: string, verticalOpeningDirection: string,
    hasSoubassement: bool, hasSoubassementVitre: bool, soubassementVitreMargin: real,
    soubassementHeight: real, soubassementMargin: real,
    showPetitsBois: bool, petitsBoisCountX: nat, petitsBoisCountY: nat,
    hasTraverse: bool, traverseCountX: nat, traverseCountY: nat, traverseWidth: real,
    showWidthCote: bool, showHeightCote: bool)

  /** The props as a caller gives them: both dimensions are required, every other prop may be
      left out (`None`). An opening direction left out is `undefined`, which matches no
      direction; it is modelled as the empty string. */
  datatype GivenProps = GivenProps(
    windowWidth: real, windowHeight: real, margin: Option<real>,
    horizontalOpeningDirection: Option<string>, verticalOpeningDirection: Option<string>,
    hasSoubassement: Option<bool>, hasSoubassementVitre: Option<bool>, soubassementVitreMargin: Option<real>,
    soubassementHeight: Option<real>, soubassementMargin: Option<real>,
    showPetitsBois: Option<bool>, petitsBoisCountX: Option<nat>, petitsBoisCountY: Option<nat>,
    hasTraverse: Option<bool>, traverseCountX: Option<nat>, traverseCountY: Option<nat>,
    traverseWidth: Option<real>, showWidthCote: Option<bool>, showHeightCote: Option<bool>)

  /** The component's destructuring defaults: a 10 margin, a 20 high base with a 15 margin and
      a 10 glazed strip, 2 × 2 muntins, no bars (20 wide when there are some) and both
      annotations, with every optional part switched off. */
  function ResolveProps(g: GivenProps): (p: Props)
    ensures p.windowWidth == g.windowWidth && p.windowHeight == g.windowHeight
    ensures p.margin == OrDefault(g.margin, 10.0)
    ensures p.horizontalOpeningDirection == OrDefault(g.horizontalOpeningDirection, "")
    ensures p.verticalOpeningDirection == OrDefault(g.verticalOpeningDirection, "")
    ensures p.hasSoubassement == OrDefault(g.hasSoubassement, false)
    ensures p.hasSoubassementVitre == OrDefault(g.hasSoubassementVitre, false)
    ensures p.soubassementVitreMargin == OrDefault(g.soubassementVitreMargin, 10.0)
    ensures p.soubassementHeight == OrDefault(g.soubassementHeight, 20.0)
    ensures p.soubassementMargin == OrDefault(g.soubassementMargin, 15.0)
    ensures p.showPetitsBois == OrDefault(g.showPetitsBois, false)
    ensures p.petitsBoisCountX == OrDefault(g.petitsBoisCountX, 2) && p.petitsBoisCountY == OrDefault(g.petitsBoisCountY, 2)
    ensures p.hasTraverse == OrDefault(g.hasTraverse, false)
    ensures p.traverseCountX == OrDefault(g.traverseCountX, 0) && p.traverseCountY == OrDefault(g.traverseCountY, 0)
    ensures p.traverseWidth == OrDefault(g.traverseWidth, 20.0)
    ensures p.showWidthCote == OrDefault(g.showWidthCote, true) && p.showHeightCote == OrDefault(g.showHeightCote, true)
  {
    Props(g.windowWidth, g.windowHeight, OrDefault(g.margin, 10.0),
          OrDefault(g.horizontalOpeningDirection, ""), OrDefault(g.verticalOpeningDirection, ""),
          OrDefault(g.hasSoubassement, false), OrDefault(g.hasSoubassementVitre, false),
          OrDefault(g.soubassementVitreMargin, 10.0), OrDefault(g.soubassementHeight, 20.0),
          OrDefault(g.soubassementMargin, 15.0),
          OrDefault(g.showPetitsBois, false), OrDefault(g.petitsBoisCountX, 2), OrDefault(g.petitsBoisCountY, 2),
          OrDefault(g.hasTraverse, false), OrDefault(g.traverseCountX, 0), OrDefault(g.traverseCountY, 0),
          OrDefault(g.traverseWidth, 20.0), OrDefault(g.showWidthCote, true), OrDefault(g.showHeightCote, true))
  }

  /** Every prop given: the props as the renderer receives them. */
  function AllGiven(p: Props): GivenProps
  {
    GivenProps(p.windowWidth, p.windowHeight, Some(p.margin),
               Some(p.horizontalOpeningDirection), Some(p.verticalOpeningDirection),
               Some(p.hasSoubassement), Some(p.hasSoubassementVitre), Some(p.soubassementVitreMargin),
               Some(p.soubassementHeight), Some(p.soubassementMargin),
               Some(p.showPetitsBois), Some(p.petitsBoisCountX), Some(p.petitsBoisCountY),
               Some(p.hasTraverse), Some(p.traverseCountX), Some(p.traverseCountY),
               Some(p.traverseWidth), Some(p.showWidthCote), Some(p.showHeightCote))
  }

  /** Only the dimensions given. */
  function OnlyDimensions(width: real, height: real): GivenProps
  {
    GivenProps(width, height, None, None, None, None, None, None, None, None,
               None, None, None, None, None, None, None, None, None)
  }

  /** Props given in full are taken as they are. */
  lemma ResolveAllGiven(p: Props)
    ensures ResolveProps(AllGiven(p)) == p
  {
  }

  /** With only its dimensions the window is a plain frame: no opening, base, muntins, bars or
      crossing patches, and one annotation group. Even when bars are switched on later, the
      default counts draw none. */
  lemma DefaultWindow(width: real, height: real)
    ensures var p := ResolveProps(OnlyDimensions(width, height));
      !HorizontalOpens(p) && !VerticalOpens(p) && !p.hasSoubassement && !p.hasSoubassementVitre &&
      VerticalMuntins(p) == [] && HorizontalMuntins(p) == [] && Crossings(p) == [] &&
      VerticalTraverses(p.(hasTraverse := true)) == [] && HorizontalTraverses(p.(hasTraverse := true)) == [] &&
      |WindowCotes(p)| == 1
  {
  }

  /** An outer bordered bar and the background-coloured rectangle drawn over its middle. */
  datatype Traverse = Traverse(outer: Rect, inner: Rect)

  /** Border drawn on each side of a glazing bar. */
  const TraverseBorder: real := 2.0

  function InnerWidth(p: Props): real { p.windowWidth - p.margin * 2.0 }

  function InnerHeight(p: Props): real { p.windowHeight - p.margin * 2.0 }

  /** The glazing height left above the base panel, if any: with a base, glazing and base
      share the inner height between them. */
  function EffectiveInnerHeight(p: Props): (h: real)
    ensures p.hasSoubassement ==> h + p.soubassementHeight == InnerHeight(p)
    ensures !p.hasSoubassement ==> h == InnerHeight(p)
    ensures 0.0 <= p.soubassementHeight <= InnerHeight(p) ==> 0.0 <= h <= InnerHeight(p)
  {
    if p.hasSoubassement then InnerHeight(p) - p.soubassementHeight else InnerHeight(p)
  }

  /** Geometric validity: the frame fits, the base fits under the glazing and its inset fits in it. */
  predicate Valid(p: Props)
  {
    0.0 <= p.margin && 2.0 * p.margin <= p.windowWidth && 2.0 * p.margin <= p.windowHeight &&
    0.0 <= p.soubassementHeight <= InnerHeight(p) &&
    0.0 <= p.soubassementMargin && 2.0 * p.soubassementMargin <= InnerWidth(p) &&
    2.0 * p.soubassementMargin <= p.soubassementHeight &&
    0.0 <= p.soubassementVitreMargin && 0.0 <= p.traverseWidth
  }

  // ---------------------------------------------------------------- frame, glazing, base panel

  function OuterFrame(p: Props): Rect
  {
    Rect(0.0, 0.0, p.windowWidth, p.windowHeight)
  }

  function InnerGlazing(p: Props): (r: Rect)
    ensures r == Inset(OuterFrame(p), p.margin)
  {
    Rect(p.margin, p.margin, InnerWidth(p), InnerHeight(p))
  }

  /** The base band: the full glazing width, `soubassementHeight` high, resting on the bottom of
      the glazing, so that with a base panel its top is where the effective glazing ends. */
  function BaseBand(p: Props): (r: Rect)
    ensures r.x == InnerGlazing(p).x && Right(r) == Right(InnerGlazing(p))
    ensures Bottom(r) == Bottom(InnerGlazing(p)) && r.height == p.soubassementHeight
    ensures p.hasSoubassement ==> r.y == p.margin + EffectiveInnerHeight(p)
  {
    Rect(p.margin, p.windowHeight - p.margin - p.soubassementHeight, InnerWidth(p), p.soubassementHeight)
  }

  /** The recessed panel: the band shrunk by `soubassementMargin` on every side. */
  function BaseInset(p: Props): (r: Rect)
    ensures r == Inset(BaseBand(p), p.soubassementMargin)
  {
    Rect(p.margin + p.soubassementMargin,
         p.windowHeight - p.margin - p.soubassementHeight + p.soubassementMargin,
         InnerWidth(p) - p.soubassementMargin * 2.0,
         p.soubassementHeight - p.soubassementMargin * 2.0)
  }

  /** The glazed base's strip: placed like the recessed panel, `soubassementVitreMargin` high. */
  function GlazedBaseInset(p: Props): (r: Rect)
    ensures r.x == BaseInset(p).x && r.y == BaseInset(p).y && r.width == BaseInset(p).width
    ensures r.height == p.soubassementVitreMargin
  {
    Rect(p.margin + p.soubassementMargin,
         p.windowHeight - p.margin - p.soubassementHeight + p.soubassementMargin,
         InnerWidth(p) - p.soubassementMargin * 2.0,
         p.soubassementVitreMargin)
  }

  /** The base panel rectangles: band and inset for a plain base, band and strip for a glazed one. */
  function BasePanels(p: Props): (rs: seq<Rect>)
    ensures |rs| == (if p.hasSoubassement then 2 else 0) + (if p.hasSoubassementVitre then 2 else 0)
    ensures p.hasSoubassement ==> rs[0] == BaseBand(p) && rs[1] == BaseInset(p)
    ensures p.hasSoubassementVitre ==> rs[|rs| - 2] == BaseBand(p) && rs[|rs| - 1] == GlazedBaseInset(p)
  {
    (if p.hasSoubassement then [BaseBand(p), BaseInset(p)] else []) +
    (if p.hasSoubassementVitre then [BaseBand(p), GlazedBaseInset(p)] else [])
  }

  /** With a zero base margin (the "plein" and "vitre" base types) the inset is the band itself. */
  lemma SolidBaseInsetIsBand(p: Props)
    requires p.soubassementMargin == 0.0
    ensures BaseInset(p) == BaseBand(p)
  {
  }

  /** In a valid configuration the glazing lies in the frame, the band in the glazing and the
      inset in the band, and none of them has a negative size. */
  lemma PanelsNested(p: Props)
    requires Valid(p)
    ensures Contains(OuterFrame(p), InnerGlazing(p)) && NonNegative(InnerGlazing(p))
    ensures Contains(InnerGlazing(p), BaseBand(p)) && NonNegative(BaseBand(p))
    ensures Contains(BaseBand(p), BaseInset(p)) && NonNegative(BaseInset(p))
    ensures NonNegative(GlazedBaseInset(p))
  {
  }

  // ---------------------------------------------------------------- glazing bars

  /** Centre of horizontal bar `i`: equal spacing over the effective glazing height. */
  function HorizontalTraverseY(p: Props, i: nat): (y: real)
    requires i < p.traverseCountY
    ensures EffectiveInnerHeight(p) > 0.0 ==> p.margin < y < p.margin + EffectiveInnerHeight(p)
  {
    BarCenter(p.margin, EffectiveInnerHeight(p), p.traverseCountY, i)
  }

  /** Centre of vertical bar `i`: equal spacing over the glazing width. */
  function VerticalTraverseX(p: Props, i: nat): (x: real)
    requires i < p.traverseCountX
    ensures InnerWidth(p) > 0.0 ==> p.margin < x < p.margin + InnerWidth(p)
  {
    BarCenter(p.margin, InnerWidth(p), p.traverseCountX, i)
  }

  /** Horizontal bar `i`: both rectangles span the glazing width and are centred on the bar's
      line, the outer one a border thicker on each side. */
  function HorizontalTraverse(p: Props, i: nat): (t: Traverse)
    requires i < p.traverseCountY
    ensures Center(t.outer) == Center(t.inner) == Point(p.margin + InnerWidth(p) / 2.0, HorizontalTraverseY(p, i))
    ensures t.outer.height == t.inner.height + 2.0 * TraverseBorder && t.inner.height == p.traverseWidth
    ensures t.outer.x == t.inner.x == InnerGlazing(p).x
    ensures t.outer.width == t.inner.width == InnerGlazing(p).width
  {
    var y := HorizontalTraverseY(p, i);
    Traverse(Rect(p.margin, y - (p.traverseWidth + 4.0) / 2.0, InnerWidth(p), p.traverseWidth + 4.0),
             Rect(p.margin, y - p.traverseWidth / 2.0, InnerWidth(p), p.traverseWidth))
  }

  /** Vertical bar `i`: both rectangles run down the effective glazing height from its top and
      are centred on the bar's line, the outer one a border wider on each side. */
  function VerticalTraverse(p: Props, i: nat): (t: Traverse)
    requires i < p.traverseCountX
    ensures Center(t.outer) == Center(t.inner) == Point(VerticalTraverseX(p, i), p.margin + EffectiveInnerHeight(p) / 2.0)
    ensures t.outer.width == t.inner.width + 2.0 * TraverseBorder && t.inner.width == p.traverseWidth
    ensures t.outer.y == t.inner.y == InnerGlazing(p).y
    ensures t.outer.height == t.inner.height == EffectiveInnerHeight(p)
  {
    var x := VerticalTraverseX(p, i);
    Traverse(Rect(x - (p.traverseWidth + 4.0) / 2.0, p.margin, p.traverseWidth + 4.0, EffectiveInnerHeight(p)),
             Rect(x - p.traverseWidth / 2.0, p.margin, p.traverseWidth, EffectiveInnerHeight(p)))
  }

  function HorizontalTraverses(p: Props): (ts: seq<Traverse>)
    ensures |ts| == if p.hasTraverse then p.traverseCountY else 0
    ensures forall i :: 0 <= i < |ts| ==> ts[i] == HorizontalTraverse(p, i)
  {
    if p.hasTraverse then seq(p.traverseCountY, i requires 0 <= i < p.traverseCountY => HorizontalTraverse(p, i))
    else []
  }

  function VerticalTraverses(p: Props): (ts: seq<Traverse>)
    ensures |ts| == if p.hasTraverse then p.traverseCountX else 0
    ensures forall i :: 0 <= i < |ts| ==> ts[i] == VerticalTraverse(p, i)
  {
    if p.hasTraverse then seq(p.traverseCountX, i requires 0 <= i < p.traverseCountX => VerticalTraverse(p, i))
    else []
  }

  /** With a non-empty glazing, every bar lies strictly inside it, in increasing order. */
  lemma TraversesInsideGlazing(p: Props, i: nat, j: nat)
    requires InnerWidth(p) > 0.0
    requires i < j < p.traverseCountX
    ensures p.margin < VerticalTraverseX(p, i) < VerticalTraverseX(p, j) < p.margin + InnerWidth(p)
  {
    BarsIncreasing(p.margin, InnerWidth(p), p.traverseCountX, i, j);
  }

  /** The patch drawn over the crossing of vertical bar `xi` and horizontal bar `yi`. */
  function CrossingPatch(p: Props, xi: nat, yi: nat): (r: Rect)
    requires xi < p.traverseCountX && yi < p.traverseCountY
    ensures Center(r) == Point(VerticalTraverseX(p, xi), HorizontalTraverseY(p, yi))
    ensures r.width == p.traverseWidth + 6.0 && r.height == p.traverseWidth + 2.0
  {
    var x := VerticalTraverseX(p, xi);
    var y := HorizontalTraverseY(p, yi);
    Rect(x - (p.traverseWidth + 6.0) / 2.0, y - (p.traverseWidth + 2.0) / 2.0,
         p.traverseWidth + 6.0, p.traverseWidth + 2.0)
  }

  /** Row `xi` of the crossing grid: one patch per horizontal bar. */
  function CrossingRow(p: Props, xi: nat): (row: seq<Rect>)
    requires xi < p.traverseCountX
    ensures |row| == p.traverseCountY
    ensures forall yi :: 0 <= yi < p.traverseCountY ==> row[yi] == CrossingPatch(p, xi, yi)
  {
    seq(p.traverseCountY, yi requires 0 <= yi < p.traverseCountY => CrossingPatch(p, xi, yi))
  }

  /** The grid of crossing patches, one row per vertical bar. */
  function CrossingRows(p: Props): (rows: seq<seq<Rect>>)
    ensures |rows| == p.traverseCountX
    ensures forall xi :: 0 <= xi < |rows| ==> rows[xi] == CrossingRow(p, xi)
  {
    seq(p.traverseCountX, xi requires 0 <= xi < p.traverseCountX => CrossingRow(p, xi))
  }

  /** The crossing patches, vertical bar by vertical bar (`.map(...).flat()`). */
  function Crossings(p: Props): (cs: seq<Rect>)
    ensures cs != [] ==> p.hasTraverse && p.traverseCountX > 0 && p.traverseCountY > 0
  {
    if p.hasTraverse && p.traverseCountX > 0 && p.traverseCountY > 0 then Flatten(CrossingRows(p)) else []
  }

  /** With bars on both axes there is exactly one patch per grid intersection; otherwise none. */
  lemma CrossingsCount(p: Props)
    ensures |Crossings(p)| == if p.hasTraverse && p.traverseCountX > 0 && p.traverseCountY > 0
                              then p.traverseCountX * p.traverseCountY else 0
  {
    if p.hasTraverse && p.traverseCountX > 0 && p.traverseCountY > 0 {
      FlattenUniformLength(CrossingRows(p), p.traverseCountY);
    }
  }

  /** The patch for vertical bar `xi` and horizontal bar `yi` is at position `xi * countY + yi`. */
  lemma CrossingAt(p: Props, xi: nat, yi: nat)
    requires p.hasTraverse && xi < p.traverseCountX && yi < p.traverseCountY
    ensures xi * p.traverseCountY + yi < |Crossings(p)|
    ensures Crossings(p)[xi * p.traverseCountY + yi] == CrossingPatch(p, xi, yi)
  {
    var rows := CrossingRows(p);
    FlattenUniformIndex(rows, p.traverseCountY, xi, yi);
  }

  /** A patch stays within the horizontal bar's outer band and reaches past both borders of the
      vertical bar, so it hides the vertical bar's border strokes where the bars cross. */
  lemma PatchHidesCrossedBorders(p: Props, xi: nat, yi: nat)
    requires xi < p.traverseCountX && yi < p.traverseCountY
    ensures var patch, h, v := CrossingPatch(p, xi, yi), HorizontalTraverse(p, yi).outer, VerticalTraverse(p, xi).outer;
      h.y < patch.y && Bottom(patch) < Bottom(h) &&
      patch.x < v.x && Right(v) < Right(patch)
  {
  }

  // ---------------------------------------------------------------- muntins

  /** Vertical muntin `i`: on the `i`-th line of the equal spacing across the glazing, from
      the glazing's top to the bottom of the effective glazing. */
  function VerticalMuntin(p: Props, i: nat): (s: Segment)
    requires i < p.petitsBoisCountX
    ensures s.from.x == s.to.x == BarCenter(p.margin, InnerWidth(p), p.petitsBoisCountX, i)
    ensures s.from.y == InnerGlazing(p).y && s.to.y == p.margin + EffectiveInnerHeight(p)
  {
    var x := BarCenter(p.margin, InnerWidth(p), p.petitsBoisCountX, i);
    var available := if p.hasSoubassement then InnerHeight(p) - p.soubassementHeight else InnerHeight(p);
    Segment(Point(x, p.margin), Point(x, p.margin + available))
  }

  /** Horizontal muntin `i`: on the `i`-th line of the equal spacing down the effective
      glazing, across the glazing's whole width. */
  function HorizontalMuntin(p: Props, i: nat): (s: Segment)
    requires i < p.petitsBoisCountY
    ensures s.from.y == s.to.y == BarCenter(p.margin, EffectiveInnerHeight(p), p.petitsBoisCountY, i)
    ensures s.from.x == InnerGlazing(p).x && s.to.x == Right(InnerGlazing(p))
  {
    var available := if p.hasSoubassement then InnerHeight(p) - p.soubassementHeight else InnerHeight(p);
    var y := BarCenter(p.margin, available, p.petitsBoisCountY, i);
    Segment(Point(p.margin, y), Point(p.margin + InnerWidth(p), y))
  }

  function VerticalMuntins(p: Props): (ms: seq<Segment>)
    ensures |ms| == if p.showPetitsBois then p.petitsBoisCountX else 0
    ensures forall i :: 0 <= i < |ms| ==> ms[i] == VerticalMuntin(p, i)
  {
    if p.showPetitsBois then seq(p.petitsBoisCountX, i requires 0 <= i < p.petitsBoisCountX => VerticalMuntin(p, i))
    else []
  }

  function HorizontalMuntins(p: Props): (ms: seq<Segment>)
    ensures |ms| == if p.showPetitsBois then p.petitsBoisCountY else 0
    ensures forall i :: 0 <= i < |ms| ==> ms[i] == HorizontalMuntin(p, i)
  {
    if p.showPetitsBois then seq(p.petitsBoisCountY, i requires 0 <= i < p.petitsBoisCountY => HorizontalMuntin(p, i))
    else []
  }

  /** A vertical muntin runs from the top of the glazing to the top of the base panel (the
      bottom of the glazing without one); a horizontal one crosses the whole glazing width.
      With a non-empty glazing both stay strictly inside it. */
  lemma MuntinsSpanGlazing(p: Props)
    requires InnerWidth(p) > 0.0 && EffectiveInnerHeight(p) > 0.0
    ensures forall i :: 0 <= i < p.petitsBoisCountX ==>
      var s := VerticalMuntin(p, i);
      s.from.x == s.to.x == p.margin + Gap(InnerWidth(p), p.petitsBoisCountX) * (i + 1) as real &&
      s.from.y == InnerGlazing(p).y && s.to.y == p.margin + EffectiveInnerHeight(p) &&
      InnerGlazing(p).x < s.from.x < Right(InnerGlazing(p))
    ensures forall i :: 0 <= i < p.petitsBoisCountY ==>
      var s := HorizontalMuntin(p, i);
      s.from.y == s.to.y == p.margin + Gap(EffectiveInnerHeight(p), p.petitsBoisCountY) * (i + 1) as real &&
      s.from.x == InnerGlazing(p).x && s.to.x == Right(InnerGlazing(p)) &&
      InnerGlazing(p).y < s.from.y < p.margin + EffectiveInnerHeight(p)
  {
  }

  // ---------------------------------------------------------------- corner mitres

  /** The four mitre lines, top-left, top-right, bottom-left, bottom-right. */
  function CornerDiagonals(p: Props): (ds: seq<Segment>)
    ensures |ds| == 4
    ensures forall i :: 0 <= i < 4 ==> ds[i] == Segment(Corners(OuterFrame(p))[i], Corners(InnerGlazing(p))[i])
  {
    [ Segment(Point(0.0, 0.0), Point(p.margin, p.margin)),
      Segment(Point(p.windowWidth, 0.0), Point(p.margin + InnerWidth(p), p.margin)),
      Segment(Point(0.0, p.windowHeight), Point(p.margin, p.margin + InnerHeight(p))),
      Segment(Point(p.windowWidth, p.windowHeight), Point(p.margin + InnerWidth(p), p.margin + InnerHeight(p))) ]
  }

  /** Each mitre line is a 45-degree diagonal that runs `margin` towards the centre of the frame
      along each axis. */
  lemma DiagonalsAreMitres(p: Props, i: nat)
    requires i < 4
    requires 0.0 <= p.margin && 2.0 * p.margin <= p.windowWidth && 2.0 * p.margin <= p.windowHeight
    ensures var d, c := CornerDiagonals(p)[i], Center(OuterFrame(p));
      Abs(d.to.x - d.from.x) == Abs(d.to.y - d.from.y) == p.margin &&
      Abs(c.x - d.to.x) == Abs(c.x - d.from.x) - p.margin &&
      Abs(c.y - d.to.y) == Abs(c.y - d.from.y) - p.margin
  {
  }

  // ---------------------------------------------------------------- opening indicators

  predicate HorizontalOpens(p: Props)
  {
    p.horizontalOpeningDirection == "gauche" || p.horizontalOpeningDirection == "droite"
  }

  predicate VerticalOpens(p: Props)
  {
    p.verticalOpeningDirection == "haut" || p.verticalOpeningDirection == "bas"
  }

  /** The handle sits on the frame's right stile when the window opens to the right ("droite"),
      otherwise on the left stile. */
  function HandleX(p: Props): (x: real)
    ensures p.horizontalOpeningDirection == "droite" ==> x == Right(OuterFrame(p)) - p.margin
    ensures p.horizontalOpeningDirection != "droite" ==> x == OuterFrame(p).x
  {
    if p.horizontalOpeningDirection == "droite" then p.windowWidth - p.margin else 0.0
  }

  /** The handle's height: half-way down the effective glazing. */
  function HandleY(p: Props): (y: real)
    ensures y - InnerGlazing(p).y == InnerGlazing(p).y + EffectiveInnerHeight(p) - y
  {
    p.margin + EffectiveInnerHeight(p) * 0.5
  }

  /** The handle: `margin` square, on the handle's stile and centred on the handle height. */
  function Handle(p: Props): (h: Rect)
    ensures h.x == HandleX(p) && h.width == h.height == p.margin && Center(h).y == HandleY(p)
  {
    Rect(HandleX(p), HandleY(p) - p.margin / 2.0, p.margin, p.margin)
  }

  /** The two dashed lines of a side-hung opening, from the hinge-side corners of the effective
      glazing to the middle of the opposite side. */
  function HorizontalOpening(p: Props): (ls: seq<Segment>)
    ensures |ls| == if HorizontalOpens(p) then 2 else 0
    ensures HorizontalOpens(p) ==>
      var g := InnerGlazing(p);
      ls[0].from == Point(ls[1].from.x, g.y) && ls[1].from.y == p.margin + EffectiveInnerHeight(p) &&
      ls[0].to == ls[1].to && ls[0].to.y == HandleY(p)
    ensures p.horizontalOpeningDirection == "droite" ==>
      ls[0].from.x == InnerGlazing(p).x && ls[0].to.x == Right(InnerGlazing(p))
    ensures p.horizontalOpeningDirection == "gauche" ==>
      ls[0].from.x == Right(InnerGlazing(p)) && ls[0].to.x == InnerGlazing(p).x
  {
    if HorizontalOpens(p) then
      var right := p.horizontalOpeningDirection == "droite";
      var hingeX := if right then p.margin else p.margin + InnerWidth(p);
      var handleSideX := if right then p.margin + InnerWidth(p) else p.margin;
      [ Segment(Point(hingeX, p.margin), Point(handleSideX, HandleY(p))),
        Segment(Point(hingeX, p.margin + EffectiveInnerHeight(p)), Point(handleSideX, HandleY(p))) ]
    else []
  }

  function HandleGlyph(p: Props): (hs: seq<Rect>)
    ensures |hs| == if HorizontalOpens(p) then 1 else 0
    ensures HorizontalOpens(p) ==> hs[0] == Handle(p)
  {
    if HorizontalOpens(p) then [Handle(p)] else []
  }

  /** The two dashed lines of a top- or bottom-hung opening: "haut" runs from the bottom corners
      to the top middle, "bas" from the top corners to the bottom middle. */
  function VerticalOpening(p: Props): (ls: seq<Segment>)
    ensures |ls| == if VerticalOpens(p) then 2 else 0
    ensures VerticalOpens(p) ==>
      var g := InnerGlazing(p);
      ls[0].from.x == g.x && ls[1].from.x == Right(g) && ls[0].to == ls[1].to && ls[0].to.x == Center(g).x &&
      ls[0].from.y == ls[1].from.y
    ensures p.verticalOpeningDirection == "haut" ==>
      ls[0].from.y == p.margin + EffectiveInnerHeight(p) && ls[0].to.y == InnerGlazing(p).y
    ensures p.verticalOpeningDirection == "bas" ==>
      ls[0].from.y == InnerGlazing(p).y && ls[0].to.y == p.margin + EffectiveInnerHeight(p)
  {
    if VerticalOpens(p) then
      var up := p.verticalOpeningDirection == "haut";
      var fromY := if up then p.margin + EffectiveInnerHeight(p) else p.margin;
      var toY := if up then p.margin else p.margin + EffectiveInnerHeight(p);
      [ Segment(Point(p.margin, fromY), Point(p.margin + InnerWidth(p) / 2.0, toY)),
        Segment(Point(p.margin + InnerWidth(p), fromY), Point(p.margin + InnerWidth(p) / 2.0, toY)) ]
    else []
  }

  /** The handle is `margin` square, fills the width of the stile it sits on and is centred on
      the handle height; both side-hung lines meet at that height on the handle's inner edge. */
  lemma HandleOnStile(p: Props)
    requires HorizontalOpens(p)
    ensures var h, ls := Handle(p), HorizontalOpening(p);
      h.width == h.height == p.margin && Center(h).y == HandleY(p) &&
      (p.horizontalOpeningDirection == "droite" ==>
         h.x == Right(InnerGlazing(p)) && Right(h) == Right(OuterFrame(p)) && ls[0].to.x == h.x) &&
      (p.horizontalOpeningDirection == "gauche" ==>
         h.x == OuterFrame(p).x && Right(h) == InnerGlazing(p).x && ls[0].to.x == Right(h)) &&
      ls[0].to == ls[1].to && ls[0].to.y == HandleY(p) &&
      ls[0].from.x == ls[1].from.x && ls[0].from.y == InnerGlazing(p).y &&
      ls[1].from.y == p.margin + EffectiveInnerHeight(p) &&
      (p.horizontalOpeningDirection == "droite" ==> ls[0].from.x == InnerGlazing(p).x) &&
      (p.horizontalOpeningDirection == "gauche" ==> ls[0].from.x == Right(InnerGlazing(p)))
  {
  }

  /** "haut" and "bas" draw the same lines with the y coordinates of their ends swapped. */
  lemma VerticalDirectionsSwapEnds(p: Props)
    ensures var up, down := VerticalOpening(p.(verticalOpeningDirection := "haut")),
                            VerticalOpening(p.(verticalOpeningDirection := "bas"));
      |up| == |down| == 2 &&
      forall i :: 0 <= i < 2 ==>
        up[i].from.x == down[i].from.x && up[i].to.x == down[i].to.x &&
        up[i].from.y == down[i].to.y && up[i].to.y == down[i].from.y
  {
  }

  // ---------------------------------------------------------------- dimensions

  /** The window's annotations: the whole frame (offsets 60 below, 80 left) and, with a base
      panel, its band (offsets 40 and 50), when either axis is enabled. */
  function WindowCotes(p: Props): (groups: seq<seq<Cotes.Prim>>)
    ensures |groups| == if p.showWidthCote || p.showHeightCote then (if p.hasSoubassement then 2 else 1) else 0
  {
    if p.showWidthCote || p.showHeightCote then
      Cotes.Cotes([Cotes.Metric(0.0, 0.0, p.windowWidth, p.windowHeight)],
                  Cotes.Options(p.showWidthCote, p.showHeightCote, 60.0, 80.0)) +
      (if p.hasSoubassement then
         Cotes.Cotes([Cotes.Metric(p.margin, p.windowHeight - p.margin - p.soubassementHeight,
                                   p.windowWidth - p.margin * 2.0, p.soubassementHeight)],
                     Cotes.Options(p.showWidthCote, p.showHeightCote, 40.0, 50.0))
       else [])
    else []
  }

  /** The annotations measure exactly the outer frame and the base band. */
  lemma CotesMeasureFrameAndBand(p: Props)
    requires p.showWidthCote || p.showHeightCote
    ensures var o := Cotes.Options(p.showWidthCote, p.showHeightCote, 60.0, 80.0);
      var f := OuterFrame(p);
      WindowCotes(p)[0] == Cotes.Group(Cotes.Metric(f.x, f.y, f.width, f.height), o)
    ensures p.hasSoubassement ==>
      var o := Cotes.Options(p.showWidthCote, p.showHeightCote, 40.0, 50.0);
      var b := BaseBand(p);
      WindowCotes(p)[1] == Cotes.Group(Cotes.Metric(b.x, b.y, b.width, b.height), o)
  {
    var frame, o := Cotes.Metric(0.0, 0.0, p.windowWidth, p.windowHeight),
                    Cotes.Options(p.showWidthCote, p.showHeightCote, 60.0, 80.0);
    var head := Cotes.Cotes([frame], o);
    assert head[0] == Cotes.Group(frame, o);
    if p.hasSoubassement {
      var band := Cotes.Metric(p.margin, p.windowHeight - p.margin - p.soubassementHeight, p.windowWidth - p.margin * 2.0, p.soubassementHeight);
      var ob := Cotes.Options(p.showWidthCote, p.showHeightCote, 40.0, 50.0);
      var b := BaseBand(p);
      assert band == Cotes.Metric(b.x, b.y, b.width, b.height);
      var tail := Cotes.Cotes([band], ob);
      assert tail[0] == Cotes.Group(band, ob);
      assert WindowCotes(p) == head + tail;
    } else {
      assert WindowCotes(p) == head;
    }
  }
}
