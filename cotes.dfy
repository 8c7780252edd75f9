/** Dimension annotations ("cotes"): for each measured rectangle, two extension ticks, a
    double-headed arrow and a rounded "<n> mm" label per enabled axis. The width is measured
    below the rectangle and the height to its left. */
module Cotes {
  import opened Geometry

  /** The rectangle being measured (`WindowMetric`). */
  datatype Metric = Metric(x: real, y: real, width: real, height: real)

  /** One annotation primitive. `rotation` is in degrees, as Konva takes it. */
  datatype Prim =
    | Tick(line: Segment)
    | Arrow(line: Segment)
    | Label(at: Point, value: int, suffix: string, rotation: int)

  /** The component's optional props, resolved. */
  datatype Options = Options(showWidth: bool, showHeight: bool, offsetY: real, offsetX: real)

  const Unit: string := " mm"
  /** How far each arrow stops short of the measured ends. */
  const ArrowInset: real := 5.0

  /** The destructuring defaults: both axes shown, both offsets 20. */
  function ResolveOptions(showWidth: Option<bool>, showHeight: Option<bool>,
                          offsetY: Option<real>, offsetX: Option<real>): (o: Options)
    ensures o.showWidth == (showWidth == None || showWidth == Some(true))
    ensures o.showHeight == (showHeight == None || showHeight == Some(true))
    ensures offsetY.Some? ==> o.offsetY == offsetY.value
    ensures offsetX.Some? ==> o.offsetX == offsetX.value
    ensures offsetY == None ==> o.offsetY == 20.0
    ensures offsetX == None ==> o.offsetX == 20.0
  {
    Options(
      if showWidth.Some? then showWidth.value else true,
      if showHeight.Some? then showHeight.value else true,
      if offsetY.Some? then offsetY.value else 20.0,
      if offsetX.Some? then offsetX.value else 20.0)
  }

  /** `Math.round`: the nearest integer, halves rounded up. */
  function Round(v: real): (n: int)
    ensures n as real - 0.5 <= v < n as real + 0.5
  {
    (v + 0.5).Floor
  }

  /** Ticks, arrow and label measuring the width, below the rectangle. */
  function WidthCote(m: Metric, offsetY: real): (ps: seq<Prim>)
    ensures |ps| == 4
  {
    var base := m.y + m.height;
    var line := base + offsetY;
    [ Tick(Segment(Point(m.x, base), Point(m.x, line))),
      Tick(Segment(Point(m.x + m.width, base), Point(m.x + m.width, line))),
      Arrow(Segment(Point(m.x + ArrowInset, line), Point(m.x + m.width - ArrowInset, line))),
      Label(Point(m.x + m.width / 2.0 - 30.0, line - 20.0), Round(m.width), Unit, 0) ]
  }

  /** Ticks, arrow and label measuring the height, left of the rectangle, label turned -90. */
  function HeightCote(m: Metric, offsetX: real): (ps: seq<Prim>)
    ensures |ps| == 4
  {
    var line := m.x - offsetX;
    [ Tick(Segment(Point(m.x, m.y), Point(line, m.y))),
      Tick(Segment(Point(m.x, m.y + m.height), Point(line, m.y + m.height))),
      Arrow(Segment(Point(line, m.y + ArrowInset), Point(line, m.y + m.height - ArrowInset))),
      Label(Point(line - 20.0, m.y + m.height / 2.0 + 20.0), Round(m.height), Unit, -90) ]
  }

  /** The annotation group of one rectangle: the width part if enabled, then the height part. */
  function Group(m: Metric, o: Options): (ps: seq<Prim>)
    ensures |ps| == (if o.showWidth then 4 else 0) + (if o.showHeight then 4 else 0)
    ensures o.showWidth ==> ps[..4] == WidthCote(m, o.offsetY)
    ensures o.showHeight ==> ps[|ps| - 4..] == HeightCote(m, o.offsetX)
  {
    (if o.showWidth then WidthCote(m, o.offsetY) else []) +
    (if o.showHeight then HeightCote(m, o.offsetX) else [])
  }

  /** The component: one independent group per measured rectangle, in input order. */
  function Cotes(windows: seq<Metric>, o: Options): (groups: seq<seq<Prim>>)
    ensures |groups| == |windows|
    ensures forall i :: 0 <= i < |windows| ==> groups[i] == Group(windows[i], o)
  {
    seq(|windows|, i requires 0 <= i < |windows| => Group(windows[i], o))
  }

  /** Each group depends on its own rectangle only: changing one rectangle changes only its group. */
  lemma GroupsIndependent(windows: seq<Metric>, i: nat, m: Metric, o: Options)
    requires i < |windows|
    ensures var before, after := Cotes(windows, o), Cotes(windows[i := m], o);
      |after| == |before| && after[i] == Group(m, o) &&
      forall j :: 0 <= j < |windows| && j != i ==> after[j] == before[j]
  {
  }

  /** The width ticks stand on the bottom corners and are `offsetY` long; the arrow runs between
      them at their far ends, `ArrowInset` short of each, so it is `width - 10` long and centred
      on the rectangle; the label, 30 left of the arrow's middle and 20 above it, shows the width
      rounded to the nearest millimetre. */
  lemma WidthCoteGeometry(m: Metric, offsetY: real)
    ensures var ps := WidthCote(m, offsetY);
      ps[0].Tick? && ps[1].Tick? && ps[2].Arrow? && ps[3].Label? &&
      ps[0].line.from == Point(m.x, m.y + m.height) &&
      ps[1].line.from == Point(m.x + m.width, m.y + m.height) &&
      ps[0].line.to.y - ps[0].line.from.y == offsetY &&
      ps[1].line.to.y - ps[1].line.from.y == offsetY &&
      ps[2].line.from.y == ps[2].line.to.y == ps[0].line.to.y &&
      ps[2].line.to.x - ps[2].line.from.x == m.width - 2.0 * ArrowInset &&
      Midpoint(ps[2].line.from, ps[2].line.to).x == m.x + m.width / 2.0 &&
      ps[2].line.from.x - ps[0].line.to.x == ps[1].line.to.x - ps[2].line.to.x == ArrowInset &&
      -0.5 <= m.width - ps[3].value as real < 0.5 && ps[3].suffix == " mm" &&
      ps[3].at == Point(Midpoint(ps[2].line.from, ps[2].line.to).x - 30.0, ps[2].line.from.y - 20.0)
  {
  }

  /** The height ticks leave the left corners `offsetX` to the left; the arrow joins their far
      ends, `ArrowInset` short of each, so it is `height - 10` long and centred on the rectangle;
      the label, turned -90 degrees, 20 left of the arrow and 20 below its middle, shows the
      height rounded to the nearest millimetre. */
  lemma HeightCoteGeometry(m: Metric, offsetX: real)
    ensures var ps := HeightCote(m, offsetX);
      ps[0].Tick? && ps[1].Tick? && ps[2].Arrow? && ps[3].Label? &&
      ps[0].line.from == Point(m.x, m.y) &&
      ps[1].line.from == Point(m.x, m.y + m.height) &&
      ps[0].line.from.x - ps[0].line.to.x == offsetX &&
      ps[1].line.from.x - ps[1].line.to.x == offsetX &&
      ps[2].line.from.x == ps[2].line.to.x == ps[0].line.to.x &&
      ps[2].line.to.y - ps[2].line.from.y == m.height - 2.0 * ArrowInset &&
      Midpoint(ps[2].line.from, ps[2].line.to).y == m.y + m.height / 2.0 &&
      ps[2].line.from.y - ps[0].line.to.y == ps[1].line.to.y - ps[2].line.to.y == ArrowInset &&
      -0.5 <= m.height - ps[3].value as real < 0.5 && ps[3].rotation == -90 && ps[3].suffix == " mm" &&
      ps[3].at == Point(ps[2].line.from.x - 20.0, Midpoint(ps[2].line.from, ps[2].line.to).y + 20.0)
  {
  }
}
