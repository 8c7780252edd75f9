/** Plane geometry shared by every renderer: canvas coordinates, with y growing downwards. */
module Geometry {

  datatype Option<T> = None | Some(value: T)

  /** A destructuring default: the value given, or `d` when the prop is left out. */
  function OrDefault<T>(o: Option<T>, d: T): (v: T)
    ensures o.Some? ==> v == o.value
    ensures o.None? ==> v == d
  {
    if o.Some? then o.value else d
  }

  datatype Point = Point(x: real, y: real)

  /** A straight stroke between two points (Konva `Line` with two points, or `Arrow`). */
  datatype Segment = Segment(from: Point, to: Point)

  /** An axis-aligned rectangle given by its top-left corner and its size (Konva `Rect`). */
  datatype Rect = Rect(x: real, y: real, width: real, height: real)

  /** A closed polygon: a `moveTo` to the first vertex, `lineTo` through the rest, then `closePath`. */
  type Polygon = seq<Point>

  function Abs(v: real): (r: real)
    ensures r >= 0.0 && (r == v || r == -v)
  {
    if v < 0.0 then -v else v
  }

  function Min(a: real, b: real): (r: real)
    ensures r <= a && r <= b && (r == a || r == b)
  {
    if a <= b then a else b
  }

  function Max(a: real, b: real): (r: real)
    ensures r >= a && r >= b && (r == a || r == b)
  {
    if a >= b then a else b
  }

  function Right(r: Rect): real { r.x + r.width }

  function Bottom(r: Rect): real { r.y + r.height }

  function Center(r: Rect): (c: Point)
    ensures c.x - r.x == Right(r) - c.x && c.y - r.y == Bottom(r) - c.y
  {
    Point(r.x + r.width / 2.0, r.y + r.height / 2.0)
  }

  function Midpoint(a: Point, b: Point): Point
  {
    Point((a.x + b.x) / 2.0, (a.y + b.y) / 2.0)
  }

  /** The rectangle shrunk by `d` on every side. */
  function Inset(r: Rect, d: real): (s: Rect)
    ensures Center(s) == Center(r)
    ensures s.width == r.width - 2.0 * d && s.height == r.height - 2.0 * d
    ensures d == 0.0 ==> s == r
  {
    Rect(r.x + d, r.y + d, r.width - 2.0 * d, r.height - 2.0 * d)
  }

  predicate Contains(outer: Rect, inner: Rect)
  {
    outer.x <= inner.x && Right(inner) <= Right(outer) &&
    outer.y <= inner.y && Bottom(inner) <= Bottom(outer)
  }

  predicate NonNegative(r: Rect)
  {
    r.width >= 0.0 && r.height >= 0.0
  }

  /** The corners of a rectangle in the order top-left, top-right, bottom-left, bottom-right. */
  function Corners(r: Rect): (c: seq<Point>)
    ensures |c| == 4
    ensures c[0].x == c[2].x == r.x && c[1].x == c[3].x == Right(r)
    ensures c[0].y == c[1].y == r.y && c[2].y == c[3].y == Bottom(r)
  {
    [Point(r.x, r.y), Point(Right(r), r.y), Point(r.x, Bottom(r)), Point(Right(r), Bottom(r))]
  }

  /** The outline of a rectangle as a closed path that starts and ends at its bottom-left corner
      and runs bottom-right, top-right, top-left: each edge is one side of the rectangle. */
  function RectOutline(r: Rect): (p: Polygon)
    ensures |p| == 5 && p[0] == p[4]
    ensures forall i :: 0 <= i < 4 ==> p[i].x == p[i + 1].x || p[i].y == p[i + 1].y
    ensures forall i :: 0 <= i < 5 ==> p[i] in Corners(r)
  {
    var c := Corners(r);
    [c[2], c[3], c[1], c[0], c[2]]
  }

  /** The reflection of a point in the vertical line x = axis. */
  function Reflect(p: Point, axis: real): (q: Point)
    ensures q.y == p.y && q.x - axis == axis - p.x
  {
    Point(2.0 * axis - p.x, p.y)
  }

  /** `rows.flat()`: the rows concatenated in order. */
  function Flatten<T>(rows: seq<seq<T>>): (r: seq<T>)
  {
    if rows == [] then [] else rows[0] + Flatten(rows[1..])
  }

  /** Flattening `n` rows of length `m` gives `n * m` elements. */
  lemma {:induction false} FlattenUniformLength<T>(rows: seq<seq<T>>, m: nat)
    requires forall i :: 0 <= i < |rows| ==> |rows[i]| == m
    ensures |Flatten(rows)| == |rows| * m
  {
    if rows != [] {
      FlattenUniformLength(rows[1..], m);
    }
  }

  /** In `n` rows of length `m`, row `i` element `j` lands at `i * m + j` once flattened. */
  lemma {:induction false} FlattenUniformIndex<T>(rows: seq<seq<T>>, m: nat, i: nat, j: nat)
    requires forall k :: 0 <= k < |rows| ==> |rows[k]| == m
    requires i < |rows| && j < m
    ensures i * m + j < |Flatten(rows)| && Flatten(rows)[i * m + j] == rows[i][j]
  {
    FlattenUniformLength(rows, m);
    if i > 0 {
      FlattenUniformIndex(rows[1..], m, i - 1, j);
      assert i * m + j == m + ((i - 1) * m + j);
    }
  }

  /** Every element of the flattened rows comes from some row. */
  lemma {:induction false} FlattenMember<T>(rows: seq<seq<T>>, v: T)
    requires v in Flatten(rows)
    ensures exists i :: 0 <= i < |rows| && v in rows[i]
  {
    if rows != [] {
      if v !in rows[0] {
        FlattenMember(rows[1..], v);
        var i :| 0 <= i < |rows[1..]| && v in rows[1..][i];
        assert v in rows[i + 1];
      }
    }
  }

  /** `.filter(Boolean)` over a sequence of optional values: the present ones, in order. */
  function Somes<T>(s: seq<Option<T>>): (r: seq<T>)
    ensures |r| <= |s|
  {
    if s == [] then []
    else (if s[0].Some? then [s[0].value] else []) + Somes(s[1..])
  }

  lemma {:induction false} SomesMember<T>(s: seq<Option<T>>, v: T)
    ensures v in Somes(s) <==> Some(v) in s
  {
    if s != [] {
      SomesMember(s[1..], v);
      assert s == [s[0]] + s[1..];
    }
  }

  lemma {:induction false} SomesAllPresent<T>(s: seq<Option<T>>)
    requires forall i :: 0 <= i < |s| ==> s[i].Some?
    ensures |Somes(s)| == |s|
  {
    if s != [] {
      SomesAllPresent(s[1..]);
    }
  }

  lemma {:induction false} SomesAllAbsent<T>(s: seq<Option<T>>)
    requires forall i :: 0 <= i < |s| ==> s[i].None?
    ensures Somes(s) == []
  {
    if s != [] {
      SomesAllAbsent(s[1..]);
    }
  }

  /** Rows of present values flatten and filter to all of them. */
  lemma FlattenAllPresent<T>(rows: seq<seq<Option<T>>>, m: nat)
    requires forall i :: 0 <= i < |rows| ==> |rows[i]| == m
    requires forall i, j :: 0 <= i < |rows| && 0 <= j < m ==> rows[i][j].Some?
    ensures |Somes(Flatten(rows))| == |rows| * m
  {
    var flat := Flatten(rows);
    FlattenUniformLength(rows, m);
    forall k | 0 <= k < |flat| ensures flat[k].Some? {
      FlattenMember(rows, flat[k]);
      var i :| 0 <= i < |rows| && flat[k] in rows[i];
      var j :| 0 <= j < |rows[i]| && rows[i][j] == flat[k];
    }
    SomesAllPresent(flat);
  }
}
