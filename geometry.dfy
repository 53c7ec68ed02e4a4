/**
 * Plane geometry shared by the routing strategies and the HTML controller:
 * points, rectangles and SVG path data (SVG 1.1, section 8.3 "Path data"),
 * kept as command sequences instead of strings.
 */
module Geometry {

  datatype Point = Point(x: real, y: real)

  function Add(p: Point, q: Point): Point { Point(p.x + q.x, p.y + q.y) }

  function Sub(p: Point, q: Point): Point { Point(p.x - q.x, p.y - q.y) }

  function Scale(p: Point, k: real): Point { Point(p.x * k, p.y * k) }

  function Midpoint(p: Point, q: Point): Point { Point((p.x + q.x) / 2.0, (p.y + q.y) / 2.0) }

  /** The rectangle `getBoundingClientRect` reports, in client coordinates. */
  datatype Rect = Rect(left: real, top: real, width: real, height: real)

  function Origin(r: Rect): Point { Point(r.left, r.top) }

  /** `r` moved by `v`, its size unchanged. */
  function Translate(r: Rect, v: Point): Rect { Rect(r.left + v.x, r.top + v.y, r.width, r.height) }

  /** The absolute-coordinate path commands the routing strategies emit: `M`, `C` and `L`. */
  datatype PathCommand =
    | MoveTo(p: Point)
    | CurveTo(c1: Point, c2: Point, p: Point)
    | LineTo(p: Point)

  type Path = seq<PathCommand>

  /**
   * The current point once `path` has been drawn from `start`: after each of
   * `M`, `C` and `L` the current point is the command's final coordinate pair.
   */
  function CurrentPoint(path: Path, start: Point): Point
  {
    if path == [] then start else CurrentPoint(path[1..], path[0].p)
  }

  /** The point at parameter `t` of the cubic Bezier segment with end points `p0`, `p3` and controls `p1`, `p2`. */
  function CubicAt(p0: Point, p1: Point, p2: Point, p3: Point, t: real): Point
  {
    var s := 1.0 - t;
    Point(s * s * s * p0.x + 3.0 * s * s * t * p1.x + 3.0 * s * t * t * p2.x + t * t * t * p3.x,
          s * s * s * p0.y + 3.0 * s * s * t * p1.y + 3.0 * s * t * t * p2.y + t * t * t * p3.y)
  }

  /** The derivative of `CubicAt` with respect to `t`: the curve's tangent vector. */
  function CubicTangentAt(p0: Point, p1: Point, p2: Point, p3: Point, t: real): Point
  {
    var s := 1.0 - t;
    Point(3.0 * s * s * (p1.x - p0.x) + 6.0 * s * t * (p2.x - p1.x) + 3.0 * t * t * (p3.x - p2.x),
          3.0 * s * s * (p1.y - p0.y) + 6.0 * s * t * (p2.y - p1.y) + 3.0 * t * t * (p3.y - p2.y))
  }

  /**
   * A cubic segment starts at `p0` heading along `p1 - p0` and ends at `p3`
   * arriving along `p3 - p2`.
   */
  lemma CubicEnds(p0: Point, p1: Point, p2: Point, p3: Point)
    ensures CubicAt(p0, p1, p2, p3, 0.0) == p0
    ensures CubicAt(p0, p1, p2, p3, 1.0) == p3
    ensures CubicTangentAt(p0, p1, p2, p3, 0.0) == Scale(Sub(p1, p0), 3.0)
    ensures CubicTangentAt(p0, p1, p2, p3, 1.0) == Scale(Sub(p3, p2), 3.0)
  {
  }

  /**
   * Path data of the shape `M a C c1 c2 b` is one cubic segment: it is drawn
   * from `a` and leaves the current point at `b`.
   */
  lemma {:induction false} MoveCurveEndsAt(a: Point, c1: Point, c2: Point, b: Point, start: Point)
    ensures CurrentPoint([MoveTo(a), CurveTo(c1, c2, b)], start) == b
  {
    var path := [MoveTo(a), CurveTo(c1, c2, b)];
    assert path[1..] == [CurveTo(c1, c2, b)] && path[1..][1..] == [];
    assert CurrentPoint(path, start) == CurrentPoint(path[1..], a);
    assert CurrentPoint(path[1..], a) == CurrentPoint(path[1..][1..], b);
  }
}
