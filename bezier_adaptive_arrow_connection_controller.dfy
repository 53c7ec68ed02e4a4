/**
 * The adaptive Bezier routing strategy: when the source port's centre is
 * left of the target's, a direct curve with the arrow head pointing right;
 * otherwise a curve that swings out backwards and an arrow head pointing
 * left. Paths are laid out in the connection's canonical box, from (0, 0)
 * to (width, height).
 */
module BezierAdaptiveArrow {
  import opened Wrappers
  import opened Geometry
  import opened Svg
  import opened Ports

  datatype Mode = Direct | Adaptive

  /** The port's rectangle origin plus what its centre function gives for the rectangle's size. */
  function PortCenter<D>(port: PortPayload<D>): Point
  {
    var center := port.centerFn(port.rect.width, port.rect.height);
    Point(port.rect.left + center.x, port.rect.top + center.y)
  }

  /** The centre moves with the port's rectangle. */
  lemma PortCenterOffset<D>(port: PortPayload<D>, v: Point)
    ensures PortCenter(port.(rect := Translate(port.rect, v))) == Add(PortCenter(port), v)
  {
  }

  function SelectMode(fromCenter: Point, toCenter: Point): (m: Mode)
    ensures m == Direct <==> fromCenter.x < toCenter.x
    ensures m == Adaptive <==> fromCenter.x >= toCenter.x
  {
    if fromCenter.x < toCenter.x then Direct else Adaptive
  }

  /**
   * The mode depends only on where the ports are relative to each other:
   * moving both by the same vector keeps it; swapping ports with different
   * x picks the other mode; ports with equal x are adaptive both ways.
   */
  lemma ModeIsRelative<D>(from: PortPayload<D>, to: PortPayload<D>, v: Point)
    ensures SelectMode(PortCenter(from.(rect := Translate(from.rect, v))), PortCenter(to.(rect := Translate(to.rect, v))))
            == SelectMode(PortCenter(from), PortCenter(to))
    ensures PortCenter(from).x != PortCenter(to).x ==>
              SelectMode(PortCenter(from), PortCenter(to)) != SelectMode(PortCenter(to), PortCenter(from))
    ensures PortCenter(from).x == PortCenter(to).x ==>
              SelectMode(PortCenter(from), PortCenter(to)) == Adaptive == SelectMode(PortCenter(to), PortCenter(from))
  {
    PortCenterOffset(from, v);
    PortCenterOffset(to, v);
  }

  function DirectLinePath(curvature: real, arrowLength: real, width: real, height: real): Path
  {
    [MoveTo(Point(0.0, 0.0)),
     CurveTo(Point(width * curvature, 0.0),
             Point(width * (1.0 - curvature) - arrowLength, height),
             Point(width - arrowLength, height))]
  }

  function DirectArrowPath(arrowLength: real, arrowWidth: real, width: real, height: real): Path
  {
    [MoveTo(Point(width, height)),
     LineTo(Point(width - arrowLength, height - arrowWidth)),
     LineTo(Point(width - arrowLength, height + arrowWidth))]
  }

  function AdaptiveLinePath(adaptiveCurvature: real, arrowLength: real, width: real, height: real): Path
  {
    [MoveTo(Point(0.0, 0.0)),
     CurveTo(Point(-width * adaptiveCurvature, 0.0),
             Point(width * (1.0 + adaptiveCurvature) + arrowLength, height),
             Point(width + arrowLength, height))]
  }

  function AdaptiveArrowPath(arrowLength: real, arrowWidth: real, width: real, height: real): Path
  {
    [MoveTo(Point(width, height)),
     LineTo(Point(width + arrowLength, height - arrowWidth)),
     LineTo(Point(width + arrowLength, height + arrowWidth))]
  }

  /**
   * `arrow` is a wedge with its tip at `tip`, its base centred on `baseMid`,
   * the base perpendicular to the x axis and `halfWidth` wide on each side.
   */
  predicate Wedge(arrow: Path, tip: Point, baseMid: Point, halfWidth: real)
  {
    && |arrow| == 3
    && arrow[0] == MoveTo(tip)
    && arrow[1] == LineTo(Point(baseMid.x, baseMid.y - halfWidth))
    && arrow[2] == LineTo(Point(baseMid.x, baseMid.y + halfWidth))
  }

  /** `line` is `M start C c1 c2 end`. */
  predicate SingleCurve(line: Path)
  {
    |line| == 2 && line[0].MoveTo? && line[1].CurveTo?
  }

  function StartTangent(line: Path): Point
    requires SingleCurve(line)
  {
    CubicTangentAt(line[0].p, line[1].c1, line[1].c2, line[1].p, 0.0)
  }

  function EndTangent(line: Path): Point
    requires SingleCurve(line)
  {
    CubicTangentAt(line[0].p, line[1].c1, line[1].c2, line[1].p, 1.0)
  }

  /**
   * Direct mode: the curve runs from the box's origin to the centre of the
   * arrow's base, `arrowLength` left of the tip at (width, height); it leaves
   * and arrives horizontally; the wedge is symmetric about y = height.
   */
  lemma DirectShape(curvature: real, arrowLength: real, arrowWidth: real, width: real, height: real)
    ensures var line := DirectLinePath(curvature, arrowLength, width, height);
            var arrow := DirectArrowPath(arrowLength, arrowWidth, width, height);
            && SingleCurve(line)
            && line[0].p == Point(0.0, 0.0)
            && CurrentPoint(line, Point(0.0, 0.0)) == Point(width - arrowLength, height)
            && Wedge(arrow, Point(width, height), Point(width - arrowLength, height), arrowWidth)
            && StartTangent(line) == Point(3.0 * width * curvature, 0.0)
            && EndTangent(line) == Point(3.0 * width * curvature, 0.0)
  {
    var line := DirectLinePath(curvature, arrowLength, width, height);
    CubicEnds(line[0].p, line[1].c1, line[1].c2, line[1].p);
    MoveCurveEndsAt(line[0].p, line[1].c1, line[1].c2, line[1].p, Point(0.0, 0.0));
  }

  /**
   * Adaptive mode: the curve ends `arrowLength` right of the tip at
   * (width, height), on the centre of the arrow's base, so the arrow offset
   * has the opposite sign to direct mode; it leaves backwards (towards
   * negative x) and arrives heading left; the wedge is symmetric about
   * y = height.
   */
  lemma AdaptiveShape(adaptiveCurvature: real, arrowLength: real, arrowWidth: real, width: real, height: real)
    ensures var line := AdaptiveLinePath(adaptiveCurvature, arrowLength, width, height);
            var arrow := AdaptiveArrowPath(arrowLength, arrowWidth, width, height);
            && SingleCurve(line)
            && line[0].p == Point(0.0, 0.0)
            && CurrentPoint(line, Point(0.0, 0.0)) == Point(width + arrowLength, height)
            && Wedge(arrow, Point(width, height), Point(width + arrowLength, height), arrowWidth)
            && StartTangent(line) == Point(-3.0 * width * adaptiveCurvature, 0.0)
            && EndTangent(line) == Point(-3.0 * width * adaptiveCurvature, 0.0)
  {
    var line := AdaptiveLinePath(adaptiveCurvature, arrowLength, width, height);
    CubicEnds(line[0].p, line[1].c1, line[1].c2, line[1].p);
    MoveCurveEndsAt(line[0].p, line[1].c1, line[1].c2, line[1].p, Point(0.0, 0.0));
  }

  /**
   * With non-negative box width and curvatures, the two modes bow in
   * mirrored senses: the direct curve leaves towards the target (x grows),
   * the adaptive curve leaves away from it. In both modes the curve arrives
   * heading towards the arrow tip.
   */
  lemma ModesBowOpposite(curvature: real, adaptiveCurvature: real, arrowLength: real, width: real, height: real)
    requires width >= 0.0 && curvature >= 0.0 && adaptiveCurvature >= 0.0 && arrowLength >= 0.0
    ensures StartTangent(DirectLinePath(curvature, arrowLength, width, height)).x >= 0.0
    ensures StartTangent(AdaptiveLinePath(adaptiveCurvature, arrowLength, width, height)).x <= 0.0
    ensures EndTangent(DirectLinePath(curvature, arrowLength, width, height)).x
            * (width - CurrentPoint(DirectLinePath(curvature, arrowLength, width, height), Point(0.0, 0.0)).x) >= 0.0
    ensures EndTangent(AdaptiveLinePath(adaptiveCurvature, arrowLength, width, height)).x
            * (width - CurrentPoint(AdaptiveLinePath(adaptiveCurvature, arrowLength, width, height), Point(0.0, 0.0)).x) >= 0.0
  {
    DirectShape(curvature, arrowLength, 0.0, width, height);
    AdaptiveShape(adaptiveCurvature, arrowLength, 0.0, width, height);
    assert width * curvature >= 0.0;
    assert width * adaptiveCurvature >= 0.0;
    assert (3.0 * width * curvature) * arrowLength >= 0.0;
    assert (-3.0 * width * adaptiveCurvature) * (-arrowLength) >= 0.0;
  }

  class BezierAdaptiveArrowConnectionController {
    const color: string
    const curvature: real
    const adaptiveCurvature: real
    const arrowLength: real
    const arrowWidth: real

    constructor (color: string, curvature: real, adaptiveCurvature: real, arrowLength: real, arrowWidth: real)
      ensures this.color == color && this.curvature == curvature && this.adaptiveCurvature == adaptiveCurvature
      ensures this.arrowLength == arrowLength && this.arrowWidth == arrowWidth
    {
      this.color := color;
      this.curvature := curvature;
      this.adaptiveCurvature := adaptiveCurvature;
      this.arrowLength := arrowLength;
      this.arrowWidth := arrowWidth;
    }

    /** A line of stroke width 1 followed by one arrow head. */
    method CreateSvg() returns (svg: SvgElement)
      ensures fresh(svg)
      ensures svg.children == [LineElement(color, 1.0), ArrowElement(color)]
    {
      svg := new SvgElement();
      svg.AppendChild(LineElement(color, 1.0));
      svg.AppendChild(ArrowElement(color));
    }

    method UpdateSvg<D>(svg: SvgElement, width: real, height: real, from: PortPayload<D>, to: PortPayload<D>)
      requires 2 <= |svg.children|
      modifies svg
      ensures |svg.children| == |old(svg.children)|
      ensures SelectMode(PortCenter(from), PortCenter(to)) == Direct ==>
                && svg.children[0].d == Some(DirectLinePath(curvature, arrowLength, width, height))
                && svg.children[1].d == Some(DirectArrowPath(arrowLength, arrowWidth, width, height))
      ensures SelectMode(PortCenter(from), PortCenter(to)) == Adaptive ==>
                && svg.children[0].d == Some(AdaptiveLinePath(adaptiveCurvature, arrowLength, width, height))
                && svg.children[1].d == Some(AdaptiveArrowPath(arrowLength, arrowWidth, width, height))
      ensures forall i :: 0 <= i < |svg.children| ==>
                svg.children[i] == old(svg.children[i]).(d := svg.children[i].d)
      ensures forall i :: 2 <= i < |svg.children| ==> svg.children[i] == old(svg.children[i])
    {
      var fromCenter := PortCenter(from);
      var toCenter := PortCenter(to);
      if fromCenter.x < toCenter.x {
        UpdateDirect(svg, width, height);
      } else {
        UpdateAdaptive(svg, width, height);
      }
    }

    method UpdateDirect(svg: SvgElement, width: real, height: real)
      requires 2 <= |svg.children|
      modifies svg
      ensures svg.children == old(svg.children)
                [0 := old(svg.children)[0].(d := Some(DirectLinePath(curvature, arrowLength, width, height)))]
                [1 := old(svg.children)[1].(d := Some(DirectArrowPath(arrowLength, arrowWidth, width, height)))]
    {
      svg.SetPathData(0, DirectLinePath(curvature, arrowLength, width, height));
      svg.SetPathData(1, DirectArrowPath(arrowLength, arrowWidth, width, height));
    }

    method UpdateAdaptive(svg: SvgElement, width: real, height: real)
      requires 2 <= |svg.children|
      modifies svg
      ensures svg.children == old(svg.children)
                [0 := old(svg.children)[0].(d := Some(AdaptiveLinePath(adaptiveCurvature, arrowLength, width, height)))]
                [1 := old(svg.children)[1].(d := Some(AdaptiveArrowPath(arrowLength, arrowWidth, width, height)))]
    {
      svg.SetPathData(0, AdaptiveLinePath(adaptiveCurvature, arrowLength, width, height));
      svg.SetPathData(1, AdaptiveArrowPath(arrowLength, arrowWidth, width, height));
    }
  }
}
