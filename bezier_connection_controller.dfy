/**
 * The Bezier routing strategy: control points are the end points pushed
 * along the ports' direction vectors by `curvature`, and optional arrow heads
 * sit at either end. The direction vectors are mirrored by the multipliers
 * that compare the two port centres.
 */
module BezierConnection {
  import opened Wrappers
  import opened Geometry
  import opened Svg
  import opened Ports

  /** The mirror multiplier along one axis: 1 when the source is not past the target, -1 otherwise. */
  function Mult(fromCoord: real, toCoord: real): (r: real)
    ensures r == 1.0 <==> fromCoord <= toCoord
    ensures r == -1.0 <==> fromCoord > toCoord
  {
    if fromCoord <= toCoord then 1.0 else -1.0
  }

  /** Swapping two ports with different coordinates flips the multiplier. */
  lemma MultMirrors(a: real, b: real)
    requires a != b
    ensures Mult(a, b) == -Mult(b, a)
  {
  }

  /** Everything `updateSvg` derives before it writes path data. */
  datatype BezierGeometry = BezierGeometry(
    multX: real, multY: real,
    fromVect: Point, toVect: Point,
    pointBegin: Point, pointEnd: Point,
    controlBegin: Point, controlEnd: Point)

  function ComputeGeometry<D>(utils: ConnectionUtils<D>, curvature: real, arrowLength: real,
                              width: real, height: real,
                              from: PortPayload<D>, to: PortPayload<D>): (g: BezierGeometry)
    ensures g.multX == Mult(utils.getPortCenter(from).x, utils.getPortCenter(to).x)
    ensures g.multY == Mult(utils.getPortCenter(from).y, utils.getPortCenter(to).y)
    ensures g.fromVect == utils.getDirectionVector(from.direction, g.multX, g.multY)
    ensures g.toVect == utils.getDirectionVector(to.direction, g.multX, g.multY)
    ensures g.pointBegin == utils.rotate(Point(arrowLength, 0.0), g.fromVect, Point(0.0, 0.0))
    ensures g.pointEnd == utils.rotate(Point(width - arrowLength, height), g.toVect, Point(width, height))
    ensures Sub(g.controlBegin, g.pointBegin) == Scale(g.fromVect, curvature)
    ensures Sub(g.pointEnd, g.controlEnd) == Scale(g.toVect, curvature)
  {
    var fromCenter := utils.getPortCenter(from);
    var toCenter := utils.getPortCenter(to);
    var multX := Mult(fromCenter.x, toCenter.x);
    var multY := Mult(fromCenter.y, toCenter.y);
    var fromVect := utils.getDirectionVector(from.direction, multX, multY);
    var toVect := utils.getDirectionVector(to.direction, multX, multY);
    var pointBegin := utils.rotate(Point(arrowLength, 0.0), fromVect, Point(0.0, 0.0));
    var pointEnd := utils.rotate(Point(width - arrowLength, height), toVect, Point(width, height));
    var bpb := Point(pointBegin.x + fromVect.x * curvature, pointBegin.y + fromVect.y * curvature);
    var bpe := Point(pointEnd.x - toVect.x * curvature, pointEnd.y - toVect.y * curvature);
    BezierGeometry(multX, multY, fromVect, toVect, pointBegin, pointEnd, bpb, bpe)
  }

  /** `M pointBegin C controlBegin, controlEnd, pointEnd`. */
  function LinePath(g: BezierGeometry): Path
  {
    [MoveTo(g.pointBegin), CurveTo(g.controlBegin, g.controlEnd, g.pointEnd)]
  }

  /**
   * The drawn curve starts at `pointBegin` leaving along the source direction
   * vector, and ends at `pointEnd` arriving along the target direction vector,
   * both with speed proportional to `curvature`.
   */
  lemma LineFollowsDirections<D>(utils: ConnectionUtils<D>, curvature: real, arrowLength: real,
                                 width: real, height: real, from: PortPayload<D>, to: PortPayload<D>)
    ensures var g := ComputeGeometry(utils, curvature, arrowLength, width, height, from, to);
            var p := LinePath(g);
            && |p| == 2 && p[0] == MoveTo(g.pointBegin) && p[1].CurveTo?
            && CubicAt(p[0].p, p[1].c1, p[1].c2, p[1].p, 0.0) == g.pointBegin
            && CubicAt(p[0].p, p[1].c1, p[1].c2, p[1].p, 1.0) == g.pointEnd
            && CurrentPoint(p, Point(0.0, 0.0)) == g.pointEnd
            && CubicTangentAt(p[0].p, p[1].c1, p[1].c2, p[1].p, 0.0) == Scale(g.fromVect, 3.0 * curvature)
            && CubicTangentAt(p[0].p, p[1].c1, p[1].c2, p[1].p, 1.0) == Scale(g.toVect, 3.0 * curvature)
  {
    var g := ComputeGeometry(utils, curvature, arrowLength, width, height, from, to);
    CubicEnds(g.pointBegin, g.controlBegin, g.controlEnd, g.pointEnd);
    MoveCurveEndsAt(g.pointBegin, g.controlBegin, g.controlEnd, g.pointEnd, Point(0.0, 0.0));
  }

  /** What each child of the created `<svg>` draws. */
  datatype ChildRole = LineChild | SourceArrowChild | TargetArrowChild

  /** The children `createSvg` appends: the line, then each arrow that is enabled. */
  function Roles(hasSourceArrow: bool, hasTargetArrow: bool): seq<ChildRole>
  {
    [LineChild]
    + (if hasSourceArrow then [SourceArrowChild] else [])
    + (if hasTargetArrow then [TargetArrowChild] else [])
  }

  /** The index `updateSvg` writes the target arrow to. */
  function TargetArrowIndex(hasSourceArrow: bool): nat
  {
    if hasSourceArrow then 2 else 1
  }

  /**
   * The layout `createSvg` builds and the indices `updateSvg` writes agree:
   * there are 1 + [source] + [target] children, the line is first, the source
   * arrow is child 1 and the target arrow sits at `TargetArrowIndex`.
   */
  lemma RolesMatchUpdateIndices(hasSourceArrow: bool, hasTargetArrow: bool)
    ensures |Roles(hasSourceArrow, hasTargetArrow)| ==
            1 + (if hasSourceArrow then 1 else 0) + (if hasTargetArrow then 1 else 0)
    ensures Roles(hasSourceArrow, hasTargetArrow)[0] == LineChild
    ensures hasSourceArrow ==> Roles(hasSourceArrow, hasTargetArrow)[1] == SourceArrowChild
    ensures hasTargetArrow ==>
              && TargetArrowIndex(hasSourceArrow) < |Roles(hasSourceArrow, hasTargetArrow)|
              && Roles(hasSourceArrow, hasTargetArrow)[TargetArrowIndex(hasSourceArrow)] == TargetArrowChild
    ensures forall i :: 0 < i < |Roles(hasSourceArrow, hasTargetArrow)| ==>
              Roles(hasSourceArrow, hasTargetArrow)[i] != LineChild
  {
  }

  class BezierConnectionController {
    const color: string
    /** The stroke width of the line (the `width` constructor argument). */
    const strokeWidth: real
    const curvature: real
    const arrowLength: real
    const arrowWidth: real
    const hasSourceArrow: bool
    const hasTargetArrow: bool

    constructor (color: string, strokeWidth: real, curvature: real, arrowLength: real, arrowWidth: real,
                 hasSourceArrow: bool, hasTargetArrow: bool)
      ensures this.color == color && this.strokeWidth == strokeWidth && this.curvature == curvature
      ensures this.arrowLength == arrowLength && this.arrowWidth == arrowWidth
      ensures this.hasSourceArrow == hasSourceArrow && this.hasTargetArrow == hasTargetArrow
    {
      this.color := color;
      this.strokeWidth := strokeWidth;
      this.curvature := curvature;
      this.arrowLength := arrowLength;
      this.arrowWidth := arrowWidth;
      this.hasSourceArrow := hasSourceArrow;
      this.hasTargetArrow := hasTargetArrow;
    }

    /** The element for a child of the given role. */
    function ElementFor(role: ChildRole): PathElement
    {
      if role == LineChild then LineElement(color, strokeWidth) else ArrowElement(color)
    }

    method CreateSvg() returns (svg: SvgElement)
      ensures fresh(svg)
      ensures |svg.children| == |Roles(hasSourceArrow, hasTargetArrow)|
      ensures forall i :: 0 <= i < |svg.children| ==>
                svg.children[i] == ElementFor(Roles(hasSourceArrow, hasTargetArrow)[i])
    {
      svg := new SvgElement();
      svg.AppendChild(LineElement(color, strokeWidth));
      if hasSourceArrow {
        svg.AppendChild(ArrowElement(color));
      }
      if hasTargetArrow {
        svg.AppendChild(ArrowElement(color));
      }
    }

    /**
     * Rewrite the `d` attribute of the line and of each enabled arrow for a
     * connection whose box is `width` by `height`.
     */
    method UpdateSvg<D>(svg: SvgElement, width: real, height: real,
                        from: PortPayload<D>, to: PortPayload<D>, utils: ConnectionUtils<D>)
      requires |Roles(hasSourceArrow, hasTargetArrow)| <= |svg.children|
      modifies svg
      ensures |svg.children| == |old(svg.children)|
      ensures var g := ComputeGeometry(utils, curvature, arrowLength, width, height, from, to);
              && svg.children[0].d == Some(LinePath(g))
              && (hasSourceArrow ==>
                    svg.children[1].d == Some(utils.getArrowPath(g.fromVect, 0.0, 0.0, arrowLength, arrowWidth)))
              && (hasTargetArrow ==>
                    svg.children[TargetArrowIndex(hasSourceArrow)].d
                    == Some(utils.getArrowPath(g.toVect, width, height, -arrowLength, arrowWidth)))
      ensures forall i :: 0 <= i < |svg.children| ==>
                svg.children[i] == old(svg.children[i]).(d := svg.children[i].d)
      ensures forall i :: |Roles(hasSourceArrow, hasTargetArrow)| <= i < |svg.children| ==>
                svg.children[i] == old(svg.children[i])
    {
      var g := ComputeGeometry(utils, curvature, arrowLength, width, height, from, to);
      svg.SetPathData(0, LinePath(g));
      if hasSourceArrow {
        var arrowPath := utils.getArrowPath(g.fromVect, 0.0, 0.0, arrowLength, arrowWidth);
        svg.SetPathData(1, arrowPath);
      }
      if hasTargetArrow {
        var arrowPath := utils.getArrowPath(g.toVect, width, height, -arrowLength, arrowWidth);
        svg.SetPathData(if hasSourceArrow then 2 else 1, arrowPath);
      }
    }
  }
}
