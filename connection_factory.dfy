/**
 * Resolution of the connection routing strategy from the user's connection
 * options: a caller-supplied factory, a straight-line controller or, for any
 * other type, a Bezier controller, each option falling back to its default.
 */
module ConnectionFactory {
  import opened Wrappers

  const DefaultColor: string := "#5c5c5c"
  const DefaultWidth: real := 1.0
  const DefaultCurvature: real := 90.0
  const DefaultArrowLength: real := 15.0
  const DefaultArrowWidth: real := 4.0
  const DefaultHasSourceArrow: bool := false
  const DefaultHasTargetArrow: bool := true

  /**
   * The connection options as the caller passed them. `kind` is the `type`
   * field; every other field may be absent. `F` is the type of a
   * caller-supplied controller factory.
   */
  datatype ConnectionOptions<F> = ConnectionOptions(
    kind: Option<string>,
    controllerFactory: Option<F>,
    color: Option<string>,
    width: Option<real>,
    curvature: Option<real>,
    arrowLength: Option<real>,
    arrowWidth: Option<real>,
    hasSourceArrow: Option<bool>,
    hasTargetArrow: Option<bool>)

  /** The constructor arguments of `LineConnectionController`. */
  datatype LineParams = LineParams(
    color: string, width: real, arrowLength: real, arrowWidth: real,
    hasSourceArrow: bool, hasTargetArrow: bool)

  /** The constructor arguments of `BezierConnectionController`. */
  datatype BezierParams = BezierParams(
    color: string, width: real, curvature: real, arrowLength: real, arrowWidth: real,
    hasSourceArrow: bool, hasTargetArrow: bool)

  /**
   * The resolved factory: the caller's own (as given, possibly absent), or a
   * closure that builds a built-in controller from fixed arguments.
   */
  datatype ControllerFactory<F> =
    | Supplied(factory: Option<F>)
    | LineFactory(line: LineParams)
    | BezierFactory(bezier: BezierParams)

  function ResolveConnectionControllerFactory<F>(options: ConnectionOptions<F>): (r: ControllerFactory<F>)
    ensures options.kind == Some("custom") <==> r.Supplied?
    ensures options.kind == Some("line") <==> r.LineFactory?
    ensures r.Supplied? ==> r.factory == options.controllerFactory
    ensures r.LineFactory? ==>
              && (options.color.Some? ==> r.line.color == options.color.value)
              && (options.color.None? ==> r.line.color == DefaultColor)
              && (options.width.Some? ==> r.line.width == options.width.value)
              && (options.width.None? ==> r.line.width == DefaultWidth)
              && (options.arrowLength.Some? ==> r.line.arrowLength == options.arrowLength.value)
              && (options.arrowLength.None? ==> r.line.arrowLength == DefaultArrowLength)
              && (options.arrowWidth.Some? ==> r.line.arrowWidth == options.arrowWidth.value)
              && (options.arrowWidth.None? ==> r.line.arrowWidth == DefaultArrowWidth)
              && (options.hasSourceArrow.Some? ==> r.line.hasSourceArrow == options.hasSourceArrow.value)
              && (options.hasSourceArrow.None? ==> !r.line.hasSourceArrow)
              && (options.hasTargetArrow.Some? ==> r.line.hasTargetArrow == options.hasTargetArrow.value)
              && (options.hasTargetArrow.None? ==> r.line.hasTargetArrow)
    ensures r.BezierFactory? ==>
              && (options.color.Some? ==> r.bezier.color == options.color.value)
              && (options.color.None? ==> r.bezier.color == DefaultColor)
              && (options.width.Some? ==> r.bezier.width == options.width.value)
              && (options.width.None? ==> r.bezier.width == DefaultWidth)
              && (options.curvature.Some? ==> r.bezier.curvature == options.curvature.value)
              && (options.curvature.None? ==> r.bezier.curvature == DefaultCurvature)
              && (options.arrowLength.Some? ==> r.bezier.arrowLength == options.arrowLength.value)
              && (options.arrowLength.None? ==> r.bezier.arrowLength == DefaultArrowLength)
              && (options.arrowWidth.Some? ==> r.bezier.arrowWidth == options.arrowWidth.value)
              && (options.arrowWidth.None? ==> r.bezier.arrowWidth == DefaultArrowWidth)
              && (options.hasSourceArrow.Some? ==> r.bezier.hasSourceArrow == options.hasSourceArrow.value)
              && (options.hasSourceArrow.None? ==> !r.bezier.hasSourceArrow)
              && (options.hasTargetArrow.Some? ==> r.bezier.hasTargetArrow == options.hasTargetArrow.value)
              && (options.hasTargetArrow.None? ==> r.bezier.hasTargetArrow)
  {
    if options.kind == Some("custom") then
      Supplied(options.controllerFactory)
    else if options.kind == Some("line") then
      LineFactory(LineParams(
        options.color.GetOr(DefaultColor),
        options.width.GetOr(DefaultWidth),
        options.arrowLength.GetOr(DefaultArrowLength),
        options.arrowWidth.GetOr(DefaultArrowWidth),
        options.hasSourceArrow.GetOr(DefaultHasSourceArrow),
        options.hasTargetArrow.GetOr(DefaultHasTargetArrow)))
    else
      BezierFactory(BezierParams(
        options.color.GetOr(DefaultColor),
        options.width.GetOr(DefaultWidth),
        options.curvature.GetOr(DefaultCurvature),
        options.arrowLength.GetOr(DefaultArrowLength),
        options.arrowWidth.GetOr(DefaultArrowWidth),
        options.hasSourceArrow.GetOr(DefaultHasSourceArrow),
        options.hasTargetArrow.GetOr(DefaultHasTargetArrow)))
  }

  /**
   * Two built-in strategies resolved from the same styling options differ
   * only in the Bezier curvature: colour, width, arrow sizes and arrow flags
   * agree.
   */
  lemma LineAndBezierShareStyling<F>(options: ConnectionOptions<F>, kindA: Option<string>, kindB: Option<string>)
    requires kindA == Some("line")
    requires kindB != Some("line") && kindB != Some("custom")
    ensures var a := ResolveConnectionControllerFactory(options.(kind := kindA)).line;
            var b := ResolveConnectionControllerFactory(options.(kind := kindB)).bezier;
            a.color == b.color && a.width == b.width && a.arrowLength == b.arrowLength
            && a.arrowWidth == b.arrowWidth && a.hasSourceArrow == b.hasSourceArrow
            && a.hasTargetArrow == b.hasTargetArrow
  {
  }
}
