/**
 * The part of an `<svg>` element the routing strategies touch: its `<path>`
 * children, appended once, whose `d` attribute is rewritten on every update.
 */
module Svg {
  import opened Wrappers
  import opened Geometry

  /** A `<path>` child: its presentation attributes and its `d` attribute, absent until set. */
  datatype PathElement = PathElement(stroke: Option<string>, strokeWidth: Option<real>, fill: string, d: Option<Path>)

  /** A stroked, unfilled curve. */
  function LineElement(color: string, width: real): PathElement
  {
    PathElement(Some(color), Some(width), "none", None)
  }

  /** A filled arrow head. */
  function ArrowElement(color: string): PathElement
  {
    PathElement(None, None, color, None)
  }

  class SvgElement {
    var children: seq<PathElement>

    constructor ()
      ensures children == []
    {
      children := [];
    }

    method AppendChild(child: PathElement)
      modifies this
      ensures children == old(children) + [child]
    {
      children := children + [child];
    }

    /** `children[i].setAttribute("d", path)`. */
    method SetPathData(i: nat, path: Path)
      requires i < |children|
      modifies this
      ensures children == old(children)[i := old(children)[i].(d := Some(path))]
    {
      children := children[i := children[i].(d := Some(path))];
    }
  }
}

/**
 * What the routing strategies are given about a port, and the connection
 * utilities they call. The utilities' own definitions are not part of this
 * model: they are passed in as arbitrary functions.
 */
module Ports {
  import opened Geometry

  /**
   * A port as the strategies see it: the rectangle its element currently
   * occupies, its centre function and its declared direction (of type `D`).
   */
  datatype PortPayload<D> = PortPayload(rect: Rect, centerFn: (real, real) -> Point, direction: D)

  /** `ConnectionUtils.getPortCenter`, `getDirectionVector`, `rotate` and `getArrowPath`. */
  datatype ConnectionUtils<!D> = ConnectionUtils(
    getPortCenter: PortPayload<D> -> Point,
    getDirectionVector: (D, real, real) -> Point,
    rotate: (Point, Point, Point) -> Point,
    getArrowPath: (Point, real, real, real, real) -> Path)
}
