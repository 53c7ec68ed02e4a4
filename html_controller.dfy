/**
 * The HTML controller: it turns pointer, wheel and touch input into
 * event-bus events, keeps the grab and pinch state between inputs, stacks
 * node wrappers and connection elements with a running z-index, and lays out
 * each connection's box. The DOM is reduced to the state these decisions
 * read and write.
 */
module HtmlControllers {
  import opened Wrappers
  import opened Geometry
  import opened GraphEvents
  import BezierConnection

  datatype LayersMode = ConnectionsOnTop | ConnectionsFollowNode | NodesOnTop

  /** The options the controller reads; `scaleTrigger` is compared with the trigger names. */
  datatype Options = Options(
    scaleEnabled: bool,
    scaleTrigger: string,
    shiftEnabled: bool,
    nodesDraggable: bool,
    layersMode: LayersMode)

  /** A handle on a node's element. */
  type Element = nat

  /** The fields of a mouse event the handlers read. */
  datatype MouseInput = MouseInput(button: int, buttons: int, movementX: real, movementY: real)

  /** The fields of a wheel event the handler reads. */
  datatype WheelInput = WheelInput(client: Point, deltaY: real, ctrlKey: bool, shiftKey: bool)

  /** A child of a container: a node's wrapper, a bare node element, or a connection's `<svg>`. */
  datatype DomNode = WrapperOf(nodeId: string) | ElementNode(element: Element) | ConnectionNode(connectionId: string)

  /** The exceptions a handler or a DOM call can throw. */
  datatype Exception = NotFoundError | TypeError

  /** `parent.removeChild(child)` on a parent whose children are `children`. */
  function RemoveChild(children: set<DomNode>, child: DomNode): (r: Option<set<DomNode>>)
    ensures r.Some? <==> child in children
    ensures r.Some? ==> r.value == children - {child} && child !in r.value
  {
    if child in children then Some(children - {child}) else None
  }

  /** A node's wrapper: the node element it holds, its z-index and its translation. */
  datatype Wrapper = Wrapper(element: Element, zIndex: int, translate: Point)

  /** `matrix(scaleX, 0, 0, scaleY, x, y)`. */
  datatype Transform = Transform(scaleX: real, scaleY: real, x: real, y: real)

  /** A connection element's z-index and transform (absent until first laid out). */
  datatype ConnectionStyle = ConnectionStyle(zIndex: int, transform: Option<Transform>)

  /*
   * Pure arithmetic of the handlers and of the layout.
   */

  function Min(a: real, b: real): real { if a <= b then a else b }

  function Max(a: real, b: real): real { if a <= b then b else a }

  function Abs(a: real): real { if a < 0.0 then -a else a }

  /** A client point relative to the host's top-left corner. */
  function HostRelative(client: Point, hostOrigin: Point): Point
  {
    Point(client.x - hostOrigin.x, client.y - hostOrigin.y)
  }

  /** Whether the wheel event carries the modifier keys the configured trigger asks for. */
  function TriggerSatisfied(trigger: string, ctrlKey: bool, shiftKey: bool): (ok: bool)
    ensures trigger == "ctrl+wheel" ==> (ok <==> ctrlKey)
    ensures trigger == "shift+wheel" ==> (ok <==> shiftKey)
    ensures trigger == "ctrl+shift+wheel" ==> (ok <==> ctrlKey && shiftKey)
    ensures trigger != "ctrl+wheel" && trigger != "shift+wheel" && trigger != "ctrl+shift+wheel" ==> ok
  {
    if (trigger == "ctrl+wheel" || trigger == "ctrl+shift+wheel") && !ctrlKey then false
    else if (trigger == "shift+wheel" || trigger == "ctrl+shift+wheel") && !shiftKey then false
    else true
  }

  /**
   * The scale a pinch move reports: the distance ratio to the baseline,
   * times the current scale, over the scale at the baseline. A zero divisor
   * makes the JavaScript number infinite or NaN.
   */
  function PinchScale(distance: real, baselineDistance: real, currentScale: real, baselineScale: real): (r: Number)
    ensures r.Finite? <==> baselineDistance != 0.0 && baselineScale != 0.0
    ensures r.Finite? ==> r.value * baselineDistance * baselineScale == distance * currentScale
  {
    if baselineDistance == 0.0 || baselineScale == 0.0 then NotFinite
    else Finite(distance / baselineDistance * currentScale / baselineScale)
  }

  /**
   * At the baseline distance with the scale unchanged since the baseline, the
   * pinch reports a factor of exactly 1; doubling the distance doubles it.
   */
  lemma PinchScaleIsRelative(distance: real, baselineDistance: real, scale: real)
    requires baselineDistance != 0.0 && scale != 0.0
    ensures PinchScale(baselineDistance, baselineDistance, scale, scale) == Finite(1.0)
    ensures PinchScale(2.0 * distance, baselineDistance, scale, scale).value
            == 2.0 * PinchScale(distance, baselineDistance, scale, scale).value
  {
    var r := PinchScale(distance, baselineDistance, scale, scale).value;
    var r2 := PinchScale(2.0 * distance, baselineDistance, scale, scale).value;
    assert r * baselineDistance * scale == distance * scale;
    assert r2 * baselineDistance * scale == 2.0 * distance * scale;
    assert r2 * (baselineDistance * scale) == (2.0 * r) * (baselineDistance * scale);
  }

  /** The translation that puts the node's anchor, `centre` scaled by `sa` inside the wrapper, on (x, y). */
  function NodeTranslate(x: real, y: real, sa: real, center: Point): (t: Point)
    ensures Add(t, Scale(center, sa)) == Point(x, y)
  {
    Point(x - sa * center.x, y - sa * center.y)
  }

  /** Moving the node by (dx, dy) moves its wrapper by exactly (dx, dy). */
  lemma NodeTranslateFollowsNode(x: real, y: real, dx: real, dy: real, sa: real, center: Point)
    ensures NodeTranslate(x + dx, y + dy, sa, center) == Add(NodeTranslate(x, y, sa, center), Point(dx, dy))
  {
  }

  /**
   * A port as `updateConnectionCoords` reads it: the absolute coordinates of
   * its rectangle's top-left corner (as the viewport transformer converts
   * them), the rectangle's size and the port's centre function.
   */
  datatype PortGeometry = PortGeometry(absOrigin: Point, width: real, height: real, centerFn: (real, real) -> Point)

  datatype ConnectionPorts = ConnectionPorts(from: PortGeometry, to: PortGeometry)

  function AbsoluteCenter(port: PortGeometry, sa: real): Point
  {
    Add(port.centerFn(port.width * sa, port.height * sa), port.absOrigin)
  }

  /** The connection element's box and whether each axis keeps its orientation. */
  datatype ConnectionBox = ConnectionBox(x: real, y: real, width: real, height: real, flipHor: bool, flipVert: bool)

  function ComputeConnectionBox(from: Point, to: Point): (b: ConnectionBox)
    ensures b.x == Min(from.x, to.x) && b.y == Min(from.y, to.y)
    ensures b.width >= 0.0 && b.height >= 0.0
    ensures b.x + b.width == Max(from.x, to.x) && b.y + b.height == Max(from.y, to.y)
    ensures b.flipHor <==> from.x <= to.x
    ensures b.flipVert <==> from.y <= to.y
  {
    ConnectionBox(Min(from.x, to.x), Min(from.y, to.y), Abs(to.x - from.x), Abs(to.y - from.y),
                  from.x <= to.x, from.y <= to.y)
  }

  /** The box's corner at which an end point sits, given the orientation flags. */
  function FromCorner(b: ConnectionBox): Point
  {
    Point(if b.flipHor then b.x else b.x + b.width, if b.flipVert then b.y else b.y + b.height)
  }

  function ToCorner(b: ConnectionBox): Point
  {
    Point(if b.flipHor then b.x + b.width else b.x, if b.flipVert then b.y + b.height else b.y)
  }

  /**
   * The box and its flags lose nothing: the source centre is the corner the
   * flags select and the target centre the opposite one.
   */
  lemma BoxRecoversEndpoints(from: Point, to: Point)
    ensures FromCorner(ComputeConnectionBox(from, to)) == from
    ensures ToCorner(ComputeConnectionBox(from, to)) == to
  {
  }

  /**
   * The element's orientation flags agree with the mirror multipliers the
   * Bezier strategy derives from the same two centres.
   */
  lemma FlipsAgreeWithMultipliers(from: Point, to: Point)
    ensures ComputeConnectionBox(from, to).flipHor <==> BezierConnection.Mult(from.x, to.x) == 1.0
    ensures ComputeConnectionBox(from, to).flipVert <==> BezierConnection.Mult(from.y, to.y) == 1.0
  {
  }

  function TransformOf(b: ConnectionBox): Transform
  {
    Transform(if b.flipHor then 1.0 else -1.0, if b.flipVert then 1.0 else -1.0, b.x, b.y)
  }

  function GrabViewportEvent(): GraphEvent { GraphEvent(GrabViewport, None) }

  function ReleaseEvent(): GraphEvent { GraphEvent(Release, None) }

  function GrabNodeEvent(nodeId: string): GraphEvent
  {
    GraphEvent(GrabNode, Some(GrabNodePayload(nodeId)))
  }

  function DragNodeEvent(nodeId: string, dx: real, dy: real): GraphEvent
  {
    GraphEvent(DragNode, Some(DragNodePayload(nodeId, dx, dy)))
  }

  function DragViewportEvent(dx: real, dy: real): GraphEvent
  {
    GraphEvent(DragViewport, Some(DragViewportPayload(dx, dy)))
  }

  /** The wrappers of the given nodes. */
  function WrapperNodes(ids: set<string>): set<DomNode>
  {
    set id | id in ids :: WrapperOf(id)
  }

  /** The `<svg>` elements of the given connections. */
  function ConnectionNodes(ids: set<string>): set<DomNode>
  {
    set id | id in ids :: ConnectionNode(id)
  }

  /** Adding or removing one node adds or removes exactly its wrapper. */
  lemma WrapperNodesUpdate(ids: set<string>, id: string)
    ensures WrapperNodes(ids + {id}) == WrapperNodes(ids) + {WrapperOf(id)}
    ensures WrapperNodes(ids - {id}) == WrapperNodes(ids) - {WrapperOf(id)}
    ensures WrapperNodes({}) == {}
  {
  }

  class HtmlController {
    const options: Options

    var nodeElementToIdMap: map<Element, string>
    /** `nodeIdToWrapperElementMap` (and its inverse) with each wrapper's state. */
    var nodeWrappers: map<string, Wrapper>
    var nodesContainerChildren: set<DomNode>
    /** The children of the connections container while it is a container of its own. */
    var connectionsContainerChildren: set<DomNode>
    /** `connectionIdToElementMap` with each element's style. */
    var connectionElements: map<string, ConnectionStyle>

    var grabbedNodeId: Option<string>
    var touch1: Option<Point>
    var touch2Distance: Option<real>
    var touch2Scale: real
    var currentZIndex: int

    /**
     * In "connections-follow-node" mode the connections container is the
     * nodes container itself, so connection elements are appended to and
     * removed from the nodes container.
     */
    predicate SharedContainer()
    {
      options.layersMode == ConnectionsFollowNode
    }

    /** The children of whichever container connection elements go into. */
    function ConnectionsContainer(): set<DomNode>
      reads this`nodesContainerChildren, this`connectionsContainerChildren
    {
      if SharedContainer() then nodesContainerChildren else connectionsContainerChildren
    }

    /** No stacked element is above the running z-index. */
    ghost predicate ZIndexBounded()
      reads this`nodeWrappers, this`connectionElements, this`currentZIndex
    {
      && (forall id :: id in nodeWrappers ==> nodeWrappers[id].zIndex <= currentZIndex)
      && (forall id :: id in connectionElements ==> connectionElements[id].zIndex <= currentZIndex)
    }

    /** The element map and the wrapper map describe the same attached nodes. */
    ghost predicate NodeMapsAgree()
      reads this`nodeWrappers, this`nodeElementToIdMap
    {
      && (forall id :: id in nodeWrappers ==>
            nodeWrappers[id].element in nodeElementToIdMap && nodeElementToIdMap[nodeWrappers[id].element] == id)
      && (forall e :: e in nodeElementToIdMap ==>
            nodeElementToIdMap[e] in nodeWrappers && nodeWrappers[nodeElementToIdMap[e]].element == e)
    }

    /**
     * The nodes container holds exactly the attached nodes' wrappers and,
     * when it is shared, the attached connections' elements; otherwise the
     * connections container holds exactly those.
     */
    ghost predicate ContainersHold()
      reads this`nodesContainerChildren, this`connectionsContainerChildren, this`nodeWrappers, this`connectionElements
    {
      && nodesContainerChildren == WrapperNodes(nodeWrappers.Keys)
                                   + (if SharedContainer() then ConnectionNodes(connectionElements.Keys) else {})
      && connectionsContainerChildren == (if SharedContainer() then {} else ConnectionNodes(connectionElements.Keys))
    }

    /** The controller's invariant. */
    ghost predicate Valid()
      reads this
    {
      ZIndexBounded() && NodeMapsAgree() && ContainersHold()
    }

    constructor (options: Options)
      ensures this.options == options && Valid()
      ensures grabbedNodeId == None && touch1 == None && touch2Distance == None && touch2Scale == 1.0
      ensures currentZIndex == 0
      ensures nodeElementToIdMap == map[] && nodeWrappers == map[] && nodesContainerChildren == {}
      ensures connectionElements == map[] && connectionsContainerChildren == {}
    {
      this.options := options;
      nodeElementToIdMap := map[];
      nodeWrappers := map[];
      nodesContainerChildren := {};
      connectionsContainerChildren := {};
      connectionElements := map[];
      grabbedNodeId := None;
      touch1 := None;
      touch2Distance := None;
      touch2Scale := 1.0;
      currentZIndex := 0;
    }

    /*
     * Input handlers. Each returns the events it dispatches, in order.
     */

    /** A primary press on the host grabs the viewport when shifting is enabled. */
    method OnPointerDown(input: MouseInput) returns (events: seq<GraphEvent>)
      ensures events != [] <==> input.button == 0 && options.shiftEnabled
      ensures events != [] ==> events == [GrabViewportEvent()]
    {
      events := [];
      if input.button != 0 {
        return;
      }
      if !options.shiftEnabled {
        return;
      }
      events := [GrabViewportEvent()];
    }

    /**
     * A move with only the primary button held drags the grabbed node, or the
     * viewport when no node is grabbed; never both.
     */
    method OnPointerMove(input: MouseInput) returns (events: seq<GraphEvent>)
      ensures |events| <= 1
      ensures (!(input.buttons == 1 && ((grabbedNodeId.Some? && options.nodesDraggable)
                                       || (grabbedNodeId.None? && options.shiftEnabled))))
              ==> events == []
      ensures (|events| == 1 && events[0].eventType == DragNode)
              <==> input.buttons == 1 && grabbedNodeId.Some? && options.nodesDraggable
      ensures (|events| == 1 && events[0].eventType == DragViewport)
              <==> input.buttons == 1 && grabbedNodeId.None? && options.shiftEnabled
      ensures |events| == 1 && events[0].eventType == DragNode ==>
                events[0] == DragNodeEvent(grabbedNodeId.value, input.movementX, input.movementY)
      ensures |events| == 1 && events[0].eventType == DragViewport ==>
                events[0] == DragViewportEvent(input.movementX, input.movementY)
    {
      events := [];
      if input.buttons != 1 {
        return;
      }
      if grabbedNodeId.Some? {
        if !options.nodesDraggable {
          return;
        }
        events := [DragNodeEvent(grabbedNodeId.value, input.movementX, input.movementY)];
      } else {
        if !options.shiftEnabled {
          return;
        }
        events := [DragViewportEvent(input.movementX, input.movementY)];
      }
    }

    /** A primary release on the host drops any grabbed node and signals the release. */
    method OnPointerUp(input: MouseInput) returns (events: seq<GraphEvent>)
      modifies this`grabbedNodeId
      ensures input.button == 0 && options.shiftEnabled ==> grabbedNodeId == None && events == [ReleaseEvent()]
      ensures !(input.button == 0 && options.shiftEnabled) ==> grabbedNodeId == old(grabbedNodeId) && events == []
    {
      events := [];
      if input.button != 0 {
        return;
      }
      if !options.shiftEnabled {
        return;
      }
      grabbedNodeId := None;
      events := [ReleaseEvent()];
    }

    /**
     * The wheel scales the viewport about the pointer's host-relative position,
     * unless scaling is disabled or a modifier key the trigger asks for is up.
     */
    method OnWheelScroll(input: WheelInput, hostOrigin: Point) returns (events: seq<GraphEvent>)
      ensures events != [] <==> options.scaleEnabled && TriggerSatisfied(options.scaleTrigger, input.ctrlKey, input.shiftKey)
      ensures events != [] ==>
                var center := HostRelative(input.client, hostOrigin);
                events == [GraphEvent(ScaleViewport, Some(ScaleViewportPayload(input.deltaY, center.x, center.y)))]
    {
      events := [];
      if !options.scaleEnabled {
        return;
      }
      var trigger := options.scaleTrigger;
      if (trigger == "ctrl+wheel" || trigger == "ctrl+shift+wheel") && !input.ctrlKey {
        return;
      }
      if (trigger == "shift+wheel" || trigger == "ctrl+shift+wheel") && !input.shiftKey {
        return;
      }
      var centerX := input.client.x - hostOrigin.x;
      var centerY := input.client.y - hostOrigin.y;
      events := [GraphEvent(ScaleViewport, Some(ScaleViewportPayload(input.deltaY, centerX, centerY)))];
    }

    /**
     * A touch on the host records the first touch point and, with a second
     * touch, the pinch baseline: the touches' distance (`hypot` stands for
     * `Math.sqrt(dx * dx + dy * dy)`) and the scale at that moment.
     */
    method OnTouchStart(touches: seq<Point>, currentScale: real, hypot: (real, real) -> real)
      requires options.shiftEnabled ==> |touches| >= 1
      modifies this`touch1, this`touch2Distance, this`touch2Scale
      ensures !options.shiftEnabled ==>
                touch1 == old(touch1) && touch2Distance == old(touch2Distance) && touch2Scale == old(touch2Scale)
      ensures options.shiftEnabled ==> touch1 == Some(touches[0])
      ensures options.shiftEnabled && |touches| > 1 ==>
                && touch2Distance == Some(hypot(touches[1].x - touches[0].x, touches[1].y - touches[0].y))
                && touch2Scale == currentScale
      ensures options.shiftEnabled && |touches| <= 1 ==>
                touch2Distance == old(touch2Distance) && touch2Scale == old(touch2Scale)
    {
      if !options.shiftEnabled {
        return;
      }
      touch1 := Some(touches[0]);
      if |touches| > 1 {
        var dx := touches[1].x - touches[0].x;
        var dy := touches[1].y - touches[0].y;
        touch2Distance := Some(hypot(dx, dy));
        touch2Scale := currentScale;
      }
    }

    /**
     * A touch move drags the grabbed node, or else drags the viewport and,
     * while a pinch baseline exists, reports the pinch scale about the
     * touches' host-relative midpoint. As written, the pinch distance is
     * measured from the previous first touch point to the current second
     * one, and the second touch is read even when only one finger is down:
     * that throws a TypeError after the viewport drag was dispatched, and the
     * first touch point is then not updated.
     */
    method OnTouchMove(touches: seq<Point>, hostOrigin: Point, currentScale: real, hypot: (real, real) -> real)
      returns (events: seq<GraphEvent>, error: Option<Exception>)
      requires (grabbedNodeId.Some? && options.nodesDraggable) || (grabbedNodeId.None? && options.shiftEnabled)
               ==> |touches| >= 1
      modifies this`touch1
      ensures forall e :: e in events ==> WellTyped(e)
      ensures error.Some? <==>
                grabbedNodeId.None? && options.shiftEnabled && old(touch1).Some? && touch2Distance.Some? && |touches| < 2
      ensures error.Some? ==>
                && error == Some(TypeError)
                && touch1 == old(touch1)
                && events == [DragViewportEvent(touches[0].x - old(touch1).value.x, touches[0].y - old(touch1).value.y)]
      ensures grabbedNodeId.Some? && !options.nodesDraggable ==> events == [] && touch1 == old(touch1)
      ensures grabbedNodeId.None? && !options.shiftEnabled ==> events == [] && touch1 == old(touch1)
      ensures grabbedNodeId.Some? && options.nodesDraggable ==>
                && touch1 == Some(touches[0])
                && events == (if old(touch1).None? then []
                              else [DragNodeEvent(grabbedNodeId.value, touches[0].x - old(touch1).value.x,
                                                  touches[0].y - old(touch1).value.y)])
      ensures grabbedNodeId.None? && options.shiftEnabled && error.None? ==>
                && touch1 == Some(touches[0])
                && (old(touch1).None? ==> events == [])
                && (old(touch1).Some? && touch2Distance.None? ==>
                      events == [DragViewportEvent(touches[0].x - old(touch1).value.x, touches[0].y - old(touch1).value.y)])
                && (old(touch1).Some? && touch2Distance.Some? ==>
                      var center := HostRelative(Midpoint(touches[1], touches[0]), hostOrigin);
                      var distance := hypot(touches[1].x - old(touch1).value.x, touches[1].y - old(touch1).value.y);
                      events == [DragViewportEvent(touches[0].x - old(touch1).value.x, touches[0].y - old(touch1).value.y),
                                 GraphEvent(SetViewportScale, Some(SetViewportScalePayload(
                                   PinchScale(distance, touch2Distance.value, currentScale, touch2Scale),
                                   center.x, center.y)))])
    {
      events, error := [], None;
      if grabbedNodeId.Some? {
        if !options.nodesDraggable {
          return;
        }
        if touch1.Some? {
          events := events + [DragNodeEvent(grabbedNodeId.value, touches[0].x - touch1.value.x, touches[0].y - touch1.value.y)];
        }
      } else {
        if !options.shiftEnabled {
          return;
        }
        if touch1.Some? {
          events := events + [DragViewportEvent(touches[0].x - touch1.value.x, touches[0].y - touch1.value.y)];
        }
        if touch1.Some? && touch2Distance.Some? {
          if |touches| < 2 {
            error := Some(TypeError);
            return;
          }
          var dxn := touches[1].x - touch1.value.x;
          var dyn := touches[1].y - touch1.value.y;
          var nextScale := hypot(dxn, dyn);
          var scale := PinchScale(nextScale, touch2Distance.value, currentScale, touch2Scale);
          var centerX := (touches[1].x + touches[0].x) / 2.0 - hostOrigin.x;
          var centerY := (touches[1].y + touches[0].y) / 2.0 - hostOrigin.y;
          events := events + [GraphEvent(SetViewportScale, Some(SetViewportScalePayload(scale, centerX, centerY)))];
        }
      }
      touch1 := Some(touches[0]);
    }

    /**
     * The touch move as evidently intended: the pinch is reported only while
     * two fingers are down, and its distance is that between the two current
     * touch points, like the baseline's.
     */
    method OnTouchMoveCorrected(touches: seq<Point>, hostOrigin: Point, currentScale: real, hypot: (real, real) -> real)
      returns (events: seq<GraphEvent>)
      requires (grabbedNodeId.Some? && options.nodesDraggable) || (grabbedNodeId.None? && options.shiftEnabled)
               ==> |touches| >= 1
      modifies this`touch1
      ensures forall e :: e in events ==> WellTyped(e)
      ensures grabbedNodeId.Some? && !options.nodesDraggable ==> events == [] && touch1 == old(touch1)
      ensures grabbedNodeId.None? && !options.shiftEnabled ==> events == [] && touch1 == old(touch1)
      ensures grabbedNodeId.Some? && options.nodesDraggable ==>
                && touch1 == Some(touches[0])
                && events == (if old(touch1).None? then []
                              else [DragNodeEvent(grabbedNodeId.value, touches[0].x - old(touch1).value.x,
                                                  touches[0].y - old(touch1).value.y)])
      ensures grabbedNodeId.None? && options.shiftEnabled ==>
                && touch1 == Some(touches[0])
                && (old(touch1).None? ==> events == [])
                && (old(touch1).Some? && (touch2Distance.None? || |touches| < 2) ==>
                      events == [DragViewportEvent(touches[0].x - old(touch1).value.x, touches[0].y - old(touch1).value.y)])
                && (old(touch1).Some? && touch2Distance.Some? && |touches| >= 2 ==>
                      var center := HostRelative(Midpoint(touches[1], touches[0]), hostOrigin);
                      var distance := hypot(touches[1].x - touches[0].x, touches[1].y - touches[0].y);
                      events == [DragViewportEvent(touches[0].x - old(touch1).value.x, touches[0].y - old(touch1).value.y),
                                 GraphEvent(SetViewportScale, Some(SetViewportScalePayload(
                                   PinchScale(distance, touch2Distance.value, currentScale, touch2Scale),
                                   center.x, center.y)))])
    {
      events := [];
      if grabbedNodeId.Some? {
        if !options.nodesDraggable {
          return;
        }
        if touch1.Some? {
          events := events + [DragNodeEvent(grabbedNodeId.value, touches[0].x - touch1.value.x, touches[0].y - touch1.value.y)];
        }
      } else {
        if !options.shiftEnabled {
          return;
        }
        if touch1.Some? {
          events := events + [DragViewportEvent(touches[0].x - touch1.value.x, touches[0].y - touch1.value.y)];
        }
        if touch1.Some? && touch2Distance.Some? && |touches| > 1 {
          var dx := touches[1].x - touches[0].x;
          var dy := touches[1].y - touches[0].y;
          var scale := PinchScale(hypot(dx, dy), touch2Distance.value, currentScale, touch2Scale);
          var centerX := (touches[1].x + touches[0].x) / 2.0 - hostOrigin.x;
          var centerY := (touches[1].y + touches[0].y) / 2.0 - hostOrigin.y;
          events := events + [GraphEvent(SetViewportScale, Some(SetViewportScalePayload(scale, centerX, centerY)))];
        }
      }
      touch1 := Some(touches[0]);
    }

    /**
     * When fewer than two touches remain the pinch baseline is discarded;
     * when none remain the first touch point is forgotten too.
     */
    method OnTouchEnd(remainingTouches: nat)
      modifies this`touch1, this`touch2Distance, this`touch2Scale
      ensures !options.shiftEnabled ==>
                touch1 == old(touch1) && touch2Distance == old(touch2Distance) && touch2Scale == old(touch2Scale)
      ensures options.shiftEnabled && remainingTouches < 2 ==> touch2Distance == None && touch2Scale == 1.0
      ensures options.shiftEnabled && remainingTouches >= 2 ==>
                touch2Distance == old(touch2Distance) && touch2Scale == old(touch2Scale)
      ensures options.shiftEnabled && remainingTouches < 1 ==> touch1 == None
      ensures options.shiftEnabled && remainingTouches >= 1 ==> touch1 == old(touch1)
    {
      if !options.shiftEnabled {
        return;
      }
      if remainingTouches < 2 {
        touch2Distance := None;
        touch2Scale := 1.0;
      }
      if remainingTouches < 1 {
        touch1 := None;
      }
    }

    /**
     * A primary press on a node grabs it when dragging is enabled and stops
     * the event there; otherwise nothing happens and the event goes on to
     * the host.
     */
    method OnNodePointerDown(input: MouseInput, target: Element) returns (events: seq<GraphEvent>, stopped: bool)
      requires input.button == 0 && options.nodesDraggable ==> target in nodeElementToIdMap
      modifies this`grabbedNodeId
      ensures stopped <==> input.button == 0 && options.nodesDraggable
      ensures stopped ==> grabbedNodeId == Some(nodeElementToIdMap[target]) && events == [GrabNodeEvent(nodeElementToIdMap[target])]
      ensures !stopped ==> grabbedNodeId == old(grabbedNodeId) && events == []
    {
      events, stopped := [], false;
      if input.button != 0 || !options.nodesDraggable {
        return;
      }
      stopped := true;
      var nodeId := nodeElementToIdMap[target];
      grabbedNodeId := Some(nodeId);
      events := [GrabNodeEvent(nodeId)];
    }

    /** As `OnNodePointerDown`, for a touch; it also records the first touch point. */
    method OnNodeTouchStart(touches: seq<Point>, target: Element) returns (events: seq<GraphEvent>, stopped: bool)
      requires options.nodesDraggable ==> target in nodeElementToIdMap && |touches| >= 1
      modifies this`grabbedNodeId, this`touch1
      ensures stopped <==> options.nodesDraggable
      ensures stopped ==>
                && grabbedNodeId == Some(nodeElementToIdMap[target])
                && events == [GrabNodeEvent(nodeElementToIdMap[target])]
                && touch1 == Some(touches[0])
      ensures !stopped ==> grabbedNodeId == old(grabbedNodeId) && touch1 == old(touch1) && events == []
    {
      events, stopped := [], false;
      if !options.nodesDraggable {
        return;
      }
      stopped := true;
      var nodeId := nodeElementToIdMap[target];
      grabbedNodeId := Some(nodeId);
      events := [GrabNodeEvent(nodeId)];
      touch1 := Some(touches[0]);
    }

    /** The end of a touch on a node releases it when dragging is enabled. */
    method OnNodeTouchEnd() returns (events: seq<GraphEvent>, stopped: bool)
      modifies this`grabbedNodeId
      ensures stopped <==> options.nodesDraggable
      ensures stopped ==> grabbedNodeId == None && events == [ReleaseEvent()]
      ensures !stopped ==> grabbedNodeId == old(grabbedNodeId) && events == []
    {
      events, stopped := [], false;
      if !options.nodesDraggable {
        return;
      }
      stopped := true;
      grabbedNodeId := None;
      events := [ReleaseEvent()];
    }

    /** A primary release on a node releases it when dragging is enabled. */
    method OnNodePointerUp(input: MouseInput) returns (events: seq<GraphEvent>, stopped: bool)
      modifies this`grabbedNodeId
      ensures stopped <==> input.button == 0 && options.nodesDraggable
      ensures stopped ==> grabbedNodeId == None && events == [ReleaseEvent()]
      ensures !stopped ==> grabbedNodeId == old(grabbedNodeId) && events == []
    {
      events, stopped := [], false;
      if input.button != 0 || !options.nodesDraggable {
        return;
      }
      stopped := true;
      grabbedNodeId := None;
      events := [ReleaseEvent()];
    }

    /**
     * A mouse press on a node element: the node's handler runs first and the
     * host's only when the node's handler let the event through. A node press
     * takes priority, so the viewport and a node are never grabbed together.
     */
    method PressOnNode(input: MouseInput, target: Element) returns (events: seq<GraphEvent>)
      requires input.button == 0 && options.nodesDraggable ==> target in nodeElementToIdMap
      modifies this`grabbedNodeId
      ensures |events| <= 1
      ensures input.button == 0 && options.nodesDraggable ==>
                events == [GrabNodeEvent(nodeElementToIdMap[target])] && grabbedNodeId == Some(nodeElementToIdMap[target])
      ensures input.button == 0 && !options.nodesDraggable ==>
                events == (if options.shiftEnabled then [GrabViewportEvent()] else []) && grabbedNodeId == old(grabbedNodeId)
      ensures input.button != 0 ==> events == [] && grabbedNodeId == old(grabbedNodeId)
    {
      var stopped;
      events, stopped := OnNodePointerDown(input, target);
      if !stopped {
        events := OnPointerDown(input);
      }
    }

    /*
     * Stacking and layout.
     */

    /** Give each listed connection element the z-index `z`; the others keep theirs. */
    method StackConnectionsAt(connections: seq<string>, z: int)
      requires forall c :: c in connections ==> c in connectionElements
      modifies this`connectionElements
      ensures connectionElements.Keys == old(connectionElements).Keys
      ensures forall c :: c in connectionElements ==>
                connectionElements[c] == if c in connections then old(connectionElements)[c].(zIndex := z)
                                         else old(connectionElements)[c]
    {
      var i := 0;
      while i < |connections|
        invariant 0 <= i <= |connections|
        invariant connectionElements.Keys == old(connectionElements).Keys
        invariant forall c :: c in connectionElements ==>
                    connectionElements[c] == if c in connections[..i] then old(connectionElements)[c].(zIndex := z)
                                             else old(connectionElements)[c]
      {
        connectionElements := connectionElements[connections[i] := connectionElements[connections[i]].(zIndex := z)];
        i := i + 1;
      }
      assert connections[..i] == connections;
    }

    /**
     * Bring a node to the front. In "connections-follow-node" mode the
     * counter advances by two and the node's connections are stacked just
     * below the node, above every other node.
     */
    method MoveOnTop(nodeId: string, adjacentConnections: seq<string>)
      requires Valid()
      requires nodeId in nodeWrappers
      requires options.layersMode == ConnectionsFollowNode ==>
                 forall c :: c in adjacentConnections ==> c in connectionElements
      modifies this`currentZIndex, this`nodeWrappers, this`connectionElements
      ensures Valid()
      ensures currentZIndex == old(currentZIndex) + (if options.layersMode == ConnectionsFollowNode then 2 else 1)
      ensures nodeWrappers == old(nodeWrappers)[nodeId := old(nodeWrappers)[nodeId].(zIndex := currentZIndex)]
      ensures forall m :: m in nodeWrappers && m != nodeId ==> nodeWrappers[m].zIndex < nodeWrappers[nodeId].zIndex
      ensures options.layersMode != ConnectionsFollowNode ==> connectionElements == old(connectionElements)
      ensures options.layersMode == ConnectionsFollowNode ==>
                && connectionElements.Keys == old(connectionElements).Keys
                && (forall c :: c in connectionElements ==>
                      connectionElements[c] == if c in adjacentConnections
                                               then old(connectionElements)[c].(zIndex := currentZIndex - 1)
                                               else old(connectionElements)[c])
                && (forall c, m :: c in adjacentConnections && m in nodeWrappers && m != nodeId ==>
                      nodeWrappers[m].zIndex < connectionElements[c].zIndex < nodeWrappers[nodeId].zIndex)
    {
      match options.layersMode
      case ConnectionsOnTop =>
        currentZIndex := currentZIndex + 1;
        nodeWrappers := nodeWrappers[nodeId := nodeWrappers[nodeId].(zIndex := currentZIndex)];
      case NodesOnTop =>
        currentZIndex := currentZIndex + 1;
        nodeWrappers := nodeWrappers[nodeId := nodeWrappers[nodeId].(zIndex := currentZIndex)];
      case ConnectionsFollowNode =>
        var wrapper := nodeWrappers[nodeId];
        currentZIndex := currentZIndex + 2;
        nodeWrappers := nodeWrappers[nodeId := wrapper.(zIndex := currentZIndex)];
        StackConnectionsAt(adjacentConnections, currentZIndex - 1);
    }

    /** Lay a node's wrapper out so that the node's anchor lands on (x, y). */
    method UpdateNodeCoords(nodeId: string, x: real, y: real, wrapperSize: Point, sa: real,
                            centerFn: (real, real) -> Point)
      requires nodeId in nodeWrappers
      modifies this`nodeWrappers
      ensures nodeWrappers == old(nodeWrappers)[nodeId :=
                old(nodeWrappers)[nodeId].(translate := NodeTranslate(x, y, sa, centerFn(wrapperSize.x, wrapperSize.y)))]
      ensures old(Valid()) ==> Valid()
    {
      var center := centerFn(wrapperSize.x, wrapperSize.y);
      nodeWrappers := nodeWrappers[nodeId := nodeWrappers[nodeId].(translate := NodeTranslate(x, y, sa, center))];
      assert center == centerFn(wrapperSize.x, wrapperSize.y);
    }

    /**
     * Wrap a node's element, stack the wrapper at the current z-index (then
     * advance the counter), put it in the nodes container and lay it out.
     */
    method AttachNode(nodeId: string, element: Element, x: real, y: real, wrapperSize: Point, sa: real,
                      centerFn: (real, real) -> Point)
      requires Valid()
      requires nodeId !in nodeWrappers && element !in nodeElementToIdMap
      modifies this`currentZIndex, this`nodeElementToIdMap, this`nodeWrappers, this`nodesContainerChildren
      ensures Valid()
      ensures currentZIndex == old(currentZIndex) + 1
      ensures nodeWrappers == old(nodeWrappers)[nodeId :=
                Wrapper(element, old(currentZIndex), NodeTranslate(x, y, sa, centerFn(wrapperSize.x, wrapperSize.y)))]
      ensures nodeElementToIdMap == old(nodeElementToIdMap)[element := nodeId]
      ensures nodesContainerChildren == old(nodesContainerChildren) + {WrapperOf(nodeId)}
      ensures forall m :: m in nodeWrappers ==> nodeWrappers[m].zIndex <= nodeWrappers[nodeId].zIndex
    {
      var wrapper := Wrapper(element, currentZIndex, Point(0.0, 0.0));
      WrapperNodesUpdate(nodeWrappers.Keys, nodeId);
      currentZIndex := currentZIndex + 1;
      nodesContainerChildren := nodesContainerChildren + {WrapperOf(nodeId)};
      nodeElementToIdMap := nodeElementToIdMap[element := nodeId];
      nodeWrappers := nodeWrappers[nodeId := wrapper];
      assert Valid();
      UpdateNodeCoords(nodeId, x, y, wrapperSize, sa, centerFn);
    }

    /**
     * `detachNode` as written: its first DOM step removes the node's element
     * from the nodes container, whose children are wrappers, so the DOM
     * throws before any map is cleaned.
     */
    method DetachNodeAsWritten(nodeId: string) returns (error: Option<Exception>)
      requires Valid()
      requires nodeId in nodeWrappers
      ensures error == Some(NotFoundError)
    {
      var element := nodeWrappers[nodeId].element;
      var removed := RemoveChild(nodesContainerChildren, ElementNode(element));
      if removed.None? {
        return Some(NotFoundError);
      }
      assert false;
      error := None;
    }

    /** Detach a node: its wrapper leaves the nodes container and both maps forget it. */
    method DetachNode(nodeId: string)
      requires Valid()
      requires nodeId in nodeWrappers
      modifies this`nodeElementToIdMap, this`nodeWrappers, this`nodesContainerChildren
      ensures Valid()
      ensures nodeWrappers == old(nodeWrappers) - {nodeId}
      ensures nodeElementToIdMap == old(nodeElementToIdMap) - {old(nodeWrappers)[nodeId].element}
      ensures nodesContainerChildren == old(nodesContainerChildren) - {WrapperOf(nodeId)}
    {
      var wrapper := nodeWrappers[nodeId];
      var removed := RemoveChild(nodesContainerChildren, WrapperOf(nodeId));
      nodesContainerChildren := removed.value;
      nodeElementToIdMap := nodeElementToIdMap - {wrapper.element};
      nodeWrappers := nodeWrappers - {nodeId};
    }

    /**
     * Lay a connection out: its element gets the box of the two port centres
     * and the orientation flags; the box is what the routing strategy is
     * asked to draw in.
     */
    method UpdateConnectionCoords(connectionId: string, ports: ConnectionPorts, sa: real) returns (box: ConnectionBox)
      requires connectionId in connectionElements
      modifies this`connectionElements
      ensures box == ComputeConnectionBox(AbsoluteCenter(ports.from, sa), AbsoluteCenter(ports.to, sa))
      ensures connectionElements == old(connectionElements)[connectionId :=
                old(connectionElements)[connectionId].(transform := Some(TransformOf(box)))]
    {
      var from := AbsoluteCenter(ports.from, sa);
      var to := AbsoluteCenter(ports.to, sa);
      var x := Min(from.x, to.x);
      var y := Min(from.y, to.y);
      var width := Abs(to.x - from.x);
      var height := Abs(to.y - from.y);
      var flipHor := from.x <= to.x;
      var flipVert := from.y <= to.y;
      box := ConnectionBox(x, y, width, height, flipHor, flipVert);
      connectionElements := connectionElements[connectionId :=
        connectionElements[connectionId].(transform := Some(Transform(if flipHor then 1.0 else -1.0,
                                                                       if flipVert then 1.0 else -1.0, x, y)))];
    }

    /** Stack a connection's element at the current z-index (then advance the counter) and lay it out. */
    method AttachConnection(connectionId: string, ports: ConnectionPorts, sa: real) returns (box: ConnectionBox)
      requires Valid()
      modifies this`currentZIndex, this`connectionElements, this`nodesContainerChildren, this`connectionsContainerChildren
      ensures Valid()
      ensures currentZIndex == old(currentZIndex) + 1
      ensures box == ComputeConnectionBox(AbsoluteCenter(ports.from, sa), AbsoluteCenter(ports.to, sa))
      ensures connectionElements == old(connectionElements)[connectionId :=
                ConnectionStyle(old(currentZIndex), Some(TransformOf(box)))]
      ensures SharedContainer() ==>
                && nodesContainerChildren == old(nodesContainerChildren) + {ConnectionNode(connectionId)}
                && connectionsContainerChildren == old(connectionsContainerChildren)
      ensures !SharedContainer() ==>
                && connectionsContainerChildren == old(connectionsContainerChildren) + {ConnectionNode(connectionId)}
                && nodesContainerChildren == old(nodesContainerChildren)
    {
      connectionElements := connectionElements[connectionId := ConnectionStyle(currentZIndex, None)];
      currentZIndex := currentZIndex + 1;
      box := UpdateConnectionCoords(connectionId, ports, sa);
      if SharedContainer() {
        nodesContainerChildren := nodesContainerChildren + {ConnectionNode(connectionId)};
      } else {
        connectionsContainerChildren := connectionsContainerChildren + {ConnectionNode(connectionId)};
      }
    }

    /** Forget a connection and take its element out of the container it went into. */
    method DetachConnection(connectionId: string)
      requires Valid()
      requires connectionId in connectionElements
      modifies this`connectionElements, this`nodesContainerChildren, this`connectionsContainerChildren
      ensures Valid()
      ensures connectionElements == old(connectionElements) - {connectionId}
      ensures SharedContainer() ==>
                && nodesContainerChildren == old(nodesContainerChildren) - {ConnectionNode(connectionId)}
                && connectionsContainerChildren == old(connectionsContainerChildren)
      ensures !SharedContainer() ==>
                && connectionsContainerChildren == old(connectionsContainerChildren) - {ConnectionNode(connectionId)}
                && nodesContainerChildren == old(nodesContainerChildren)
    {
      connectionElements := connectionElements - {connectionId};
      if SharedContainer() {
        var removed := RemoveChild(nodesContainerChildren, ConnectionNode(connectionId));
        nodesContainerChildren := removed.value;
      } else {
        var removed := RemoveChild(connectionsContainerChildren, ConnectionNode(connectionId));
        connectionsContainerChildren := removed.value;
      }
    }

    /** Re-lay out each listed connection; `portsOf` gives each connection's ports. */
    method UpdatePortConnections(connections: seq<string>, portsOf: string -> ConnectionPorts, sa: real)
      returns (boxes: seq<ConnectionBox>)
      requires forall c :: c in connections ==> c in connectionElements
      modifies this`connectionElements
      ensures |boxes| == |connections|
      ensures forall i :: 0 <= i < |connections| ==>
                boxes[i] == ComputeConnectionBox(AbsoluteCenter(portsOf(connections[i]).from, sa),
                                                 AbsoluteCenter(portsOf(connections[i]).to, sa))
      ensures connectionElements.Keys == old(connectionElements).Keys
      ensures forall c :: c in connectionElements ==>
                connectionElements[c] == if c in connections
                  then old(connectionElements)[c].(transform := Some(TransformOf(ComputeConnectionBox(
                         AbsoluteCenter(portsOf(c).from, sa), AbsoluteCenter(portsOf(c).to, sa)))))
                  else old(connectionElements)[c]
    {
      boxes := [];
      var i := 0;
      while i < |connections|
        invariant 0 <= i <= |connections|
        invariant |boxes| == i
        invariant forall k :: 0 <= k < i ==>
                    boxes[k] == ComputeConnectionBox(AbsoluteCenter(portsOf(connections[k]).from, sa),
                                                     AbsoluteCenter(portsOf(connections[k]).to, sa))
        invariant connectionElements.Keys == old(connectionElements).Keys
        invariant forall c :: c in connectionElements ==>
                    connectionElements[c] == if c in connections[..i]
                      then old(connectionElements)[c].(transform := Some(TransformOf(ComputeConnectionBox(
                             AbsoluteCenter(portsOf(c).from, sa), AbsoluteCenter(portsOf(c).to, sa)))))
                      else old(connectionElements)[c]
      {
        var box := UpdateConnectionCoords(connections[i], portsOf(connections[i]), sa);
        boxes := boxes + [box];
        i := i + 1;
      }
      assert connections[..i] == connections;
    }

    /** Lay the node out at (x, y), then every connection adjacent to it. */
    method UpdateNodePosition(nodeId: string, x: real, y: real, wrapperSize: Point, sa: real,
                              centerFn: (real, real) -> Point,
                              adjacentConnections: seq<string>, portsOf: string -> ConnectionPorts)
      returns (boxes: seq<ConnectionBox>)
      requires Valid()
      requires nodeId in nodeWrappers
      requires forall c :: c in adjacentConnections ==> c in connectionElements
      modifies this`nodeWrappers, this`connectionElements
      ensures Valid()
      ensures nodeWrappers == old(nodeWrappers)[nodeId :=
                old(nodeWrappers)[nodeId].(translate := NodeTranslate(x, y, sa, centerFn(wrapperSize.x, wrapperSize.y)))]
      ensures |boxes| == |adjacentConnections|
      ensures forall i :: 0 <= i < |adjacentConnections| ==>
                boxes[i] == ComputeConnectionBox(AbsoluteCenter(portsOf(adjacentConnections[i]).from, sa),
                                                 AbsoluteCenter(portsOf(adjacentConnections[i]).to, sa))
      ensures connectionElements.Keys == old(connectionElements).Keys
      ensures forall c :: c in connectionElements ==>
                connectionElements[c] == if c in adjacentConnections
                  then old(connectionElements)[c].(transform := Some(TransformOf(ComputeConnectionBox(
                         AbsoluteCenter(portsOf(c).from, sa), AbsoluteCenter(portsOf(c).to, sa)))))
                  else old(connectionElements)[c]
    {
      UpdateNodeCoords(nodeId, x, y, wrapperSize, sa, centerFn);
      boxes := UpdatePortConnections(adjacentConnections, portsOf, sa);
    }

    /** Detach every connection, then every node. */
    method Clear()
      requires Valid()
      modifies this`nodeElementToIdMap, this`nodeWrappers, this`nodesContainerChildren, this`connectionElements,
               this`connectionsContainerChildren
      ensures Valid()
      ensures connectionElements == map[] && nodeWrappers == map[] && nodeElementToIdMap == map[]
      ensures nodesContainerChildren == {} && connectionsContainerChildren == {}
    {
      while connectionElements != map[]
        invariant Valid()
        decreases connectionElements.Keys
      {
        var connectionId :| connectionId in connectionElements;
        DetachConnection(connectionId);
      }
      while nodeElementToIdMap != map[]
        invariant Valid()
        invariant connectionElements == map[]
        decreases nodeElementToIdMap.Keys
      {
        var element :| element in nodeElementToIdMap;
        DetachNode(nodeElementToIdMap[element]);
      }
    }
  }

  /*
   * Two touch sequences on which the touch-move handler as written goes
   * wrong, next to what the corrected handler reports for them.
   */

  /** The options under which both sequences run: shifting and dragging enabled. */
  function TouchOptions(): Options
  {
    Options(true, "ctrl+wheel", true, true, ConnectionsOnTop)
  }

  /**
   * Finger A presses a node, then finger B presses the host, then finger A
   * lifts. The node handlers stop propagation, so the host records the
   * pinch baseline but never sees A's release: the baseline survives.
   */
  method StrandBaseline(a: Point, b: Point, hypot: (real, real) -> real) returns (c: HtmlController)
    ensures fresh(c) && c.options == TouchOptions()
    ensures c.grabbedNodeId == None && c.touch1 == Some(a) && c.touch2Distance.Some?
  {
    c := new HtmlController(TouchOptions());
    c.AttachNode("n", 0, 0.0, 0.0, Point(10.0, 10.0), 1.0, (w: real, h: real) => Point(w / 2.0, h / 2.0));
    var events, stopped := c.OnNodeTouchStart([a], 0);
    c.OnTouchStart([a, b], 1.0, hypot);
    events, stopped := c.OnNodeTouchEnd();
  }

  /**
   * After the baseline is stranded, finger B moves alone. As written, the
   * move reads a second touch that is not there and throws; corrected, it
   * only drags the viewport.
   */
  method StrandedBaselineThrows(hypot: (real, real) -> real)
    returns (asWrittenError: Option<Exception>, correctedEvents: seq<GraphEvent>)
    ensures asWrittenError == Some(TypeError)
    ensures correctedEvents == [DragViewportEvent(110.0, 0.0)]
  {
    var a, b, b2 := Point(0.0, 0.0), Point(100.0, 0.0), Point(110.0, 0.0);
    var c := StrandBaseline(a, b, hypot);
    var events;
    events, asWrittenError := c.OnTouchMove([b2], Point(0.0, 0.0), 1.0, hypot);
    var d := StrandBaseline(a, b, hypot);
    correctedEvents := d.OnTouchMoveCorrected([b2], Point(0.0, 0.0), 1.0, hypot);
  }

  /** `hypot` agrees with the length of a vector along the positive x axis. */
  ghost predicate HypotOnAxis(hypot: (real, real) -> real)
  {
    forall dx :: 0.0 <= dx ==> hypot(dx, 0.0) == dx
  }

  /**
   * Two fingers 10 apart both move 5 to the right: a pan, with the fingers
   * still 10 apart and the scale unchanged since the baseline. As written,
   * the move measures from the old first finger to the new second one and
   * reports a zoom by 1.5; corrected, it reports the factor 1.
   */
  method PanReadsAsPinch(hypot: (real, real) -> real) returns (asWrittenScale: Number, correctedScale: Number)
    requires HypotOnAxis(hypot)
    ensures asWrittenScale == Finite(1.5)
    ensures correctedScale == Finite(1.0)
  {
    var start := [Point(0.0, 0.0), Point(10.0, 0.0)];
    var moved := [Point(5.0, 0.0), Point(15.0, 0.0)];
    assert hypot(10.0, 0.0) == 10.0 && hypot(15.0, 0.0) == 15.0;

    var c := new HtmlController(TouchOptions());
    c.OnTouchStart(start, 1.0, hypot);
    var events, error := c.OnTouchMove(moved, Point(0.0, 0.0), 1.0, hypot);
    asWrittenScale := events[1].payload.value.scale;

    var d := new HtmlController(TouchOptions());
    d.OnTouchStart(start, 1.0, hypot);
    events := d.OnTouchMoveCorrected(moved, Point(0.0, 0.0), 1.0, hypot);
    correctedScale := events[1].payload.value.scale;
  }
}
