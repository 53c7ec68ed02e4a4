# graphflow core, modelled in Dafny

This project models the parts of graphflow that make decisions:

- **Event bus.** `EventSubject` keeps a map from event type to an ordered list of callbacks. `on` subscribes a callback and `dispatch` invokes one type's callbacks.
- **Legacy command queue.** `CommandsQueue` buffers node and edge requests and forwards them to the graph controller on `flush`.
- **Strategy resolution.** `resolveConnectionControllerFactory` picks the connection routing strategy and fills in the option defaults.
- **Routing strategies.**
  - `BezierConnectionController` handles mirror multipliers, direction vectors, control points and the arrow children.
  - `BezierAdaptiveArrowConnectionController` chooses between a direct and an adaptive curve and draws an arrow wedge.
  - SVG path data is a sequence of `M`/`C`/`L` commands (SVG 1.1, section 8.3 "Path data"), not a string.
- **HTML controller.** It covers:
  - the pointer, wheel and touch handlers, as a state machine over `grabbedNodeId`, `touch1`, `touch2Distance` and `touch2Scale`;
  - the z-index counter and the three layers modes;
  - node and connection attachment;
  - the layout arithmetic: node translation, and the connection box with its flip flags.

Numbers are `real`. A JavaScript division by zero, which yields an infinite or NaN number, is the value `NotFinite`.

Some collaborators' definitions are not part of this model. Each is a function parameter without a contract:
- the connection utilities `rotate`, `getDirectionVector` and `getArrowPath`;
- the viewport transformer's absolute coordinates and scale;
- `Math.sqrt` of the touch offsets;
- the graph store's adjacency queries.

The DOM is reduced to the state the code reads and writes:
- the `<path>` children of a connection's `<svg>` and their `d` attribute;
- each node wrapper's element, z-index and translation;
- each connection element's z-index and transform;
- the set of children of the nodes container and of the connections container.

In "connections-follow-node" mode the connections container is the nodes container itself (html-controller.ts:279-282). So in that mode, connection elements are appended to the nodes container and removed from it. In the other two modes they go into a container of their own.

Each handler returns the events it dispatches, in order. Each node handler also returns whether it stopped propagation.

Two details of the pinch gesture are modelled exactly as the code computes them:
- **Pinch scale.** A pinch move reports `(d / touch2Distance) * currentAbsoluteScale / touch2Scale` (html-controller.ts:98-101). This is relative to the scale recorded when the second finger went down.
- **Pinch distance.** `d` is measured from the *previous* first touch point to the *current* second touch point (html-controller.ts:93-95). The baseline `touch2Distance` is measured between the two current touches (html-controller.ts:60-62). The Findings below show what follows from that.

## Model

| member | source | states |
|---|---|---|
| `EventSubjects.Subscribe` | lib/components/event-subject/event-subject.ts:17-24 | A type with no list gets the one-element list `[callback]`. A type with a list gets the callback appended after the earlier ones, in order. Every other type's list is unchanged, and the key set grows by exactly that type. |
| `EventSubjects.SubscribeAllOrder` | lib/components/event-subject/event-subject.ts:10-25 | After any series of `on` calls, a type's list is its earlier list followed by exactly the callbacks registered for that type, in registration order. |
| `EventSubjects.EventSubject.On` | lib/components/event-subject/event-subject.ts:10-25 | The mapping becomes `Subscribe` of the old mapping: this type's callbacks gain the new one at the end, and every other type's list is unchanged. |
| `EventSubjects.EventSubject.Dispatch` | lib/components/event-subject/event-subject.ts:27-46 | It invokes exactly the type's callbacks, each once, in registration order. Each gets the payload when there is one, and no argument otherwise. A type with no registrations invokes nothing. The mapping is not modified. |
| `CommandsQueues.NodeCallsAt` | src/legacy/controller/commands-queue/commands-queue.ts:27-33 | Draining the node queue forwards one `addNode` call per request, in FIFO order. |
| `CommandsQueues.EdgeCallsAt` | src/legacy/controller/commands-queue/commands-queue.ts:35-41 | Draining the edge queue forwards one `addEdge` call per request, in FIFO order. |
| `CommandsQueues.FlushCallsOrder` | src/legacy/controller/commands-queue/commands-queue.ts:22-41 | A flush forwards exactly `|nodes| + |edges|` calls. Node request `i` is at position `i` and edge request `j` at position `|nodes| + j`. |
| `CommandsQueues.FlushNodesBeforeEdges` | src/legacy/controller/commands-queue/commands-queue.ts:22-25 | Every forwarded node request comes before every forwarded edge request. |
| `CommandsQueues.FlushCallsEmpty` | src/legacy/controller/commands-queue/commands-queue.ts:22-41 | A flush forwards nothing iff both queues are empty. Since a flush leaves both empty, a second flush with no adds in between forwards nothing. |
| `CommandsQueues.NodeCallsAppend` | src/legacy/controller/commands-queue/commands-queue.ts:14-16 | A node request added to the queue is forwarded after all earlier ones. |
| `CommandsQueues.EdgeCallsAppend` | src/legacy/controller/commands-queue/commands-queue.ts:18-20 | An edge request added to the queue is forwarded after all earlier ones. |
| `CommandsQueues.CommandsQueue.AddNode` | src/legacy/controller/commands-queue/commands-queue.ts:14-16 | The request is appended to the end of the node queue. The edge queue is unchanged. |
| `CommandsQueues.CommandsQueue.ConnectNodes` | src/legacy/controller/commands-queue/commands-queue.ts:18-20 | The request is appended to the end of the edge queue. The node queue is unchanged. |
| `CommandsQueues.CommandsQueue.Flush` | src/legacy/controller/commands-queue/commands-queue.ts:22-25 | It forwards `FlushCalls` of the old queues: all node requests, then all edge requests. Both queues end up empty. |
| `CommandsQueues.CommandsQueue.FlushAddNodeQueue` | src/legacy/controller/commands-queue/commands-queue.ts:27-33 | It forwards the node queue in order and empties it. The edge queue is unchanged. |
| `CommandsQueues.CommandsQueue.FlushConnectNodesQueue` | src/legacy/controller/commands-queue/commands-queue.ts:35-41 | It forwards the edge queue in order and empties it. The node queue is unchanged. |
| `ConnectionFactory.ResolveConnectionControllerFactory` | lib/utils/resolve-connection-controller-factory/resolve-connection-controller-factory.ts:5-33 | `"custom"` returns the supplied factory unchanged. `"line"` returns a line strategy. Any other kind returns a Bezier strategy. Each supplied option overrides its default, and otherwise the default applies: colour `#5c5c5c`, width 1, curvature 90, arrow length 15, arrow width 4, no source arrow, a target arrow. |
| `ConnectionFactory.LineAndBezierShareStyling` | lib/utils/resolve-connection-controller-factory/resolve-connection-controller-factory.ts:11-31 | From the same options, the line and Bezier strategies agree on colour, width, arrow sizes and both arrow flags. |
| `Geometry.CubicEnds` | lib/const/bezier-connection-controller/bezier-connection-controller.ts:94-99 | A cubic `C` segment starts at its first point and ends at its last. It leaves along the first control point's offset and arrives along the last control point's offset. |
| `Geometry.MoveCurveEndsAt` | lib/const/bezier-connection-controller/bezier-connection-controller.ts:94-99 | Path data `M a C c1 c2 b` leaves the current point at `b`. |
| `Wrappers.Option.GetOr` | lib/utils/resolve-connection-controller-factory/resolve-connection-controller-factory.ts:14-30 | `??`: a present value is kept, and an absent one is replaced by the default. |
| `BezierConnection.Mult` | lib/const/bezier-connection-controller/bezier-connection-controller.ts:59-60 | The multiplier is 1 iff from ≤ to, and −1 iff from > to. |
| `BezierConnection.MultMirrors` | lib/const/bezier-connection-controller/bezier-connection-controller.ts:59-60 | Swapping two ports with different coordinates flips the multiplier. |
| `BezierConnection.ComputeGeometry` | lib/const/bezier-connection-controller/bezier-connection-controller.ts:55-92 | The multipliers come from the port centres. The vectors come from `getDirectionVector` with those multipliers. Begin and end are the rotated arrow offsets at (0,0) and (width,height). The first control point is `begin + fromVect·curvature`, and `end − toVect·curvature` is the second. |
| `BezierConnection.LineFollowsDirections` | lib/const/bezier-connection-controller/bezier-connection-controller.ts:84-99 | The drawn curve runs from `pointBegin` to `pointEnd`. It leaves along `fromVect` and arrives along `toVect`, with tangent length `3·curvature`. |
| `BezierConnection.RolesMatchUpdateIndices` | lib/const/bezier-connection-controller/bezier-connection-controller.ts:16-48 | The layout `createSvg` builds has 1 + [source arrow] + [target arrow] children. The line is first, and the source arrow is child 1. The target arrow sits at index 2 when there is a source arrow and at 1 otherwise, which is where `updateSvg` writes it. |
| `BezierConnection.BezierConnectionController.CreateSvg` | lib/const/bezier-connection-controller/bezier-connection-controller.ts:16-48 | A fresh `<svg>` whose children are the line and then the configured arrows, styled by role. |
| `BezierConnection.BezierConnectionController.UpdateSvg` | lib/const/bezier-connection-controller/bezier-connection-controller.ts:50-126 | Child 0 gets the line path. Child 1 gets the source arrow at (0,0) with +arrowLength. The target arrow child gets the arrow at (width,height) with −arrowLength. No other attribute and no other child changes. |
| `BezierAdaptiveArrow.PortCenterOffset` | lib/const/bezier-adaptive-arrow-connection-controller/bezier-adaptive-arrow-connection-controller.ts:113-119 | Translating the port's rectangle by a vector translates its centre by the same vector. |
| `BezierAdaptiveArrow.SelectMode` | lib/const/bezier-adaptive-arrow-connection-controller/bezier-adaptive-arrow-connection-controller.ts:46-50 | Direct iff from.x < to.x strictly. Adaptive iff from.x ≥ to.x. |
| `BezierAdaptiveArrow.ModeIsRelative` | lib/const/bezier-adaptive-arrow-connection-controller/bezier-adaptive-arrow-connection-controller.ts:36-51 | The mode depends only on the ports' relative position. Swapping ports with different x flips it, and equal x is adaptive either way. |
| `BezierAdaptiveArrow.DirectShape` | lib/const/bezier-adaptive-arrow-connection-controller/bezier-adaptive-arrow-connection-controller.ts:53-81 | The curve runs from (0,0) to (width − arrowLength, height), the base midpoint of a wedge with tip (width,height) and half-width arrowWidth. It leaves and arrives horizontally with tangent 3·width·curvature. |
| `BezierAdaptiveArrow.AdaptiveShape` | lib/const/bezier-adaptive-arrow-connection-controller/bezier-adaptive-arrow-connection-controller.ts:83-111 | The curve ends at (width + arrowLength, height), the base of a wedge with tip (width,height), so the arrow offset is mirrored. Its tangents are −3·width·adaptiveCurvature. |
| `BezierAdaptiveArrow.ModesBowOpposite` | lib/const/bezier-adaptive-arrow-connection-controller/bezier-adaptive-arrow-connection-controller.ts:53-111 | For non-negative sizes, the direct curve leaves rightwards and the adaptive curve leaves leftwards. In both modes the curve arrives heading toward the arrow tip. |
| `BezierAdaptiveArrow.BezierAdaptiveArrowConnectionController.CreateSvg` | lib/const/bezier-adaptive-arrow-connection-controller/bezier-adaptive-arrow-connection-controller.ts:15-34 | A fresh `<svg>` holding the stroked line and then the filled arrow. |
| `BezierAdaptiveArrow.BezierAdaptiveArrowConnectionController.UpdateSvg` | lib/const/bezier-adaptive-arrow-connection-controller/bezier-adaptive-arrow-connection-controller.ts:36-51 | It writes the direct paths when the source is strictly left of the target, and the adaptive paths otherwise. Only the two `d` attributes change. |
| `BezierAdaptiveArrow.BezierAdaptiveArrowConnectionController.UpdateDirect` | lib/const/bezier-adaptive-arrow-connection-controller/bezier-adaptive-arrow-connection-controller.ts:53-81 | Child 0 gets the direct line and child 1 the direct arrow. |
| `BezierAdaptiveArrow.BezierAdaptiveArrowConnectionController.UpdateAdaptive` | lib/const/bezier-adaptive-arrow-connection-controller/bezier-adaptive-arrow-connection-controller.ts:83-111 | Child 0 gets the adaptive line and child 1 the adaptive arrow. |
| `HtmlControllers.RemoveChild` | lib/components/html-controller/html-controller.ts:446 | `removeChild` succeeds iff the node is a child of the parent, and then removes exactly that child. |
| `HtmlControllers.TriggerSatisfied` | lib/components/html-controller/html-controller.ts:175-189 | `ctrl+wheel` needs ctrl, `shift+wheel` needs shift, `ctrl+shift+wheel` needs both, and any other trigger needs nothing. |
| `HtmlControllers.PinchScale` | lib/components/html-controller/html-controller.ts:93-104 | The scale is finite iff both divisors are non-zero. Then `scale · touch2Distance · touch2Scale = d · currentScale`. |
| `HtmlControllers.PinchScaleIsRelative` | lib/components/html-controller/html-controller.ts:96-103 | At the baseline distance with the scale unchanged, the pinch reports exactly 1. Doubling the distance doubles the reported scale. |
| `HtmlControllers.NodeTranslate` | lib/components/html-controller/html-controller.ts:594-602 | The wrapper translation puts the node's anchor, `centerFn(size)` scaled by the absolute scale, exactly on (x, y). |
| `HtmlControllers.NodeTranslateFollowsNode` | lib/components/html-controller/html-controller.ts:594-602 | Moving the node by (dx, dy) moves its wrapper by exactly (dx, dy). |
| `HtmlControllers.ComputeConnectionBox` | lib/components/html-controller/html-controller.ts:640-650 | x and y are the minima of the centre coordinates. Width and height are non-negative and reach the maxima. flipHor iff from.x ≤ to.x, and flipVert iff from.y ≤ to.y. |
| `HtmlControllers.BoxRecoversEndpoints` | lib/components/html-controller/html-controller.ts:633-650 | The box and its flags lose nothing: the source centre is the corner the flags select, and the target centre is the opposite corner. |
| `HtmlControllers.FlipsAgreeWithMultipliers` | lib/components/html-controller/html-controller.ts:647-648 | The element's flip flags agree with the Bezier strategy's mirror multipliers for the same centres. |
| `HtmlControllers.HtmlController.OnPointerDown` | lib/components/html-controller/html-controller.ts:40-50 | A primary press emits GrabViewport iff shifting is enabled. Otherwise it emits nothing. |
| `HtmlControllers.HtmlController.OnPointerMove` | lib/components/html-controller/html-controller.ts:130-155 | With buttons = 1, it emits DragNode iff a node is grabbed and dragging is enabled. It emits DragViewport iff no node is grabbed and shifting is enabled. Each event carries the movement. In every other case, including any other buttons value, it emits nothing. |
| `HtmlControllers.HtmlController.OnPointerUp` | lib/components/html-controller/html-controller.ts:157-168 | A primary release with shifting enabled clears the grab and emits Release. Otherwise nothing changes. |
| `HtmlControllers.HtmlController.OnWheelScroll` | lib/components/html-controller/html-controller.ts:170-202 | It is ignored when scaling is disabled or a required modifier is up. Otherwise it emits ScaleViewport with `deltaY` and the host-relative pointer position. |
| `HtmlControllers.HtmlController.OnTouchStart` | lib/components/html-controller/html-controller.ts:52-65 | It records the first touch. With two touches it also records the pinch baseline: the distance and the current absolute scale. |
| `HtmlControllers.HtmlController.OnTouchMove` | lib/components/html-controller/html-controller.ts:67-113 | With a grabbed node and dragging enabled, it emits DragNode by the first touch's offset. Otherwise, with shifting enabled, it emits DragViewport and, while a baseline exists, SetViewportScale with `PinchScale` about the touches' host-relative midpoint. The pinch distance runs from the previous first touch to the current second touch. It throws a TypeError iff the pinch branch is reached with fewer than two touches. Then only the DragViewport has been emitted and the first touch is not updated. Otherwise the first touch is updated unless a disabled option returned early. |
| `HtmlControllers.HtmlController.OnTouchMoveCorrected` | lib/components/html-controller/html-controller.ts:67-113 | The same handler, corrected. It reports a pinch only while two touches are down, measuring the distance between the two current touches. It never throws, and the first touch is always updated unless a disabled option returned early. |
| `HtmlControllers.HtmlController.OnTouchEnd` | lib/components/html-controller/html-controller.ts:115-128 | Fewer than 2 remaining touches clear `touch2Distance` and reset `touch2Scale` to 1. No remaining touches also clear `touch1`. |
| `HtmlControllers.HtmlController.OnNodePointerDown` | lib/components/html-controller/html-controller.ts:204-219 | A primary press with dragging enabled grabs the node whose element was pressed, emits GrabNode with its id and stops propagation. Otherwise nothing changes. |
| `HtmlControllers.HtmlController.OnNodeTouchStart` | lib/components/html-controller/html-controller.ts:221-238 | With dragging enabled, it grabs the node, emits GrabNode, records the first touch and stops propagation. |
| `HtmlControllers.HtmlController.OnNodeTouchEnd` | lib/components/html-controller/html-controller.ts:240-249 | With dragging enabled, it clears the grab, emits Release and stops propagation. |
| `HtmlControllers.HtmlController.OnNodePointerUp` | lib/components/html-controller/html-controller.ts:251-260 | A primary release with dragging enabled clears the grab, emits Release and stops propagation. |
| `HtmlControllers.HtmlController.PressOnNode` | lib/components/html-controller/html-controller.ts:204-219 | A press on a node runs the node handler and then, unless stopped, the host handler. At most one event results: GrabNode when dragging is enabled, and otherwise GrabViewport only when shifting is enabled. |
| `HtmlControllers.HtmlController.MoveOnTop` | lib/components/html-controller/html-controller.ts:272-311 | The counter rises by 1, or by 2 in connections-follow-node mode. The node then sits strictly above every other node. In that mode its connections get `currentZIndex − 1`, between the other nodes and the node. The stacking invariant is kept. |
| `HtmlControllers.HtmlController.StackConnectionsAt` | lib/components/html-controller/html-controller.ts:292-295 | Each listed connection element gets the given z-index. Every other connection keeps its style, and no connection is added or removed. |
| `HtmlControllers.HtmlController.UpdateNodeCoords` | lib/components/html-controller/html-controller.ts:594-602 | The wrapper's translation becomes `NodeTranslate` of the node's position. |
| `HtmlControllers.HtmlController.AttachNode` | lib/components/html-controller/html-controller.ts:413-440 | The wrapper is stacked at the current z-index, which is at or above every other node, and the counter rises by 1. The wrapper joins the nodes container and both maps, and is laid out. |
| `HtmlControllers.HtmlController.DetachNodeAsWritten` | lib/components/html-controller/html-controller.ts:442-459 | For every attached node, the first removal fails with NotFoundError. |
| `HtmlControllers.HtmlController.DetachNode` | lib/components/html-controller/html-controller.ts:442-459 | The node's wrapper leaves the nodes container, and both maps forget the node and its element. The invariant is kept. |
| `HtmlControllers.HtmlController.UpdateConnectionCoords` | lib/components/html-controller/html-controller.ts:604-653 | The box is `ComputeConnectionBox` of the two absolute port centres, and it is what the strategy is asked to draw in. The element's transform is the box's flip-and-translate matrix. |
| `HtmlControllers.HtmlController.AttachConnection` | lib/components/html-controller/html-controller.ts:461-477 | The element is stacked at the current z-index, the counter rises by 1, and the element is laid out. It joins the nodes container in connections-follow-node mode, and the connections container otherwise. The invariant is kept. |
| `HtmlControllers.HtmlController.DetachConnection` | lib/components/html-controller/html-controller.ts:479-483 | The connection's element is forgotten. It leaves the container it was appended to: the nodes container in connections-follow-node mode, and the connections container otherwise. The invariant is kept. |
| `HtmlControllers.HtmlController.UpdatePortConnections` | lib/components/html-controller/html-controller.ts:501-508 | Each listed connection is laid out from its ports. No other connection changes. |
| `HtmlControllers.HtmlController.UpdateNodePosition` | lib/components/html-controller/html-controller.ts:489-499 | The node's wrapper gets `NodeTranslate` of its position. Each adjacent connection's element gets the transform of its box, and every other connection keeps its style. One box per adjacent connection is handed to the strategy, in order. The invariant is kept. |
| `HtmlControllers.HtmlController.Clear` | lib/components/html-controller/html-controller.ts:355-363 | It detaches every connection, then every node. Afterwards no node, wrapper or connection remains, and both containers are empty. |
| `HtmlControllers.StrandedBaselineThrows` | lib/components/html-controller/html-controller.ts:93 | Finger A presses a node, finger B presses the host, A lifts, and B moves alone. The move as written throws a TypeError. The corrected move only drags the viewport by B's offset. |
| `HtmlControllers.PanReadsAsPinch` | lib/components/html-controller/html-controller.ts:93-95 | Two fingers 10 apart both move 5 to the right. As written, the move reports a zoom by 1.5. Corrected, it reports the factor 1. |

## Left out

- DOM creation and styling are not modelled:
  - `createHost`, `createCanvas`, `createNodesContainer` and `createConnectionsContainer`;
  - positions, `visibility` and `transformOrigin`;
  - event-listener registration and `preventDefault`.
- The resize observers, `destroy`, `setCursor`, `getViewportDimensions` and `updateCanvasDimensions` are not modelled.
- `applyTransform` and the layers' `update` are not modelled: they do canvas drawing and container transforms.
- `getBoundingClientRect`, `Math.sqrt` and the viewport transformer are parameters: sizes, the host origin, the absolute scale, absolute port origins and `hypot`.
- The graph store is a parameter: node positions, `centerFn` and adjacency lists are passed in.
- The connection utilities are passed in as arbitrary functions, and nothing is claimed about them. Their source is not part of this model.
- Numbers are reals. IEEE rounding is not modelled, and neither is number-to-string formatting of path data or style strings.
- EventSubjects.EventSubject.Dispatch: callback side effects are not modelled. The result is the sequence of invocations. A callback that subscribes or dispatches during a dispatch is not modelled.
- ConnectionFactory.ResolveConnectionControllerFactory: the strategies' constructors are not run. The result records the resolved parameters. `LineConnectionController` is not part of this model. An absent options object (`options?.type`) is not modelled.
- HtmlControllers.HtmlController.Clear: JavaScript `Map` iteration order is not modelled. Entries are detached in an unspecified order, which does not affect the final state.
- HtmlControllers.HtmlController.Clear: it uses the corrected `DetachNode`. As written, the first node detach throws (see Findings).
- HtmlControllers.HtmlController.AttachNode: it requires a node id and an element that are not yet attached. A repeated attach would overwrite map entries and leave stale ones.
- HtmlControllers.HtmlController.OnNodePointerDown: it requires the pressed element to be an attached node's element. Only such elements carry the listener.
- HtmlControllers.HtmlController.OnNodeTouchStart: it requires the pressed element to be an attached node's element. Only such elements carry the listener.
- HtmlControllers.HtmlController.DetachNodeAsWritten: it models the code only up to the DOM exception. The remaining steps are unreachable for an attached node.
- HtmlControllers.HtmlController.OnTouchMove: it requires at least one touch when a drag can be dispatched. A `touchmove` event always carries the moving touch.
- HtmlControllers.HtmlController.UpdateConnectionCoords: the call into the strategy's `update` is represented by returning the box. The ports passed with it are the caller's.

## Findings

| source | as written | input that shows it | evidently intended | confidence | as-written member | corrected member |
|---|---|---|---|---|---|---|
| lib/components/html-controller/html-controller.ts:446 | `detachNode` removes the node's element from the nodes container, but `attachNode` put that element inside a wrapper and only the wrapper in the container. | Attach any node, then detach it. `removeChild` throws NotFoundError before any map is cleaned, and `clear` stops at its first node. | Remove the node's wrapper from the container, and clean both maps. | not executed | `HtmlControllers.HtmlController.DetachNodeAsWritten` | `HtmlControllers.HtmlController.DetachNode` |
| lib/components/html-controller/html-controller.ts:93 | With no grabbed node and a pinch baseline recorded, `onTouchMove` reads `event.touches[1]` without checking that a second touch exists. | A finger presses a node and a second finger presses the host, so the host records a baseline. The first finger lifts: the node handler stops propagation, so the baseline is not cleared. The second finger then moves alone: DragViewport is dispatched, then reading `touches[1].clientX` throws a TypeError and `touch1` is not updated. | Report a pinch only while `event.touches.length > 1`. | not executed | `HtmlControllers.StrandedBaselineThrows` | `HtmlControllers.HtmlController.OnTouchMoveCorrected` |
| lib/components/html-controller/html-controller.ts:93-95 | The pinch distance is measured from the previous first touch point `touch1` to the current second touch, while the baseline is measured between two current touches. | Start a pinch with touches (0,0) and (10,0), then move both to (5,0) and (15,0). The fingers are still 10 apart, but the reported scale is 15/10 = 1.5. | Measure between `touches[0]` and `touches[1]`, so that a pan reports the factor 1. | not executed | `HtmlControllers.PanReadsAsPinch` | `HtmlControllers.HtmlController.OnTouchMoveCorrected` |
