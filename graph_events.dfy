/**
 * The events the interaction handlers publish on the event bus. Each event
 * type fixes whether a payload travels with it and which shape it has.
 */
module GraphEvents {
  import opened Wrappers

  datatype GraphEventType =
    | GrabViewport
    | GrabNode
    | DragNode
    | DragViewport
    | SetViewportScale
    | ScaleViewport
    | Release

  /** A JavaScript number that may have become infinite or NaN by a division by zero. */
  datatype Number = Finite(value: real) | NotFinite

  datatype Payload =
    | GrabNodePayload(nodeId: string)
    | DragNodePayload(nodeId: string, dx: real, dy: real)
    | DragViewportPayload(dx: real, dy: real)
    | SetViewportScalePayload(scale: Number, centerX: real, centerY: real)
    | ScaleViewportPayload(deltaY: real, centerX: real, centerY: real)

  /** One `dispatch(type, payload)` call. */
  datatype GraphEvent = GraphEvent(eventType: GraphEventType, payload: Option<Payload>)

  /** The payload shape each event type statically requires. */
  predicate WellTyped(e: GraphEvent)
  {
    match e.eventType
    case GrabViewport => e.payload.None?
    case Release => e.payload.None?
    case GrabNode => e.payload.Some? && e.payload.value.GrabNodePayload?
    case DragNode => e.payload.Some? && e.payload.value.DragNodePayload?
    case DragViewport => e.payload.Some? && e.payload.value.DragViewportPayload?
    case SetViewportScale => e.payload.Some? && e.payload.value.SetViewportScalePayload?
    case ScaleViewport => e.payload.Some? && e.payload.value.ScaleViewportPayload?
  }
}
