/**
 * The typed event bus: a map from event type to the callbacks subscribed to
 * it, in subscription order. `On` subscribes, `Dispatch` calls them.
 */
module EventSubjects {
  import opened Wrappers
  import opened GraphEvents

  /** The identity of a subscribed callback function. */
  type Callback = nat

  /** One call of a callback: with the payload, or with no argument. */
  datatype Invocation = Invocation(callback: Callback, argument: Option<Payload>)

  type Mapping = map<GraphEventType, seq<Callback>>

  /** The callbacks subscribed to `t`; none when `t` has no list yet. */
  function CallbacksOf(mapping: Mapping, t: GraphEventType): seq<Callback>
  {
    if t in mapping then mapping[t] else []
  }

  /** The mapping after subscribing `callback` to `t`. */
  function Subscribe(mapping: Mapping, t: GraphEventType, callback: Callback): (r: Mapping)
    ensures r.Keys == mapping.Keys + {t}
    ensures t !in mapping ==> r[t] == [callback]
    ensures t in mapping ==> r[t] == mapping[t] + [callback]
    ensures forall u :: u in mapping && u != t ==> r[u] == mapping[u]
  {
    if t in mapping then mapping[t := mapping[t] + [callback]] else mapping[t := [callback]]
  }

  /** A sequence of `on(type, callback)` calls. */
  datatype Registration = Registration(eventType: GraphEventType, callback: Callback)

  function SubscribeAll(mapping: Mapping, regs: seq<Registration>): Mapping
    decreases |regs|
  {
    if regs == [] then mapping
    else SubscribeAll(Subscribe(mapping, regs[0].eventType, regs[0].callback), regs[1..])
  }

  /** The callbacks of `regs` registered for `t`, in registration order. */
  function RegisteredFor(regs: seq<Registration>, t: GraphEventType): seq<Callback>
  {
    if regs == [] then []
    else (if regs[0].eventType == t then [regs[0].callback] else []) + RegisteredFor(regs[1..], t)
  }

  /** One subscription appends its callback to its own type's list only. */
  lemma SubscribeOwn(mapping: Mapping, reg: Registration, t: GraphEventType)
    ensures CallbacksOf(Subscribe(mapping, reg.eventType, reg.callback), t)
         == CallbacksOf(mapping, t) + (if reg.eventType == t then [reg.callback] else [])
  { }

  /**
   * After any sequence of subscriptions, the list for `t` is the earlier list
   * followed by exactly the callbacks registered for `t`, in registration
   * order; registrations for other types never touch it.
   */
  lemma {:induction false} SubscribeAllOrder(mapping: Mapping, regs: seq<Registration>, t: GraphEventType)
    ensures CallbacksOf(SubscribeAll(mapping, regs), t) == CallbacksOf(mapping, t) + RegisteredFor(regs, t)
    decreases |regs|
  {
    if regs != [] {
      var next := Subscribe(mapping, regs[0].eventType, regs[0].callback);
      var own := if regs[0].eventType == t then [regs[0].callback] else [];
      var rest := RegisteredFor(regs[1..], t);
      assert SubscribeAll(mapping, regs) == SubscribeAll(next, regs[1..]);
      assert RegisteredFor(regs, t) == own + rest;
      SubscribeOwn(mapping, regs[0], t);
      SubscribeAllOrder(next, regs[1..], t);
      assert (CallbacksOf(mapping, t) + own) + rest == CallbacksOf(mapping, t) + (own + rest);
    }
  }

  class EventSubject {
    var mapping: Mapping

    constructor ()
      ensures mapping == map[]
    {
      mapping := map[];
    }

    /** Subscribe `callback` to events of type `t`. */
    method On(t: GraphEventType, callback: Callback)
      modifies this
      ensures mapping == Subscribe(old(mapping), t, callback)
      ensures CallbacksOf(mapping, t) == CallbacksOf(old(mapping), t) + [callback]
      ensures forall u :: u != t ==> CallbacksOf(mapping, u) == CallbacksOf(old(mapping), u)
    {
      if t in mapping {
        var callbacks := mapping[t];
        mapping := mapping[t := callbacks + [callback]];
      } else {
        mapping := mapping[t := [callback]];
      }
    }

    /**
     * Call every callback subscribed to `t`, each once, in subscription order,
     * passing `payload` when there is one and no argument otherwise. The
     * method has no modifies clause: dispatching never changes the mapping.
     */
    method Dispatch(t: GraphEventType, payload: Option<Payload>) returns (calls: seq<Invocation>)
      ensures |calls| == |CallbacksOf(mapping, t)|
      ensures forall i :: 0 <= i < |calls| ==>
                calls[i].callback == CallbacksOf(mapping, t)[i] && calls[i].argument == payload
      ensures t !in mapping ==> calls == []
    {
      calls := [];
      if t in mapping {
        var callbacks := mapping[t];
        var i := 0;
        while i < |callbacks|
          invariant 0 <= i <= |callbacks|
          invariant |calls| == i
          invariant forall k :: 0 <= k < i ==> calls[k] == Invocation(callbacks[k], payload)
        {
          if payload.Some? {
            calls := calls + [Invocation(callbacks[i], payload)];
          } else {
            calls := calls + [Invocation(callbacks[i], None)];
          }
          i := i + 1;
        }
      }
    }
  }
}
