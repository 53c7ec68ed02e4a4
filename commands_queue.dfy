/**
 * The legacy deferred command queue: node and edge requests are buffered and
 * forwarded to the graph controller on `Flush`, all nodes before all edges.
 * `N` and `E` stand for the request records (`NodeDto`, `EdgeDto`).
 */
module CommandsQueues {

  /** A call made on the graph controller: `addNode(req)` or `addEdge(req)`. */
  datatype GraphCall<N, E> = AddNodeCall(node: N) | AddEdgeCall(edge: E)

  function NodeCalls<N, E>(queue: seq<N>): seq<GraphCall<N, E>>
  {
    if queue == [] then [] else [AddNodeCall(queue[0])] + NodeCalls(queue[1..])
  }

  function EdgeCalls<N, E>(queue: seq<E>): seq<GraphCall<N, E>>
  {
    if queue == [] then [] else [AddEdgeCall(queue[0])] + EdgeCalls(queue[1..])
  }

  /** The calls a flush of the two queues makes, in order. */
  function FlushCalls<N, E>(nodes: seq<N>, edges: seq<E>): seq<GraphCall<N, E>>
  {
    NodeCalls(nodes) + EdgeCalls(edges)
  }

  lemma {:induction false} NodeCallsAt<N, E>(queue: seq<N>)
    ensures |NodeCalls<N, E>(queue)| == |queue|
    ensures forall i :: 0 <= i < |queue| ==> NodeCalls<N, E>(queue)[i] == AddNodeCall(queue[i])
  {
    if queue != [] {
      NodeCallsAt<N, E>(queue[1..]);
    }
  }

  lemma {:induction false} EdgeCallsAt<N, E>(queue: seq<E>)
    ensures |EdgeCalls<N, E>(queue)| == |queue|
    ensures forall i :: 0 <= i < |queue| ==> EdgeCalls<N, E>(queue)[i] == AddEdgeCall(queue[i])
  {
    if queue != [] {
      EdgeCallsAt<N, E>(queue[1..]);
    }
  }

  /**
   * A flush forwards every queued node request, in insertion order, and then
   * every queued edge request, in insertion order: each exactly once, at a
   * known position.
   */
  lemma FlushCallsOrder<N, E>(nodes: seq<N>, edges: seq<E>)
    ensures |FlushCalls(nodes, edges)| == |nodes| + |edges|
    ensures forall i :: 0 <= i < |nodes| ==> FlushCalls(nodes, edges)[i] == AddNodeCall(nodes[i])
    ensures forall j :: 0 <= j < |edges| ==> FlushCalls(nodes, edges)[|nodes| + j] == AddEdgeCall(edges[j])
  {
    NodeCallsAt<N, E>(nodes);
    EdgeCallsAt<N, E>(edges);
  }

  /** No node request is forwarded after an edge request. */
  lemma FlushNodesBeforeEdges<N, E>(nodes: seq<N>, edges: seq<E>)
    ensures forall i, j :: 0 <= i < j < |FlushCalls(nodes, edges)| && FlushCalls(nodes, edges)[i].AddEdgeCall? ==>
              FlushCalls(nodes, edges)[j].AddEdgeCall?
  {
    FlushCallsOrder(nodes, edges);
    var calls := FlushCalls(nodes, edges);
    forall i, j | 0 <= i < j < |calls| && calls[i].AddEdgeCall?
      ensures calls[j].AddEdgeCall?
    {
      assert i >= |nodes|;
      assert calls[j] == AddEdgeCall(edges[j - |nodes|]);
    }
  }

  /** A flush forwards nothing exactly when both queues are empty. */
  lemma FlushCallsEmpty<N, E>(nodes: seq<N>, edges: seq<E>)
    ensures FlushCalls(nodes, edges) == [] <==> nodes == [] && edges == []
  {
    FlushCallsOrder(nodes, edges);
  }

  lemma {:induction false} NodeCallsAppend<N, E>(queue: seq<N>, req: N)
    ensures NodeCalls<N, E>(queue + [req]) == NodeCalls<N, E>(queue) + [AddNodeCall(req)]
  {
    if queue != [] {
      assert (queue + [req])[1..] == queue[1..] + [req];
      NodeCallsAppend<N, E>(queue[1..], req);
    }
  }

  lemma {:induction false} EdgeCallsAppend<N, E>(queue: seq<E>, req: E)
    ensures EdgeCalls<N, E>(queue + [req]) == EdgeCalls<N, E>(queue) + [AddEdgeCall(req)]
  {
    if queue != [] {
      assert (queue + [req])[1..] == queue[1..] + [req];
      EdgeCallsAppend<N, E>(queue[1..], req);
    }
  }

  class CommandsQueue<N, E> {
    var addNodeQueue: seq<N>
    var connectNodesQueue: seq<E>

    constructor ()
      ensures addNodeQueue == [] && connectNodesQueue == []
    {
      addNodeQueue := [];
      connectNodesQueue := [];
    }

    method AddNode(req: N)
      modifies this
      ensures addNodeQueue == old(addNodeQueue) + [req]
      ensures connectNodesQueue == old(connectNodesQueue)
    {
      addNodeQueue := addNodeQueue + [req];
    }

    method ConnectNodes(req: E)
      modifies this
      ensures connectNodesQueue == old(connectNodesQueue) + [req]
      ensures addNodeQueue == old(addNodeQueue)
    {
      connectNodesQueue := connectNodesQueue + [req];
    }

    /**
     * Forward all node requests, then all edge requests, and empty both
     * queues; `calls` are the graph-controller calls made, in order. With both
     * queues empty afterwards, a second flush forwards nothing.
     */
    method Flush() returns (calls: seq<GraphCall<N, E>>)
      modifies this
      ensures calls == FlushCalls(old(addNodeQueue), old(connectNodesQueue))
      ensures addNodeQueue == [] && connectNodesQueue == []
    {
      var nodeCalls := FlushAddNodeQueue();
      var edgeCalls := FlushConnectNodesQueue();
      calls := nodeCalls + edgeCalls;
    }

    method FlushAddNodeQueue() returns (calls: seq<GraphCall<N, E>>)
      modifies this
      ensures calls == NodeCalls(old(addNodeQueue))
      ensures addNodeQueue == [] && connectNodesQueue == old(connectNodesQueue)
    {
      calls := [];
      var i := 0;
      while i < |addNodeQueue|
        invariant 0 <= i <= |addNodeQueue|
        invariant calls == NodeCalls(addNodeQueue[..i])
        invariant addNodeQueue == old(addNodeQueue) && connectNodesQueue == old(connectNodesQueue)
      {
        NodeCallsAppend<N, E>(addNodeQueue[..i], addNodeQueue[i]);
        assert addNodeQueue[..i + 1] == addNodeQueue[..i] + [addNodeQueue[i]];
        calls := calls + [AddNodeCall(addNodeQueue[i])];
        i := i + 1;
      }
      assert addNodeQueue[..i] == addNodeQueue;
      addNodeQueue := [];
    }

    method FlushConnectNodesQueue() returns (calls: seq<GraphCall<N, E>>)
      modifies this
      ensures calls == EdgeCalls(old(connectNodesQueue))
      ensures connectNodesQueue == [] && addNodeQueue == old(addNodeQueue)
    {
      calls := [];
      var i := 0;
      while i < |connectNodesQueue|
        invariant 0 <= i <= |connectNodesQueue|
        invariant calls == EdgeCalls(connectNodesQueue[..i])
        invariant addNodeQueue == old(addNodeQueue) && connectNodesQueue == old(connectNodesQueue)
      {
        EdgeCallsAppend<N, E>(connectNodesQueue[..i], connectNodesQueue[i]);
        assert connectNodesQueue[..i + 1] == connectNodesQueue[..i] + [connectNodesQueue[i]];
        calls := calls + [AddEdgeCall(connectNodesQueue[i])];
        i := i + 1;
      }
      assert connectNodesQueue[..i] == connectNodesQueue;
      connectNodesQueue := [];
    }
  }
}
