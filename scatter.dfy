/** The cluster scatter-gather of the routes service (`scrapeAgents`) and the
    three administrative queries built on it (`sync`, `stats`, `info`).

    The node list that `$node.list` answers and the outcomes that
    `Promise.allSettled` reports are parameters: the model starts where both
    are known, so the concurrency of the per-node calls is not modelled, only
    what is assembled from their settled outcomes. */
module ScatterGather {
  import opened Common

  /** One entry of the node list. */
  datatype Node = Node(id: string)

  /** A settled promise: what `Promise.allSettled` reports for one call. */
  datatype Settled<+V, +E> = Fulfilled(value: V) | Rejected(reason: E)

  /** The `status` string of a settled promise: "fulfilled" or "rejected". */
  datatype Status = FulfilledStatus | RejectedStatus

  /** One element of the array `scrapeAgents` returns; `info` and `reason`
      are JavaScript's `undefined` (here `None`) on the side that does not
      apply. */
  datatype Entry<+V, +E> = Entry(nodeID: string, status: Status, info: Option<V>, reason: Option<E>)

  /** One `ctx.call(action, params, { nodeID })`: the action, its parameters
      and the node it is pinned to. */
  datatype Call = Call(action: string, params: map<string, string>, nodeID: string)

  /** The three remote proxy-agent actions behind `sync`, `stats` and `info`. */
  datatype AgentAction = AgentSync | AgentStats | AgentInfo

  function ActionName(a: AgentAction): string
  {
    match a
    case AgentSync => "v1.proxy.agent.sync"
    case AgentStats => "v1.proxy.agent.stats"
    case AgentInfo => "v1.proxy.agent.info"
  }

  /** The entry built for `node` from the outcome of its call. */
  function EntryFor<V, E>(node: Node, s: Settled<V, E>): Entry<V, E>
  {
    match s
    case Fulfilled(v) => Entry(node.id, FulfilledStatus, Some(v), None)
    case Rejected(e) => Entry(node.id, RejectedStatus, None, Some(e))
  }

  /** The result of the scatter-gather for a node list and the outcome of
      each node's call: one entry per node, zipped by index. */
  function Gathered<V, E>(nodes: seq<Node>, settled: seq<Settled<V, E>>): (r: seq<Entry<V, E>>)
    requires |settled| == |nodes|
    ensures |r| == |nodes|
    ensures forall i :: 0 <= i < |r| ==>
      r[i].nodeID == nodes[i].id &&
      (r[i].status == FulfilledStatus <==> settled[i].Fulfilled?) &&
      (settled[i].Fulfilled? ==> r[i].info == Some(settled[i].value) && r[i].reason == None) &&
      (settled[i].Rejected? ==> r[i].info == None && r[i].reason == Some(settled[i].reason))
  {
    seq(|nodes|, i requires 0 <= i < |nodes| => EntryFor(nodes[i], settled[i]))
  }

  predicate IsFulfilled<V, E>(e: Entry<V, E>) {
    e.status == FulfilledStatus
  }

  /** `res.filter((item) => item.status == 'fulfilled')`. */
  function FulfilledOnly<V, E>(entries: seq<Entry<V, E>>): seq<Entry<V, E>>
  {
    Filter(entries, IsFulfilled)
  }

  /** `scrapeAgents(ctx, action, params)`: first one call per node, pinned to
      that node, then one entry per node from the settled outcomes. A
      rejected call becomes a rejected entry; nothing is thrown. */
  method ScrapeAgents<V, E>(nodes: seq<Node>, action: string, params: map<string, string>,
                            settled: seq<Settled<V, E>>)
    returns (calls: seq<Call>, result: seq<Entry<V, E>>)
    requires |settled| == |nodes|  // allSettled reports one outcome per call
    ensures |calls| == |nodes|
    ensures forall i :: 0 <= i < |nodes| ==> calls[i] == Call(action, params, nodes[i].id)
    ensures result == Gathered(nodes, settled)
  {
    calls := [];
    var index := 0;
    while index < |nodes|
      invariant 0 <= index <= |nodes|
      invariant |calls| == index
      invariant forall i :: 0 <= i < index ==> calls[i] == Call(action, params, nodes[i].id)
    {
      calls := calls + [Call(action, params, nodes[index].id)];
      index := index + 1;
    }

    result := [];
    index := 0;
    while index < |nodes|
      invariant 0 <= index <= |nodes|
      invariant result == Gathered(nodes[..index], settled[..index])
    {
      var node := nodes[index];
      var entry := EntryFor(node, settled[index]);
      assert nodes[..index + 1] == nodes[..index] + [node];
      assert settled[..index + 1] == settled[..index] + [settled[index]];
      result := result + [entry];
      index := index + 1;
    }
    assert nodes[..index] == nodes && settled[..index] == settled;
  }

  /** The `sync`, `stats` and `info` actions: the scatter-gather of the
      matching agent action with the default empty parameters, then only the
      fulfilled entries. The declared `target` parameter reaches no call. */
  method AdminQuery<V, E>(kind: AgentAction, target: Option<string>, nodes: seq<Node>,
                          settled: seq<Settled<V, E>>)
    returns (calls: seq<Call>, result: seq<Entry<V, E>>)
    requires |settled| == |nodes|
    ensures |calls| == |nodes|
    ensures forall i :: 0 <= i < |nodes| ==>
      calls[i].action == ActionName(kind) && calls[i].params == map[] && calls[i].nodeID == nodes[i].id
    ensures result == FulfilledOnly(Gathered(nodes, settled))
    ensures forall i :: 0 <= i < |result| ==> result[i].status == FulfilledStatus
    ensures forall i :: 0 <= i < |nodes| && settled[i].Fulfilled? ==>
      Entry(nodes[i].id, FulfilledStatus, Some(settled[i].value), None) in result
  {
    var all;
    calls, all := ScrapeAgents(nodes, ActionName(kind), map[], settled);
    result := Filter(all, IsFulfilled);
  }

  /** The fulfilled filter keeps the relative order of the entries:
      filtering a concatenation concatenates the filtered parts. */
  lemma FulfilledOnlyAppend<V, E>(a: seq<Entry<V, E>>, b: seq<Entry<V, E>>)
    ensures FulfilledOnly(a + b) == FulfilledOnly(a) + FulfilledOnly(b)
  {
    FilterAppend(a, b, IsFulfilled);
  }

  /** With every call fulfilled, the administrative query loses no node. */
  lemma AllFulfilledKeepsEveryNode<V, E>(nodes: seq<Node>, settled: seq<Settled<V, E>>)
    requires |settled| == |nodes|
    requires forall i :: 0 <= i < |settled| ==> settled[i].Fulfilled?
    ensures FulfilledOnly(Gathered(nodes, settled)) == Gathered(nodes, settled)
  {
    FilterKeepsAll(Gathered(nodes, settled), IsFulfilled);
  }

  /** Three nodes where the middle call fails: the scatter-gather reports
      all three, in order, the middle one rejected with its error, and the
      administrative query reports the two others in order. */
  lemma MiddleNodeFails<V, E>(a: string, b: string, c: string, va: V, eb: E, vc: V)
    ensures var nodes := [Node(a), Node(b), Node(c)];
            var settled := [Fulfilled(va), Rejected(eb), Fulfilled(vc)];
            Gathered(nodes, settled) ==
              [Entry(a, FulfilledStatus, Some(va), None),
               Entry(b, RejectedStatus, None, Some(eb)),
               Entry(c, FulfilledStatus, Some(vc), None)] &&
            FulfilledOnly(Gathered(nodes, settled)) ==
              [Entry(a, FulfilledStatus, Some(va), None), Entry(c, FulfilledStatus, Some(vc), None)]
  {
    var nodes := [Node(a), Node(b), Node(c)];
    var settled: seq<Settled<V, E>> := [Fulfilled(va), Rejected(eb), Fulfilled(vc)];
    var g := Gathered(nodes, settled);
    assert g == [g[0]] + [g[1]] + [g[2]];
    FilterAppend([g[0]] + [g[1]], [g[2]], IsFulfilled);
    FilterAppend([g[0]], [g[1]], IsFulfilled);
  }
}
