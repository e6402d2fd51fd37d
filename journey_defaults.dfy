/** packages/dashboard/src/components/journeys/defaults.ts: the default graph
    of a new journey (the UI entry node wired to the exit node) and the
    index from node id to position in the node list. */
module JourneyDefaults {

  /** `AdditionalJourneyNodeType.EntryUiNode` and `JourneyNodeType.ExitNode`. */
  const EntryUiNodeId: string := "EntryUiNode"
  const ExitNodeId: string := "ExitNode"

  /** A reactflow node; only its id matters here. */
  datatype FlowNode = FlowNode(id: string)

  datatype FlowEdge = FlowEdge(id: string, source: string, target: string, edgeType: string)

  /** `defaultEdges`: one workflow edge from the UI entry node to the exit
      node, whose id is "source=>target". */
  function DefaultEdges(): (r: seq<FlowEdge>)
    ensures |r| == 1
    ensures r[0].source == EntryUiNodeId && r[0].target == ExitNodeId && r[0].edgeType == "workflow"
    ensures r[0].id == r[0].source + "=>" + r[0].target
  {
    [FlowEdge(EntryUiNodeId + "=>" + ExitNodeId, EntryUiNodeId, ExitNodeId, "workflow")]
  }

  /** The nodes of `defaultNodes`, before layout. */
  function DefaultNodes(): seq<FlowNode>
  {
    [FlowNode(EntryUiNodeId), FlowNode(ExitNodeId)]
  }

  /** `buildNodesIndex`: the reduce writes `memo[node.id] = i` node by node,
      so the keys are exactly the node ids and each id maps to the position
      of its last occurrence; with distinct ids every node maps to its own
      position. */
  method BuildNodesIndex(nodes: seq<FlowNode>) returns (memo: map<string, int>)
    ensures forall id :: id in memo <==> exists i :: 0 <= i < |nodes| && nodes[i].id == id
    ensures forall id :: id in memo ==>
              0 <= memo[id] < |nodes| && nodes[memo[id]].id == id
              && forall j :: memo[id] < j < |nodes| ==> nodes[j].id != id
    ensures (forall i, j :: 0 <= i < j < |nodes| ==> nodes[i].id != nodes[j].id) ==>
              forall i :: 0 <= i < |nodes| ==> memo[nodes[i].id] == i
    ensures nodes == [] ==> memo == map[]
  {
    memo := map[];
    var i := 0;
    while i < |nodes|
      invariant 0 <= i <= |nodes|
      invariant forall id :: id in memo <==> exists k :: 0 <= k < i && nodes[k].id == id
      invariant forall id :: id in memo ==>
                  0 <= memo[id] < i && nodes[memo[id]].id == id
                  && forall j :: memo[id] < j < i ==> nodes[j].id != id
    {
      memo := memo[nodes[i].id := i];
      i := i + 1;
    }
    if forall a, b :: 0 <= a < b < |nodes| ==> nodes[a].id != nodes[b].id {
      forall k | 0 <= k < |nodes| ensures memo[nodes[k].id] == k {
        assert nodes[memo[nodes[k].id]].id == nodes[k].id;
      }
    }
  }

  /** The default graph is closed: both ends of every default edge are
      nodes of the default node list. */
  method DefaultEdgesConnectDefaultNodes() returns (index: map<string, int>)
    ensures forall e :: e in DefaultEdges() ==> e.source in index && e.target in index
    ensures index[EntryUiNodeId] == 0 && index[ExitNodeId] == 1
  {
    index := BuildNodesIndex(DefaultNodes());
    assert DefaultNodes()[0].id == EntryUiNodeId;
    assert DefaultNodes()[1].id == ExitNodeId;
  }
}
