/** The flow detail page: the flow structure it receives is reduced to one
    flow node per `node.id`, laid out by `calculateFlowLayout`, and drawn
    with the de-duplicated `outgoing_edges` of every flow node. */
module FlowDetail {
  import opened Wrappers
  import opened Strings
  import opened FlowGraph
  import opened Unique
  import opened FlowPositions
  import opened FlowLayout

  datatype StructureEdge = StructureEdge(id: string, fromNode: string, toNode: string, condition: Option<string>)
  datatype NodeRecord = NodeRecord(id: string, name: string, version: int)
  datatype ParameterValue = ParameterValue(parameterKey: string, value: string)
  datatype SubnodeRecord = SubnodeRecord(name: string, parameterValues: Option<seq<ParameterValue>>)
  /** One entry of the structure's `flow_nodes`. */
  datatype StructureNode = StructureNode(node: NodeRecord, selectedSubnode: Option<SubnodeRecord>,
                                         incomingEdges: Option<seq<StructureEdge>>,
                                         outgoingEdges: Option<seq<StructureEdge>>)
  datatype FlowStructure = FlowStructure(name: string, flowNodes: seq<StructureNode>, isRunning: bool, isDeployed: bool)

  /** A canvas node of type `generic`. */
  datatype DetailNode = DetailNode(id: string, x: real, y: real, name: string, description: string,
                                   parameters: seq<ParameterValue>)
  /** An animated `smoothstep` canvas edge; no label when the condition is missing or empty. */
  datatype DetailEdge = DetailEdge(id: string, source: string, target: string, edgeLabel: Option<string>)

  function NodeKey(n: StructureNode): string { n.node.id }
  function DetailEdgeKey(e: DetailEdge): string { e.id }

  // ---------------------------------------------------------------------------
  // Layout input

  /** An edge list as the layout sees it; a missing list becomes `[]`. */
  function EdgeRefs(es: Option<seq<StructureEdge>>): (r: seq<EdgeRef>)
    ensures es.None? ==> r == []
    ensures es.Some? ==> |r| == |es.value|
  {
    match es
    case None => []
    case Some(s) => seq(|s|, j requires 0 <= j < |s| => EdgeRef(s[j].fromNode, s[j].toNode))
  }

  /** `{ id: node.id, incoming_edges: incoming_edges || [], outgoing_edges: outgoing_edges || [] }` */
  function LayoutInput(unique: seq<StructureNode>): (r: seq<FlowNode>)
    ensures |r| == |unique|
    ensures forall k :: 0 <= k < |r| ==>
      r[k].id == unique[k].node.id && r[k].incomingEdges.Some? && r[k].outgoingEdges.Some?
      && |r[k].outgoingEdges.value| == |EdgeRefs(unique[k].outgoingEdges)|
  {
    seq(|unique|, k requires 0 <= k < |unique| =>
      FlowNode(unique[k].node.id, Some(EdgeRefs(unique[k].incomingEdges)), Some(EdgeRefs(unique[k].outgoingEdges))))
  }

  /** A node of the layout input is a root exactly when its flow node lists no incoming edge. */
  lemma LayoutInputRoots(unique: seq<StructureNode>, k: nat)
    requires k < |unique|
    ensures FlowLevels.IsRoot(LayoutInput(unique)[k])
        <==> unique[k].incomingEdges.None? || |unique[k].incomingEdges.value| == 0
  {
  }

  // ---------------------------------------------------------------------------
  // Canvas nodes

  /** `v || 100`: a missing or zero coordinate becomes 100. */
  function OrHundred(v: Option<real>): real {
    if v.None? || v.value == 0.0 then 100.0 else v.value
  }

  /** `selected_subnode?.parameter_values || []` */
  function Parameters(n: StructureNode): (r: seq<ParameterValue>)
    ensures n.selectedSubnode.None? || n.selectedSubnode.value.parameterValues.None? ==> r == []
    ensures n.selectedSubnode.Some? && n.selectedSubnode.value.parameterValues.Some? ==>
      r == n.selectedSubnode.value.parameterValues.value
  {
    if n.selectedSubnode.Some? && n.selectedSubnode.value.parameterValues.Some?
    then n.selectedSubnode.value.parameterValues.value else []
  }

  function NodeOf(n: StructureNode, layout: LayoutMap): DetailNode {
    var id := n.node.id;
    var x := if id in layout.entries then Some(layout.entries[id].x) else None;
    var y := if id in layout.entries then Some(layout.entries[id].y as real) else None;
    DetailNode(id, OrHundred(x), OrHundred(y), n.node.name, "Version: " + IntToString(n.node.version), Parameters(n))
  }

  /** The canvas nodes, one per unique flow node, in the same order: each
      labelled with the node's name, described by its version and carrying
      the selected subnode's parameters. */
  function DetailNodes(unique: seq<StructureNode>, layout: LayoutMap): (r: seq<DetailNode>)
    ensures |r| == |unique|
    ensures forall k :: 0 <= k < |r| ==>
      r[k].id == unique[k].node.id && r[k].name == unique[k].node.name
      && r[k].description == "Version: " + IntToString(unique[k].node.version)
      && r[k].parameters == Parameters(unique[k])
  {
    seq(|unique|, k requires 0 <= k < |unique| => NodeOf(unique[k], layout))
  }

  /** Where a canvas node goes: the layout position, except that a missing
      entry or a zero coordinate puts it at 100. */
  lemma DetailNodePosition(unique: seq<StructureNode>, layout: LayoutMap, k: nat)
    requires k < |unique|
    ensures var id := unique[k].node.id;
      DetailNodes(unique, layout)[k].id == id
      && (id !in layout.entries ==> DetailNodes(unique, layout)[k].x == 100.0 && DetailNodes(unique, layout)[k].y == 100.0)
      && (id in layout.entries && layout.entries[id].x != 0.0 ==> DetailNodes(unique, layout)[k].x == layout.entries[id].x)
      && (id in layout.entries && layout.entries[id].x == 0.0 ==> DetailNodes(unique, layout)[k].x == 100.0)
      && (id in layout.entries && layout.entries[id].y != 0 ==> DetailNodes(unique, layout)[k].y == layout.entries[id].y as real)
      && (id in layout.entries && layout.entries[id].y == 0 ==> DetailNodes(unique, layout)[k].y == 100.0)
  {
  }

  // ---------------------------------------------------------------------------
  // Canvas edges

  /** `edge.condition || undefined` */
  function EdgeLabel(condition: Option<string>): (r: Option<string>)
    ensures r.Some? <==> condition.Some? && condition.value != ""
    ensures r.Some? ==> r == condition
  {
    if condition.Some? && condition.value != "" then condition else None
  }

  function EdgeOf(e: StructureEdge): (d: DetailEdge)
    ensures d.id == e.id && d.source == e.fromNode && d.target == e.toNode
  {
    DetailEdge(e.id, e.fromNode, e.toNode, EdgeLabel(e.condition))
  }

  /** The canvas edges of one flow node's `outgoing_edges`, none when the list is missing. */
  function NodeEdges(n: StructureNode): (r: seq<DetailEdge>)
    ensures n.outgoingEdges.None? ==> r == []
    ensures n.outgoingEdges.Some? ==> |r| == |n.outgoingEdges.value|
  {
    match n.outgoingEdges
    case None => []
    case Some(es) => seq(|es|, j requires 0 <= j < |es| => EdgeOf(es[j]))
  }

  /** Every flow node's canvas edges, flow node after flow node. */
  function AllEdges(s: seq<StructureNode>): seq<DetailEdge> {
    if s == [] then [] else AllEdges(s[..|s| - 1]) + NodeEdges(s[|s| - 1])
  }

  lemma AllEdgesStep(s: seq<StructureNode>, i: nat)
    requires i < |s|
    ensures AllEdges(s[..i + 1]) == AllEdges(s[..i]) + NodeEdges(s[i])
  {
    assert s[..i + 1][..i] == s[..i];
  }

  /** `uniqueEdges`: the two nested `forEach` loops that keep the first edge of each id. */
  method CollectEdges(s: seq<StructureNode>) returns (edges: seq<DetailEdge>)
    ensures edges == Dedup(AllEdges(s), DetailEdgeKey)
  {
    edges := [];
    var seen: set<string> := {};
    var i := 0;
    while i < |s|
      invariant i <= |s|
      invariant edges == Dedup(AllEdges(s[..i]), DetailEdgeKey) && seen == Keys(edges, DetailEdgeKey)
    {
      edges, seen := DedupExtend(AllEdges(s[..i]), edges, seen, NodeEdges(s[i]), DetailEdgeKey);
      AllEdgesStep(s, i);
      i := i + 1;
    }
    assert s[..i] == s;
  }

  // ---------------------------------------------------------------------------
  // Status badge

  datatype StatusBadge = Running | Deployed | NotDeployed

  /** `getStatusBadge`: running takes precedence over deployed. */
  function GetStatusBadge(flow: FlowStructure): (b: StatusBadge)
    ensures b == Running <==> flow.isRunning
    ensures b == Deployed <==> !flow.isRunning && flow.isDeployed
    ensures b == NotDeployed <==> !flow.isRunning && !flow.isDeployed
  {
    if flow.isRunning then Running else if flow.isDeployed then Deployed else NotDeployed
  }

  // ---------------------------------------------------------------------------
  // The whole page

  /** `flowNodesForLayout`: the layout input built from the unique flow nodes. */
  function CanvasInput(flow: FlowStructure): seq<FlowNode> {
    LayoutInput(Dedup(flow.flowNodes, NodeKey))
  }

  /** What the page hands to the canvas. `layout` is `calculateFlowLayout` of
      the unique flow nodes (`bfs` is its breadth-first map): every unique id
      has an entry, a node's row is its distance from the roots, and the rows
      are packed. Both coordinates are then at least 100, so the `|| 100`
      fallback never applies and every canvas node sits exactly where the
      layout put it, with its label, version and parameters. */
  method PrepareCanvas(flow: FlowStructure, viewportWidth: int)
    returns (nodes: seq<DetailNode>, edges: seq<DetailEdge>, layout: LayoutMap, ghost bfs: LayoutMap)
    ensures layout.Valid() && bfs.Valid()
    ensures layout.entries.Keys == bfs.entries.Keys + Ids(CanvasInput(flow))
    ensures forall k :: k in layout.entries ==> layout.entries[k].y == layout.entries[k].level * 200 + 100
    ensures forall i :: 0 <= i < |CanvasInput(flow)| && FlowLevels.IsRoot(CanvasInput(flow)[i]) ==>
      CanvasInput(flow)[i].id in bfs.entries && layout.entries[CanvasInput(flow)[i].id].level == 0
    ensures FlowLevels.Closed(IndexNodes(CanvasInput(flow)), FlowLevels.Seeds(CanvasInput(flow)), bfs)
    ensures FlowLevels.Parented(IndexNodes(CanvasInput(flow)), FlowLevels.Seeds(CanvasInput(flow)), bfs)
    ensures forall k :: k in bfs.entries ==> k in layout.entries && layout.entries[k].level == bfs.entries[k].level
    ensures UnreachedRows(layout, bfs)
    ensures RowsPacked(layout, viewportWidth)
    ensures |bfs.keys| <= |layout.keys| && layout.keys[..|bfs.keys|] == bfs.keys
    ensures |nodes| == |Dedup(flow.flowNodes, NodeKey)|
    ensures forall k :: 0 <= k < |nodes| ==>
      nodes[k].id == Dedup(flow.flowNodes, NodeKey)[k].node.id
      && nodes[k].name == Dedup(flow.flowNodes, NodeKey)[k].node.name
      && nodes[k].description == "Version: " + IntToString(Dedup(flow.flowNodes, NodeKey)[k].node.version)
      && nodes[k].parameters == Parameters(Dedup(flow.flowNodes, NodeKey)[k])
      && nodes[k].id in layout.entries
      && nodes[k].x == layout.entries[nodes[k].id].x && nodes[k].x >= 100.0
      && nodes[k].y == layout.entries[nodes[k].id].y as real && nodes[k].y >= 100.0
    ensures edges == Dedup(AllEdges(flow.flowNodes), DetailEdgeKey)
  {
    var unique := DedupWalk(flow.flowNodes, NodeKey);
    var input := LayoutInput(unique);
    layout, bfs := CalculateFlowLayout(input, viewportWidth);
    PackedAtLeast100(layout, viewportWidth);
    nodes := DetailNodes(unique, layout);
    forall k | 0 <= k < |nodes|
      ensures nodes[k].id == unique[k].node.id && nodes[k].id in layout.entries
      ensures nodes[k].x == layout.entries[nodes[k].id].x && nodes[k].x >= 100.0
      ensures nodes[k].y == layout.entries[nodes[k].id].y as real && nodes[k].y >= 100.0
    {
      InputIdsLaidOut(input, k);
      DetailNodePosition(unique, layout, k);
    }
    edges := CollectEdges(flow.flowNodes);
  }

  lemma InputIdsLaidOut(input: seq<FlowNode>, k: nat)
    requires k < |input|
    ensures input[k].id in Ids(input)
  {
    IdsCover(input);
  }

  /** In a layout whose rows are packed, every coordinate is at least 100. */
  lemma PackedAtLeast100(m: LayoutMap, viewportWidth: int)
    requires m.Valid() && RowsPacked(m, viewportWidth)
    requires forall k :: k in m.entries ==> m.entries[k].y == m.entries[k].level * 200 + 100
    ensures forall k :: k in m.entries ==> m.entries[k].x >= 100.0 && m.entries[k].y >= 100
  {
    assert SameButX(m, m);
    XPositionsAtLeast100(m, m, viewportWidth);
  }
}
