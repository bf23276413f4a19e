/** `transformFlowData` and `getFlowStats`: a list of flows, each with its
    ordered flow nodes, turned into canvas nodes (one per flow node, laid out
    in a row per flow) and canvas edges (one between each pair of neighbours
    in `order`). */
module FlowData {
  import opened Lists

  datatype ParameterValue = ParameterValue(parameterKey: string, value: string, parameter: string)
  datatype NodeInfo = NodeInfo(id: string, name: string, version: int, isActive: bool)
  datatype Subnode = Subnode(id: string, name: string, version: int, parameterValues: seq<ParameterValue>)
  /** One entry of `flow_nodes`. */
  datatype FlowStep = FlowStep(id: string, order: int, node: NodeInfo, selectedSubnode: Subnode)
  datatype Flow = Flow(id: string, flowNodes: seq<FlowStep>, name: string, description: string,
                       isActive: bool, isDeployed: bool)

  /** A parameter as the canvas shows it. */
  datatype Parameter = Parameter(key: string, value: string, required: bool)
  /** A canvas node of type `flowNode`. */
  datatype CanvasNode = CanvasNode(id: string, x: int, y: int, nodeLabel: string, description: string,
                                   parameters: seq<Parameter>, isActive: bool, isDeployed: bool,
                                   subnodeName: string, subnodeVersion: int)
  /** A canvas edge of type `smoothstep` with stroke width 2. */
  datatype CanvasEdge = CanvasEdge(id: string, source: string, target: string, animated: bool, stroke: string)

  const PrimaryStroke := "hsl(var(--primary))"
  const MutedStroke := "hsl(var(--muted-foreground))"

  function OrderOf(s: FlowStep): int { s.order }

  /** `[...flow.flow_nodes].sort((a, b) => a.order - b.order)`: a sorted copy, stable on ties. */
  function SortedSteps(flow: Flow): (r: seq<FlowStep>)
    ensures SortedBy(r, OrderOf) && multiset(r) == multiset(flow.flowNodes)
    ensures |r| == |flow.flowNodes|
  {
    SortBy(flow.flowNodes, OrderOf)
  }

  /** `${flow.id}-${flowNode.id}` */
  function StepId(flow: Flow, s: FlowStep): string {
    flow.id + "-" + s.id
  }

  /** The parameter list of a flow node: key and value kept, never required. */
  function Parameters(s: FlowStep): (r: seq<Parameter>)
    ensures |r| == |s.selectedSubnode.parameterValues|
    ensures forall j :: 0 <= j < |r| ==>
      r[j].key == s.selectedSubnode.parameterValues[j].parameterKey
      && r[j].value == s.selectedSubnode.parameterValues[j].value
      && !r[j].required
  {
    var pv := s.selectedSubnode.parameterValues;
    seq(|pv|, j requires 0 <= j < |pv| => Parameter(pv[j].parameterKey, pv[j].value, false))
  }

  /** The canvas node of the `nodeIndex`-th flow node (in `order`) of the `flowIndex`-th flow. */
  function NodeOf(flow: Flow, flowIndex: nat, s: FlowStep, nodeIndex: nat): CanvasNode {
    CanvasNode(StepId(flow, s), nodeIndex * 350, flowIndex * 200, s.node.name, flow.description,
               Parameters(s), s.node.isActive, flow.isDeployed, s.selectedSubnode.name, s.selectedSubnode.version)
  }

  /** The edge from one flow node to the next. */
  function EdgeOf(flow: Flow, s: FlowStep, next: FlowStep): CanvasEdge {
    var source := StepId(flow, s);
    var target := StepId(flow, next);
    CanvasEdge(source + "-" + target, source, target, flow.isActive, if flow.isActive then PrimaryStroke else MutedStroke)
  }

  /** The canvas nodes of one flow, one per flow node, in `order`. */
  function CanvasNodes(flow: Flow, flowIndex: nat): (r: seq<CanvasNode>)
    ensures |r| == |flow.flowNodes|
  {
    var s := SortedSteps(flow);
    seq(|s|, k requires 0 <= k < |s| => NodeOf(flow, flowIndex, s[k], k))
  }

  /** The `k`-th canvas node of a flow is named after the `k`-th flow node in
      `order`, sits 350 times `k` along the row, its row 200 times the flow's
      index down, and carries that flow node's parameters. */
  lemma CanvasNodePlaced(flow: Flow, flowIndex: nat, k: nat)
    requires k < |flow.flowNodes|
    ensures CanvasNodes(flow, flowIndex)[k].id == StepId(flow, SortedSteps(flow)[k])
    ensures CanvasNodes(flow, flowIndex)[k].x == k * 350 && CanvasNodes(flow, flowIndex)[k].y == flowIndex * 200
    ensures CanvasNodes(flow, flowIndex)[k].parameters == Parameters(SortedSteps(flow)[k])
    ensures CanvasNodes(flow, flowIndex)[k].isDeployed == flow.isDeployed
  {
  }

  /** The edges of one flow: one per neighbouring pair, none for fewer than two flow nodes. */
  function CanvasEdges(flow: Flow): (r: seq<CanvasEdge>)
    ensures |r| == if |flow.flowNodes| == 0 then 0 else |flow.flowNodes| - 1
  {
    var s := SortedSteps(flow);
    if s == [] then [] else seq(|s| - 1, k requires 0 <= k < |s| - 1 => EdgeOf(flow, s[k], s[k + 1]))
  }

  /** Each edge of a flow leads from a canvas node to the next one in `order`,
      and is animated exactly when the flow is active. */
  lemma EdgesLinkNeighbours(flow: Flow, flowIndex: nat, k: nat)
    requires k < |CanvasEdges(flow)|
    ensures k + 1 < |CanvasNodes(flow, flowIndex)|
    ensures CanvasEdges(flow)[k].source == CanvasNodes(flow, flowIndex)[k].id
    ensures CanvasEdges(flow)[k].target == CanvasNodes(flow, flowIndex)[k + 1].id
    ensures CanvasEdges(flow)[k].id == CanvasNodes(flow, flowIndex)[k].id + "-" + CanvasNodes(flow, flowIndex)[k + 1].id
    ensures OrderOf(SortedSteps(flow)[k]) <= OrderOf(SortedSteps(flow)[k + 1])
    ensures CanvasEdges(flow)[k].animated == flow.isActive
  {
  }

  /** The nodes of all flows, flow after flow. */
  function AllNodes(flows: seq<Flow>): seq<CanvasNode> {
    if flows == [] then [] else AllNodes(flows[..|flows| - 1]) + CanvasNodes(flows[|flows| - 1], |flows| - 1)
  }

  /** The edges of all flows, flow after flow. */
  function AllEdges(flows: seq<Flow>): seq<CanvasEdge> {
    if flows == [] then [] else AllEdges(flows[..|flows| - 1]) + CanvasEdges(flows[|flows| - 1])
  }

  lemma AllStep(flows: seq<Flow>, i: nat)
    requires i < |flows|
    ensures AllNodes(flows[..i + 1]) == AllNodes(flows[..i]) + CanvasNodes(flows[i], i)
    ensures AllEdges(flows[..i + 1]) == AllEdges(flows[..i]) + CanvasEdges(flows[i])
  {
    assert flows[..i + 1][..i] == flows[..i];
  }

  function Min(a: int, b: int): int { if a <= b then a else b }

  lemma NodesPrefixStep(flow: Flow, flowIndex: nat, k: nat)
    requires k < |flow.flowNodes|
    ensures CanvasNodes(flow, flowIndex)[..k + 1]
         == CanvasNodes(flow, flowIndex)[..k] + [NodeOf(flow, flowIndex, SortedSteps(flow)[k], k)]
  {
    var n := CanvasNodes(flow, flowIndex);
    assert n[..k + 1] == n[..k] + [n[k]];
  }

  lemma EdgesPrefixStep(flow: Flow, k: nat)
    requires k + 1 < |flow.flowNodes|
    ensures Min(k + 1, |CanvasEdges(flow)|) == k + 1 && Min(k, |CanvasEdges(flow)|) == k
    ensures CanvasEdges(flow)[..k + 1]
         == CanvasEdges(flow)[..k] + [EdgeOf(flow, SortedSteps(flow)[k], SortedSteps(flow)[k + 1])]
  {
    var e := CanvasEdges(flow);
    assert e[k] == EdgeOf(flow, SortedSteps(flow)[k], SortedSteps(flow)[k + 1]);
    assert e[..k + 1] == e[..k] + [e[k]];
  }

  /** `transformFlowData`: the two `forEach` loops pushing onto `nodes` and `edges`. */
  method TransformFlowData(flows: seq<Flow>) returns (nodes: seq<CanvasNode>, edges: seq<CanvasEdge>)
    ensures nodes == AllNodes(flows) && edges == AllEdges(flows)
  {
    nodes, edges := [], [];
    var i := 0;
    while i < |flows|
      invariant i <= |flows|
      invariant nodes == AllNodes(flows[..i]) && edges == AllEdges(flows[..i])
    {
      AllStep(flows, i);
      nodes, edges := PushFlow(flows[i], i, nodes, edges);
      i := i + 1;
    }
    assert flows[..i] == flows;
  }

  /** The inner `forEach` over one flow's sorted flow nodes: push its node and,
      unless it is the last, the edge to the next one. */
  method PushFlow(flow: Flow, flowIndex: nat, nodes0: seq<CanvasNode>, edges0: seq<CanvasEdge>)
    returns (nodes: seq<CanvasNode>, edges: seq<CanvasEdge>)
    ensures nodes == nodes0 + CanvasNodes(flow, flowIndex) && edges == edges0 + CanvasEdges(flow)
  {
    nodes, edges := nodes0, edges0;
    var sorted := SortedSteps(flow);
    var k := 0;
    while k < |sorted|
      invariant k <= |sorted|
      invariant nodes == nodes0 + CanvasNodes(flow, flowIndex)[..k]
      invariant edges == edges0 + CanvasEdges(flow)[..Min(k, |CanvasEdges(flow)|)]
    {
      NodesPrefixStep(flow, flowIndex, k);
      nodes := nodes + [NodeOf(flow, flowIndex, sorted[k], k)];
      if k < |sorted| - 1 {
        EdgesPrefixStep(flow, k);
        edges := edges + [EdgeOf(flow, sorted[k], sorted[k + 1])];
      }
      k := k + 1;
    }
    assert CanvasNodes(flow, flowIndex)[..k] == CanvasNodes(flow, flowIndex);
    assert CanvasEdges(flow)[..Min(k, |CanvasEdges(flow)|)] == CanvasEdges(flow);
  }

  /** `flowData.reduce((acc, flow) => acc + flow.flow_nodes.length, 0)` */
  function TotalNodes(flows: seq<Flow>): nat {
    if flows == [] then 0 else TotalNodes(flows[..|flows| - 1]) + |flows[|flows| - 1].flowNodes|
  }

  /** The number of flows with at least one flow node. */
  function NonEmptyFlows(flows: seq<Flow>): nat {
    if flows == [] then 0 else NonEmptyFlows(flows[..|flows| - 1]) + (if flows[|flows| - 1].flowNodes == [] then 0 else 1)
  }

  /** One canvas node per flow node over all flows, and one edge fewer than
      nodes for every flow that has nodes. */
  lemma {:induction false} TransformCounts(flows: seq<Flow>)
    ensures |AllNodes(flows)| == TotalNodes(flows)
    ensures |AllEdges(flows)| == TotalNodes(flows) - NonEmptyFlows(flows)
    ensures NonEmptyFlows(flows) <= TotalNodes(flows)
  {
    if flows != [] {
      TransformCounts(flows[..|flows| - 1]);
    }
  }

  datatype FlowStats = FlowStats(totalFlows: nat, activeFlows: nat, deployedFlows: nat, totalNodes: nat)

  function IsActive(f: Flow): bool { f.isActive }
  function IsDeployed(f: Flow): bool { f.isDeployed }

  /** `getFlowStats` */
  function GetFlowStats(flows: seq<Flow>): (r: FlowStats)
    ensures r.totalFlows == |flows|
    ensures r.activeFlows <= r.totalFlows && r.deployedFlows <= r.totalFlows
  {
    FlowStats(|flows|, |Filter(flows, IsActive)|, |Filter(flows, IsDeployed)|, TotalNodes(flows))
  }

  /** The node total of the statistics is the number of canvas nodes the transform produces. */
  lemma StatsMatchTransform(flows: seq<Flow>)
    ensures GetFlowStats(flows).totalNodes == |AllNodes(flows)|
  {
    TransformCounts(flows);
  }

  /** The active count counts exactly the active flows, the deployed count exactly the deployed ones. */
  lemma StatsCountFlags(flows: seq<Flow>)
    ensures forall f :: f in Filter(flows, IsActive) <==> f in flows && f.isActive
    ensures forall f :: f in Filter(flows, IsDeployed) <==> f in flows && f.isDeployed
  {
    FilterSound(flows, IsActive);
    FilterComplete(flows, IsActive);
    FilterSound(flows, IsDeployed);
    FilterComplete(flows, IsDeployed);
  }
}
