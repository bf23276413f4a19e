/** The flow graph that the layout engine works on: flow nodes with their
    incoming and outgoing edge lists, the lookup table from id to node,
    and the insertion-ordered map of layout entries it produces. */
module FlowGraph {
  import opened Wrappers

  /** An edge as a flow node lists it: `{ from_node, to_node }`. */
  datatype EdgeRef = EdgeRef(fromNode: string, toNode: string)

  /** A flow node; either edge list may be missing. */
  datatype FlowNode = FlowNode(id: string, incomingEdges: Option<seq<EdgeRef>>, outgoingEdges: Option<seq<EdgeRef>>)

  /** A placed node: `x` is fractional because the start of a row is halved. */
  datatype LayoutNode = LayoutNode(id: string, x: real, y: int, level: nat)

  /** A JavaScript `Map<string, LayoutNode>`: its keys in insertion order and its entries. */
  datatype LayoutMap = LayoutMap(keys: seq<string>, entries: map<string, LayoutNode>) {

    ghost predicate Valid() {
      (forall i, j :: 0 <= i < j < |keys| ==> keys[i] != keys[j])
      && (forall k :: k in keys <==> k in entries)
      && (forall k :: k in entries ==> entries[k].id == k)
    }

    /** `map.set(k, v)`: a new key goes to the end, an existing key keeps its place. */
    function Set(k: string, v: LayoutNode): (m: LayoutMap)
      requires Valid() && v.id == k
      ensures m.Valid()
      ensures m.entries == entries[k := v]
      ensures k in entries ==> m.keys == keys
      ensures k !in entries ==> m.keys == keys + [k]
    {
      LayoutMap(if k in entries then keys else keys + [k], entries[k := v])
    }
  }

  const EmptyLayout := LayoutMap([], map[])

  /** `nodeMap`: each id mapped to its node; when an id repeats, the last node wins. */
  function IndexNodes(s: seq<FlowNode>): (r: map<string, FlowNode>)
    ensures forall i :: 0 <= i < |s| ==> s[i].id in r
    ensures forall k :: k in r ==> r[k] in s && r[k].id == k
  {
    if s == [] then map[]
    else
      var last := s[|s| - 1];
      var r := IndexNodes(s[..|s| - 1])[last.id := last];
      assert forall i :: 0 <= i < |s| - 1 ==> s[i] == s[..|s| - 1][i];
      r
  }

  /** The node that `nodeMap` holds for an id is its last occurrence in the input. */
  lemma {:induction false} IndexNodesLastWins(s: seq<FlowNode>, i: nat)
    requires i < |s|
    requires forall j :: i < j < |s| ==> s[j].id != s[i].id
    ensures IndexNodes(s)[s[i].id] == s[i]
  {
    if i < |s| - 1 {
      var init := s[..|s| - 1];
      assert forall j :: i < j < |init| ==> init[j] == s[j];
      IndexNodesLastWins(init, i);
    }
  }

  /** The `to_node` ids of a node's outgoing edges, in order; none when the list is missing. */
  function Targets(n: FlowNode): (r: seq<string>)
    ensures n.outgoingEdges.None? ==> r == []
    ensures n.outgoingEdges.Some? ==> |r| == |n.outgoingEdges.value|
    ensures n.outgoingEdges.Some? ==> forall j :: 0 <= j < |r| ==> r[j] == n.outgoingEdges.value[j].toNode
  {
    match n.outgoingEdges
    case None => []
    case Some(es) => seq(|es|, j requires 0 <= j < |es| => es[j].toNode)
  }

  /** The successors of an id: the targets of the node `nodeMap` holds for it, or none. */
  function Succ(index: map<string, FlowNode>, u: string): seq<string> {
    if u in index then Targets(index[u]) else []
  }

  /** Every id the graph mentions: the indexed ids and every edge target. */
  function Universe(index: map<string, FlowNode>): (r: set<string>)
    ensures index.Keys <= r
    ensures forall u, t :: u in index && t in Succ(index, u) ==> t in r
  {
    index.Keys + set u, t | u in index.Keys && t in Succ(index, u) :: t
  }

  /** A path: each id after the first is a successor of the one before it. */
  ghost predicate IsPath(index: map<string, FlowNode>, p: seq<string>) {
    |p| >= 1 && forall i :: 0 <= i < |p| - 1 ==> p[i + 1] in Succ(index, p[i])
  }
}
