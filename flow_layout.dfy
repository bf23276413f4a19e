/** `calculateFlowLayout`: the node table, the breadth-first levels, a row
    of its own for every node the search did not reach, and the x packing. */
module FlowLayout {
  import opened Lists
  import opened FlowGraph
  import opened FlowLevels
  import opened FlowPositions

  /** The largest level among `keys`, or -1 when there are none. */
  function MaxLevelOf(keys: seq<string>, entries: map<string, LayoutNode>): (r: int)
    requires forall i :: 0 <= i < |keys| ==> keys[i] in entries
    ensures r == -1 <==> keys == []
    ensures forall i :: 0 <= i < |keys| ==> entries[keys[i]].level <= r
    ensures keys != [] ==> exists i :: 0 <= i < |keys| && entries[keys[i]].level == r
  {
    if keys == [] then -1
    else
      var rest := MaxLevelOf(keys[1..], entries);
      assert forall i :: 1 <= i < |keys| ==> keys[i] == keys[1..][i - 1];
      var first := entries[keys[0]].level;
      if rest <= first then first else rest
  }

  /** `Math.max(...Array.from(layoutMap.values()).map(n => n.level), -1)`. */
  function MaxLevel(m: LayoutMap): (r: int)
    requires m.Valid()
    ensures r >= -1
    ensures forall k :: k in m.entries ==> m.entries[k].level <= r
    ensures r == -1 <==> m.entries == map[]
  {
    var r := MaxLevelOf(m.keys, m.entries);
    assert forall k :: k in m.entries ==> m.entries[k].level <= r by {
      forall k | k in m.entries ensures m.entries[k].level <= r {
        var i := KeyPosition(m, k);
      }
    }
    assert m.keys == [] ==> m.entries == map[];
    assert m.keys != [] ==> m.keys[0] in m.entries;
    r
  }

  /** A node at least as deep as every other one is at the maximum level. */
  lemma MaxLevelAttained(m: LayoutMap, k: string)
    requires m.Valid() && k in m.entries
    requires forall k' :: k' in m.entries ==> m.entries[k'].level <= m.entries[k].level
    ensures MaxLevel(m) == m.entries[k].level
  {
    var i :| 0 <= i < |m.keys| && m.entries[m.keys[i]].level == MaxLevelOf(m.keys, m.entries);
  }

  /** The ids of a list of flow nodes. */
  function Ids(s: seq<FlowNode>): (r: set<string>)
  {
    if s == [] then {}
    else Ids(s[..|s| - 1]) + {s[|s| - 1].id}
  }

  /** How many nodes of `s` the search did not reach, repeats counted. */
  function UnvisitedCount(s: seq<FlowNode>, visited: set<string>): nat {
    if s == [] then 0
    else UnvisitedCount(s[..|s| - 1], visited) + (if s[|s| - 1].id in visited then 0 else 1)
  }

  /** Every node's id is among the ids of its list. */
  lemma {:induction false} IdsCover(s: seq<FlowNode>)
    ensures forall i :: 0 <= i < |s| ==> s[i].id in Ids(s)
  {
    if s != [] {
      var init := s[..|s| - 1];
      IdsCover(init);
      assert forall i :: 0 <= i < |s| - 1 ==> init[i] == s[i];
    }
  }

  /** No node after position `i` carries the id of the node at `i`. */
  ghost predicate LastOccurrence(s: seq<FlowNode>, i: nat) {
    i < |s| && forall j :: i < j < |s| ==> s[j].id != s[i].id
  }

  /** The entry the unvisited pass writes: x = 0, on row `l`. */
  function RowNode(id: string, l: nat): (n: LayoutNode)
    ensures n.id == id && n.level == l && n.x == 0.0 && n.y == l * 200 + 100
  {
    LayoutNode(id, 0.0, l * 200 + 100, l)
  }

  /** One iteration of the unvisited pass, as a relation between the map before and after. */
  ghost predicate Stepped(flowNodes: seq<FlowNode>, visited: set<string>, r: LayoutMap, r2: LayoutMap, i: nat) {
    i < |flowNodes| && r.Valid()
    && (flowNodes[i].id in visited ==> r2 == r)
    && (flowNodes[i].id !in visited ==> r2 == r.Set(flowNodes[i].id, RowNode(flowNodes[i].id, MaxLevel(r) + 1)))
  }

  /** The keys after the first `i` flow nodes: those of the search and every id met so far. */
  ghost predicate KeysUpTo(flowNodes: seq<FlowNode>, layout: LayoutMap, r: LayoutMap, i: nat)
    requires i <= |flowNodes|
  {
    r.entries.Keys == layout.entries.Keys + Ids(flowNodes[..i])
  }

  /** The keys of the search come first, in their order. */
  ghost predicate KeepsOrder(layout: LayoutMap, r: LayoutMap) {
    |layout.keys| <= |r.keys| && r.keys[..|layout.keys|] == layout.keys
  }

  /** The entries of the search are untouched. */
  ghost predicate KeepsEntries(layout: LayoutMap, r: LayoutMap) {
    forall k :: k in layout.entries ==> k in r.entries && r.entries[k] == layout.entries[k]
  }

  /** The deepest row after the first `i` flow nodes. */
  ghost predicate MaxUpTo(flowNodes: seq<FlowNode>, visited: set<string>, layout: LayoutMap, r: LayoutMap, i: nat)
    requires i <= |flowNodes| && layout.Valid() && r.Valid()
  {
    MaxLevel(r) == MaxLevel(layout) + UnvisitedCount(flowNodes[..i], visited)
  }

  /** The row of every unreached node whose id does not come again among the first `i`. */
  ghost predicate LevelsUpTo(flowNodes: seq<FlowNode>, visited: set<string>, layout: LayoutMap, r: LayoutMap, i: nat)
    requires i <= |flowNodes| && layout.Valid()
  {
    forall j {:trigger LastOccurrence(flowNodes[..i], j)} :: 0 <= j < i && flowNodes[j].id !in visited && LastOccurrence(flowNodes[..i], j) ==>
      flowNodes[j].id in r.entries
      && r.entries[flowNodes[j].id].level == MaxLevel(layout) + 1 + UnvisitedCount(flowNodes[..j], visited)
  }

  lemma StepPlaced(flowNodes: seq<FlowNode>, visited: set<string>, r: LayoutMap, r2: LayoutMap, i: nat)
    requires Placed(r) && Stepped(flowNodes, visited, r, r2, i)
    ensures r2.Valid() && Placed(r2)
  {
  }

  lemma StepKeys(flowNodes: seq<FlowNode>, layout: LayoutMap, r: LayoutMap, r2: LayoutMap, i: nat)
    requires i < |flowNodes| && KeysUpTo(flowNodes, layout, r, i)
    requires r2.entries.Keys == r.entries.Keys + {flowNodes[i].id}
    ensures KeysUpTo(flowNodes, layout, r2, i + 1)
  {
    IdsSnoc(flowNodes, i);
  }

  /** One step adds the id at `i` to the keys, unless the search already placed it. */
  lemma StepKeySet(flowNodes: seq<FlowNode>, visited: set<string>, layout: LayoutMap, r: LayoutMap, r2: LayoutMap, i: nat)
    requires visited == layout.entries.Keys && layout.entries.Keys <= r.entries.Keys
    requires Stepped(flowNodes, visited, r, r2, i)
    ensures r2.entries.Keys == r.entries.Keys + {flowNodes[i].id}
  {
  }

  lemma IdsSnoc(flowNodes: seq<FlowNode>, i: nat)
    requires i < |flowNodes|
    ensures Ids(flowNodes[..i + 1]) == Ids(flowNodes[..i]) + {flowNodes[i].id}
  {
    assert flowNodes[..i + 1][..i] == flowNodes[..i];
  }

  lemma StepOrder(flowNodes: seq<FlowNode>, visited: set<string>, layout: LayoutMap, r: LayoutMap, r2: LayoutMap, i: nat)
    requires KeepsOrder(layout, r) && Stepped(flowNodes, visited, r, r2, i)
    ensures KeepsOrder(layout, r2)
  {
    var k := flowNodes[i].id;
    if k !in visited && k !in r.entries {
      assert r2.keys == r.keys + [k];
      KeepsPrefix(r.keys, k, |layout.keys|);
    }
  }

  lemma KeepsPrefix(keys: seq<string>, k: string, n: nat)
    requires n <= |keys|
    ensures (keys + [k])[..n] == keys[..n]
  {
  }

  lemma StepEntries(flowNodes: seq<FlowNode>, visited: set<string>, layout: LayoutMap, r: LayoutMap, r2: LayoutMap, i: nat)
    requires visited == layout.entries.Keys
    requires KeepsEntries(layout, r) && Stepped(flowNodes, visited, r, r2, i)
    ensures KeepsEntries(layout, r2)
  {
  }

  /** Writing a node one row below the deepest makes that row the deepest. */
  lemma MaxLevelAfterRow(r: LayoutMap, id: string)
    requires r.Valid()
    ensures MaxLevel(r.Set(id, RowNode(id, MaxLevel(r) + 1))) == MaxLevel(r) + 1
  {
    var r2 := r.Set(id, RowNode(id, MaxLevel(r) + 1));
    assert forall k :: k in r2.entries ==> r2.entries[k].level <= MaxLevel(r) + 1;
    MaxLevelAttained(r2, id);
  }

  lemma StepMax(flowNodes: seq<FlowNode>, visited: set<string>, layout: LayoutMap, r: LayoutMap, r2: LayoutMap, i: nat)
    requires layout.Valid() && r2.Valid()
    requires i < |flowNodes| && Stepped(flowNodes, visited, r, r2, i) && MaxUpTo(flowNodes, visited, layout, r, i)
    ensures MaxUpTo(flowNodes, visited, layout, r2, i + 1)
  {
    var n := flowNodes[i];
    UnvisitedCountSnoc(flowNodes, visited, i);
    if n.id !in visited {
      MaxLevelAfterRow(r, n.id);
    }
  }

  lemma UnvisitedCountSnoc(flowNodes: seq<FlowNode>, visited: set<string>, i: nat)
    requires i < |flowNodes|
    ensures UnvisitedCount(flowNodes[..i + 1], visited)
         == UnvisitedCount(flowNodes[..i], visited) + (if flowNodes[i].id in visited then 0 else 1)
  {
    assert flowNodes[..i + 1][..i] == flowNodes[..i];
  }

  /** Every entry other than `id` is the same in `r2` as in `r`. */
  ghost predicate RowFrame(r: LayoutMap, r2: LayoutMap, id: string) {
    forall k :: k in r.entries && k != id ==> k in r2.entries && r2.entries[k] == r.entries[k]
  }

  /** The node at `i`, when the search did not reach it, sits on the row after the unreached ones before it. */
  ghost predicate NewRowAt(flowNodes: seq<FlowNode>, visited: set<string>, layout: LayoutMap, r2: LayoutMap, i: nat)
    requires i < |flowNodes| && layout.Valid()
  {
    flowNodes[i].id !in visited ==>
      flowNodes[i].id in r2.entries
      && r2.entries[flowNodes[i].id].level == MaxLevel(layout) + 1 + UnvisitedCount(flowNodes[..i], visited)
  }

  lemma StepFrame(flowNodes: seq<FlowNode>, visited: set<string>, r: LayoutMap, r2: LayoutMap, i: nat)
    requires Stepped(flowNodes, visited, r, r2, i)
    ensures RowFrame(r, r2, flowNodes[i].id)
  {
  }

  lemma StepLevels(flowNodes: seq<FlowNode>, visited: set<string>, layout: LayoutMap, r: LayoutMap, r2: LayoutMap, i: nat)
    requires layout.Valid() && i < |flowNodes|
    requires RowFrame(r, r2, flowNodes[i].id) && NewRowAt(flowNodes, visited, layout, r2, i)
    requires LevelsUpTo(flowNodes, visited, layout, r, i)
    ensures LevelsUpTo(flowNodes, visited, layout, r2, i + 1)
  {
    forall j | 0 <= j < i + 1 && flowNodes[j].id !in visited && LastOccurrence(flowNodes[..i + 1], j)
      ensures flowNodes[j].id in r2.entries
      ensures r2.entries[flowNodes[j].id].level == MaxLevel(layout) + 1 + UnvisitedCount(flowNodes[..j], visited)
    {
      if j < i {
        LevelKept(flowNodes, visited, layout, r, r2, i, j);
      }
    }
  }

  /** A row placed earlier in the pass keeps its level when a node with another id is placed. */
  lemma LevelKept(flowNodes: seq<FlowNode>, visited: set<string>, layout: LayoutMap, r: LayoutMap, r2: LayoutMap, i: nat, j: nat)
    requires layout.Valid() && i < |flowNodes| && RowFrame(r, r2, flowNodes[i].id)
    requires j < i && flowNodes[j].id !in visited && LastOccurrence(flowNodes[..i + 1], j)
    requires LevelsUpTo(flowNodes, visited, layout, r, i)
    ensures flowNodes[j].id in r2.entries
    ensures r2.entries[flowNodes[j].id].level == MaxLevel(layout) + 1 + UnvisitedCount(flowNodes[..j], visited)
  {
    LastOccurrencePrefix(flowNodes, i, j);
  }

  /** The node placed now goes one row below every row placed so far. */
  lemma LevelNew(flowNodes: seq<FlowNode>, visited: set<string>, layout: LayoutMap, r: LayoutMap, r2: LayoutMap, i: nat)
    requires layout.Valid() && Stepped(flowNodes, visited, r, r2, i)
    requires MaxUpTo(flowNodes, visited, layout, r, i)
    ensures NewRowAt(flowNodes, visited, layout, r2, i)
  {
  }

  /** An id last seen at `j` among the first `i + 1` nodes is last seen there among the first `i`,
      and differs from the id at `i`. */
  lemma LastOccurrencePrefix(flowNodes: seq<FlowNode>, i: nat, j: nat)
    requires j < i < |flowNodes| && LastOccurrence(flowNodes[..i + 1], j)
    ensures LastOccurrence(flowNodes[..i], j) && flowNodes[j].id != flowNodes[i].id
  {
    var pre, pre2 := flowNodes[..i], flowNodes[..i + 1];
    assert pre2[i] == flowNodes[i] && pre2[j] == flowNodes[j];
    assert forall j' :: j < j' < i ==> pre[j'] == pre2[j'];
  }

  /** The loop invariant of the unvisited pass after the first `i` flow nodes. */
  ghost predicate PassInv(flowNodes: seq<FlowNode>, visited: set<string>, layout: LayoutMap, r: LayoutMap, i: nat)
    requires i <= |flowNodes| && layout.Valid()
  {
    r.Valid() && Placed(r)
    && KeysUpTo(flowNodes, layout, r, i) && KeepsOrder(layout, r) && KeepsEntries(layout, r)
    && MaxUpTo(flowNodes, visited, layout, r, i)
    && LevelsUpTo(flowNodes, visited, layout, r, i)
  }

  /** The body of the unvisited pass for the flow node at `i`. */
  method PlaceOne(flowNodes: seq<FlowNode>, visited: set<string>, r: LayoutMap, i: nat)
    returns (r2: LayoutMap)
    requires r.Valid() && i < |flowNodes|
    ensures flowNodes[i].id in visited ==> r2 == r
    ensures flowNodes[i].id !in visited ==> r2 == r.Set(flowNodes[i].id, RowNode(flowNodes[i].id, MaxLevel(r) + 1))
  {
    var node := flowNodes[i];
    if node.id in visited {
      r2 := r;
    } else {
      r2 := r.Set(node.id, RowNode(node.id, MaxLevel(r) + 1));
    }
  }

  /** One step of the unvisited pass keeps its loop invariant. */
  lemma StepInv(flowNodes: seq<FlowNode>, visited: set<string>, layout: LayoutMap, r: LayoutMap, r2: LayoutMap, i: nat)
    requires layout.Valid() && Placed(layout) && visited == layout.entries.Keys
    requires i < |flowNodes| && PassInv(flowNodes, visited, layout, r, i)
    requires flowNodes[i].id in visited ==> r2 == r
    requires flowNodes[i].id !in visited ==> r2 == r.Set(flowNodes[i].id, RowNode(flowNodes[i].id, MaxLevel(r) + 1))
    ensures PassInv(flowNodes, visited, layout, r2, i + 1)
  {
    assert Stepped(flowNodes, visited, r, r2, i);
    StepPlaced(flowNodes, visited, r, r2, i);
    StepKeySet(flowNodes, visited, layout, r, r2, i);
    StepKeys(flowNodes, layout, r, r2, i);
    StepOrder(flowNodes, visited, layout, r, r2, i);
    StepEntries(flowNodes, visited, layout, r, r2, i);
    StepMax(flowNodes, visited, layout, r, r2, i);
    StepFrame(flowNodes, visited, r, r2, i);
    LevelNew(flowNodes, visited, layout, r, r2, i);
    StepLevels(flowNodes, visited, layout, r, r2, i);
  }

  /** The pass over the flow nodes that the search did not reach: each such node gets the
      row below the deepest one placed so far. `visited` is not updated by this pass, so a
      repeated id is placed again, one row further down. */
  method PlaceUnvisited(flowNodes: seq<FlowNode>, visited: set<string>, layout: LayoutMap) returns (r: LayoutMap)
    requires layout.Valid() && Placed(layout) && visited == layout.entries.Keys
    ensures r.Valid() && Placed(r)
    ensures r.entries.Keys == layout.entries.Keys + Ids(flowNodes)
    ensures KeepsOrder(layout, r) && KeepsEntries(layout, r)
    ensures MaxLevel(r) == MaxLevel(layout) + UnvisitedCount(flowNodes, visited)
    ensures forall j {:trigger LastOccurrence(flowNodes, j)} :: 0 <= j < |flowNodes| && flowNodes[j].id !in visited && LastOccurrence(flowNodes, j) ==>
      flowNodes[j].id in r.entries
      && r.entries[flowNodes[j].id].level == MaxLevel(layout) + 1 + UnvisitedCount(flowNodes[..j], visited)
  {
    r := layout;
    assert flowNodes[..0] == [];
    var i := 0;
    while i < |flowNodes|
      invariant 0 <= i <= |flowNodes|
      invariant PassInv(flowNodes, visited, layout, r, i)
    {
      var r2 := PlaceOne(flowNodes, visited, r, i);
      StepInv(flowNodes, visited, layout, r, r2, i);
      r := r2;
      i := i + 1;
    }
    assert flowNodes[..i] == flowNodes;
  }

  /** An earlier unreached node leaves a strictly smaller count of unreached nodes before it. */
  lemma {:induction false} UnvisitedGrows(s: seq<FlowNode>, visited: set<string>, i: nat, j: nat)
    requires i < j <= |s| && s[i].id !in visited
    ensures UnvisitedCount(s[..i], visited) < UnvisitedCount(s[..j], visited)
    decreases j
  {
    assert s[..j][..j - 1] == s[..j - 1];
    if i < j - 1 {
      UnvisitedGrows(s, visited, i, j - 1);
    } else {
      assert s[..j][j - 1] == s[i];
    }
  }

  /** Every id of a list has a last occurrence. */
  lemma {:induction false} LastIndex(s: seq<FlowNode>, id: string) returns (i: nat)
    requires id in Ids(s)
    ensures LastOccurrence(s, i) && s[i].id == id
  {
    if s[|s| - 1].id == id {
      i := |s| - 1;
    } else {
      var init := s[..|s| - 1];
      i := LastIndex(init, id);
      assert init[i] == s[i];
      assert forall j :: i < j < |init| ==> init[j] == s[j];
    }
  }

  /** Two different unreached ids end up in different rows, both below every row the
      search filled. */
  lemma UnvisitedRows(flowNodes: seq<FlowNode>, visited: set<string>, layout: LayoutMap, r: LayoutMap, k1: string, k2: string)
    requires layout.Valid() && visited == layout.entries.Keys
    requires r.entries.Keys == layout.entries.Keys + Ids(flowNodes)
    requires forall j {:trigger LastOccurrence(flowNodes, j)} :: 0 <= j < |flowNodes| && flowNodes[j].id !in visited && LastOccurrence(flowNodes, j) ==>
      flowNodes[j].id in r.entries && r.entries[flowNodes[j].id].level == MaxLevel(layout) + 1 + UnvisitedCount(flowNodes[..j], visited)
    requires k1 in r.entries && k2 in r.entries && k1 !in visited && k2 !in visited
    ensures forall u :: u in layout.entries ==> r.entries[k1].level > layout.entries[u].level
    ensures k1 != k2 ==> r.entries[k1].level != r.entries[k2].level
  {
    var i1 := LastIndex(flowNodes, k1);
    var i2 := LastIndex(flowNodes, k2);
    if i1 < i2 {
      UnvisitedGrows(flowNodes, visited, i1, i2);
    } else if i2 < i1 {
      UnvisitedGrows(flowNodes, visited, i2, i1);
    }
  }

  /** The first loop of `calculateFlowLayout`: `nodeMap`, each id to its last node. */
  method BuildNodeMap(flowNodes: seq<FlowNode>) returns (nodeMap: map<string, FlowNode>)
    ensures nodeMap == IndexNodes(flowNodes)
  {
    nodeMap := map[];
    var i := 0;
    while i < |flowNodes|
      invariant 0 <= i <= |flowNodes|
      invariant nodeMap == IndexNodes(flowNodes[..i])
    {
      assert flowNodes[..i + 1][..i] == flowNodes[..i];
      nodeMap := nodeMap[flowNodes[i].id := flowNodes[i]];
      i := i + 1;
    }
    assert flowNodes[..i] == flowNodes;
  }

  /** The rows of the nodes the search did not reach: each below every row of the search,
      no two of them alike. */
  ghost predicate UnreachedRows(m: LayoutMap, bfs: LayoutMap) {
    (forall k, u :: k in m.entries && k !in bfs.entries && u in bfs.entries ==>
      m.entries[k].level > bfs.entries[u].level)
    && (forall k1, k2 :: k1 in m.entries && k2 in m.entries && k1 !in bfs.entries && k2 !in bfs.entries && k1 != k2 ==>
      m.entries[k1].level != m.entries[k2].level)
  }

  lemma UnreachedRowsHold(flowNodes: seq<FlowNode>, visited: set<string>, bfs: LayoutMap, levels: LayoutMap, m: LayoutMap)
    requires bfs.Valid() && visited == bfs.entries.Keys
    requires levels.entries.Keys == bfs.entries.Keys + Ids(flowNodes)
    requires forall j {:trigger LastOccurrence(flowNodes, j)} :: 0 <= j < |flowNodes| && flowNodes[j].id !in visited && LastOccurrence(flowNodes, j) ==>
      flowNodes[j].id in levels.entries
      && levels.entries[flowNodes[j].id].level == MaxLevel(bfs) + 1 + UnvisitedCount(flowNodes[..j], visited)
    requires SameButX(levels, m)
    ensures UnreachedRows(m, bfs)
  {
    forall k1, k2 | k1 in m.entries && k2 in m.entries && k1 !in bfs.entries && k2 !in bfs.entries
      ensures forall u :: u in bfs.entries ==> m.entries[k1].level > bfs.entries[u].level
      ensures k1 != k2 ==> m.entries[k1].level != m.entries[k2].level
    {
      UnvisitedRows(flowNodes, visited, bfs, levels, k1, k2);
    }
  }

  /** Changing x keeps every level and row: what held of the levels before holds after. */
  lemma LevelsKept(bfs: LayoutMap, levels: LayoutMap, m: LayoutMap)
    requires Placed(levels) && KeepsEntries(bfs, levels) && SameButX(levels, m)
    ensures forall k :: k in m.entries ==> m.entries[k].y == m.entries[k].level * 200 + 100
    ensures forall k :: k in bfs.entries ==> k in m.entries && m.entries[k].level == bfs.entries[k].level
  {
  }

  /** Every root is a seed of the search, so it lands on row 0. */
  lemma RootsOnTop(flowNodes: seq<FlowNode>, bfs: LayoutMap, m: LayoutMap)
    requires Closed(IndexNodes(flowNodes), Seeds(flowNodes), bfs)
    requires forall k :: k in bfs.entries ==> k in m.entries && m.entries[k].level == bfs.entries[k].level
    ensures forall i :: 0 <= i < |flowNodes| && IsRoot(flowNodes[i]) ==>
      flowNodes[i].id in bfs.entries && m.entries[flowNodes[i].id].level == 0
  {
  }

  /** `calculateFlowLayout(flowNodes)`. `bfs` is the map as the breadth-first search left it. */
  method CalculateFlowLayout(flowNodes: seq<FlowNode>, viewportWidth: int) returns (m: LayoutMap, ghost bfs: LayoutMap)
    ensures m.Valid() && bfs.Valid()
    ensures m.entries.Keys == bfs.entries.Keys + Ids(flowNodes)
    ensures forall k :: k in m.entries ==> m.entries[k].y == m.entries[k].level * 200 + 100
    ensures forall i :: 0 <= i < |flowNodes| && IsRoot(flowNodes[i]) ==>
      flowNodes[i].id in bfs.entries && m.entries[flowNodes[i].id].level == 0
    ensures Closed(IndexNodes(flowNodes), Seeds(flowNodes), bfs)
    ensures Parented(IndexNodes(flowNodes), Seeds(flowNodes), bfs)
    ensures forall k :: k in bfs.entries ==> k in m.entries && m.entries[k].level == bfs.entries[k].level
    ensures UnreachedRows(m, bfs)
    ensures RowsPacked(m, viewportWidth)
    ensures |bfs.keys| <= |m.keys| && m.keys[..|bfs.keys|] == bfs.keys
  {
    var nodeMap := BuildNodeMap(flowNodes);
    var seeds := Seeds(flowNodes);
    var levelled, visited := LevelBfs(nodeMap, seeds);
    bfs := levelled;
    var levels := PlaceUnvisited(flowNodes, visited, levelled);
    m := CalculateXPositions(levels, viewportWidth);
    CalculatedRowsPacked(levels, m, viewportWidth);
    UnreachedRowsHold(flowNodes, visited, bfs, levels, m);
    LevelsKept(bfs, levels, m);
    RootsOnTop(flowNodes, bfs, m);
  }

  /** No flow nodes, no layout. */
  lemma EmptyFlowEmptyLayout(m: LayoutMap, bfs: LayoutMap)
    requires m.entries.Keys == bfs.entries.Keys + Ids([])
    requires Parented(IndexNodes([]), Seeds([]), bfs)
    ensures m.entries == map[]
  {
    if bfs.entries != map[] {
      var v :| v in bfs.entries;
      var p := PathOfLevelLength(IndexNodes([]), Seeds([]), bfs, v);
    }
    assert Ids([]) == {};
  }
}
