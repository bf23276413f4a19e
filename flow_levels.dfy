/** The level pass of `calculateFlowLayout`: a breadth-first search from the
    root nodes over `outgoing_edges`, which gives each id it reaches the level
    of its first dequeue. */
module FlowLevels {
  import opened Wrappers
  import opened Lists
  import opened FlowGraph

  /** An element of the search queue: `{ nodeId, level }`. */
  datatype QueueEntry = QueueEntry(nodeId: string, level: nat)

  /** A root has no incoming edges: the list is missing or empty. */
  predicate IsRoot(n: FlowNode) {
    n.incomingEdges.None? || |n.incomingEdges.value| == 0
  }

  /** The ids the search starts from: every root, in input order, or the first
      node alone when there is no root. */
  function Seeds(flowNodes: seq<FlowNode>): (r: seq<string>)
    ensures r == [] <==> flowNodes == []
    ensures forall i :: 0 <= i < |flowNodes| && IsRoot(flowNodes[i]) ==> flowNodes[i].id in r
    ensures forall id :: id in r ==> id in IndexNodes(flowNodes)
    ensures flowNodes != [] && (forall i :: 0 <= i < |flowNodes| ==> !IsRoot(flowNodes[i]))
            ==> r == [flowNodes[0].id]
  {
    var roots := Filter(flowNodes, IsRoot);
    if |roots| == 0 && |flowNodes| > 0 then
      NoRoots(flowNodes);
      [flowNodes[0].id]
    else
      var r := RootIds(roots);
      RootIdsCover(flowNodes, roots, r);
      SomeRoot(flowNodes);
      r
  }

  /** The ids of a list of nodes, in order. */
  function RootIds(roots: seq<FlowNode>): (r: seq<string>)
    ensures |r| == |roots| && forall i :: 0 <= i < |roots| ==> r[i] == roots[i].id
  {
    seq(|roots|, i requires 0 <= i < |roots| => roots[i].id)
  }

  lemma NoRoots(flowNodes: seq<FlowNode>)
    requires Filter(flowNodes, IsRoot) == []
    ensures forall i :: 0 <= i < |flowNodes| ==> !IsRoot(flowNodes[i])
  {
    FilterComplete(flowNodes, IsRoot);
  }

  lemma SomeRoot(flowNodes: seq<FlowNode>)
    ensures Filter(flowNodes, IsRoot) != [] ==> exists i :: 0 <= i < |flowNodes| && IsRoot(flowNodes[i])
  {
    var roots := Filter(flowNodes, IsRoot);
    FilterSound(flowNodes, IsRoot);
    if roots != [] {
      assert roots[0] in roots;
      var i :| 0 <= i < |flowNodes| && flowNodes[i] == roots[0];
    }
  }

  lemma RootIdsCover(flowNodes: seq<FlowNode>, roots: seq<FlowNode>, r: seq<string>)
    requires roots == Filter(flowNodes, IsRoot) && r == RootIds(roots)
    ensures forall i :: 0 <= i < |flowNodes| && IsRoot(flowNodes[i]) ==> flowNodes[i].id in r
    ensures forall id :: id in r ==> id in IndexNodes(flowNodes)
  {
    FilterSound(flowNodes, IsRoot);
    FilterComplete(flowNodes, IsRoot);
    forall i | 0 <= i < |flowNodes| && IsRoot(flowNodes[i]) ensures flowNodes[i].id in r {
      var n := flowNodes[i];
      assert n in roots;
      var j :| 0 <= j < |roots| && roots[j] == n;
      assert r[j] == n.id;
    }
    forall id | id in r ensures id in IndexNodes(flowNodes) {
      var j :| 0 <= j < |r| && r[j] == id;
      assert roots[j] in flowNodes;
      var i :| 0 <= i < |flowNodes| && flowNodes[i] == roots[j];
    }
  }

  /** The entries `calculateFlowLayout` creates during the search: x not yet set, y from the level. */
  ghost predicate Placed(L: LayoutMap) {
    forall t :: t in L.entries ==> L.entries[t].x == 0.0 && L.entries[t].y == L.entries[t].level * 200 + 100
  }

  /** Every seed is placed at level 0, the placed ids are closed under successors,
      and an edge between placed ids descends at most one level. */
  ghost predicate Closed(index: map<string, FlowNode>, seeds: seq<string>, L: LayoutMap) {
    (forall s :: s in seeds ==> s in L.entries && L.entries[s].level == 0)
    && (forall u, t :: u in L.entries && t in Succ(index, u) ==>
          t in L.entries && L.entries[t].level <= L.entries[u].level + 1)
  }

  /** `v` may carry level `l`: it is a seed at level 0, or a successor of a placed id one level up. */
  ghost predicate ParentOk(index: map<string, FlowNode>, seeds: seq<string>, L: LayoutMap, v: string, l: nat) {
    (l == 0 && v in seeds)
    || exists u :: u in L.entries && L.entries[u].level + 1 == l && v in Succ(index, u)
  }

  /** Every placed id is a seed at level 0 or has a placed predecessor one level up. */
  ghost predicate Parented(index: map<string, FlowNode>, seeds: seq<string>, L: LayoutMap) {
    forall v {:trigger ParentOk(index, seeds, L, v, L.entries[v].level)} ::
      v in L.entries ==> ParentOk(index, seeds, L, v, L.entries[v].level)
  }

  // ---------------------------------------------------------------------------
  // The loop invariant of the search and its preservation.

  /** The level of the first queue entry for `t`, if any. */
  function FirstLevel(q: seq<QueueEntry>, t: string): Option<nat> {
    if q == [] then None
    else if q[0].nodeId == t then Some(q[0].level)
    else FirstLevel(q[1..], t)
  }

  ghost predicate LevelsSorted(q: seq<QueueEntry>) {
    forall i, j :: 0 <= i < j < |q| ==> q[i].level <= q[j].level
  }

  /** In a queue sorted by level, an entry for `t` bounds the level of the first one. */
  lemma {:induction false} FirstLevelAtMost(q: seq<QueueEntry>, t: string, j: nat)
    requires LevelsSorted(q) && j < |q| && q[j].nodeId == t
    ensures FirstLevel(q, t).Some? && FirstLevel(q, t).value <= q[j].level
  {
    if q[0].nodeId != t {
      FirstLevelAtMost(q[1..], t, j - 1);
    }
  }

  lemma {:induction false} FirstLevelAppend(q: seq<QueueEntry>, p: seq<QueueEntry>, t: string)
    requires FirstLevel(q, t).Some?
    ensures FirstLevel(q + p, t) == FirstLevel(q, t)
  {
    assert (q + p)[0] == q[0];
    if q[0].nodeId != t {
      assert (q + p)[1..] == q[1..] + p;
      FirstLevelAppend(q[1..], p, t);
    }
  }

  /** `t` is placed at a level at most `b`, or waits in the queue with a level at most `b`. */
  ghost predicate Covered(q: seq<QueueEntry>, L: LayoutMap, t: string, b: nat) {
    (t in L.entries && L.entries[t].level <= b)
    || (FirstLevel(q, t).Some? && FirstLevel(q, t).value <= b)
  }

  /** `v` at level `l` came from `u`: a seed at level 0, otherwise a successor of the placed id `u`. */
  ghost predicate EntryOk(index: map<string, FlowNode>, seeds: seq<string>, L: LayoutMap, v: string, l: nat, u: string) {
    if l == 0 then v in seeds
    else u in L.entries && L.entries[u].level + 1 == l && v in Succ(index, u)
  }

  /** `L2` keeps every entry of `L1`. */
  ghost predicate Extends(L1: LayoutMap, L2: LayoutMap) {
    forall u :: u in L1.entries ==> u in L2.entries && L2.entries[u] == L1.entries[u]
  }

  ghost predicate QueueOk(index: map<string, FlowNode>, seeds: seq<string>, U: set<string>, q: seq<QueueEntry>, from: seq<string>,
                          L: LayoutMap, cur: nat) {
    |from| == |q|
    && LevelsSorted(q)
    && (forall j :: 0 <= j < |q| ==> cur <= q[j].level <= cur + 1)
    && (forall j :: 0 <= j < |q| ==> q[j].nodeId in U)
    && (forall j :: 0 <= j < |q| ==> EntryOk(index, seeds, L, q[j].nodeId, q[j].level, from[j]))
  }

  /** `U` holds every successor of every indexed id. */
  ghost predicate SuccClosed(index: map<string, FlowNode>, U: set<string>) {
    forall u, t :: u in index && t in Succ(index, u) ==> t in U
  }

  /** The invariant of the search loop. `from` names, for each queue entry, the id whose
      visit pushed it; `parent` does the same for each placed id. */
  ghost predicate BfsInv(index: map<string, FlowNode>, seeds: seq<string>, U: set<string>, q: seq<QueueEntry>, from: seq<string>,
                         L: LayoutMap, parent: map<string, string>, cur: nat) {
    Shape(U, L, cur)
    && QueueOk(index, seeds, U, q, from, L, cur)
    && CoverOk(index, seeds, q, L)
    && ParentsOk(index, seeds, L, parent)
  }

  ghost predicate Shape(U: set<string>, L: LayoutMap, cur: nat) {
    L.Valid() && Placed(L)
    && (forall t :: t in L.entries ==> L.entries[t].level <= cur)
    && L.entries.Keys <= U
  }

  ghost predicate CoverOk(index: map<string, FlowNode>, seeds: seq<string>, q: seq<QueueEntry>, L: LayoutMap) {
    (forall s :: s in seeds ==> Covered(q, L, s, 0))
    && (forall u, t :: u in L.entries && t in Succ(index, u) ==> Covered(q, L, t, L.entries[u].level + 1))
  }

  ghost predicate ParentsOk(index: map<string, FlowNode>, seeds: seq<string>, L: LayoutMap, parent: map<string, string>) {
    parent.Keys == L.entries.Keys
    && (forall v {:trigger parent[v]} :: v in L.entries ==> EntryOk(index, seeds, L, v, L.entries[v].level, parent[v]))
  }

  function InitialQueue(seeds: seq<string>): (q: seq<QueueEntry>)
    ensures |q| == |seeds|
    ensures forall j :: 0 <= j < |q| ==> q[j] == QueueEntry(seeds[j], 0)
  {
    seq(|seeds|, j requires 0 <= j < |seeds| => QueueEntry(seeds[j], 0))
  }

  lemma InitInv(index: map<string, FlowNode>, seeds: seq<string>, U: set<string>)
    requires forall s :: s in seeds ==> s in U
    ensures BfsInv(index, seeds, U, InitialQueue(seeds), seq(|seeds|, _ => ""), EmptyLayout, map[], 0)
  {
    var q := InitialQueue(seeds);
    forall s | s in seeds ensures Covered(q, EmptyLayout, s, 0) {
      var j :| 0 <= j < |seeds| && seeds[j] == s;
      FirstLevelAtMost(q, s, j);
    }
  }

  /** The test "not yet visited", as one named predicate. */
  function NotIn(visited: set<string>): string -> bool {
    t => t !in visited
  }

  /** The queue entries for the targets not yet visited, in order, one level down. */
  function Pushes(targets: seq<string>, visited: set<string>, level: nat): (r: seq<QueueEntry>)
    ensures forall j :: 0 <= j < |r| ==> r[j].level == level
  {
    var ts := Filter(targets, NotIn(visited));
    seq(|ts|, j requires 0 <= j < |ts| => QueueEntry(ts[j], level))
  }

  lemma PushesAppend(a: seq<string>, b: seq<string>, visited: set<string>, level: nat)
    ensures Pushes(a + b, visited, level) == Pushes(a, visited, level) + Pushes(b, visited, level)
  {
    FilterAppend(a, b, NotIn(visited));
  }

  /** One more target pushes one entry when it is not yet visited, and none otherwise. */
  lemma PushesSnoc(targets: seq<string>, i: nat, visited: set<string>, level: nat)
    requires i < |targets|
    ensures Pushes(targets[..i + 1], visited, level)
         == Pushes(targets[..i], visited, level) + (if targets[i] in visited then [] else [QueueEntry(targets[i], level)])
  {
    assert targets[..i + 1] == targets[..i] + [targets[i]];
    PushesAppend(targets[..i], [targets[i]], visited, level);
    assert Filter([targets[i]], NotIn(visited)) == if targets[i] in visited then [] else [targets[i]];
  }

  /** A dequeued entry never loses the coverage it gave: its id is now placed no deeper. */
  lemma CoveredStep(q: seq<QueueEntry>, L: LayoutMap, p: seq<QueueEntry>, L2: LayoutMap, t: string, b: nat)
    requires q != []
    requires Extends(L, L2)
    requires q[0].nodeId in L2.entries && L2.entries[q[0].nodeId].level <= q[0].level
    requires Covered(q, L, t, b)
    ensures Covered(q[1..] + p, L2, t, b)
  {
    if !(t in L.entries && L.entries[t].level <= b) && q[0].nodeId != t {
      FirstLevelAppend(q[1..], p, t);
    }
  }

  /** Dequeuing an id that is already visited keeps the invariant. */
  lemma SkipInv(index: map<string, FlowNode>, seeds: seq<string>, U: set<string>, q: seq<QueueEntry>, from: seq<string>,
                L: LayoutMap, parent: map<string, string>, cur: nat)
    requires BfsInv(index, seeds, U, q, from, L, parent, cur)
    requires q != [] && q[0].nodeId in L.entries
    ensures BfsInv(index, seeds, U, q[1..], from[1..], L, parent, q[0].level)
  {
    var q2 := q[1..];
    assert q2 + [] == q2;
    forall s | s in seeds ensures Covered(q2, L, s, 0) {
      CoveredStep(q, L, [], L, s, 0);
    }
    forall u, t | u in L.entries && t in Succ(index, u) ensures Covered(q2, L, t, L.entries[u].level + 1) {
      CoveredStep(q, L, [], L, t, L.entries[u].level + 1);
    }
    assert QueueOk(index, seeds, U, q2, from[1..], L, q[0].level) by {
      assert forall j :: 0 <= j < |q2| ==> q2[j] == q[j + 1] && from[1..][j] == from[j + 1];
      assert forall j :: 0 <= j < |q| ==> q[0].level <= q[j].level;
    }
  }

  /** The origins of the queue after a visit: those of the entries left, then `u` for each of `n` pushed entries. */
  ghost function FromAfter(from: seq<string>, u: string, n: nat): (r: seq<string>)
    requires from != []
    ensures |r| == |from| - 1 + n
  {
    from[1..] + seq(n, _ => u)
  }

  /** The state after visiting the new id `q[0]`: its entry placed and its unvisited targets queued. */
  ghost function Visit(index: map<string, FlowNode>, q: seq<QueueEntry>, L: LayoutMap): (r: (seq<QueueEntry>, LayoutMap))
    requires q != [] && L.Valid() && q[0].nodeId !in L.entries
  {
    var e := q[0];
    var L2 := L.Set(e.nodeId, LayoutNode(e.nodeId, 0.0, e.level * 200 + 100, e.level));
    (q[1..] + Pushes(Succ(index, e.nodeId), L2.entries.Keys, e.level + 1), L2)
  }

  lemma PushesFrom(targets: seq<string>, visited: set<string>, level: nat)
    ensures forall k :: 0 <= k < |Pushes(targets, visited, level)| ==>
      Pushes(targets, visited, level)[k].nodeId in targets && Pushes(targets, visited, level)[k].nodeId !in visited
  {
    var ts := Filter(targets, NotIn(visited));
    FilterSound(targets, NotIn(visited));
    forall k | 0 <= k < |ts| ensures ts[k] in targets && ts[k] !in visited {
      assert ts[k] in ts;
      assert NotIn(visited)(ts[k]);
    }
  }

  lemma VisitQueueOk(index: map<string, FlowNode>, seeds: seq<string>, U: set<string>, q: seq<QueueEntry>, from: seq<string>,
                     L: LayoutMap, cur: nat, L2: LayoutMap, P: seq<QueueEntry>, q2: seq<QueueEntry>, from2: seq<string>)
    requires QueueOk(index, seeds, U, q, from, L, cur)
    requires q != [] && Extends(L, L2)
    requires q[0].nodeId in L2.entries && L2.entries[q[0].nodeId].level == q[0].level
    requires forall k :: 0 <= k < |P| ==> P[k].level == q[0].level + 1 && P[k].nodeId in Succ(index, q[0].nodeId)
    requires SuccClosed(index, U) && q[0].nodeId in index
    requires q2 == q[1..] + P && from2 == FromAfter(from, q[0].nodeId, |P|)
    ensures QueueOk(index, seeds, U, q2, from2, L2, q[0].level)
  {
    var e := q[0];
    assert forall j :: 0 <= j < |q| - 1 ==> q2[j] == q[j + 1];
    assert forall j :: |q| - 1 <= j < |q2| ==> q2[j] == P[j - (|q| - 1)];
    SortedAfterVisit(q, P, cur);
    EntriesAfterVisit(index, seeds, q, from, L, L2, P);
  }

  /** The queue after a visit is still sorted by level: what is pushed sits one level below the dequeued entry. */
  lemma SortedAfterVisit(q: seq<QueueEntry>, P: seq<QueueEntry>, cur: nat)
    requires q != [] && LevelsSorted(q)
    requires forall j :: 0 <= j < |q| ==> cur <= q[j].level <= cur + 1
    requires forall k :: 0 <= k < |P| ==> P[k].level == q[0].level + 1
    ensures LevelsSorted(q[1..] + P)
  {
    var q2 := q[1..] + P;
    assert forall j :: 0 <= j < |q| - 1 ==> q2[j] == q[j + 1];
    assert forall j :: |q| - 1 <= j < |q2| ==> q2[j] == P[j - (|q| - 1)];
  }

  /** After a visit every queue entry still names the id it came from. */
  lemma EntriesAfterVisit(index: map<string, FlowNode>, seeds: seq<string>, q: seq<QueueEntry>, from: seq<string>,
                          L: LayoutMap, L2: LayoutMap, P: seq<QueueEntry>)
    requires q != [] && |from| == |q| && Extends(L, L2)
    requires forall j :: 0 <= j < |q| ==> EntryOk(index, seeds, L, q[j].nodeId, q[j].level, from[j])
    requires q[0].nodeId in L2.entries && L2.entries[q[0].nodeId].level == q[0].level
    requires forall k :: 0 <= k < |P| ==> P[k].level == q[0].level + 1 && P[k].nodeId in Succ(index, q[0].nodeId)
    ensures var q2 := q[1..] + P; var from2 := FromAfter(from, q[0].nodeId, |P|);
      forall j :: 0 <= j < |q2| ==> EntryOk(index, seeds, L2, q2[j].nodeId, q2[j].level, from2[j])
  {
    var e := q[0];
    var q2 := q[1..] + P;
    var from2 := FromAfter(from, e.nodeId, |P|);
    forall j | 0 <= j < |q2| ensures EntryOk(index, seeds, L2, q2[j].nodeId, q2[j].level, from2[j]) {
      if j < |q| - 1 {
        assert q2[j] == q[j + 1] && from2[j] == from[j + 1];
        assert EntryOk(index, seeds, L, q[j + 1].nodeId, q[j + 1].level, from[j + 1]);
      } else {
        assert q2[j] == P[j - (|q| - 1)] && from2[j] == e.nodeId;
      }
    }
  }

  /** When the visited id is not in the index it has no successors and nothing is pushed. */
  lemma VisitQueueOkNoNode(index: map<string, FlowNode>, seeds: seq<string>, U: set<string>, q: seq<QueueEntry>, from: seq<string>,
                           L: LayoutMap, cur: nat, L2: LayoutMap)
    requires QueueOk(index, seeds, U, q, from, L, cur)
    requires q != [] && Extends(L, L2)
    ensures QueueOk(index, seeds, U, q[1..], from[1..], L2, q[0].level)
  {
    var q2 := q[1..];
    assert forall j :: 0 <= j < |q2| ==> q2[j] == q[j + 1] && from[1..][j] == from[j + 1];
    assert forall j :: 0 <= j < |q| ==> q[0].level <= q[j].level;
    forall j | 0 <= j < |q2| ensures EntryOk(index, seeds, L2, q2[j].nodeId, q2[j].level, from[1..][j]) {
      assert EntryOk(index, seeds, L, q[j + 1].nodeId, q[j + 1].level, from[j + 1]);
    }
  }

  lemma VisitCovered(index: map<string, FlowNode>, seeds: seq<string>, q: seq<QueueEntry>, L: LayoutMap, cur: nat)
    requires L.Valid() && (forall t :: t in L.entries ==> L.entries[t].level <= cur)
    requires forall j :: 0 <= j < |q| ==> cur <= q[j].level
    requires CoverOk(index, seeds, q, L)
    requires q != [] && q[0].nodeId !in L.entries
    requires LevelsSorted(Visit(index, q, L).0)
    ensures CoverOk(index, seeds, Visit(index, q, L).0, Visit(index, q, L).1)
  {
    VisitCoveredSeeds(index, seeds, q, L);
    forall u, t | u in Visit(index, q, L).1.entries && t in Succ(index, u)
      ensures Covered(Visit(index, q, L).0, Visit(index, q, L).1, t, Visit(index, q, L).1.entries[u].level + 1)
    {
      if u == q[0].nodeId {
        CoveredPushed(index, q, L, t);
      } else {
        CoveredKept(index, seeds, q, L, u, t);
      }
    }
  }

  /** Every seed stays covered after a visit. */
  lemma VisitCoveredSeeds(index: map<string, FlowNode>, seeds: seq<string>, q: seq<QueueEntry>, L: LayoutMap)
    requires L.Valid() && q != [] && q[0].nodeId !in L.entries
    requires forall s :: s in seeds ==> Covered(q, L, s, 0)
    ensures forall s :: s in seeds ==> Covered(Visit(index, q, L).0, Visit(index, q, L).1, s, 0)
  {
    var (q2, L2) := Visit(index, q, L);
    var P := Pushes(Succ(index, q[0].nodeId), L2.entries.Keys, q[0].level + 1);
    assert Extends(L, L2);
    forall s | s in seeds ensures Covered(q2, L2, s, 0) {
      CoveredStep(q, L, P, L2, s, 0);
    }
  }

  /** A target of an id placed before the visit stays covered after it. */
  lemma CoveredKept(index: map<string, FlowNode>, seeds: seq<string>, q: seq<QueueEntry>, L: LayoutMap, u: string, t: string)
    requires L.Valid() && q != [] && q[0].nodeId !in L.entries
    requires u in L.entries && Covered(q, L, t, L.entries[u].level + 1)
    ensures Covered(Visit(index, q, L).0, Visit(index, q, L).1, t, Visit(index, q, L).1.entries[u].level + 1)
  {
    var (q2, L2) := Visit(index, q, L);
    var P := Pushes(Succ(index, q[0].nodeId), L2.entries.Keys, q[0].level + 1);
    assert Extends(L, L2);
    CoveredStep(q, L, P, L2, t, L.entries[u].level + 1);
  }

  /** A target of the visited id is placed, or now waits in the queue no deeper than one level below it. */
  lemma CoveredPushed(index: map<string, FlowNode>, q: seq<QueueEntry>, L: LayoutMap, t: string)
    requires L.Valid() && q != [] && q[0].nodeId !in L.entries
    requires LevelsSorted(Visit(index, q, L).0)
    requires t in Succ(index, q[0].nodeId)
    requires forall x :: x in L.entries ==> L.entries[x].level <= q[0].level
    ensures Covered(Visit(index, q, L).0, Visit(index, q, L).1, t, q[0].level + 1)
  {
    var e := q[0];
    var (q2, L2) := Visit(index, q, L);
    if t !in L2.entries {
      var ts := Filter(Succ(index, e.nodeId), NotIn(L2.entries.Keys));
      var P := Pushes(Succ(index, e.nodeId), L2.entries.Keys, e.level + 1);
      FilterComplete(Succ(index, e.nodeId), NotIn(L2.entries.Keys));
      assert t in ts;
      var k :| 0 <= k < |ts| && ts[k] == t;
      assert q2[|q| - 1 + k] == P[k];
      FirstLevelAtMost(q2, t, |q| - 1 + k);
    }
  }

  /** Visiting a new id keeps the invariant. */
  lemma VisitShape(U: set<string>, q: seq<QueueEntry>, L: LayoutMap, cur: nat)
    requires Shape(U, L, cur)
    requires q != [] && q[0].nodeId !in L.entries && q[0].nodeId in U && cur <= q[0].level
    ensures Shape(U, L.Set(q[0].nodeId, LayoutNode(q[0].nodeId, 0.0, q[0].level * 200 + 100, q[0].level)), q[0].level)
  {
  }

  lemma VisitQueue(index: map<string, FlowNode>, seeds: seq<string>, U: set<string>, q: seq<QueueEntry>, from: seq<string>,
                   L: LayoutMap, cur: nat)
    requires L.Valid() && QueueOk(index, seeds, U, q, from, L, cur)
    requires q != [] && q[0].nodeId !in L.entries
    requires SuccClosed(index, U)
    ensures QueueOk(index, seeds, U, Visit(index, q, L).0,
                    FromAfter(from, q[0].nodeId, |Visit(index, q, L).0| - (|q| - 1)),
                    Visit(index, q, L).1, q[0].level)
  {
    if q[0].nodeId in index {
      VisitQueueIndexed(index, seeds, U, q, from, L, cur);
    } else {
      VisitQueueUnindexed(index, seeds, U, q, from, L, cur);
    }
  }

  lemma VisitQueueIndexed(index: map<string, FlowNode>, seeds: seq<string>, U: set<string>, q: seq<QueueEntry>, from: seq<string>,
                          L: LayoutMap, cur: nat)
    requires L.Valid() && QueueOk(index, seeds, U, q, from, L, cur)
    requires q != [] && q[0].nodeId !in L.entries && q[0].nodeId in index
    requires SuccClosed(index, U)
    ensures QueueOk(index, seeds, U, Visit(index, q, L).0,
                    FromAfter(from, q[0].nodeId, |Visit(index, q, L).0| - (|q| - 1)),
                    Visit(index, q, L).1, q[0].level)
  {
    var e := q[0];
    var (q2, L2) := Visit(index, q, L);
    var P := Pushes(Succ(index, e.nodeId), L2.entries.Keys, e.level + 1);
    assert Extends(L, L2);
    PushesFrom(Succ(index, e.nodeId), L2.entries.Keys, e.level + 1);
    VisitQueueOk(index, seeds, U, q, from, L, cur, L2, P,
                 Visit(index, q, L).0, FromAfter(from, e.nodeId, |Visit(index, q, L).0| - (|q| - 1)));
  }

  lemma VisitQueueUnindexed(index: map<string, FlowNode>, seeds: seq<string>, U: set<string>, q: seq<QueueEntry>, from: seq<string>,
                            L: LayoutMap, cur: nat)
    requires L.Valid() && QueueOk(index, seeds, U, q, from, L, cur)
    requires q != [] && q[0].nodeId !in L.entries && q[0].nodeId !in index
    ensures QueueOk(index, seeds, U, Visit(index, q, L).0,
                    FromAfter(from, q[0].nodeId, |Visit(index, q, L).0| - (|q| - 1)),
                    Visit(index, q, L).1, q[0].level)
  {
    var (q2, L2) := Visit(index, q, L);
    assert q2 == q[1..] + [];
    assert q2 == q[1..];
    assert FromAfter(from, q[0].nodeId, 0) == from[1..];
    assert Extends(L, L2);
    VisitQueueOkNoNode(index, seeds, U, q, from, L, cur, L2);
  }

  lemma VisitInv(index: map<string, FlowNode>, seeds: seq<string>, U: set<string>, q: seq<QueueEntry>, from: seq<string>,
                 L: LayoutMap, parent: map<string, string>, cur: nat,
                 q2: seq<QueueEntry>, from2: seq<string>, L2: LayoutMap, parent2: map<string, string>)
    requires BfsInv(index, seeds, U, q, from, L, parent, cur)
    requires q != [] && q[0].nodeId !in L.entries
    requires SuccClosed(index, U)
    requires (q2, L2) == Visit(index, q, L)
    requires from2 == FromAfter(from, q[0].nodeId, |q2| - (|q| - 1))
    requires parent2 == parent[q[0].nodeId := from[0]]
    ensures BfsInv(index, seeds, U, q2, from2, L2, parent2, q[0].level)
  {
    VisitShape(U, q, L, cur);
    VisitQueue(index, seeds, U, q, from, L, cur);
    VisitCovered(index, seeds, q, L, cur);
    VisitParents(index, seeds, q, from, L, parent);
  }

  lemma VisitParents(index: map<string, FlowNode>, seeds: seq<string>, q: seq<QueueEntry>, from: seq<string>,
                     L: LayoutMap, parent: map<string, string>)
    requires L.Valid() && ParentsOk(index, seeds, L, parent)
    requires q != [] && q[0].nodeId !in L.entries && |from| == |q|
    requires EntryOk(index, seeds, L, q[0].nodeId, q[0].level, from[0])
    ensures ParentsOk(index, seeds, Visit(index, q, L).1, parent[q[0].nodeId := from[0]])
  {
    var e := q[0];
    var L2 := Visit(index, q, L).1;
    assert Extends(L, L2);
    var parent2 := parent[e.nodeId := from[0]];
    forall v | v in L2.entries ensures EntryOk(index, seeds, L2, v, L2.entries[v].level, parent2[v]) {
      if v != e.nodeId {
        assert parent2[v] == parent[v];
        assert EntryOk(index, seeds, L, v, L.entries[v].level, parent[v]);
      }
    }
  }

  lemma FinalInv(index: map<string, FlowNode>, seeds: seq<string>, U: set<string>, from: seq<string>,
                 L: LayoutMap, parent: map<string, string>, cur: nat)
    requires BfsInv(index, seeds, U, [], from, L, parent, cur)
    ensures Closed(index, seeds, L) && Parented(index, seeds, L)
  {
    forall v | v in L.entries ensures ParentOk(index, seeds, L, v, L.entries[v].level) {
      if L.entries[v].level > 0 {
        var u := parent[v];
        assert u in L.entries && L.entries[u].level + 1 == L.entries[v].level && v in Succ(index, u);
      }
    }
  }

  // ---------------------------------------------------------------------------
  // The search itself.

  /** `node.outgoing_edges.forEach(edge => { if (!visited.has(edge.to_node)) queue.push(...) })` */
  method EnqueueTargets(queue: seq<QueueEntry>, visited: set<string>, targets: seq<string>, level: nat)
    returns (q: seq<QueueEntry>)
    ensures q == queue + Pushes(targets, visited, level)
  {
    q := queue;
    var i := 0;
    while i < |targets|
      invariant 0 <= i <= |targets|
      invariant q == queue + Pushes(targets[..i], visited, level)
    {
      PushesSnoc(targets, i, visited, level);
      if targets[i] !in visited {
        AppendAssoc(queue, Pushes(targets[..i], visited, level), [QueueEntry(targets[i], level)]);
        q := q + [QueueEntry(targets[i], level)];
      }
      i := i + 1;
    }
    assert targets[..i] == targets;
  }

  lemma InUniverse(index: map<string, FlowNode>, seeds: seq<string>, U: set<string>, q: seq<QueueEntry>, from: seq<string>,
                   L: LayoutMap, parent: map<string, string>, cur: nat)
    requires BfsInv(index, seeds, U, q, from, L, parent, cur)
    requires q != []
    ensures q[0].nodeId in U && L.entries.Keys <= U
  {
  }

  /** One visit: the entry for the dequeued id is set, then its unvisited targets are queued. */
  method VisitNode(index: map<string, FlowNode>, queue: seq<QueueEntry>, visited: set<string>, layout: LayoutMap)
    returns (queue2: seq<QueueEntry>, visited2: set<string>, layout2: LayoutMap)
    requires layout.Valid() && visited == layout.entries.Keys
    requires queue != [] && queue[0].nodeId !in visited
    ensures (queue2, layout2) == Visit(index, queue, layout)
    ensures visited2 == layout2.entries.Keys && visited2 == visited + {queue[0].nodeId}
  {
    var e := queue[0];
    visited2 := visited + {e.nodeId};
    layout2 := layout.Set(e.nodeId, LayoutNode(e.nodeId, 0.0, e.level * 200 + 100, e.level));
    queue2 := queue[1..];
    assert layout2.entries.Keys == visited2;
    if e.nodeId in index {
      queue2 := EnqueueTargets(queue2, visited2, Targets(index[e.nodeId]), e.level + 1);
      assert Targets(index[e.nodeId]) == Succ(index, e.nodeId);
    } else {
      assert Pushes(Succ(index, e.nodeId), visited2, e.level + 1) == [];
      assert queue2 == queue2 + [];
    }
  }

  /** One turn of the search loop: dequeue, then skip a visited id or visit a new one. */
  method BfsStep(index: map<string, FlowNode>, seeds: seq<string>, ghost U: set<string>,
                 queue: seq<QueueEntry>, visited: set<string>, layout: LayoutMap,
                 ghost from: seq<string>, ghost parent: map<string, string>, ghost cur: nat)
    returns (queue2: seq<QueueEntry>, visited2: set<string>, layout2: LayoutMap,
             ghost from2: seq<string>, ghost parent2: map<string, string>, ghost cur2: nat)
    requires visited == layout.entries.Keys && SuccClosed(index, U)
    requires BfsInv(index, seeds, U, queue, from, layout, parent, cur)
    requires queue != []
    ensures visited2 == layout2.entries.Keys
    ensures BfsInv(index, seeds, U, queue2, from2, layout2, parent2, cur2)
    ensures U - visited2 < U - visited || (visited2 == visited && |queue2| < |queue|)
  {
    var e := queue[0];
    if e.nodeId in visited {
      SkipInv(index, seeds, U, queue, from, layout, parent, cur);
      queue2, visited2, layout2, from2, parent2, cur2 := queue[1..], visited, layout, from[1..], parent, e.level;
    } else {
      queue2, visited2, layout2, from2, parent2, cur2 := VisitStep(index, seeds, U, queue, visited, layout, from, parent, cur);
    }
  }

  /** The turn of the search loop that meets an id not yet visited. */
  method VisitStep(index: map<string, FlowNode>, seeds: seq<string>, ghost U: set<string>,
                   queue: seq<QueueEntry>, visited: set<string>, layout: LayoutMap,
                   ghost from: seq<string>, ghost parent: map<string, string>, ghost cur: nat)
    returns (queue2: seq<QueueEntry>, visited2: set<string>, layout2: LayoutMap,
             ghost from2: seq<string>, ghost parent2: map<string, string>, ghost cur2: nat)
    requires visited == layout.entries.Keys && SuccClosed(index, U)
    requires BfsInv(index, seeds, U, queue, from, layout, parent, cur)
    requires queue != [] && queue[0].nodeId !in visited
    ensures visited2 == layout2.entries.Keys
    ensures BfsInv(index, seeds, U, queue2, from2, layout2, parent2, cur2)
    ensures U - visited2 < U - visited
  {
    var e := queue[0];
    InUniverse(index, seeds, U, queue, from, layout, parent, cur);
    queue2, visited2, layout2 := VisitNode(index, queue, visited, layout);
    from2 := FromAfter(from, e.nodeId, |queue2| - (|queue| - 1));
    parent2 := parent[e.nodeId := from[0]];
    VisitInv(index, seeds, U, queue, from, layout, parent, cur, queue2, from2, layout2, parent2);
    cur2 := e.level;
    VisitShrinks(U, visited, visited2, e.nodeId);
  }

  lemma VisitShrinks(U: set<string>, visited: set<string>, visited2: set<string>, id: string)
    requires id in U && id !in visited && visited2 == visited + {id}
    ensures U - visited2 < U - visited
  {
    assert id in U - visited && id !in U - visited2;
  }

  /** The `while (queue.length > 0)` loop of `calculateFlowLayout`, from the seeds at level 0.
      It returns the layout entries it created and the `visited` set. */
  method LevelBfs(index: map<string, FlowNode>, seeds: seq<string>) returns (layout: LayoutMap, visited: set<string>)
    requires forall s :: s in seeds ==> s in index
    ensures visited == layout.entries.Keys
    ensures layout.Valid() && Placed(layout)
    ensures Closed(index, seeds, layout) && Parented(index, seeds, layout)
  {
    var queue := InitialQueue(seeds);
    layout := EmptyLayout;
    visited := {};
    ghost var from: seq<string> := seq(|seeds|, _ => "");
    ghost var parent: map<string, string> := map[];
    ghost var cur: nat := 0;
    ghost var U := Universe(index);
    assert SuccClosed(index, U);
    InitInv(index, seeds, U);
    while queue != []
      invariant visited == layout.entries.Keys
      invariant BfsInv(index, seeds, U, queue, from, layout, parent, cur)
      invariant SuccClosed(index, U)
      decreases U - visited, |queue|
    {
      queue, visited, layout, from, parent, cur := BfsStep(index, seeds, U, queue, visited, layout, from, parent, cur);
    }
    FinalInv(index, seeds, U, from, layout, parent, cur);
  }

  // ---------------------------------------------------------------------------
  // The levels are breadth-first distances.

  /** A path from a seed never ends deeper than its number of edges. */
  lemma {:induction false} LevelAtMostPathLength(index: map<string, FlowNode>, seeds: seq<string>, L: LayoutMap, p: seq<string>)
    requires Closed(index, seeds, L)
    requires IsPath(index, p) && p[0] in seeds
    ensures p[|p| - 1] in L.entries && L.entries[p[|p| - 1]].level <= |p| - 1
  {
    if |p| > 1 {
      var init := p[..|p| - 1];
      assert IsPath(index, init) by {
        forall i | 0 <= i < |init| - 1 ensures init[i + 1] in Succ(index, init[i]) {
          assert init[i] == p[i] && init[i + 1] == p[i + 1];
        }
      }
      LevelAtMostPathLength(index, seeds, L, init);
      assert p[|p| - 1] in Succ(index, p[|p| - 2]);
    }
  }

  /** Every placed id is reached by a path from a seed whose length is its level. */
  lemma {:induction false} PathOfLevelLength(index: map<string, FlowNode>, seeds: seq<string>, L: LayoutMap, v: string)
    returns (p: seq<string>)
    requires Parented(index, seeds, L)
    requires v in L.entries
    ensures IsPath(index, p) && p[0] in seeds && p[|p| - 1] == v
    ensures |p| - 1 == L.entries[v].level
    decreases L.entries[v].level
  {
    if L.entries[v].level == 0 && v in seeds {
      p := [v];
    } else {
      assert ParentOk(index, seeds, L, v, L.entries[v].level);
      var u :| u in L.entries && L.entries[u].level + 1 == L.entries[v].level && v in Succ(index, u);
      var pu := PathOfLevelLength(index, seeds, L, u);
      p := pu + [v];
      PathSnoc(index, pu, v);
    }
  }

  /** A path extended by a successor of its last id is a path. */
  lemma PathSnoc(index: map<string, FlowNode>, p: seq<string>, v: string)
    requires IsPath(index, p) && v in Succ(index, p[|p| - 1])
    ensures IsPath(index, p + [v]) && (p + [v])[0] == p[0]
  {
    var p2 := p + [v];
    forall i | 0 <= i < |p2| - 1 ensures p2[i + 1] in Succ(index, p2[i]) {
      if i < |p| - 1 {
        assert p2[i] == p[i] && p2[i + 1] == p[i + 1];
      }
    }
  }
}
