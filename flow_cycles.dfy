/** `detectCycles`: a depth-first search over the `outgoing_edges` graph that
    reports a back edge, i.e. an edge into an id still on the recursion stack. */
module FlowCycles {
  import opened Wrappers
  import opened FlowGraph

  /** A directed cycle: a path whose last id has an edge back to its first.
      A single id with an edge to itself is a cycle of length one. */
  ghost predicate IsCycle(index: map<string, FlowNode>, c: seq<string>) {
    IsPath(index, c) && c[0] in Succ(index, c[|c| - 1])
  }

  ghost predicate HasCycle(index: map<string, FlowNode>) {
    exists c :: IsCycle(index, c)
  }

  /** A self-referencing edge is a cycle. */
  lemma SelfLoopIsCycle(index: map<string, FlowNode>, u: string)
    requires u in Succ(index, u)
    ensures HasCycle(index)
  {
    assert IsCycle(index, [u]);
  }

  /** Every id that can start an edge is an indexed id. */
  lemma SourceIsIndexed(index: map<string, FlowNode>, u: string, v: string)
    requires v in Succ(index, u)
    ensures u in index
  {
  }

  /** A walk: each id after the first is a successor of the one before it (possibly empty). */
  ghost predicate IsWalk(index: map<string, FlowNode>, p: seq<string>) {
    forall i :: 0 <= i < |p| - 1 ==> p[i + 1] in Succ(index, p[i])
  }

  /** Finishing times: every successor of a finished id finished earlier. */
  ghost predicate FinishedBefore(index: map<string, FlowNode>, finish: map<string, nat>) {
    forall u, v :: u in finish && v in Succ(index, u) ==> v in finish && finish[v] < finish[u]
  }

  /** An edge from the top of the stack back into the stack closes a cycle. */
  lemma BackEdgeCycle(index: map<string, FlowNode>, path: seq<string>, u: string)
    requires IsWalk(index, path) && path != []
    requires u in path && u in Succ(index, path[|path| - 1])
    ensures HasCycle(index)
  {
    var k :| 0 <= k < |path| && path[k] == u;
    var c := path[k..];
    forall i | 0 <= i < |c| - 1 ensures c[i + 1] in Succ(index, c[i]) {
      assert c[i] == path[k + i] && c[i + 1] == path[k + i + 1];
    }
    assert IsCycle(index, c);
  }

  /** Along a path of finished ids the finishing times fall by at least one per edge. */
  lemma {:induction false} FinishFalls(index: map<string, FlowNode>, finish: map<string, nat>, c: seq<string>, i: nat)
    requires FinishedBefore(index, finish)
    requires IsPath(index, c) && c[0] in finish && i < |c|
    ensures c[i] in finish && finish[c[i]] + i <= finish[c[0]]
  {
    if i > 0 {
      FinishFalls(index, finish, c, i - 1);
      assert c[i] in Succ(index, c[i - 1]);
    }
  }

  /** When every indexed id has finished, the finishing times rule out any cycle. */
  lemma NoCycleWhenAllFinished(index: map<string, FlowNode>, finish: map<string, nat>)
    requires FinishedBefore(index, finish)
    requires index.Keys <= finish.Keys
    ensures !HasCycle(index)
  {
    if c :| IsCycle(index, c) {
      var last := |c| - 1;
      SourceIsIndexed(index, c[last], c[0]);
      assert c[0] in finish && finish[c[0]] < finish[c[last]];
      FinishFalls(index, finish, c, last);
      assert false;
    }
  }

  /** The invariant of the search state between calls: the stack set holds
      exactly the ids of the stack, which form a walk; the finished ids are
      the visited ids off the stack, each finished after its successors. */
  ghost predicate SearchInv(index: map<string, FlowNode>, visited: set<string>, onStack: set<string>,
                            path: seq<string>, finish: map<string, nat>, clock: nat) {
    (forall x :: x in onStack <==> x in path)
    && onStack <= visited
    && IsWalk(index, path)
    && finish.Keys == visited - onStack
    && (forall x :: x in finish ==> finish[x] < clock)
    && FinishedBefore(index, finish)
  }

  /** Pushing an unvisited successor of the top of the stack keeps the invariant. */
  lemma PushInv(index: map<string, FlowNode>, visited: set<string>, onStack: set<string>,
                path: seq<string>, finish: map<string, nat>, clock: nat, u: string)
    requires SearchInv(index, visited, onStack, path, finish, clock) && u !in visited
    requires path == [] || u in Succ(index, path[|path| - 1])
    ensures SearchInv(index, visited + {u}, onStack + {u}, path + [u], finish, clock)
    ensures u !in path
  {
    var p := path + [u];
    forall i | 0 <= i < |p| - 1 ensures p[i + 1] in Succ(index, p[i]) {
      if i < |path| - 1 {
        assert p[i] == path[i] && p[i + 1] == path[i + 1];
      }
    }
  }

  /** Popping the top of the stack, once all its successors have finished, keeps the invariant. */
  lemma FinishInv(index: map<string, FlowNode>, visited: set<string>, onStack: set<string>,
                  below: seq<string>, finish: map<string, nat>, clock: nat, u: string)
    requires SearchInv(index, visited, onStack, below + [u], finish, clock) && u !in below
    requires forall v :: v in Succ(index, u) ==> v in finish
    ensures SearchInv(index, visited, onStack - {u}, below, finish[u := clock], clock + 1)
  {
    forall i | 0 <= i < |below| - 1 ensures below[i + 1] in Succ(index, below[i]) {
      assert below[i] == (below + [u])[i] && below[i + 1] == (below + [u])[i + 1];
    }
    assert u in onStack && u !in finish;
    var after := finish[u := clock];
    assert after.Keys == visited - (onStack - {u});
    forall a, v | a in after && v in Succ(index, a) ensures v in after && after[v] < after[a] {
      if a == u {
        assert v in finish && finish[v] < clock;
      } else {
        assert a in finish && v in finish && finish[v] < finish[a];
      }
    }
  }

  /** The targets of the first `i + 1` edges have finished once the first `i`
      had and the `i`-th has, since finished ids stay finished. */
  lemma TargetsFinished(edges: seq<EdgeRef>, i: nat, before: map<string, nat>, after: map<string, nat>)
    requires i < |edges| && before.Keys <= after.Keys && edges[i].toNode in after
    requires forall j :: 0 <= j < i ==> edges[j].toNode in before
    ensures forall j :: 0 <= j < i + 1 ==> edges[j].toNode in after
  {
  }

  /** The same for the start ids of the outer loop of `detectCycles`. */
  lemma StartsFinished(flowNodes: seq<FlowNode>, i: nat, before: map<string, nat>, after: map<string, nat>)
    requires i < |flowNodes| && before.Keys <= after.Keys && flowNodes[i].id in after
    requires forall j :: 0 <= j < i ==> flowNodes[j].id in before
    ensures forall j :: 0 <= j < i + 1 ==> flowNodes[j].id in after
  {
  }

  /** The state shared by the nested `hasCycleDFS` calls of one `detectCycles` run. */
  class CycleSearch {
    const index: map<string, FlowNode>
    ghost const universe: set<string>
    /** `visited` */
    var visited: set<string>
    /** `recursionStack` */
    var onStack: set<string>
    /** The ids of `recursionStack` in the order they were pushed. */
    ghost var path: seq<string>
    /** The finishing time of every id whose search has returned false. */
    ghost var finish: map<string, nat>
    ghost var clock: nat

    ghost predicate Valid()
      reads this
    {
      universe == Universe(index) && SearchInv(index, visited, onStack, path, finish, clock)
    }

    constructor (index: map<string, FlowNode>)
      ensures Valid() && this.index == index
      ensures visited == {} && onStack == {} && path == [] && finish == map[]
    {
      this.index := index;
      universe := Universe(index);
      visited := {};
      onStack := {};
      path := [];
      finish := map[];
      clock := 0;
    }

    /** `hasCycleDFS(nodeId)`: true on an edge back into the stack; when it
        returns false, `u` and everything reachable from it have finished and
        the stack is as it was. */
    method HasCycleDfs(u: string) returns (r: bool)
      requires Valid() && u in universe
      requires path == [] || u in Succ(index, path[|path| - 1])
      modifies this
      ensures Valid()
      ensures old(visited) <= visited
      ensures r ==> HasCycle(index)
      ensures !r ==> u in finish && path == old(path) && onStack == old(onStack)
      ensures !r ==> old(finish.Keys) <= finish.Keys
      decreases universe - visited
    {
      if u in onStack {
        BackEdgeCycle(index, path, u);
        return true;
      }
      if u in visited {
        return false;
      }
      ghost var below := path;
      Push(u);
      if u in index && index[u].outgoingEdges.Some? {
        var edges := index[u].outgoingEdges.value;
        var i := 0;
        while i < |edges|
          invariant i <= |edges|
          invariant Valid()
          invariant old(visited) + {u} <= visited
          invariant path == below + [u] && onStack == old(onStack) + {u}
          invariant forall j :: 0 <= j < i ==> edges[j].toNode in finish
        {
          assert edges[i].toNode in Succ(index, u);
          ghost var before := finish;
          var found := HasCycleDfs(edges[i].toNode);
          if found {
            return true;
          }
          TargetsFinished(edges, i, before, finish);
          i := i + 1;
        }
        assert forall v :: v in Succ(index, u) ==> v in finish;
      }
      Finish(below, u);
      return false;
    }

    /** `visited.add(nodeId); recursionStack.add(nodeId)`: a new id goes on the stack. */
    method Push(u: string)
      requires Valid() && u !in visited
      requires path == [] || u in Succ(index, path[|path| - 1])
      modifies this
      ensures Valid()
      ensures visited == old(visited) + {u} && onStack == old(onStack) + {u} && path == old(path) + [u]
      ensures finish == old(finish) && u !in old(path)
    {
      PushInv(index, visited, onStack, path, finish, clock, u);
      visited := visited + {u};
      onStack := onStack + {u};
      path := path + [u];
    }

    /** `recursionStack.delete(nodeId)`: the top of the stack finishes. */
    method Finish(ghost below: seq<string>, u: string)
      requires Valid() && path == below + [u] && u !in below
      requires forall v :: v in Succ(index, u) ==> v in finish
      modifies this
      ensures Valid()
      ensures visited == old(visited) && path == below && onStack == old(onStack) - {u}
      ensures finish.Keys == old(finish.Keys) + {u}
    {
      FinishInv(index, visited, onStack, below, finish, clock, u);
      onStack := onStack - {u};
      path := below;
      finish := finish[u := clock];
      clock := clock + 1;
    }
  }

  /** `detectCycles`: true exactly when the `outgoing_edges` graph has a directed cycle. */
  method DetectCycles(flowNodes: seq<FlowNode>) returns (r: bool)
    ensures r <==> HasCycle(IndexNodes(flowNodes))
  {
    var index := IndexNodes(flowNodes);
    var search := new CycleSearch(index);
    var i := 0;
    while i < |flowNodes|
      invariant i <= |flowNodes|
      invariant search.Valid() && search.index == index
      invariant search.path == [] && search.onStack == {}
      invariant forall j :: 0 <= j < i ==> flowNodes[j].id in search.finish
    {
      ghost var before := search.finish;
      if flowNodes[i].id !in search.visited {
        var found := search.HasCycleDfs(flowNodes[i].id);
        if found {
          return true;
        }
      }
      StartsFinished(flowNodes, i, before, search.finish);
      i := i + 1;
    }
    forall k | k in index
      ensures k in search.finish
    {
      var j :| 0 <= j < |flowNodes| && flowNodes[j] == index[k];
    }
    NoCycleWhenAllFinished(index, search.finish);
    return false;
  }
}
