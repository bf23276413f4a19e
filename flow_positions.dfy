/** The horizontal packing of `calculateXPositions` and the viewport of
    `getViewportFit`. The window width is a parameter. */
module FlowPositions {
  import opened Lists
  import opened FlowGraph

  /** The width reserved for one node, margin included. */
  const NodeWidth: int := 250

  /** `Math.max(100, (window.innerWidth - count * 250) / 2)`: the x of the first node of a level. */
  function StartX(viewportWidth: int, count: nat): (r: real)
    ensures r >= 100.0 && r >= ((viewportWidth - count * NodeWidth) as real) / 2.0
    ensures r == 100.0 || r == ((viewportWidth - count * NodeWidth) as real) / 2.0
  {
    var centred := ((viewportWidth - count * NodeWidth) as real) / 2.0;
    if centred > 100.0 then centred else 100.0
  }

  /** The test "placed at level `l`". */
  function AtLevel(entries: map<string, LayoutNode>, l: nat): string -> bool {
    k => k in entries && entries[k].level == l
  }

  /** `levelGroups.get(l)`: the ids at level `l`, in map order. */
  function LevelGroup(m: LayoutMap, l: nat): (g: seq<string>)
    ensures forall i :: 0 <= i < |g| ==> g[i] in m.entries && m.entries[g[i]].level == l
    ensures forall k :: k in m.keys && k in m.entries && m.entries[k].level == l ==> k in g
  {
    var g := Filter(m.keys, AtLevel(m.entries, l));
    FilterSound(m.keys, AtLevel(m.entries, l));
    FilterComplete(m.keys, AtLevel(m.entries, l));
    assert forall i :: 0 <= i < |g| ==> AtLevel(m.entries, l)(g[i]);
    g
  }

  lemma LevelGroupDistinct(m: LayoutMap, l: nat)
    requires m.Valid()
    ensures Distinct(LevelGroup(m, l))
  {
    FilterDistinct(m.keys, AtLevel(m.entries, l));
  }

  /** The first loop of `calculateXPositions`: the ids grouped by level, each group in map
      order, and the levels in the order they first occur. */
  method GroupByLevel(m: LayoutMap) returns (groups: map<nat, seq<string>>, levelOrder: seq<nat>)
    requires m.Valid()
    ensures forall l :: l in groups <==> l in levelOrder
    ensures Distinct(levelOrder)
    ensures forall l :: l in groups ==> groups[l] == LevelGroup(m, l)
    ensures forall l :: l !in groups ==> LevelGroup(m, l) == []
  {
    groups, levelOrder := map[], [];
    var i := 0;
    while i < |m.keys|
      invariant 0 <= i <= |m.keys|
      invariant Grouped(m, i, groups, levelOrder)
    {
      var k := m.keys[i];
      var level := m.entries[k].level;
      ghost var groups0, levelOrder0 := groups, levelOrder;
      if level !in groups {
        groups := groups[level := []];
        levelOrder := levelOrder + [level];
      }
      groups := groups[level := groups[level] + [k]];
      GroupedStep(m, i, groups0, levelOrder0, groups, levelOrder);
      i := i + 1;
    }
    assert m.keys[..i] == m.keys;
  }

  /** The first `n` keys of `m` grouped by level: `groups` has a group for exactly the levels
      in `levelOrder`, and each group lists the keys of its level among the first `n`. */
  ghost predicate Grouped(m: LayoutMap, n: nat, groups: map<nat, seq<string>>, levelOrder: seq<nat>)
    requires n <= |m.keys|
  {
    (forall l :: l in groups <==> l in levelOrder)
    && Distinct(levelOrder)
    && (forall l :: l in groups ==> groups[l] == Filter(m.keys[..n], AtLevel(m.entries, l)))
    && (forall l :: l !in groups ==> Filter(m.keys[..n], AtLevel(m.entries, l)) == [])
  }

  /** Adding the next key to the group of its level keeps `Grouped`. */
  lemma GroupedStep(m: LayoutMap, i: nat, groups: map<nat, seq<string>>, levelOrder: seq<nat>,
                    groups2: map<nat, seq<string>>, levelOrder2: seq<nat>)
    requires m.Valid() && i < |m.keys| && Grouped(m, i, groups, levelOrder)
    requires var level := m.entries[m.keys[i]].level;
      && levelOrder2 == (if level in groups then levelOrder else levelOrder + [level])
      && groups2 == groups[level := (if level in groups then groups[level] else []) + [m.keys[i]]]
    ensures Grouped(m, i + 1, groups2, levelOrder2)
  {
    GroupPrefixStep(m, i);
  }

  /** One more key of the map joins the group of its own level and no other. */
  lemma GroupPrefixStep(m: LayoutMap, i: nat)
    requires m.Valid() && i < |m.keys|
    ensures forall l :: Filter(m.keys[..i + 1], AtLevel(m.entries, l))
                     == Filter(m.keys[..i], AtLevel(m.entries, l))
                        + (if l == m.entries[m.keys[i]].level then [m.keys[i]] else [])
  {
    var k := m.keys[i];
    assert m.keys[..i + 1] == m.keys[..i] + [k];
    forall l
      ensures Filter(m.keys[..i + 1], AtLevel(m.entries, l))
           == Filter(m.keys[..i], AtLevel(m.entries, l)) + (if l == m.entries[k].level then [k] else [])
    {
      FilterAppend(m.keys[..i], [k], AtLevel(m.entries, l));
    }
  }

  /** Every node of level `l` stands at `startX + index * 250` for its index within the level. */
  ghost predicate XPlaced(m: LayoutMap, m2: LayoutMap, viewportWidth: int, l: nat) {
    var g := LevelGroup(m, l);
    forall i :: 0 <= i < |g| ==> g[i] in m2.entries && m2.entries[g[i]].x == StartX(viewportWidth, |g|) + (i * NodeWidth) as real
  }

  /** `m2` has the keys of `m` and differs from it in x only. */
  ghost predicate SameButX(m: LayoutMap, m2: LayoutMap) {
    m2.Valid() && m2.keys == m.keys
    && (forall k :: k in m2.entries <==> k in m.entries)
    && (forall k :: k in m.entries ==> m2.entries[k] == m.entries[k].(x := m2.entries[k].x))
  }

  /** Setting the x of one node keeps `SameButX`. */
  lemma SameButXSet(m: LayoutMap, m2: LayoutMap, k: string, x: real)
    requires SameButX(m, m2) && k in m2.entries
    ensures SameButX(m, m2.Set(k, m2.entries[k].(x := x)))
  {
  }

  /** Placing the `j`-th node of a level keeps the placement of the nodes before it. */
  lemma PlaceStepBefore(m: LayoutMap, m3: LayoutMap, m4: LayoutMap, nodes: seq<string>, startX: real, j: nat)
    requires Distinct(nodes) && j < |nodes| && nodes[j] in m3.entries
    requires forall i :: 0 <= i < j ==> nodes[i] in m3.entries && m3.entries[nodes[i]].x == startX + (i * NodeWidth) as real
    requires m4.entries == m3.entries[nodes[j] := m3.entries[nodes[j]].(x := startX + (j * NodeWidth) as real)]
    ensures forall i :: 0 <= i <= j ==> nodes[i] in m4.entries && m4.entries[nodes[i]].x == startX + (i * NodeWidth) as real
  {
  }

  /** Setting the x of the `j`-th node keeps the loop invariant of `PlaceLevel`. */
  lemma PlaceStep(m: LayoutMap, m2: LayoutMap, m3: LayoutMap, m4: LayoutMap, nodes: seq<string>, startX: real, j: nat)
    requires SameButX(m, m3) && Distinct(nodes) && j < |nodes|
    requires forall i :: 0 <= i < |nodes| ==> nodes[i] in m2.entries
    requires forall k :: k in m2.entries <==> k in m3.entries
    requires forall i :: 0 <= i < j ==> m3.entries[nodes[i]].x == startX + (i * NodeWidth) as real
    requires forall k :: k in m2.entries && k !in nodes ==> m3.entries[k] == m2.entries[k]
    requires m4 == m3.Set(nodes[j], m3.entries[nodes[j]].(x := startX + (j * NodeWidth) as real))
    ensures SameButX(m, m4)
    ensures forall i :: 0 <= i <= j ==> m4.entries[nodes[i]].x == startX + (i * NodeWidth) as real
    ensures forall k :: k in m2.entries && k !in nodes ==> m4.entries[k] == m2.entries[k]
  {
    SameButXSet(m, m3, nodes[j], startX + (j * NodeWidth) as real);
    PlaceStepBefore(m, m3, m4, nodes, startX, j);
  }

  /** The second loop's body for one level: its nodes placed from `startX` in steps of 250,
      every node of another level left as it was. */
  method PlaceLevel(m: LayoutMap, m2: LayoutMap, nodes: seq<string>, startX: real)
    returns (m3: LayoutMap)
    requires SameButX(m, m2)
    requires Distinct(nodes) && forall i :: 0 <= i < |nodes| ==> nodes[i] in m2.entries
    ensures SameButX(m, m3)
    ensures forall i :: 0 <= i < |nodes| ==> m3.entries[nodes[i]].x == startX + (i * NodeWidth) as real
    ensures forall k :: k in m2.entries && k !in nodes ==> m3.entries[k] == m2.entries[k]
  {
    m3 := m2;
    var j := 0;
    while j < |nodes|
      invariant 0 <= j <= |nodes|
      invariant SameButX(m, m3)
      invariant forall i :: 0 <= i < j ==> m3.entries[nodes[i]].x == startX + (i * NodeWidth) as real
      invariant forall k :: k in m2.entries && k !in nodes ==> m3.entries[k] == m2.entries[k]
    {
      var k := nodes[j];
      var m4 := m3.Set(k, m3.entries[k].(x := startX + (j * NodeWidth) as real));
      PlaceStep(m, m2, m3, m4, nodes, startX, j);
      m3 := m4;
      j := j + 1;
    }
  }

  /** `XPlaced` for a level survives a change confined to other levels. */
  lemma XPlacedFrame(m: LayoutMap, m2: LayoutMap, m3: LayoutMap, viewportWidth: int, l: nat, level: nat)
    requires SameButX(m, m2) && SameButX(m, m3)
    requires XPlaced(m, m2, viewportWidth, l) && l != level
    requires forall k :: k in m2.entries && k !in LevelGroup(m, level) ==> m3.entries[k] == m2.entries[k]
    ensures XPlaced(m, m3, viewportWidth, l)
  {
    var g := LevelGroup(m, l);
    forall i | 0 <= i < |g| ensures g[i] !in LevelGroup(m, level) {
      assert m.entries[g[i]].level == l;
    }
  }

  /** One level of the second loop: the level's row placed, every other row kept. */
  method PlaceRow(m: LayoutMap, m2: LayoutMap, level: nat, nodes: seq<string>, viewportWidth: int)
    returns (m3: LayoutMap)
    requires m.Valid() && SameButX(m, m2)
    requires nodes == LevelGroup(m, level)
    ensures SameButX(m, m3)
    ensures XPlaced(m, m3, viewportWidth, level)
    ensures forall l :: l != level && XPlaced(m, m2, viewportWidth, l) ==> XPlaced(m, m3, viewportWidth, l)
  {
    var startX := StartX(viewportWidth, |nodes|);
    LevelGroupDistinct(m, level);
    m3 := PlaceLevel(m, m2, nodes, startX);
    forall l | l != level && XPlaced(m, m2, viewportWidth, l) ensures XPlaced(m, m3, viewportWidth, l) {
      XPlacedFrame(m, m2, m3, viewportWidth, l, level);
    }
  }

  /** `calculateXPositions(layoutMap)`: each level packed from its start x in steps of 250,
      in map order; nothing but x changes. */
  method CalculateXPositions(m: LayoutMap, viewportWidth: int) returns (m2: LayoutMap)
    requires m.Valid()
    ensures SameButX(m, m2)
    ensures forall l :: XPlaced(m, m2, viewportWidth, l)
  {
    var groups, levelOrder := GroupByLevel(m);
    m2 := m;
    var a := 0;
    while a < |levelOrder|
      invariant 0 <= a <= |levelOrder|
      invariant SameButX(m, m2)
      invariant forall b :: 0 <= b < a ==> XPlaced(m, m2, viewportWidth, levelOrder[b])
    {
      var m3 := PlaceRow(m, m2, levelOrder[a], groups[levelOrder[a]], viewportWidth);
      RowsPlacedStep(m, m2, m3, viewportWidth, levelOrder, a);
      m2 := m3;
      a := a + 1;
    }
    AllRowsPlaced(m, m2, viewportWidth, groups, levelOrder);
  }

  /** Placing the row of the `a`-th level keeps the rows of the levels before it. */
  lemma RowsPlacedStep(m: LayoutMap, m2: LayoutMap, m3: LayoutMap, viewportWidth: int, levelOrder: seq<nat>, a: nat)
    requires Distinct(levelOrder) && a < |levelOrder|
    requires forall b :: 0 <= b < a ==> XPlaced(m, m2, viewportWidth, levelOrder[b])
    requires XPlaced(m, m3, viewportWidth, levelOrder[a])
    requires forall l :: l != levelOrder[a] && XPlaced(m, m2, viewportWidth, l) ==> XPlaced(m, m3, viewportWidth, l)
    ensures forall b :: 0 <= b <= a ==> XPlaced(m, m3, viewportWidth, levelOrder[b])
  {
  }

  /** Once the row of every level in `levelOrder` is placed, every row is: the other levels have none. */
  lemma AllRowsPlaced(m: LayoutMap, m2: LayoutMap, viewportWidth: int, groups: map<nat, seq<string>>, levelOrder: seq<nat>)
    requires forall l :: l in groups <==> l in levelOrder
    requires forall l :: l !in groups ==> LevelGroup(m, l) == []
    requires forall b :: 0 <= b < |levelOrder| ==> XPlaced(m, m2, viewportWidth, levelOrder[b])
    ensures forall l :: XPlaced(m, m2, viewportWidth, l)
  {
    forall l ensures XPlaced(m, m2, viewportWidth, l) {
      if l in groups {
        var b :| 0 <= b < |levelOrder| && levelOrder[b] == l;
      }
    }
  }

  /** Changing x alone regroups nothing: both maps have the same rows. */
  lemma LevelGroupSameButX(m: LayoutMap, m2: LayoutMap, l: nat)
    requires m.Valid() && SameButX(m, m2)
    ensures LevelGroup(m2, l) == LevelGroup(m, l)
  {
    FilterAgree(m.keys, AtLevel(m.entries, l), AtLevel(m2.entries, l));
  }

  /** Every row of `m` is packed from its start x in steps of 250, in map order. */
  ghost predicate RowsPacked(m: LayoutMap, viewportWidth: int) {
    forall l :: XPlaced(m, m, viewportWidth, l)
  }

  /** The result of `calculateXPositions` is packed on its own terms. */
  lemma CalculatedRowsPacked(m: LayoutMap, m2: LayoutMap, viewportWidth: int)
    requires m.Valid() && SameButX(m, m2)
    requires forall l :: XPlaced(m, m2, viewportWidth, l)
    ensures RowsPacked(m2, viewportWidth)
  {
    forall l ensures XPlaced(m2, m2, viewportWidth, l) {
      LevelGroupSameButX(m, m2, l);
      assert XPlaced(m, m2, viewportWidth, l);
    }
  }

  /** The position of a node within its level's group. */
  lemma GroupPosition(m: LayoutMap, k: string) returns (i: nat)
    requires m.Valid() && k in m.entries
    ensures var g := LevelGroup(m, m.entries[k].level); i < |g| && g[i] == k
  {
    var g := LevelGroup(m, m.entries[k].level);
    assert k in m.keys;
    i :| 0 <= i < |g| && g[i] == k;
  }

  /** After `calculateXPositions` no node starts left of x = 100. */
  lemma XPositionsAtLeast100(m: LayoutMap, m2: LayoutMap, viewportWidth: int)
    requires m.Valid() && SameButX(m, m2)
    requires forall l :: XPlaced(m, m2, viewportWidth, l)
    ensures forall k :: k in m2.entries ==> m2.entries[k].x >= 100.0
  {
    forall k | k in m2.entries ensures m2.entries[k].x >= 100.0 {
      var i := GroupPosition(m, k);
      assert XPlaced(m, m2, viewportWidth, m.entries[k].level);
    }
  }

  /** After `calculateXPositions` two nodes of the same level stand at least one node width
      apart, so no two nodes of a row overlap. */
  lemma XPositionsSeparated(m: LayoutMap, m2: LayoutMap, viewportWidth: int, k1: string, k2: string)
    requires m.Valid() && SameButX(m, m2)
    requires forall l :: XPlaced(m, m2, viewportWidth, l)
    requires k1 in m2.entries && k2 in m2.entries && k1 != k2
    requires m2.entries[k1].level == m2.entries[k2].level
    ensures m2.entries[k1].x - m2.entries[k2].x >= NodeWidth as real
         || m2.entries[k2].x - m2.entries[k1].x >= NodeWidth as real
  {
    var l := m.entries[k1].level;
    var i1 := GroupPosition(m, k1);
    var i2 := GroupPosition(m, k2);
    assert XPlaced(m, m2, viewportWidth, l);
    assert i1 != i2;
  }

  // ---------------------------------------------------------------------------
  // getViewportFit

  datatype Viewport = Viewport(x: real, y: real, zoom: real)

  /** The position of a smallest element: `s[ArgMin(s)]` is `Math.min(...s)`. */
  function ArgMin(s: seq<real>): (i: nat)
    requires s != []
    ensures i < |s|
    ensures forall k :: 0 <= k < |s| ==> s[i] <= s[k]
  {
    if |s| == 1 then 0
    else
      var rest := 1 + ArgMin(s[1..]);
      assert forall k :: 1 <= k < |s| ==> s[k] == s[1..][k - 1];
      if s[0] <= s[rest] then 0 else rest
  }

  /** The position of a largest element: `s[ArgMax(s)]` is `Math.max(...s)`. */
  function ArgMax(s: seq<real>): (i: nat)
    requires s != []
    ensures i < |s|
    ensures forall k :: 0 <= k < |s| ==> s[k] <= s[i]
  {
    if |s| == 1 then 0
    else
      var rest := 1 + ArgMax(s[1..]);
      assert forall k :: 1 <= k < |s| ==> s[k] == s[1..][k - 1];
      if s[0] >= s[rest] then 0 else rest
  }

  function Xs(m: LayoutMap): (xs: seq<real>)
    requires m.Valid()
    ensures |xs| == |m.keys| && forall i :: 0 <= i < |xs| ==> xs[i] == m.entries[m.keys[i]].x
  {
    seq(|m.keys|, i requires 0 <= i < |m.keys| && m.keys[i] in m.entries => m.entries[m.keys[i]].x)
  }

  function Ys(m: LayoutMap): (ys: seq<real>)
    requires m.Valid()
    ensures |ys| == |m.keys| && forall i :: 0 <= i < |ys| ==> ys[i] == m.entries[m.keys[i]].y as real
  {
    seq(|m.keys|, i requires 0 <= i < |m.keys| && m.keys[i] in m.entries => m.entries[m.keys[i]].y as real)
  }

  /** `getViewportFit(layoutMap)`: the centre of the bounding box of all nodes at zoom 0.8,
      or the origin at zoom 1 for an empty map. */
  function ViewportFit(m: LayoutMap): (v: Viewport)
    requires m.Valid()
    ensures m.keys == [] ==> v == Viewport(0.0, 0.0, 1.0)
    ensures m.keys != [] ==> v.zoom == 0.8
  {
    if m.keys == [] then Viewport(0.0, 0.0, 1.0)
    else
      var xs, ys := Xs(m), Ys(m);
      Viewport((xs[ArgMin(xs)] + xs[ArgMax(xs)]) / 2.0, (ys[ArgMin(ys)] + ys[ArgMax(ys)]) / 2.0, 0.8)
  }

  /** Every entry of a valid map sits at some position of its key list. */
  lemma KeyPosition(m: LayoutMap, k: string) returns (n: nat)
    requires m.Valid() && k in m.entries
    ensures n < |m.keys| && m.keys[n] == k
  {
    n :| 0 <= n < |m.keys| && m.keys[n] == k;
  }

  /** `a` is a leftmost and `b` a rightmost node. */
  ghost predicate XExtremes(m: LayoutMap, a: string, b: string) {
    a in m.entries && b in m.entries
    && forall k :: k in m.entries ==> m.entries[a].x <= m.entries[k].x <= m.entries[b].x
  }

  /** `a` is a topmost and `b` a bottommost node. */
  ghost predicate YExtremes(m: LayoutMap, a: string, b: string) {
    a in m.entries && b in m.entries
    && forall k :: k in m.entries ==> m.entries[a].y <= m.entries[k].y <= m.entries[b].y
  }

  /** The viewport centre lies halfway between a leftmost and a rightmost node. */
  lemma ViewportCentredX(m: LayoutMap)
    requires m.Valid() && m.keys != []
    ensures exists a, b {:trigger XExtremes(m, a, b)} :: (XExtremes(m, a, b)
      && ViewportFit(m).x - m.entries[a].x == m.entries[b].x - ViewportFit(m).x)
  {
    var xs := Xs(m);
    var i, j := ArgMin(xs), ArgMax(xs);
    var a, b := m.keys[i], m.keys[j];
    assert xs[i] == m.entries[a].x && xs[j] == m.entries[b].x;
    assert ViewportFit(m).x == (xs[i] + xs[j]) / 2.0;
    forall k | k in m.entries ensures m.entries[a].x <= m.entries[k].x <= m.entries[b].x {
      var n := KeyPosition(m, k);
      assert xs[n] == m.entries[k].x;
    }
    assert XExtremes(m, a, b);
  }

  /** The viewport centre lies halfway between a topmost and a bottommost node. */
  lemma ViewportCentredY(m: LayoutMap)
    requires m.Valid() && m.keys != []
    ensures exists a, b {:trigger YExtremes(m, a, b)} :: (YExtremes(m, a, b)
      && ViewportFit(m).y - m.entries[a].y as real == m.entries[b].y as real - ViewportFit(m).y)
  {
    var ys := Ys(m);
    var i, j := ArgMin(ys), ArgMax(ys);
    var a, b := m.keys[i], m.keys[j];
    assert ys[i] == m.entries[a].y as real && ys[j] == m.entries[b].y as real;
    assert ViewportFit(m).y == (ys[i] + ys[j]) / 2.0;
    forall k | k in m.entries ensures m.entries[a].y <= m.entries[k].y <= m.entries[b].y {
      var n := KeyPosition(m, k);
      assert ys[n] == m.entries[k].y as real;
    }
    assert YExtremes(m, a, b);
  }
}
