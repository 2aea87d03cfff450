/**
 * The two halves of `NodeDrawingComponent.circleDoubleClick` in
 * Scripts/app.js over plain values: closing a node (its index and offsets
 * reset before `removeOpenNodes`) and opening one (its horizontal offset, the
 * push on its owner's open list, and the re-indexing of that list).
 */
module Opening {
  import opened Wrappers
  import opened Data
  import opened Entities
  import opened Hierarchy
  import opened Loading
  import opened Closing
  import opened StateInvariant

  /** `openNodeIndex = -1; offsetX = 0; offsetY = 0`. */
  function Closed(n: NodeState): (r: NodeState)
    ensures !IsOpen(r)
  {
    n.(openNodeIndex := -1, offsetX := 0.0, offsetY := 0.0)
  }

  /** The open list node `i` belongs on: its parent's, or the top-level list. */
  function OwnerList(nodes: seq<NodeState>, top: seq<nat>, i: nat): seq<nat>
    requires i < |nodes|
  {
    if nodes[i].parent.Some? && nodes[i].parent.value < |nodes| then nodes[nodes[i].parent.value].openNodes else top
  }

  /** `width / 2^layer - x`: the horizontal offset an opened node takes. */
  function OpenOffsetX(n: NodeState, width: real): real
  {
    width / (Pow2(n.layer) as real) - n.x
  }

  /** `openNodeIndex * height / 2^(layer - 1) / openNodes.length - y`: the vertical offset of entry `index` of a list of `count`. */
  function OpenOffsetY(n: NodeState, index: nat, count: nat, height: real): real
    requires 1 <= n.layer && 0 < count
  {
    (index as real) * height / (Pow2(n.layer - 1) as real) / (count as real) - n.y
  }

  /**
   * The arena after `node.offsetX = ...` and `openNodes.push(node)` on node
   * `i`: `list` is the owner's list with `i` pushed; it replaces the parent's
   * open list (the top-level list is a separate variable).
   */
  function Pushed(nodes: seq<NodeState>, i: nat, list: seq<nat>, width: real): (r: seq<NodeState>)
    requires i < |nodes|
    ensures |r| == |nodes|
  {
    var ns := nodes[i := nodes[i].(offsetX := OpenOffsetX(nodes[i], width))];
    if nodes[i].parent.Some? && nodes[i].parent.value < |nodes| then
      var p := nodes[i].parent.value;
      ns[p := ns[p].(openNodes := list)]
    else
      ns
  }

  /** `b` is `a` after the `openNodes.forEach` that numbers the entries of `list` and sets their vertical offsets. */
  ghost predicate Reindexed(a: seq<NodeState>, b: seq<NodeState>, list: seq<nat>, height: real)
  {
    && |b| == |a|
    && (forall k :: 0 <= k < |list| ==> list[k] < |a| && 1 <= a[list[k]].layer)
    && (forall k :: 0 <= k < |list| ==>
          b[list[k]] == a[list[k]].(openNodeIndex := k, offsetY := OpenOffsetY(a[list[k]], k, |list|, height)))
    && (forall n :: 0 <= n < |a| && n !in list ==> b[n] == a[n])
  }

  /** The `openNodes.forEach((ondc, index) => ...)` of `circleDoubleClick`. */
  method Reindex(nodes: seq<NodeState>, list: seq<nat>, height: real) returns (r: seq<NodeState>)
    requires Distinct(list)
    requires forall k :: 0 <= k < |list| ==> list[k] < |nodes| && 1 <= nodes[list[k]].layer
    ensures Reindexed(nodes, r, list, height)
  {
    r := nodes;
    for k := 0 to |list|
      invariant |r| == |nodes|
      invariant forall j :: 0 <= j < k ==>
                  r[list[j]] == nodes[list[j]].(openNodeIndex := j, offsetY := OpenOffsetY(nodes[list[j]], j, |list|, height))
      invariant forall n :: 0 <= n < |nodes| && n !in list[..k] ==> r[n] == nodes[n]
    {
      var n := list[k];
      assert n !in list[..k];
      var node := r[n].(openNodeIndex := k);
      node := node.(offsetY := OpenOffsetY(node, node.openNodeIndex, |list|, height));
      r := r[n := node];
      assert list[..k + 1] == list[..k] + [n];
    }
    assert list[..|list|] == list;
  }

  /** Changing fields other than names, layers, parents and open lists keeps the structural invariant. */
  lemma ListsKeepCore(data: GraphData, bare: seq<RawEdge>, a: seq<NodeState>, b: seq<NodeState>, top: seq<nat>,
                      parts: map<string, GraphPart>, crossLinks: map<nat, seq<Link>>, crossNodes: map<nat, seq<nat>>,
                      selected: Option<nat>, neighbours: seq<nat>, activated: bool)
    requires CoreState(data, bare, a, top, parts, crossLinks, crossNodes, selected, neighbours, activated)
    requires SameShape(a, b) && forall n :: 0 <= n < |a| ==> b[n].openNodes == a[n].openNodes
    ensures CoreState(data, bare, b, top, parts, crossLinks, crossNodes, selected, neighbours, activated)
  {
    var N := data.numberOfLayers;
    forall n | 0 <= n < |b| ensures ParentOk(b, n, N) && OpenListOk(b, b[n].openNodes, Some(n), N) {
      assert ParentOk(a, n, N);
      ShapeKeepsOpenListOk(a, b, a[n].openNodes, Some(n), N);
    }
    ShapeKeepsPartsOk(a, b, parts, N);
    ShapeKeepsOpenListOk(a, b, top, None, N);
  }

  /** Dropping a registry entry keeps the invariant. */
  lemma DropKeepsCore(data: GraphData, bare: seq<RawEdge>, a: seq<NodeState>, top: seq<nat>, parts: map<string, GraphPart>,
                      crossLinks: map<nat, seq<Link>>, crossNodes: map<nat, seq<nat>>, selected: Option<nat>, neighbours: seq<nat>,
                      activated: bool, name: string)
    requires CoreState(data, bare, a, top, parts, crossLinks, crossNodes, selected, neighbours, activated)
    ensures CoreState(data, bare, a, top, parts - {name}, crossLinks, crossNodes, selected, neighbours, activated)
  {
    PartsOkRemove(a, parts, {name}, data.numberOfLayers);
  }

  /** Filtering node `i` by name out of its parent's open list keeps the invariant and touches only that list. */
  lemma FilterOwnerKeepsCore(data: GraphData, bare: seq<RawEdge>, a: seq<NodeState>, top: seq<nat>, parts: map<string, GraphPart>,
                             crossLinks: map<nat, seq<Link>>, crossNodes: map<nat, seq<nat>>, selected: Option<nat>, neighbours: seq<nat>,
                             activated: bool, i: nat)
    requires CoreState(data, bare, a, top, parts, crossLinks, crossNodes, selected, neighbours, activated)
    requires i < |a| && a[i].parent.Some?
    ensures var p := a[i].parent.value;
      && p < |a|
      && var b := a[p := a[p].(openNodes := RemoveNamed(a, a[p].openNodes, a[i].name))];
      && CoreState(data, bare, b, top, parts, crossLinks, crossNodes, selected, neighbours, activated)
      && ClosedIn(a, b, [], a[i].parent) && OwnerFiltered(a, b, p, a[i].name)
  {
    var N := data.numberOfLayers;
    assert ParentOk(a, i, N);
    var p := a[i].parent.value;
    assert OpenListOk(a, a[p].openNodes, Some(p), N);
    var b := a[p := a[p].(openNodes := RemoveNamed(a, a[p].openNodes, a[i].name))];
    SublistsKeepNodesOk(a, b, N);
    ShapeKeepsPartsOk(a, b, parts, N);
    ShapeKeepsOpenListOk(a, b, top, None, N);
  }

  /** Filtering node `i` by name out of the top-level list keeps the invariant. */
  lemma FilterTopKeepsCore(data: GraphData, bare: seq<RawEdge>, a: seq<NodeState>, top: seq<nat>, parts: map<string, GraphPart>,
                           crossLinks: map<nat, seq<Link>>, crossNodes: map<nat, seq<nat>>, selected: Option<nat>, neighbours: seq<nat>,
                           activated: bool, i: nat)
    requires CoreState(data, bare, a, top, parts, crossLinks, crossNodes, selected, neighbours, activated) && i < |a|
    ensures CoreState(data, bare, a, RemoveNamed(a, top, a[i].name), parts, crossLinks, crossNodes, selected, neighbours, activated)
    ensures ClosedIn(a, a, [], None)
  {
    SublistKeepsOpenListOk(a, RemoveNamed(a, top, a[i].name), top, None, data.numberOfLayers);
  }

  /** What `ClosedIn` leaves alone: indices, maximized flags, and the lists of nodes outside the teardown and the owner. */
  lemma ClosedInKeeps(a: seq<NodeState>, b: seq<NodeState>, T: seq<nat>, owner: Option<nat>, n: nat)
    requires ClosedIn(a, b, T, owner) && n < |a|
    ensures b[n].openNodeIndex == a[n].openNodeIndex && b[n].isMaximized == a[n].isMaximized
    ensures n in T ==> b[n].openNodes == []
    ensures n !in T && Some(n) != owner ==> b[n].openNodes == a[n].openNodes
  {
  }

  /** After the close, the top-level list holds only open nodes. */
  lemma CloseTopListed(a0: seq<NodeState>, b: seq<NodeState>, N: nat, i: nat, T: seq<nat>, top0: seq<nat>, top: seq<nat>)
    requires OpenListOk(a0, top0, None, N) && ListedOpen(a0, top0) && i < |a0|
    requires ClosedIn(a0[i := Closed(a0[i])], b, T, a0[i].parent)
    requires top == if a0[i].parent.None? then RemoveNamed(a0[i := Closed(a0[i])], top0, a0[i].name) else top0
    ensures forall k :: 0 <= k < |top| && top[k] < |b| ==> IsOpen(b[top[k]])
  {
    var a := a0[i := Closed(a0[i])];
    forall k | 0 <= k < |top| && top[k] < |b| ensures IsOpen(b[top[k]]) {
      var e := top[k];
      assert e in top0;
      ClosedInKeeps(a, b, T, a0[i].parent, e);
      if a0[i].parent.None? {
        assert a[e].name != a[i].name;
      } else {
        assert a0[e].parent == None;
      }
    }
  }

  /** After the close, every node's open list holds only open nodes. */
  lemma CloseListsListed(a0: seq<NodeState>, b: seq<NodeState>, N: nat, i: nat, T: seq<nat>, top0: seq<nat>)
    requires NodesOk(a0, N) && ListedOpen(a0, top0) && i < |a0|
    requires ClosedIn(a0[i := Closed(a0[i])], b, T, a0[i].parent)
    requires a0[i].parent.Some? ==> a0[i].parent.value < |a0| && OwnerFiltered(a0[i := Closed(a0[i])], b, a0[i].parent.value, a0[i].name)
    ensures forall n, k :: 0 <= n < |b| && 0 <= k < |b[n].openNodes| && b[n].openNodes[k] < |b| ==> IsOpen(b[b[n].openNodes[k]])
  {
    var a := a0[i := Closed(a0[i])];
    var owner := a0[i].parent;
    forall n, k | 0 <= n < |b| && 0 <= k < |b[n].openNodes| && b[n].openNodes[k] < |b|
      ensures IsOpen(b[b[n].openNodes[k]])
    {
      var e := b[n].openNodes[k];
      ClosedInKeeps(a, b, T, owner, n);
      ClosedInKeeps(a, b, T, owner, e);
      assert OpenListOk(a0, a0[n].openNodes, Some(n), N);
      if Some(n) == owner {
        assert e in a0[n].openNodes && a[e].name != a[i].name;
      } else {
        assert e in a0[n].openNodes;
        assert a0[e].parent == Some(n);
      }
    }
  }

  /** After the close, the maximized node is still the only one and still open. */
  lemma CloseKeepsMax(a0: seq<NodeState>, b: seq<NodeState>, i: nat, T: seq<nat>, current: Option<nat>)
    requires MaxExclusive(a0, current) && i < |a0| && !a0[i].isMaximized
    requires ClosedIn(a0[i := Closed(a0[i])], b, T, a0[i].parent)
    ensures MaxExclusive(b, current)
  {
    forall n | 0 <= n < |b| ensures (b[n].isMaximized <==> current == Some(n)) && (b[n].isMaximized ==> IsOpen(b[n])) {
      ClosedInKeeps(a0[i := Closed(a0[i])], b, T, a0[i].parent, n);
    }
  }

  /** The state `circleDoubleClick` closes from: the invariant and a node that is not maximized. */
  ghost predicate CloseReady(a0: seq<NodeState>, top0: seq<nat>, current: Option<nat>, N: nat, i: nat)
  {
    && NodesOk(a0, N) && OpenListOk(a0, top0, None, N) && ListedOpen(a0, top0) && MaxExclusive(a0, current)
    && i < |a0| && !a0[i].isMaximized
  }

  /**
   * Closing an open node that is not maximized, then `removeOpenNodes` on it,
   * leaves every listed node open and the maximized node unique and open.
   */
  lemma CloseKeepsFlags(a0: seq<NodeState>, a: seq<NodeState>, b: seq<NodeState>, N: nat, i: nat, parts0: map<string, GraphPart>,
                        parts: map<string, GraphPart>, pending0: seq<string>, pending: seq<string>, top0: seq<nat>, top: seq<nat>,
                        current: Option<nat>)
    requires CloseReady(a0, top0, current, N, i) && a == a0[i := Closed(a0[i])]
    requires TeardownDone(a, b, N, i, parts0, parts, pending0, pending, top0, top)
    ensures ListedOpen(b, top) && MaxExclusive(b, current)
  {
    var t := Teardown(a, N, i);
    CloseTopListed(a0, b, N, i, t, top0, top);
    CloseListsListed(a0, b, N, i, t, top0);
    CloseKeepsMax(a0, b, i, t, current);
  }

  /** The node closed by `circleDoubleClick` is off its owner's list and its registry entry is gone. */
  lemma CloseRemovesNode(a0: seq<NodeState>, a: seq<NodeState>, b: seq<NodeState>, N: nat, i: nat, parts0: map<string, GraphPart>,
                         parts: map<string, GraphPart>, pending0: seq<string>, pending: seq<string>, top0: seq<nat>, top: seq<nat>)
    requires i < |a0| && a == a0[i := Closed(a0[i])] && TeardownDone(a, b, N, i, parts0, parts, pending0, pending, top0, top)
    ensures |b| == |a0| && !IsOpen(b[i]) && i !in OwnerList(b, top, i) && a0[i].name !in parts
  {
    var t := Teardown(a, N, i);
    assert i in t;
    ClosedInKeeps(a, b, t, a[i].parent, i);
    NameSetHas(a, t, i);
    if a[i].parent.Some? {
      var p := a[i].parent.value;
      ClosedInKeeps(a, b, t, a[i].parent, p);
      assert OwnerFiltered(a, b, p, a[i].name);
    }
  }

  /** The node `circleDoubleClick` closes ends with index -1, zero offsets and an empty open list, and nothing else about it changes. */
  lemma CloseResetsNode(a0: seq<NodeState>, a: seq<NodeState>, b: seq<NodeState>, N: nat, i: nat, parts0: map<string, GraphPart>,
                        parts: map<string, GraphPart>, pending0: seq<string>, pending: seq<string>, top0: seq<nat>, top: seq<nat>)
    requires i < |a0| && a == a0[i := Closed(a0[i])] && TeardownDone(a, b, N, i, parts0, parts, pending0, pending, top0, top)
    ensures |b| == |a0| && b[i] == Closed(a0[i]).(openNodes := [])
  {
    var t := Teardown(a, N, i);
    assert i in t;
  }

  /**
   * Node `i` of arena `a0` closed and torn down: `b` is `a0` with `i` reset
   * and everything open below it closed, `i` leaves its owner's list
   * (`top0` becomes `top`), the parts inside the closed nodes leave the
   * registry and their names leave the pending list.
   */
  ghost predicate ClosedWith(a0: seq<NodeState>, top0: seq<nat>, parts0: map<string, GraphPart>, pending0: seq<string>,
                             b: seq<NodeState>, top: seq<nat>, parts: map<string, GraphPart>, pending: seq<string>, i: nat, N: nat)
    requires i < |a0|
  {
    && TeardownDone(a0[i := Closed(a0[i])], b, N, i, parts0, parts, pending0, pending, top0, top)
    && |b| == |a0| && b[i] == Closed(a0[i]).(openNodes := [])
    && i !in OwnerList(b, top, i) && a0[i].name !in parts
  }

  /** `ClosedWith` read with equal lists and registry. */
  lemma ClosedUnder(a0: seq<NodeState>, top0: seq<nat>, parts0: map<string, GraphPart>, pending0: seq<string>, b: seq<NodeState>,
                    top: seq<nat>, parts: map<string, GraphPart>, pending: seq<string>,
                    top': seq<nat>, parts': map<string, GraphPart>, pending': seq<string>, i: nat, N: nat)
    requires i < |a0| && ClosedWith(a0, top0, parts0, pending0, b, top, parts, pending, i, N)
    requires top' == top && parts' == parts && pending' == pending
    ensures ClosedWith(a0, top0, parts0, pending0, b, top', parts', pending', i, N)
  {
  }

  /** Everything the explorer needs to know after closing a node and tearing down what lay open below it. */
  lemma CloseOutcome(a0: seq<NodeState>, a: seq<NodeState>, b: seq<NodeState>, N: nat, i: nat, parts0: map<string, GraphPart>,
                     parts: map<string, GraphPart>, pending0: seq<string>, pending: seq<string>, top0: seq<nat>, top: seq<nat>,
                     current: Option<nat>)
    requires CloseReady(a0, top0, current, N, i) && a == a0[i := Closed(a0[i])]
    requires TeardownDone(a, b, N, i, parts0, parts, pending0, pending, top0, top)
    ensures ListedOpen(b, top) && MaxExclusive(b, current)
    ensures |b| == |a0| && !IsOpen(b[i]) && i !in OwnerList(b, top, i) && a0[i].name !in parts
  {
    CloseKeepsFlags(a0, a, b, N, i, parts0, parts, pending0, pending, top0, top, current);
    CloseRemovesNode(a0, a, b, N, i, parts0, parts, pending0, pending, top0, top);
  }

  /** What `Pushed` changes: one offset of `i` and the owner's open list. */
  lemma PushedShape(a: seq<NodeState>, i: nat, list: seq<nat>, width: real)
    requires i < |a|
    ensures var b := Pushed(a, i, list, width);
      && SameShape(a, b)
      && forall n :: 0 <= n < |a| ==>
           && b[n].openNodeIndex == a[n].openNodeIndex && b[n].isMaximized == a[n].isMaximized
           && b[n].openNodes == (if a[i].parent == Some(n) then list else a[n].openNodes)
  {
  }

  /** The owner's list with `i` appended is a valid open list when `i` is closed, can open, and the list has room. */
  lemma PushListOk(a0: seq<NodeState>, top0: seq<nat>, N: nat, i: nat)
    requires NodesOk(a0, N) && OpenListOk(a0, top0, None, N) && ListedOpen(a0, top0)
    requires i < |a0| && !IsOpen(a0[i]) && a0[i].layer < N && |OwnerList(a0, top0, i)| < MaxOpenNodes
    ensures OpenListOk(a0, OwnerList(a0, top0, i) + [i], a0[i].parent, N)
  {
    var owner := a0[i].parent;
    var old0 := OwnerList(a0, top0, i);
    assert ParentOk(a0, i, N);
    assert OpenListOk(a0, old0, owner, N) by {
      if owner.Some? {
        assert OpenListOk(a0, a0[owner.value].openNodes, owner, N);
      }
    }
    forall k | 0 <= k < |old0| ensures old0[k] != i {
      assert IsOpen(a0[old0[k]]);
    }
  }

  /** Replacing one node's open list by another valid list for that owner keeps the nodes well formed. */
  lemma ReplaceListKeepsNodesOk(a: seq<NodeState>, b: seq<NodeState>, owner: Option<nat>, list: seq<nat>, N: nat)
    requires NodesOk(a, N) && SameShape(a, b) && OpenListOk(a, list, owner, N)
    requires forall n :: 0 <= n < |a| ==> b[n].openNodes == (if owner == Some(n) then list else a[n].openNodes)
    ensures NodesOk(b, N)
  {
    forall n | 0 <= n < |b| ensures ParentOk(b, n, N) && OpenListOk(b, b[n].openNodes, Some(n), N) {
      assert ParentOk(a, n, N);
      if owner == Some(n) {
        ShapeKeepsOpenListOk(a, b, list, Some(n), N);
      } else {
        ShapeKeepsOpenListOk(a, b, a[n].openNodes, Some(n), N);
      }
    }
  }

  /**
   * Pushing a closed node that can still be opened on a list with room
   * keeps the structural invariant, the owner's new list included.
   */
  lemma PushKeepsCore(data: GraphData, bare: seq<RawEdge>, a0: seq<NodeState>, top0: seq<nat>, parts: map<string, GraphPart>,
                      crossLinks: map<nat, seq<Link>>, crossNodes: map<nat, seq<nat>>, selected: Option<nat>, neighbours: seq<nat>,
                      activated: bool, i: nat, width: real)
    requires CoreState(data, bare, a0, top0, parts, crossLinks, crossNodes, selected, neighbours, activated) && ListedOpen(a0, top0)
    requires i < |a0| && !IsOpen(a0[i]) && a0[i].layer < data.numberOfLayers && |OwnerList(a0, top0, i)| < MaxOpenNodes
    ensures var list := OwnerList(a0, top0, i) + [i];
      var b := Pushed(a0, i, list, width);
      && CoreState(data, bare, b, if a0[i].parent.None? then list else top0, parts, crossLinks, crossNodes, selected, neighbours, activated)
      && Distinct(list) && forall k :: 0 <= k < |list| ==> list[k] < |b| && 1 <= b[list[k]].layer
  {
    var N := data.numberOfLayers;
    var list := OwnerList(a0, top0, i) + [i];
    var b := Pushed(a0, i, list, width);
    PushListOk(a0, top0, N, i);
    PushedShape(a0, i, list, width);
    ReplaceListKeepsNodesOk(a0, b, a0[i].parent, list, N);
    ShapeKeepsPartsOk(a0, b, parts, N);
    ShapeKeepsOpenListOk(a0, b, top0, None, N);
    ShapeKeepsOpenListOk(a0, b, list, a0[i].parent, N);
    forall k | 0 <= k < |list| ensures list[k] < |b| && 1 <= b[list[k]].layer {
      assert ParentOk(b, list[k], N);
    }
  }

  /** Re-indexing changes no name, layer, parent, open list or maximized flag, and leaves every listed node open. */
  lemma ReindexedShape(a: seq<NodeState>, b: seq<NodeState>, list: seq<nat>, height: real)
    requires Reindexed(a, b, list, height)
    ensures SameShape(a, b)
    ensures forall n :: 0 <= n < |a| ==> b[n].openNodes == a[n].openNodes && b[n].isMaximized == a[n].isMaximized
    ensures forall n :: 0 <= n < |a| ==> (IsOpen(a[n]) ==> IsOpen(b[n])) && (n in list ==> IsOpen(b[n]))
  {
    forall n | 0 <= n < |a|
      ensures b[n].name == a[n].name && b[n].layer == a[n].layer && b[n].parent == a[n].parent
      ensures b[n].openNodes == a[n].openNodes && b[n].isMaximized == a[n].isMaximized
      ensures (IsOpen(a[n]) ==> IsOpen(b[n])) && (n in list ==> IsOpen(b[n]))
    {
      if n in list {
        var k :| 0 <= k < |list| && list[k] == n;
      }
    }
  }

  /** After the open, the top-level list holds only open nodes. */
  lemma OpenTopListed(a0: seq<NodeState>, top0: seq<nat>, i: nat, list: seq<nat>, b: seq<NodeState>)
    requires ListedOpen(a0, top0) && i < |a0| && |b| == |a0|
    requires forall n :: 0 <= n < |a0| ==> (IsOpen(a0[n]) ==> IsOpen(b[n])) && (n in list ==> IsOpen(b[n]))
    ensures var top := if a0[i].parent.None? then list else top0;
      forall k :: 0 <= k < |top| && top[k] < |b| ==> IsOpen(b[top[k]])
  {
    var top := if a0[i].parent.None? then list else top0;
    forall k | 0 <= k < |top| && top[k] < |b| ensures IsOpen(b[top[k]]) {
      if a0[i].parent.None? {
        assert top[k] in list;
      } else {
        assert IsOpen(a0[top[k]]);
      }
    }
  }

  /** After the open, every node's open list holds only open nodes. */
  lemma OpenListsListed(a0: seq<NodeState>, top0: seq<nat>, i: nat, list: seq<nat>, b: seq<NodeState>)
    requires ListedOpen(a0, top0) && i < |a0| && |b| == |a0|
    requires forall n :: 0 <= n < |a0| ==> (IsOpen(a0[n]) ==> IsOpen(b[n])) && (n in list ==> IsOpen(b[n]))
    requires forall n :: 0 <= n < |a0| ==> b[n].openNodes == (if a0[i].parent == Some(n) then list else a0[n].openNodes)
    ensures forall n, k :: 0 <= n < |b| && 0 <= k < |b[n].openNodes| && b[n].openNodes[k] < |b| ==> IsOpen(b[b[n].openNodes[k]])
  {
    forall n, k | 0 <= n < |b| && 0 <= k < |b[n].openNodes| && b[n].openNodes[k] < |b|
      ensures IsOpen(b[b[n].openNodes[k]])
    {
      var e := b[n].openNodes[k];
      if a0[i].parent == Some(n) {
        assert e in list;
      } else {
        assert e == a0[n].openNodes[k];
        assert IsOpen(a0[e]);
      }
    }
  }

  /** Opening only ever turns nodes open, so the maximized node stays unique and open. */
  lemma OpenKeepsMax(a0: seq<NodeState>, b: seq<NodeState>, current: Option<nat>)
    requires MaxExclusive(a0, current) && |b| == |a0|
    requires forall n :: 0 <= n < |a0| ==> (IsOpen(a0[n]) ==> IsOpen(b[n])) && b[n].isMaximized == a0[n].isMaximized
    ensures MaxExclusive(b, current)
  {
  }

  /** Opening changes no open list but the owner's, no maximized flag, and closes no node. */
  lemma OpenedArena(a0: seq<NodeState>, top0: seq<nat>, i: nat, width: real, height: real, b: seq<NodeState>)
    requires i < |a0|
    requires Reindexed(Pushed(a0, i, OwnerList(a0, top0, i) + [i], width), b, OwnerList(a0, top0, i) + [i], height)
    ensures var list := OwnerList(a0, top0, i) + [i];
      && |b| == |a0|
      && (forall n :: 0 <= n < |a0| ==> (IsOpen(a0[n]) ==> IsOpen(b[n])) && (n in list ==> IsOpen(b[n])))
      && (forall n :: 0 <= n < |a0| ==> b[n].isMaximized == a0[n].isMaximized)
      && (forall n :: 0 <= n < |a0| ==> b[n].openNodes == (if a0[i].parent == Some(n) then list else a0[n].openNodes))
  {
    var list := OwnerList(a0, top0, i) + [i];
    var p := Pushed(a0, i, list, width);
    PushedShape(a0, i, list, width);
    ReindexedShape(p, b, list, height);
  }

  /**
   * Opening a node and re-indexing its owner's list leaves every listed node
   * open and the maximized node unique and open.
   */
  lemma OpenKeepsFlags(a0: seq<NodeState>, top0: seq<nat>, i: nat, width: real, height: real, b: seq<NodeState>, current: Option<nat>)
    requires ListedOpen(a0, top0) && MaxExclusive(a0, current) && i < |a0|
    requires Reindexed(Pushed(a0, i, OwnerList(a0, top0, i) + [i], width), b, OwnerList(a0, top0, i) + [i], height)
    ensures var list := OwnerList(a0, top0, i) + [i];
      ListedOpen(b, if a0[i].parent.None? then list else top0) && MaxExclusive(b, current)
  {
    var list := OwnerList(a0, top0, i) + [i];
    OpenedArena(a0, top0, i, width, height, b);
    OpenTopListed(a0, top0, i, list, b);
    OpenListsListed(a0, top0, i, list, b);
    OpenKeepsMax(a0, b, current);
  }

  /**
   * After the open, the node sits last on its owner's list, open at the last
   * index, with the horizontal offset of its layer.
   */
  lemma OpenAppends(a0: seq<NodeState>, top0: seq<nat>, i: nat, width: real, height: real, b: seq<NodeState>)
    requires i < |a0| && (a0[i].parent.Some? ==> a0[i].parent.value < |a0|)
    requires Reindexed(Pushed(a0, i, OwnerList(a0, top0, i) + [i], width), b, OwnerList(a0, top0, i) + [i], height)
    ensures var list := OwnerList(a0, top0, i) + [i];
      && OwnerList(b, if a0[i].parent.None? then list else top0, i) == list
      && IsOpen(b[i]) && b[i].openNodeIndex == |list| - 1 && b[i].offsetX == OpenOffsetX(a0[i], width)
      && b[i].name == a0[i].name && b[i].layer == a0[i].layer && b[i].parent == a0[i].parent
  {
    var list := OwnerList(a0, top0, i) + [i];
    var p := Pushed(a0, i, list, width);
    PushedShape(a0, i, list, width);
    ReindexedShape(p, b, list, height);
    assert list[|list| - 1] == i;
  }

  /** Appending nodes to the arena leaves the owner list of an existing node alone. */
  lemma OwnerListPrefix(a: seq<NodeState>, b: seq<NodeState>, top: seq<nat>, i: nat)
    requires i < |a| <= |b| && b[..|a|] == a && (a[i].parent.Some? ==> a[i].parent.value < |a|)
    ensures OwnerList(b, top, i) == OwnerList(a, top, i)
  {
    assert b[i] == a[i];
    if a[i].parent.Some? {
      assert b[a[i].parent.value] == a[a[i].parent.value];
    }
  }

  /**
   * Opening `i` and then appending the nodes of its new part: `i` is last on
   * its owner's list and the part registered under its name sits one layer
   * below it.
   */
  lemma OpenInitOutcome(a0: seq<NodeState>, top0: seq<nat>, n1: seq<NodeState>, b: seq<NodeState>, top: seq<nat>,
                        parts: map<string, GraphPart>, i: nat, width: real, height: real)
    requires i < |a0| == |n1| <= |b| && (a0[i].parent.Some? ==> a0[i].parent.value < |a0|)
    requires Reindexed(Pushed(a0, i, OwnerList(a0, top0, i) + [i], width), n1, OwnerList(a0, top0, i) + [i], height)
    requires top == if a0[i].parent.None? then OwnerList(a0, top0, i) + [i] else top0
    requires b[..|n1|] == n1
    requires PartKey(n1, Some(i)) in parts && parts[PartKey(n1, Some(i))].layer == n1[i].layer + 1
             && parts[PartKey(n1, Some(i))].parent == Some(i)
    ensures OwnerList(b, top, i) == OwnerList(a0, top0, i) + [i]
    ensures IsOpen(b[i]) && b[i].openNodeIndex == |OwnerList(a0, top0, i)|
    ensures n1[i].name == a0[i].name && a0[i].name in parts && parts[a0[i].name].layer == a0[i].layer + 1
            && parts[a0[i].name].parent == Some(i)
  {
    OpenAppends(a0, top0, i, width, height, n1);
    OwnerListPrefix(n1, b, top, i);
    assert b[i] == n1[i];
  }

  /** A pass that changes only selection marks keeps node `i`'s open state, offsets, open list and owner list. */
  lemma MarksKeepNode(a: seq<NodeState>, b: seq<NodeState>, top: seq<nat>, i: nat)
    requires i < |a| && SameStructure(a, b)
    ensures |b| == |a| && IsOpen(b[i]) == IsOpen(a[i]) && b[i].openNodeIndex == a[i].openNodeIndex
    ensures b[i].offsetX == a[i].offsetX && b[i].offsetY == a[i].offsetY && b[i].openNodes == a[i].openNodes
    ensures OwnerList(b, top, i) == OwnerList(a, top, i)
  {
    assert b[i] == a[i].(relation := b[i].relation, selectedNodeNeighbourCount := b[i].selectedNodeNeighbourCount);
    StructureKeepsHierarchy(a, b);
    OwnerListShape(a, b, top, i);
  }

  /** Arenas with the same open lists give every node the same owner list. */
  lemma OwnerListShape(a: seq<NodeState>, b: seq<NodeState>, top: seq<nat>, i: nat)
    requires i < |a| && SameOpenLists(a, b)
    ensures OwnerList(b, top, i) == OwnerList(a, top, i)
  {
  }
}
