/**
 * The explorer state of Scripts/app.js: the module-level variables the click
 * handlers mutate (`graphParts`, `topLayerOpenNodeDrawingComponents`,
 * `currentMaximized`, the selection, `pendingLoadingOperations`, the
 * cross-connection caches) gathered in one object, with the `Node` objects
 * held in an arena the object owns.
 */
module Explorer {
  import opened Wrappers
  import opened Data
  import opened Entities
  import opened Aggregation
  import opened Projection
  import opened Hierarchy
  import opened Maximize
  import opened Loading
  import opened Closing
  import opened StateInvariant
  import opened Selection
  import opened Refresh
  import opened Opening

  /** `from, from + 1, ..., to - 1`. */
  function Range(from: nat, to: nat): (r: seq<nat>)
    requires from <= to
    ensures |r| == to - from && Distinct(r)
    ensures forall k :: 0 <= k < |r| ==> r[k] == from + k
  {
    seq(to - from, k requires 0 <= k < to - from => from + k)
  }

  /**
   * A part as the `GraphPart` constructor leaves it: on `layer` under
   * `parent`, over the nodes appended from index `first` on, with the
   * weighted links among them.
   */
  ghost predicate Built(part: GraphPart, ns: seq<NodeState>, first: nat, m: map<string, seq<string>>, edges: seq<RawEdge>, layer: nat,
                        parent: Option<nat>)
  {
    && part.layer == layer && part.parent == parent
    && first <= |ns| && part.nodes == Range(first, |ns|)
    && 1 <= layer && EdgesMapped(m, edges, layer)
    && part.links == Aggregate(ProjectedLinks(ns, part.nodes, m, edges, layer))
  }

  /**
   * The registry `parts0` with the entry under `key` replaced by a part
   * `Built` over the nodes of `ns` from index `first` on.
   */
  ghost predicate Registered(parts0: map<string, GraphPart>, parts: map<string, GraphPart>, key: string, ns: seq<NodeState>, first: nat,
                             m: map<string, seq<string>>, edges: seq<RawEdge>, layer: nat, parent: Option<nat>)
  {
    && key in parts && parts == parts0[key := parts[key]]
    && Built(parts[key], ns, first, m, edges, layer, parent)
  }

  /**
   * Node `i` of arena `a0` opened and the part inside it built: `b` begins
   * with `a0` where `i` is pushed on its owner's list and that list is
   * renumbered, the top-level list `top0` becomes `top`, the new part is
   * registered under the node's name over the appended nodes, and the name
   * joins the pending list.
   */
  ghost predicate OpenedWith(a0: seq<NodeState>, top0: seq<nat>, parts0: map<string, GraphPart>, pending0: seq<string>,
                             b: seq<NodeState>, top: seq<nat>, parts: map<string, GraphPart>, pending: seq<string>,
                             i: nat, width: real, height: real, m: map<string, seq<string>>, edges: seq<RawEdge>)
    requires i < |a0|
  {
    var list := OwnerList(a0, top0, i) + [i];
    var name := a0[i].name;
    && |a0| <= |b|
    && top == (if a0[i].parent.None? then list else top0)
    && Reindexed(Pushed(a0, i, list, width), b[..|a0|], list, height)
    && Registered(parts0, parts, name, b, |a0|, m, edges, a0[i].layer + 1, Some(i))
    && pending == pending0 + [name]
  }

  /** Opening `i` of `a0` into `n1`, then `initGraphPart` under it into `b`, is `OpenedWith`. */
  lemma InitOpened(a0: seq<NodeState>, top0: seq<nat>, n1: seq<NodeState>, parts0: map<string, GraphPart>, pending0: seq<string>,
                   b: seq<NodeState>, top: seq<nat>, parts: map<string, GraphPart>, pending: seq<string>,
                   i: nat, width: real, height: real, m: map<string, seq<string>>, edges: seq<RawEdge>, key: string, layer: nat)
    requires i < |a0| == |n1| <= |b| && (a0[i].parent.Some? ==> a0[i].parent.value < |a0|)
    requires Reindexed(Pushed(a0, i, OwnerList(a0, top0, i) + [i], width), n1, OwnerList(a0, top0, i) + [i], height)
    requires top == if a0[i].parent.None? then OwnerList(a0, top0, i) + [i] else top0
    requires b[..|n1|] == n1 && key == PartKey(n1, Some(i)) && layer == n1[i].layer + 1
    requires Registered(parts0, parts, key, b, |n1|, m, edges, layer, Some(i))
    requires pending == pending0 + [n1[i].name]
    ensures OpenedWith(a0, top0, parts0, pending0, b, top, parts, pending, i, width, height, m, edges)
  {
    var list := OwnerList(a0, top0, i) + [i];
    OpenedPrefix(Pushed(a0, i, list, width), n1, b, list, height);
    OpenKeepsName(a0, top0, i, width, height, n1);
    RegisteredUnder(parts0, parts, key, a0[i].name, b, |n1|, |a0|, m, edges, layer, a0[i].layer + 1, Some(i));
  }

  /** `OpenedWith` read with equal lists and registry. */
  lemma OpenedUnder(a0: seq<NodeState>, top0: seq<nat>, parts0: map<string, GraphPart>, pending0: seq<string>,
                    b: seq<NodeState>, top: seq<nat>, parts: map<string, GraphPart>, pending: seq<string>,
                    top': seq<nat>, parts': map<string, GraphPart>, pending': seq<string>,
                    i: nat, width: real, height: real, m: map<string, seq<string>>, edges: seq<RawEdge>)
    requires i < |a0| && OpenedWith(a0, top0, parts0, pending0, b, top, parts, pending, i, width, height, m, edges)
    requires top' == top && parts' == parts && pending' == pending
    ensures OpenedWith(a0, top0, parts0, pending0, b, top', parts', pending', i, width, height, m, edges)
  {
  }

  /** `Registered` read with equal arguments. */
  lemma RegisteredUnder(parts0: map<string, GraphPart>, parts: map<string, GraphPart>, key: string, key': string, ns: seq<NodeState>,
                        first: nat, first': nat, m: map<string, seq<string>>, edges: seq<RawEdge>, layer: nat, layer': nat, parent: Option<nat>)
    requires Registered(parts0, parts, key, ns, first, m, edges, layer, parent) && key == key' && first == first' && layer == layer'
    ensures Registered(parts0, parts, key', ns, first', m, edges, layer', parent)
  {
  }

  /** `Reindexed` carries over to an arena that begins with the renumbered one. */
  lemma OpenedPrefix(p: seq<NodeState>, n1: seq<NodeState>, b: seq<NodeState>, list: seq<nat>, height: real)
    requires |n1| <= |b| && b[..|n1|] == n1 && Reindexed(p, n1, list, height)
    ensures Reindexed(p, b[..|n1|], list, height)
  {
  }

  /** Opening a node keeps its name and layer. */
  lemma OpenKeepsName(a0: seq<NodeState>, top0: seq<nat>, i: nat, width: real, height: real, b: seq<NodeState>)
    requires i < |a0| && (a0[i].parent.Some? ==> a0[i].parent.value < |a0|)
    requires Reindexed(Pushed(a0, i, OwnerList(a0, top0, i) + [i], width), b, OwnerList(a0, top0, i) + [i], height)
    ensures |b| == |a0| && b[i].name == a0[i].name && b[i].layer == a0[i].layer
  {
    OpenAppends(a0, top0, i, width, height, b);
  }

  /** After `OpenedWith`, node `i` is open and last on its owner's list. */
  lemma OpenedShape(a0: seq<NodeState>, top0: seq<nat>, parts0: map<string, GraphPart>, pending0: seq<string>,
                    b: seq<NodeState>, top: seq<nat>, parts: map<string, GraphPart>, pending: seq<string>,
                    i: nat, width: real, height: real, m: map<string, seq<string>>, edges: seq<RawEdge>)
    requires i < |a0| && (a0[i].parent.Some? ==> a0[i].parent.value < |a0|)
    requires OpenedWith(a0, top0, parts0, pending0, b, top, parts, pending, i, width, height, m, edges)
    ensures OwnerList(b, top, i) == OwnerList(a0, top0, i) + [i]
    ensures IsOpen(b[i]) && b[i].openNodeIndex == |OwnerList(a0, top0, i)|
  {
    var n1 := b[..|a0|];
    OpenAppends(a0, top0, i, width, height, n1);
    OwnerListPrefix(n1, b, top, i);
    assert b[i] == n1[i];
  }

  /**
   * `GraphPart.setActive(active)` on the part under `key`: its nodes take the
   * flag, every other node is untouched, and its links take the flag too.
   */
  ghost predicate PartActivated(ns0: seq<NodeState>, parts0: map<string, GraphPart>, ns: seq<NodeState>, parts: map<string, GraphPart>,
                                key: string, active: bool)
    requires key in parts0
  {
    && |ns| == |ns0|
    && (forall n :: 0 <= n < |ns| ==> ns[n] == if n in parts0[key].nodes then ns0[n].(isActive := active) else ns0[n])
    && parts == parts0[key := parts0[key].(links := SetLinksActive(parts0[key].links, active))]
  }

  /** `this.nodes.forEach(node => node.isActive = active)`. */
  method SetNodesActive(nodes: seq<NodeState>, members: seq<nat>, active: bool) returns (ns: seq<NodeState>)
    requires forall k :: 0 <= k < |members| ==> members[k] < |nodes|
    ensures |ns| == |nodes|
    ensures forall n :: 0 <= n < |ns| ==> ns[n] == if n in members then nodes[n].(isActive := active) else nodes[n]
  {
    ns := nodes;
    for k := 0 to |members|
      invariant |ns| == |nodes|
      invariant forall n :: 0 <= n < |ns| ==> ns[n] == if n in members[..k] then nodes[n].(isActive := active) else nodes[n]
    {
      var n := members[k];
      ns := ns[n := ns[n].(isActive := active)];
      assert members[..k + 1] == members[..k] + [n];
    }
    assert members[..|members|] == members;
  }

  /** The loop over an entry's nodes when the entry is at or above the toggled node's layer. */
  method FadeNodes(nodes: seq<NodeState>, members: seq<nat>, name: string, nowMax: bool, factor: nat, width: real, height: real)
    returns (ns: seq<NodeState>)
    requires forall k :: 0 <= k < |members| ==> members[k] < |nodes|
    requires Distinct(members)
    ensures |ns| == |nodes|
    ensures forall n :: 0 <= n < |ns| ==>
              ns[n] == if n in members then FadeNode(nodes[n], name, nowMax, factor, width, height) else nodes[n]
  {
    ns := nodes;
    for k := 0 to |members|
      invariant |ns| == |nodes|
      invariant forall n :: 0 <= n < |ns| ==>
                  ns[n] == if n in members[..k] then FadeNode(nodes[n], name, nowMax, factor, width, height) else nodes[n]
    {
      var n := members[k];
      assert n !in members[..k];
      var node := ns[n];
      if node.name != name {
        node := node.(isActive := !nowMax);
      }
      if IsOpen(node) {
        node := AdjustOffset(node, factor == 1, width, height);
      }
      ns := ns[n := node];
      assert members[..k + 1] == members[..k] + [n];
    }
    assert members[..|members|] == members;
  }

  class Explorer {
    /** The loaded dataset (`graphData`). */
    const data: GraphData
    /** `componentStructure.graph.width` / `height`. */
    const width: real
    const height: real

    /** Every `Node` ever created, by index. */
    var nodes: seq<NodeState>
    /** `graphParts`: the live sub-graphs, keyed by the parent's name or "top". */
    var graphParts: map<string, GraphPart>
    /** `topLayerOpenNodeDrawingComponents`: the open layer-1 nodes. */
    var topOpen: seq<nat>
    var currentMaximized: Option<nat>
    var selectedNode: Option<nat>
    var selectionActivated: bool
    var selectedNeighbours: seq<nat>
    /** `pendingLoadingOperations`. */
    var pending: seq<string>
    /** The time-filtered raw edges (`currentBareNodeLinks`). */
    var currentBareNodeLinks: seq<RawEdge>
    /** `currentCrossConnectionLinks` / `currentCrossConnectionNodes`, by layer. */
    var crossLinks: map<nat, seq<Link>>
    var crossNodes: map<nat, seq<nat>>

    /** The structural invariant (`CoreState`), for the arena `ns`. */
    ghost predicate CoreWith(ns: seq<NodeState>)
      reads this`currentBareNodeLinks, this`topOpen, this`graphParts, this`crossLinks, this`crossNodes, this`selectedNode, this`selectedNeighbours, this`selectionActivated
    {
      CoreState(data, currentBareNodeLinks, ns, topOpen, graphParts, crossLinks, crossNodes, selectedNode, selectedNeighbours, selectionActivated)
    }

    /** Every index the caches and the selection hold names a node of an arena of `size` nodes. */
    ghost predicate IndicesBelow(size: nat)
      reads this`crossLinks, this`crossNodes, this`selectedNode, this`selectedNeighbours
    {
      IndicesIn(crossLinks, crossNodes, selectedNode, selectedNeighbours, size)
    }

    /** The structural invariant, every listed node open, and at most one (open) node maximized. */
    ghost predicate ValidWith(ns: seq<NodeState>)
      reads this`currentBareNodeLinks, this`topOpen, this`graphParts, this`crossLinks, this`crossNodes, this`selectedNode, this`selectedNeighbours, this`selectionActivated, this`currentMaximized
    {
      CoreWith(ns) && ListedOpen(ns, topOpen) && MaxExclusive(ns, currentMaximized)
    }

    ghost predicate Core()
      reads this`nodes, this`currentBareNodeLinks, this`topOpen, this`graphParts, this`crossLinks, this`crossNodes, this`selectedNode, this`selectedNeighbours, this`selectionActivated
    {
      CoreWith(nodes)
    }

    ghost predicate Valid()
      reads this`nodes, this`currentBareNodeLinks, this`topOpen, this`graphParts, this`crossLinks, this`crossNodes, this`selectedNode, this`selectedNeighbours, this`selectionActivated, this`currentMaximized
    {
      ValidWith(nodes)
    }

    /** Changing only flags and positions keeps the invariant. */
    lemma StructureKeepsValid(b: seq<NodeState>)
      requires Valid() && SameHierarchy(nodes, b)
      ensures ValidWith(b)
    {
      StructureKeepsOk(nodes, b, graphParts, topOpen, currentMaximized, data.numberOfLayers);
    }

    /** An arena with the same open lists as a valid one, and an exclusive maximized pointer, is valid. */
    lemma RestoreValid(before: seq<NodeState>)
      requires CoreWith(before) && ListedOpen(before, topOpen) && SameOpenLists(before, nodes) && MaxExclusive(nodes, currentMaximized)
      ensures Valid()
    {
      OpenListsKeepOk(before, nodes, graphParts, topOpen, data.numberOfLayers);
    }

    /**
     * Loading the dataset and `Graph.initGraphPart(1)`: an empty arena, then
     * the root part over every raw edge.
     */
    constructor (graphData: GraphData, filtered: seq<RawEdge>, graphWidth: real, graphHeight: real)
      requires WellFormed(graphData) && EdgesMapped(graphData.nodeMapping, filtered, graphData.numberOfLayers)
      ensures Valid()
      ensures data == graphData && currentBareNodeLinks == filtered
      ensures graphParts.Keys == {TopKey} && Built(graphParts[TopKey], nodes, 0, data.nodeMapping, data.bareNodeLinks, 1, None)
      ensures topOpen == [] && pending == [] && currentMaximized.None? && !selectionActivated
      ensures crossLinks == map[] && crossNodes == map[] && selectedNode.None? && selectedNeighbours == []
    {
      data := graphData;
      width := graphWidth;
      height := graphHeight;
      nodes := [];
      graphParts := map[];
      topOpen := [];
      currentMaximized := None;
      selectedNode := None;
      selectionActivated := false;
      selectedNeighbours := [];
      pending := [];
      currentBareNodeLinks := filtered;
      crossLinks := map[];
      crossNodes := map[];
      new;
      assert NodesOk(nodes, data.numberOfLayers) && PartsOk(nodes, graphParts, data.numberOfLayers);
      assert OpenListOk(nodes, topOpen, None, data.numberOfLayers) && IndicesBelow(0);
      assert CoreWith(nodes);
      assert ListedOpen(nodes, topOpen) && MaxExclusive(nodes, currentMaximized);
      InitGraphPart(1, None);
    }

    /** `LoadingAnimation.create(node)`: a part inside `node` starts loading. */
    method LoadingCreate(node: Option<nat>)
      requires node.Some? ==> node.value < |nodes|
      modifies this`pending
      ensures pending == old(pending) + if node.Some? then [nodes[node.value].name] else []
      ensures node.Some? ==> multiset(pending) == old(multiset(pending)) + multiset{nodes[node.value].name}
    {
      if node.Some? {
        pending := pending + [nodes[node.value].name];
      }
    }

    /** `LoadingAnimation.remove(node)`: the first pending entry with its name is dropped. */
    method LoadingRemove(node: Option<nat>)
      requires node.Some? ==> node.value < |nodes|
      modifies this`pending
      ensures node.None? ==> pending == old(pending)
      ensures node.Some? ==> pending == RemoveFirst(old(pending), nodes[node.value].name)
      ensures node.Some? ==> multiset(pending) == old(multiset(pending)) - multiset{nodes[node.value].name}
    {
      if node.Some? && nodes[node.value].name in pending {
        var at := IndexOf(pending, nodes[node.value].name);
        pending := pending[..at] + pending[at + 1..];
      }
      if node.Some? {
        RemoveFirstMultiset(old(pending), nodes[node.value].name);
      }
    }

    /**
     * The `new Node(...)` calls of `resolveBareNodes` followed by
     * `node.scale(parent.scaleFactor)` (a new node is closed, so scaling only
     * sets its factor): one node per name, appended to the arena.
     */
    method CreateNodes(names: seq<string>, layer: nat, parent: Option<nat>, scaleFactor: nat) returns (members: seq<nat>)
      requires Valid()
      requires 1 <= layer <= data.numberOfLayers && (parent.None? <==> layer == 1)
      requires parent.Some? ==> parent.value < |nodes| && nodes[parent.value].layer + 1 == layer
      modifies this`nodes
      ensures Valid()
      ensures nodes == old(nodes) + seq(|names|, k requires 0 <= k < |names| => NewNode(names[k], layer, parent).(scaleFactor := scaleFactor))
      ensures members == Range(old(|nodes|), |nodes|)
      ensures Names(nodes, members) == names
      ensures forall k :: 0 <= k < |members| ==> nodes[members[k]].layer == layer && nodes[members[k]].parent == parent
    {
      var first := |nodes|;
      var added := seq(|names|, k requires 0 <= k < |names| => NewNode(names[k], layer, parent).(scaleFactor := scaleFactor));
      AppendKeepsOk(nodes, added, graphParts, topOpen, data.numberOfLayers);
      AppendKeepsFlags(nodes, added, topOpen, currentMaximized, data.numberOfLayers);
      assert IndicesBelow(|nodes| + |added|);
      assert ValidWith(nodes + added);
      nodes := nodes + added;
      members := Range(first, |nodes|);
    }

    /**
     * The `GraphPart` constructor: the cluster's raw edges (all of them for the
     * root part), one new inactive node per distinct projected endpoint,
     * scaled like the parent, and the weighted links of all raw edges among
     * those nodes.
     */
    method NewGraphPart(layer: nat, parent: Option<nat>) returns (part: GraphPart)
      requires Valid()
      requires 1 <= layer <= data.numberOfLayers && (parent.None? <==> layer == 1)
      requires parent.Some? ==> parent.value < |nodes| && nodes[parent.value].layer + 1 == layer
      modifies this`nodes
      ensures Valid()
      ensures |nodes| >= old(|nodes|) && nodes[..old(|nodes|)] == old(nodes)
      ensures forall n :: old(|nodes|) <= n < |nodes| ==>
                nodes[n] == NewNode(nodes[n].name, layer, parent).(scaleFactor := if parent.Some? then old(nodes)[parent.value].scaleFactor else 1)
      ensures part.layer == layer && part.parent == parent && part.nodes == Range(old(|nodes|), |nodes|)
      ensures part.links == Aggregate(ProjectedLinks(nodes, part.nodes, data.nodeMapping, data.bareNodeLinks, layer))
      ensures PartOk(nodes, PartKey(nodes, parent), part, data.numberOfLayers)
      ensures Distinct(Names(nodes, part.nodes))
      ensures forall id :: id in Names(nodes, part.nodes) <==>
                IsEndpointId(data.nodeMapping, if parent.Some? then ClusterEdges(data.nodeMapping, data.bareNodeLinks, old(nodes)[parent.value].name, layer - 1) else data.bareNodeLinks, layer, id)
    {
      var m := data.nodeMapping;
      var links := data.bareNodeLinks;
      var scaleFactor := 1;
      if parent.Some? {
        links := ClusterEdges(m, links, nodes[parent.value].name, layer - 1);
        scaleFactor := nodes[parent.value].scaleFactor;
      }
      var names := ResolveBareNodes(m, links, layer);
      var members := CreateNodes(names, layer, parent, scaleFactor);
      var weighted := GetWeightedLinks(nodes, members, m, data.bareNodeLinks, layer);
      WeightedLinksWellFormed(nodes, members, m, data.bareNodeLinks, layer);
      NewPartOk(nodes, layer, parent, members, weighted, data.numberOfLayers);
      part := GraphPart(layer, parent, members, weighted);
    }

    /**
     * `Graph.initGraphPart(layer, parent)` up to the start of the layout: the
     * parent's name goes on the pending list and the new part replaces the
     * registry entry under its key. The part stays inactive until its layout
     * completes (`SetPartActive`).
     */
    method InitGraphPart(layer: nat, parent: Option<nat>)
      requires Valid()
      requires 1 <= layer <= data.numberOfLayers && (parent.None? <==> layer == 1)
      requires parent.Some? ==> parent.value < |nodes| && nodes[parent.value].layer + 1 == layer
      modifies this`nodes, this`graphParts, this`pending
      ensures Valid() && topOpen == old(topOpen)
      ensures pending == old(pending) + if parent.Some? then [old(nodes)[parent.value].name] else []
      ensures |nodes| >= old(|nodes|) && nodes[..old(|nodes|)] == old(nodes)
      ensures Registered(old(graphParts), graphParts, PartKey(old(nodes), parent), nodes, old(|nodes|), data.nodeMapping, data.bareNodeLinks,
                         layer, parent)
    {
      LoadingCreate(parent);
      var key := PartKey(nodes, parent);
      var part := BuildPart(layer, parent);
      CoreStateParts(data, currentBareNodeLinks, nodes, topOpen, graphParts, graphParts[key := part], crossLinks, crossNodes, selectedNode,
                     selectedNeighbours, selectionActivated);
      graphParts := graphParts[key := part];
    }

    /** `NewGraphPart`, with what registering the part under its key needs. */
    method BuildPart(layer: nat, parent: Option<nat>) returns (part: GraphPart)
      requires Valid()
      requires 1 <= layer <= data.numberOfLayers && (parent.None? <==> layer == 1)
      requires parent.Some? ==> parent.value < |nodes| && nodes[parent.value].layer + 1 == layer
      modifies this`nodes
      ensures Valid()
      ensures |nodes| >= old(|nodes|) && nodes[..old(|nodes|)] == old(nodes)
      ensures Built(part, nodes, old(|nodes|), data.nodeMapping, data.bareNodeLinks, layer, parent)
      ensures PartsOk(nodes, graphParts[PartKey(old(nodes), parent) := part], data.numberOfLayers)
    {
      var key := PartKey(nodes, parent);
      PartsOkInArena(nodes, graphParts, data.numberOfLayers);
      var first := |nodes|;
      part := NewGraphPart(layer, parent);
      assert parent.Some? ==> nodes[parent.value] == old(nodes)[parent.value];
      AddPartKeepsPartsOk(nodes, graphParts, key, part, first, data.numberOfLayers);
    }

    /**
     * `GraphPart.setActive(active)`: every node and link of the part takes
     * the flag; activating also ends the parent's loading entry.
     */
    method SetPartActive(key: string, active: bool)
      requires Valid() && key in graphParts
      modifies this`nodes, this`graphParts, this`pending
      ensures Valid() && PartActivated(old(nodes), old(graphParts), nodes, graphParts, key, active)
      ensures var parent := old(graphParts[key].parent);
        pending == if active && parent.Some? then RemoveFirst(old(pending), old(nodes)[parent.value].name) else old(pending)
    {
      var parent := graphParts[key].parent;
      assert parent.Some? ==> parent.value < |nodes| by {
        assert PartOk(nodes, key, graphParts[key], data.numberOfLayers);
      }
      // The loading entry and the flags are disjoint state, so ending the
      // entry first leaves the same result as the source's order.
      if active {
        LoadingRemove(parent);
      }
      ActivatePart(key, active);
    }

    /** The flags of `setActive`, on the part's nodes and links. */
    method ActivatePart(key: string, active: bool)
      requires Valid() && key in graphParts
      modifies this`nodes, this`graphParts
      ensures Valid() && PartActivated(old(nodes), old(graphParts), nodes, graphParts, key, active)
      ensures forall n :: 0 <= n < |nodes| ==> nodes[n].name == old(nodes[n].name)
    {
      var part := graphParts[key];
      assert PartOk(nodes, key, part, data.numberOfLayers);
      var ns := SetNodesActive(nodes, part.nodes, active);
      StructureKeepsValid(ns);
      nodes := ns;
      ReplaceLinksKeepsPartsOk(nodes, graphParts, key, SetLinksActive(part.links, active), data.numberOfLayers);
      graphParts := graphParts[key := part.(links := SetLinksActive(part.links, active))];
    }

    /**
     * `GraphPart.updateLinks`: the part's links recomputed from the
     * time-filtered raw edges, all active.
     */
    method UpdateLinks(key: string)
      requires Valid() && key in graphParts
      modifies this`graphParts
      ensures Valid()
      ensures graphParts == old(graphParts)[key := Relinked(nodes, data.nodeMapping, currentBareNodeLinks, old(graphParts[key]))]
    {
      var part := graphParts[key];
      assert PartOk(nodes, key, part, data.numberOfLayers);
      var weighted := GetWeightedLinks(nodes, part.nodes, data.nodeMapping, currentBareNodeLinks, part.layer);
      WeightedLinksWellFormed(nodes, part.nodes, data.nodeMapping, currentBareNodeLinks, part.layer);
      var links := SetLinksActive(weighted, true);
      ReplaceLinksKeepsPartsOk(nodes, graphParts, key, links, data.numberOfLayers);
      graphParts := graphParts[key := part.(links := links)];
    }

    /**
     * `Node.scale(factor)` on node `i`: its factor and, when it is open, that
     * of every node of the registry entry under its name, recursively, at
     * most `fuel` levels deep. `ok` is false when the walk met an open node
     * without an entry, where the source raises a `TypeError`.
     */
    method Scale(i: nat, factor: nat, fuel: nat) returns (ok: bool)
      requires PartsInArena(nodes, graphParts) && i < |nodes|
      modifies this`nodes
      ensures nodes == Rescaled(old(nodes), graphParts, i, factor, fuel)
      ensures ok == ScaleCompletes(old(nodes), graphParts, i, fuel)
    {
      ok := ScaleWalk(i, factor, fuel);
      RescaledIsScaledAt(old(nodes), graphParts, i, factor, fuel);
      ScaledAtUnique(old(nodes), nodes, Rescaled(old(nodes), graphParts, i, factor, fuel), ScaleReach(old(nodes), graphParts, i, fuel), factor);
    }

    /** The recursion of `Node.scale`: exactly the reached nodes get `factor`. */
    method ScaleWalk(i: nat, factor: nat, fuel: nat) returns (ok: bool)
      requires PartsInArena(nodes, graphParts) && i < |nodes|
      modifies this`nodes
      decreases fuel
      ensures ScaledAt(old(nodes), nodes, ScaleReach(old(nodes), graphParts, i, fuel), factor)
      ensures ok == ScaleCompletes(old(nodes), graphParts, i, fuel)
    {
      ghost var before := nodes;
      nodes := nodes[i := nodes[i].(scaleFactor := factor)];
      ok := true;
      if IsOpen(nodes[i]) && fuel > 0 {
        if nodes[i].name !in graphParts {
          ok := false;
          assert ScaleReach(before, graphParts, i, fuel) == {i};
        } else {
          var children := graphParts[nodes[i].name].nodes;
          ScaleOpens(before, graphParts, i, fuel);
          var k := 0;
          while k < |children| && ok
            invariant k <= |children|
            invariant ScaledAt(before, nodes, {i} + ScaleReachAll(before, graphParts, children[..k], fuel - 1), factor)
            invariant ok == ScaleCompletesAll(before, graphParts, children[..k], fuel - 1)
          {
            ScaledShape(before, nodes, graphParts, {i} + ScaleReachAll(before, graphParts, children[..k], fuel - 1), factor);
            ghost var mid := nodes;
            ok := ScaleWalk(children[k], factor, fuel - 1);
            ScaleStep(before, mid, nodes, graphParts, i, children, k, factor, fuel - 1);
            k := k + 1;
          }
          if k < |children| {
            ScaleStuck(before, graphParts, children, k, |children|, fuel - 1);
          }
          assert children[..|children|] == children;
        }
      } else {
        assert ScaleReach(before, graphParts, i, fuel) == {i};
      }
    }

    /**
     * One entry of the `graphParts.forEach` in `toggleMaximization`: the
     * nodes of the part under `key` faded (and shifted) as `FadeInPart` says;
     * for a deeper part the walk up from its parent finds the ancestor on the
     * toggled node's layer.
     */
    method FadePart(key: string, i: nat, nowMax: bool, factor: nat)
      requires ParentsOk(nodes, data.numberOfLayers) && PartsOk(nodes, graphParts, data.numberOfLayers)
      requires key in graphParts && i < |nodes|
      modifies this`nodes
      ensures |nodes| == old(|nodes|)
      ensures forall n :: 0 <= n < |nodes| ==>
                nodes[n] == if n in graphParts[key].nodes
                            then FadeInPart(old(nodes), data.numberOfLayers, graphParts[key], key, i, nowMax, factor, width, height, n)
                            else old(nodes[n])
    {
      var N := data.numberOfLayers;
      var part := graphParts[key];
      assert PartOk(nodes, key, part, N) && ParentOk(nodes, i, N);
      var ns := nodes;
      if part.layer <= nodes[i].layer {
        ns := FadeNodes(nodes, part.nodes, nodes[i].name, nowMax, factor, width, height);
      } else {
        var parent: nat := part.parent.value;
        while nodes[parent].layer != nodes[i].layer
          invariant parent < |nodes| && nodes[i].layer <= nodes[parent].layer
          invariant AncestorAt(nodes, N, parent, nodes[i].layer) == AncestorAt(nodes, N, part.parent.value, nodes[i].layer)
          decreases nodes[parent].layer
        {
          assert ParentOk(nodes, parent, N);
          parent := nodes[parent].parent.value;
        }
        if nodes[parent].name != nodes[i].name {
          ns := SetNodesActive(nodes, part.nodes, !nowMax);
        }
      }
      nodes := ns;
    }

    /** The `graphParts.forEach` of `toggleMaximization`, entry by entry. */
    method FadeParts(i: nat, nowMax: bool, factor: nat)
      requires ParentsOk(nodes, data.numberOfLayers) && PartsOk(nodes, graphParts, data.numberOfLayers) && i < |nodes|
      modifies this`nodes
      ensures nodes == Faded(old(nodes), graphParts, data.numberOfLayers, i, nowMax, factor, width, height)
    {
      ghost var before := nodes;
      var N := data.numberOfLayers;
      var keys := graphParts.Keys;
      ghost var done: set<string> := {};
      while keys != {}
        invariant keys !! done && keys + done == graphParts.Keys
        invariant SameShape(before, nodes)
        invariant FadedOn(before, nodes, graphParts, N, i, nowMax, factor, width, height, Covered(graphParts, done))
        decreases |keys|
      {
        var key :| key in keys;
        FadeKey(key, i, nowMax, factor, before, done);
        MoveKey(graphParts.Keys, keys, done, key);
        keys, done := keys - {key}, done + {key};
      }
      assert done == graphParts.Keys;
      FadedOnAll(before, nodes, graphParts, N, i, nowMax, factor, width, height);
    }

    /** One iteration of the `graphParts.forEach`: the entries of `key` join the faded ones. */
    method FadeKey(key: string, i: nat, nowMax: bool, factor: nat, ghost before: seq<NodeState>, ghost done: set<string>)
      requires ParentsOk(before, data.numberOfLayers) && PartsOk(before, graphParts, data.numberOfLayers)
      requires i < |before| && key in graphParts && key !in done && SameShape(before, nodes)
      requires FadedOn(before, nodes, graphParts, data.numberOfLayers, i, nowMax, factor, width, height, Covered(graphParts, done))
      modifies this`nodes
      ensures SameShape(before, nodes)
      ensures FadedOn(before, nodes, graphParts, data.numberOfLayers, i, nowMax, factor, width, height, Covered(graphParts, done + {key}))
    {
      var N := data.numberOfLayers;
      ghost var mid := nodes;
      ShapeKeepsParentsOk(before, mid, N);
      ShapeKeepsPartsOk(before, mid, graphParts, N);
      FadePart(key, i, nowMax, factor);
      FadeStep(before, mid, nodes, graphParts, N, i, nowMax, factor, width, height, done, key);
    }

    /**
     * The body of `toggleMaximization` after the pointer update: set the
     * flag, `scale(factor)`, then the `graphParts.forEach`, which a
     * `TypeError` from the scale walk (`ok` false) never reaches.
     */
    method ApplyToggle(i: nat, nowMax: bool, factor: nat) returns (ok: bool)
      requires ParentsOk(nodes, data.numberOfLayers) && PartsOk(nodes, graphParts, data.numberOfLayers) && i < |nodes|
      requires factor == MaxFactor(nodes[i].layer, nowMax)
      modifies this`nodes
      ensures PartsInArena(old(nodes), graphParts) && ok == ScaleCompletes(old(nodes), graphParts, i, data.numberOfLayers)
      ensures nodes == ToggleEffect(old(nodes), graphParts, data.numberOfLayers, i, nowMax, width, height)
    {
      var N := data.numberOfLayers;
      ghost var start := nodes;
      PartsOkInArena(start, graphParts, N);
      nodes := nodes[i := nodes[i].(isMaximized := nowMax)];
      ghost var flagged := nodes;
      assert SameShape(start, flagged) && SameOpenShape(start, flagged);
      ShapeKeepsParentsOk(start, flagged, N);
      ShapeKeepsPartsOk(start, flagged, graphParts, N);
      ScaleReachFrame(start, flagged, graphParts, i, N);
      ok := Scale(i, factor, N);
      RescaledIsScaledAt(flagged, graphParts, i, factor, N);
      assert SameShape(flagged, nodes);
      ShapeKeepsParentsOk(flagged, nodes, N);
      ShapeKeepsPartsOk(flagged, nodes, graphParts, N);
      if ok {
        FadeParts(i, nowMax, factor);
      }
    }

    /**
     * `Node.toggleMaximization`: on a closed node an `IllegalSateError` and no
     * change; otherwise un-maximize it, or un-maximize the current one and
     * maximize it, then scale and fade. A scale walk that meets an open node
     * without a registry entry ends the call with a `TypeError`, leaving the
     * changes made so far.
     */
    method ToggleMaximization(i: nat) returns (outcome: Outcome)
      requires Valid() && i < |nodes|
      modifies this`nodes, this`currentMaximized
      decreases if nodes[i].isMaximized then 0 else 1, 1
      ensures Valid()
      ensures PartsInArena(old(nodes), graphParts)
      ensures outcome.IllegalState? <==> !IsOpen(old(nodes[i]))
      ensures outcome.TypeError? <==>
                IsOpen(old(nodes[i])) && !MaximizeCompletes(old(nodes), graphParts, data.numberOfLayers, i, old(currentMaximized))
      ensures outcome.IllegalState? ==> nodes == old(nodes) && currentMaximized == old(currentMaximized)
      ensures !outcome.IllegalState? ==>
                && nodes == MaximizeEffect(old(nodes), graphParts, data.numberOfLayers, i, old(currentMaximized), width, height)
                && currentMaximized == MaximizePointer(old(nodes), graphParts, data.numberOfLayers, i, old(currentMaximized))
    {
      PartsOkInArena(nodes, graphParts, data.numberOfLayers);
      if !IsOpen(nodes[i]) {
        return IllegalState("Toggle maximization only possible if node is open!");
      }
      var ok;
      if nodes[i].isMaximized {
        ok := SetMaximized(i, false);
      } else {
        ok := Maximize(i);
      }
      outcome := if ok then Pass else TypeError;
    }

    /**
     * The maximizing branch: un-maximize the current node, if any, then
     * maximize `i`; a `TypeError` in the inner call ends it before `i`.
     */
    method Maximize(i: nat) returns (ok: bool)
      requires Valid() && i < |nodes| && IsOpen(nodes[i]) && !nodes[i].isMaximized
      modifies this`nodes, this`currentMaximized
      decreases 1, 0
      ensures Valid() && PartsInArena(old(nodes), graphParts)
      ensures ok == MaximizeCompletes(old(nodes), graphParts, data.numberOfLayers, i, old(currentMaximized))
      ensures nodes == MaximizeEffect(old(nodes), graphParts, data.numberOfLayers, i, old(currentMaximized), width, height)
      ensures currentMaximized == MaximizePointer(old(nodes), graphParts, data.numberOfLayers, i, old(currentMaximized))
    {
      PartsOkInArena(nodes, graphParts, data.numberOfLayers);
      if currentMaximized.Some? {
        MaximizeSteps(nodes, graphParts, data.numberOfLayers, i, currentMaximized.value, width, height);
        var inner := ToggleMaximization(currentMaximized.value);
        ok := inner.Pass?;
        if ok {
          ok := SetMaximized(i, true);
        }
      } else {
        ok := SetMaximized(i, true);
      }
    }

    /**
     * One direction of the toggle on open node `i`: move the
     * `currentMaximized` pointer, set the flag, `scale(factor)`, and run the
     * `graphParts.forEach` unless the scale walk failed.
     */
    method SetMaximized(i: nat, nowMax: bool) returns (ok: bool)
      requires Valid() && i < |nodes| && IsOpen(nodes[i])
      requires nodes[i].isMaximized == !nowMax && currentMaximized == if nowMax then None else Some(i)
      modifies this`nodes, this`currentMaximized
      ensures Valid() && PartsInArena(old(nodes), graphParts)
      ensures ok == ScaleCompletes(old(nodes), graphParts, i, data.numberOfLayers)
      ensures nodes == ToggleEffect(old(nodes), graphParts, data.numberOfLayers, i, nowMax, width, height)
      ensures currentMaximized == if nowMax then Some(i) else None
    {
      ghost var before := nodes;
      assert CoreWith(before) && ListedOpen(before, topOpen);
      assert ParentsOk(nodes, data.numberOfLayers) && PartsOk(nodes, graphParts, data.numberOfLayers);
      currentMaximized := if nowMax then Some(i) else None;
      ok := ApplyToggle(i, nowMax, MaxFactor(nodes[i].layer, nowMax));
      ToggleKeepsExclusive(before, graphParts, data.numberOfLayers, i, nowMax, if nowMax then None else Some(i), width, height);
      RestoreValid(before);
    }

    /**
     * `NodeDrawingComponent.removeOpenNodes(node)`: drop the registry entry
     * under the node's name and its loading entry, tear down every node on
     * its open list (as the list was when the walk began), then filter the
     * node by name out of its parent's open list, or out of the top-level
     * list. Surviving siblings keep their `openNodeIndex`, and torn-down
     * descendants keep theirs too.
     */
    method RemoveOpenNodes(i: nat)
      requires Core() && i < |nodes|
      modifies this`nodes, this`graphParts, this`topOpen, this`pending
      decreases data.numberOfLayers - nodes[i].layer, 1
      ensures Core()
      ensures TeardownDone(old(nodes), nodes, data.numberOfLayers, i, old(graphParts), graphParts, old(pending), pending, old(topOpen), topOpen)
      ensures old(nodes[i].parent).Some? ==> topOpen == old(topOpen)
    {
      var N := data.numberOfLayers;
      ghost var before, parts0, pending0, top0 := nodes, graphParts, pending, topOpen;
      assert NodesOk(before, N) && OpenListOk(before, top0, None, N);
      DropOwnEntry(i);
      TeardownProgressStart(before, N, i, parts0, graphParts, pending0, pending);
      RemoveChildren(i, nodes[i].openNodes, before, parts0, pending0);
      ghost var mid, parts1, pending1 := nodes, graphParts, pending;
      CloseOwnerEntry(i);
      TeardownProgressFinish(before, mid, nodes, N, i, top0, topOpen, parts0, parts1, pending0, pending1);
    }

    /**
     * `graphParts.delete(node.name)` and `LoadingAnimation.remove(node)` at the
     * head of `removeOpenNodes`; the two touch disjoint state, so their order
     * here is immaterial.
     */
    method DropOwnEntry(i: nat)
      requires Core() && i < |nodes|
      modifies this`graphParts, this`pending
      ensures Core()
      ensures graphParts == old(graphParts) - {nodes[i].name}
      ensures pending == RemoveFirst(old(pending), nodes[i].name)
    {
      LoadingRemove(Some(i));
      DropKeepsCore(data, currentBareNodeLinks, nodes, topOpen, graphParts, crossLinks, crossNodes, selectedNode, selectedNeighbours,
                    selectionActivated, nodes[i].name);
      graphParts := graphParts - {nodes[i].name};
    }

    /**
     * The `node.openNodes.forEach(removeOpenNodes)` of `removeOpenNodes(i)`,
     * over the list as it was before the walk (`before[i].openNodes`).
     */
    method RemoveChildren(i: nat, cs: seq<nat>, ghost before: seq<NodeState>, ghost parts0: map<string, GraphPart>, ghost pending0: seq<string>)
      requires Core() && TeardownProgress(before, nodes, data.numberOfLayers, i, 0, parts0, graphParts, pending0, pending)
      requires cs == before[i].openNodes
      modifies this`nodes, this`graphParts, this`topOpen, this`pending
      decreases data.numberOfLayers - before[i].layer, 0
      ensures Core() && topOpen == old(topOpen) && |nodes| == |before|
      ensures TeardownProgress(before, nodes, data.numberOfLayers, i, |before[i].openNodes|, parts0, graphParts, pending0, pending)
    {
      var N := data.numberOfLayers;
      for k := 0 to |cs|
        invariant Core()
        invariant TeardownProgress(before, nodes, N, i, k, parts0, graphParts, pending0, pending)
        invariant topOpen == old(topOpen)
      {
        ghost var mid, midParts, midPending := nodes, graphParts, pending;
        ProgressShape(before, mid, N, i, k, parts0, midParts, pending0, midPending);
        RemoveOpenNodes(cs[k]);
        TeardownProgressStep(before, mid, nodes, N, i, k, old(topOpen), parts0, midParts, graphParts, pending0, midPending, pending);
      }
    }

    /** The last step of `removeOpenNodes`: filter node `i` by name out of its owner's open list. */
    method CloseOwnerEntry(i: nat)
      requires Core() && i < |nodes|
      modifies this`nodes, this`topOpen
      ensures Core()
      ensures ClosedIn(old(nodes), nodes, [], old(nodes[i].parent))
      ensures var owner := old(nodes[i].parent);
        && (owner.Some? ==> owner.value < |nodes| && OwnerFiltered(old(nodes), nodes, owner.value, old(nodes[i].name)))
        && topOpen == (if owner.None? then RemoveNamed(old(nodes), old(topOpen), old(nodes[i].name)) else old(topOpen))
    {
      if nodes[i].parent.Some? {
        var p := nodes[i].parent.value;
        FilterOwnerKeepsCore(data, currentBareNodeLinks, nodes, topOpen, graphParts, crossLinks, crossNodes, selectedNode, selectedNeighbours,
                             selectionActivated, i);
        nodes := nodes[p := nodes[p].(openNodes := RemoveNamed(nodes, nodes[p].openNodes, nodes[i].name))];
      } else {
        FilterTopKeepsCore(data, currentBareNodeLinks, nodes, topOpen, graphParts, crossLinks, crossNodes, selectedNode, selectedNeighbours,
                           selectionActivated, i);
        topOpen := RemoveNamed(nodes, topOpen, nodes[i].name);
      }
    }

    /** `NodeDrawingComponent.setNodeSelected(node)`: `i` becomes the selected node. */
    method SetNodeSelected(i: nat)
      requires Valid() && i < |nodes|
      modifies this`nodes, this`selectedNode, this`selectionActivated
      ensures Valid()
      ensures selectionActivated && selectedNode == Some(i)
      ensures nodes == MarkSelected(old(nodes), data.numberOfLayers, i)
    {
      var r := SelectIn(nodes, data.numberOfLayers, i);
      StructureKeepsValid(r);
      CoreStateSelection(data, currentBareNodeLinks, r, topOpen, graphParts, crossLinks, crossNodes, selectedNode, selectedNeighbours,
                         selectionActivated, Some(i), selectedNeighbours, true);
      assert ListedOpen(r, topOpen) && MaxExclusive(r, currentMaximized);
      nodes := r;
      selectedNode := Some(i);
      selectionActivated := true;
    }

    /** `NodeDrawingComponent.removeNeighbours()`: every listed neighbour back to `none`, and the list emptied. */
    method RemoveNeighbours()
      requires Valid()
      modifies this`nodes, this`selectedNeighbours
      ensures Valid()
      ensures selectedNeighbours == []
      ensures nodes == Relabel(old(nodes), (set n | n in old(selectedNeighbours)), NoRelation)
    {
      var r := SetRelations(nodes, selectedNeighbours, NoRelation);
      RelabelKeepsStructure(nodes, (set n | n in selectedNeighbours), NoRelation);
      StructureKeepsValid(r);
      CoreStateSelection(data, currentBareNodeLinks, r, topOpen, graphParts, crossLinks, crossNodes, selectedNode, selectedNeighbours,
                         selectionActivated, selectedNode, [], selectionActivated);
      assert ListedOpen(r, topOpen) && MaxExclusive(r, currentMaximized);
      nodes := r;
      selectedNeighbours := [];
    }

    /**
     * `NodeDrawingComponent.removeCurrentSelection()`: the selected node and
     * its ancestors back to `none`, then `removeNeighbours`. The selected
     * node itself stays recorded.
     */
    method RemoveCurrentSelection()
      requires Valid() && selectedNode.Some?
      modifies this`nodes, this`selectedNeighbours
      ensures Valid()
      ensures selectedNeighbours == []
      ensures nodes == ClearSelected(old(nodes), data.numberOfLayers, selectedNode.value, old(selectedNeighbours))
    {
      var s := selectedNode.value;
      ghost var before, listed := nodes, (set n | n in selectedNeighbours);
      ghost var chain := {s} + Ancestors(nodes, data.numberOfLayers, s);
      var r := UnselectIn(nodes, data.numberOfLayers, s);
      RelabelKeepsStructure(nodes, chain, NoRelation);
      StructureKeepsValid(r);
      assert ListedOpen(r, topOpen) && MaxExclusive(r, currentMaximized);
      nodes := r;
      RemoveNeighbours();
      RelabelUnion(before, chain, listed, NoRelation);
    }

    /**
     * `NodeDrawingComponent.toggleSelection(node)`. With a selection active,
     * a node whose relation equals the selected node's ends the selection;
     * any other node replaces it.
     */
    method ToggleSelection(i: nat)
      requires Valid() && i < |nodes|
      modifies this`nodes, this`selectedNode, this`selectionActivated, this`selectedNeighbours
      ensures Valid()
      ensures !old(selectionActivated) ==>
                && selectionActivated && selectedNode == Some(i) && selectedNeighbours == old(selectedNeighbours)
                && nodes == MarkSelected(old(nodes), data.numberOfLayers, i)
      ensures old(selectionActivated) ==>
                var cleared := ClearSelected(old(nodes), data.numberOfLayers, old(selectedNode).value, old(selectedNeighbours));
                && selectedNeighbours == []
                && if old(nodes[selectedNode.value].relation) == old(nodes[i].relation) then
                     !selectionActivated && selectedNode == old(selectedNode) && nodes == cleared
                   else
                     selectionActivated && selectedNode == Some(i) && nodes == MarkSelected(cleared, data.numberOfLayers, i)
    {
      if selectionActivated {
        if nodes[selectedNode.value].relation == nodes[i].relation {
          CoreStateSelection(data, currentBareNodeLinks, nodes, topOpen, graphParts, crossLinks, crossNodes, selectedNode, selectedNeighbours,
                             selectionActivated, selectedNode, selectedNeighbours, false);
          selectionActivated := false;
          RemoveCurrentSelection();
        } else {
          RemoveCurrentSelection();
          SetNodeSelected(i);
        }
      } else {
        SetNodeSelected(i);
      }
    }

    /**
     * `setSelectionRelationNeighbour()` (`rel` is `neighbour`) and
     * `setSelectionRelationNeighbourChild(count)` (`rel` is
     * `neighbourChild`; the count argument is unused).
     */
    method SetSelectionRelation(n: nat, rel: Relation)
      requires Valid() && n < |nodes| && (rel == Neighbour || rel == NeighbourChild)
      modifies this`nodes, this`selectedNeighbours
      ensures Valid()
      ensures Marks(nodes, selectedNeighbours) == MarkNeighbour(Marks(old(nodes), old(selectedNeighbours)), n, rel)
    {
      var r := nodes[n := nodes[n].(relation := rel)];
      var listed := selectedNeighbours + [n];
      assert SameStructure(nodes, r);
      StructureKeepsValid(r);
      CoreStateSelection(data, currentBareNodeLinks, r, topOpen, graphParts, crossLinks, crossNodes, selectedNode, selectedNeighbours,
                         selectionActivated, selectedNode, listed, selectionActivated);
      assert ListedOpen(r, topOpen) && MaxExclusive(r, currentMaximized);
      nodes := r;
      selectedNeighbours := listed;
    }

    /** `Node.updateSelectedNodeNeighbourCount()` on node `n`. */
    method UpdateSelectedNodeNeighbourCount(n: nat)
      requires Valid() && n < |nodes| && selectedNode.Some?
      modifies this`nodes
      ensures Valid()
      ensures nodes == old(nodes)[n := old(nodes[n]).(selectedNodeNeighbourCount :=
                NeighbourCount(data.nodeMapping, currentBareNodeLinks, old(nodes), data.numberOfLayers, n, selectedNode.value))]
    {
      var N := data.numberOfLayers;
      var s := selectedNode.value;
      assert ParentOk(nodes, n, N) && ParentOk(nodes, s, N);
      var names := CollectNeighbourNames(data.nodeMapping, currentBareNodeLinks, nodes[n].layer, nodes[n].name, nodes[s].layer, nodes[s].name);
      var r := nodes[n := nodes[n].(selectedNodeNeighbourCount := |names|)];
      assert SameStructure(nodes, r);
      StructureKeepsValid(r);
      assert ListedOpen(r, topOpen) && MaxExclusive(r, currentMaximized);
      nodes := r;
    }

    /** The `child` branches of `updateNeighbours` for the far end `n`. */
    method ChildNeighbour(n: nat)
      requires Valid() && n < |nodes| && selectedNode.Some?
      modifies this`nodes, this`selectedNeighbours
      ensures Valid()
      ensures Marks(nodes, selectedNeighbours) == ChildStep(data.nodeMapping, currentBareNodeLinks, data.numberOfLayers,
                                                            Marks(old(nodes), old(selectedNeighbours)), selectedNode.value, n)
    {
      UpdateSelectedNodeNeighbourCount(n);
      if nodes[n].selectedNodeNeighbourCount > 0 {
        SetSelectionRelation(n, NeighbourChild);
      }
    }

    /** `Link.updateNeighbours()` for a link between nodes of the arena. */
    method UpdateNeighbours(l: Link)
      requires Valid() && l.source < |nodes| && l.target < |nodes|
      modifies this`nodes, this`selectedNeighbours
      ensures Valid()
      ensures !selectionActivated ==> nodes == old(nodes) && selectedNeighbours == old(selectedNeighbours)
      ensures selectionActivated ==>
                Marks(nodes, selectedNeighbours) == NeighbourStep(data.nodeMapping, currentBareNodeLinks, data.numberOfLayers,
                                                                  Marks(old(nodes), old(selectedNeighbours)), selectedNode.value, l)
    {
      if selectionActivated {
        if nodes[l.source].relation == Self {
          SetSelectionRelation(l.target, Neighbour);
        } else if nodes[l.target].relation == Self {
          SetSelectionRelation(l.source, Neighbour);
        } else if nodes[l.source].relation == Child {
          ChildNeighbour(l.target);
        } else if nodes[l.target].relation == Child {
          ChildNeighbour(l.source);
        }
      }
    }

    /** `selection.each(link => link.updateNeighbours())` over `links`. */
    method PropagateSelection(links: seq<Link>)
      requires Valid() && LinksIn(links, |nodes|)
      modifies this`nodes, this`selectedNeighbours
      ensures Valid()
      ensures !selectionActivated ==> nodes == old(nodes) && selectedNeighbours == old(selectedNeighbours)
      ensures selectionActivated ==>
                Marks(nodes, selectedNeighbours) == Propagated(data.nodeMapping, currentBareNodeLinks, data.numberOfLayers,
                                                               Marks(old(nodes), old(selectedNeighbours)), selectedNode.value, links)
    {
      ghost var st := Marks(nodes, selectedNeighbours);
      for k := 0 to |links|
        invariant Valid() && |nodes| == |st.nodes|
        invariant !selectionActivated ==> nodes == st.nodes && selectedNeighbours == st.neighbours
        invariant selectionActivated ==>
                    && LinksIn(links[..k], |st.nodes|)
                    && Marks(nodes, selectedNeighbours) == Propagated(data.nodeMapping, currentBareNodeLinks, data.numberOfLayers,
                                                                      st, selectedNode.value, links[..k])
      {
        assert links[..k + 1][..k] == links[..k] && links[..k + 1][k] == links[k];
        UpdateNeighbours(links[k]);
      }
      assert links[..|links|] == links;
    }
 
    /**
     * The cache step of `updateOpenNodes` for the open nodes `list` on layer
     * `L`: when asked to, or when an entry is missing, store the candidate
     * pool one layer down and the bridge links between the listed clusters,
     * all active; otherwise keep the entries.
     */
    method RefreshCache(list: seq<nat>, L: nat, recompute: bool)
      requires Valid() && InArena(nodes, list) && 1 <= L < data.numberOfLayers
      modifies this`crossLinks, this`crossNodes
      ensures Valid()
      ensures L in crossLinks && L in crossNodes
      ensures crossLinks == old(crossLinks)[L := crossLinks[L]] && crossNodes == old(crossNodes)[L := crossNodes[L]]
      ensures CacheStep(nodes, graphParts, data.nodeMapping, currentBareNodeLinks, list, L, recompute,
                        old(crossLinks), old(crossNodes), crossLinks, crossNodes)
    {
      EdgesMappedFewer(data.nodeMapping, currentBareNodeLinks, L + 1, data.numberOfLayers);
      if recompute || L !in crossLinks || L !in crossNodes {
        StoreCache(list, L);
        assert InArena(nodes, crossNodes[L]) by {
          assert IndicesBelow(|nodes|);
        }
      }
    }

    /** The recomputing branch of the cache step: the pool one layer down and the active bridge links. */
    method StoreCache(list: seq<nat>, L: nat)
      requires Valid() && InArena(nodes, list) && 1 <= L < data.numberOfLayers
      modifies this`crossLinks, this`crossNodes
      ensures Valid()
      ensures L in crossLinks && L in crossNodes
      ensures crossLinks == old(crossLinks)[L := crossLinks[L]] && crossNodes == old(crossNodes)[L := crossNodes[L]]
      ensures forall n :: n in crossNodes[L] <==> InLayerPart(graphParts, L + 1, n)
      ensures crossLinks[L] == SetLinksActive(Aggregate(CrossCandidates(nodes, crossNodes[L], data.nodeMapping, currentBareNodeLinks,
                                                                        L, ListNames(nodes, list))), true)
    {
      var N := data.numberOfLayers;
      var openNodeNames := ListNames(nodes, list);
      var pool := ChildLayerPool(graphParts, L + 1);
      PoolInArena(nodes, graphParts, N, L + 1, pool);
      var links := GetCrossConnectionLinks(nodes, pool, data.nodeMapping, currentBareNodeLinks, L, openNodeNames);
      CrossLinksInPool(nodes, pool, data.nodeMapping, currentBareNodeLinks, L, openNodeNames);
      links := SetLinksActive(links, true);
      StoreKeepsCore(data, currentBareNodeLinks, nodes, topOpen, graphParts, crossLinks, crossNodes, selectedNode, selectedNeighbours,
                     selectionActivated, L, links, pool);
      crossLinks := crossLinks[L := links];
      crossNodes := crossNodes[L := pool];
    }

    /** One layer of `updateOpenNodes`: the cache step, then the selection re-propagated over the layer's links. */
    method RefreshLayer(list: seq<nat>, L: nat, recompute: bool)
      requires Valid() && InArena(nodes, list) && 1 <= L < data.numberOfLayers
      modifies this`nodes, this`selectedNeighbours, this`crossLinks, this`crossNodes
      ensures Valid()
      ensures SameStructure(old(nodes), nodes)
      ensures !selectionActivated ==> nodes == old(nodes) && selectedNeighbours == old(selectedNeighbours)
      ensures L in crossLinks && L in crossNodes
      ensures crossLinks == old(crossLinks)[L := crossLinks[L]] && crossNodes == old(crossNodes)[L := crossNodes[L]]
      ensures CacheStep(old(nodes), graphParts, data.nodeMapping, currentBareNodeLinks, list, L, recompute,
                        old(crossLinks), old(crossNodes), crossLinks, crossNodes)
    {
      RefreshCache(list, L, recompute);
      ghost var links, pools := crossLinks, crossNodes;
      assert LinksIn(crossLinks[L], |nodes|) by {
        assert IndicesBelow(|nodes|);
      }
      PropagateSelection(crossLinks[L]);
      assert crossLinks == links && crossNodes == pools;
    }

    /**
     * `Graph.updateOpenNodes(list, recompute)`: one layer (`RefreshLayer`),
     * then the layers below (`UpdateChildOpenNodes`).
     */
    method UpdateOpenNodes(list: seq<nat>, recompute: bool)
      requires Valid()
      requires |list| > 0 ==> list[0] < |nodes| && OnLayer(nodes, list, nodes[list[0]].layer, data.numberOfLayers)
      modifies this`nodes, this`selectedNeighbours, this`crossLinks, this`crossNodes
      decreases if |list| > 0 && list[0] < |nodes| then data.numberOfLayers - nodes[list[0]].layer else 0, 1
      ensures Valid()
      ensures SameStructure(old(nodes), nodes)
      ensures !selectionActivated ==> nodes == old(nodes) && selectedNeighbours == old(selectedNeighbours)
      ensures |list| == 0 ==> nodes == old(nodes) && crossLinks == old(crossLinks) && crossNodes == old(crossNodes)
      ensures |list| > 0 ==>
                OpenPass(old(nodes), graphParts, data.nodeMapping, currentBareNodeLinks, list, old(nodes[list[0]].layer), recompute,
                         old(crossLinks), old(crossNodes), crossLinks, crossNodes, data.numberOfLayers)
    {
      if |list| > 0 {
        var L := nodes[list[0]].layer;
        assert 1 <= L < data.numberOfLayers;
        RefreshLayer(list, L, recompute);
        ghost var n1, midLinks, midNodes := nodes, crossLinks, crossNodes;
        UpdateChildOpenNodes(list, L, recompute);
        LayerThenDeeper(old(nodes), n1, graphParts, data.nodeMapping, currentBareNodeLinks, list, L, recompute,
                        old(crossLinks), old(crossNodes), midLinks, midNodes, crossLinks, crossNodes, data.numberOfLayers);
      }
    }

    /** The tail of `updateOpenNodes`: the recursive call on the listed nodes' concatenated open lists. */
    method UpdateChildOpenNodes(list: seq<nat>, L: nat, recompute: bool)
      requires Valid() && OnLayer(nodes, list, L, data.numberOfLayers) && L < data.numberOfLayers
      modifies this`nodes, this`selectedNeighbours, this`crossLinks, this`crossNodes
      decreases data.numberOfLayers - L, 0
      ensures Valid()
      ensures SameStructure(old(nodes), nodes)
      ensures !selectionActivated ==> nodes == old(nodes) && selectedNeighbours == old(selectedNeighbours)
      ensures SameBelow(crossLinks, old(crossLinks), L + 1) && SameBelow(crossNodes, old(crossNodes), L + 1)
      ensures DeepCaches(old(nodes), graphParts, data.nodeMapping, currentBareNodeLinks, ChildOpenLists(old(nodes), list), L + 1,
                         recompute, old(crossLinks), old(crossNodes), crossLinks, crossNodes, data.numberOfLayers)
    {
      var children := CollectChildOpenLists(nodes, list);
      ChildrenOnLayer(nodes, list, L, data.numberOfLayers);
      assert |children| > 0 ==> nodes[children[0]].layer == L + 1 < data.numberOfLayers;
      ghost var n0 := nodes;
      UpdateOpenNodes(children, recompute);
      PassBelow(n0, graphParts, data.nodeMapping, currentBareNodeLinks, children, L + 1, recompute, old(crossLinks), old(crossNodes),
                crossLinks, crossNodes, data.numberOfLayers);
    }
 
    /** The selection re-propagated over the links of the registry entry `key`. */
    method PropagatePart(key: string)
      requires Valid() && key in graphParts
      modifies this`nodes, this`selectedNeighbours
      ensures Valid() && SameStructure(old(nodes), nodes)
      ensures !selectionActivated ==> nodes == old(nodes) && selectedNeighbours == old(selectedNeighbours)
      ensures selectionActivated ==>
                Marks(nodes, selectedNeighbours) == Propagated(data.nodeMapping, currentBareNodeLinks, data.numberOfLayers,
                                                               Marks(old(nodes), old(selectedNeighbours)), selectedNode.value, graphParts[key].links)
    {
      assert PartOk(nodes, key, graphParts[key], data.numberOfLayers);
      PropagateSelection(graphParts[key].links);
    }

    /**
     * The body of the `graphParts.forEach` in `Graph.update` for one entry:
     * `updateLinks()` when the filter changed, then the selection
     * re-propagated over the entry's links.
     */
    method UpdatePart(key: string, filterChanged: bool, ghost updated: GraphPart)
      requires Valid() && key in graphParts && PartOk(nodes, key, graphParts[key], data.numberOfLayers)
      requires updated == AfterUpdate(nodes, data.nodeMapping, currentBareNodeLinks, graphParts[key], filterChanged)
      modifies this`nodes, this`selectedNeighbours, this`graphParts
      ensures Valid() && SameStructure(old(nodes), nodes)
      ensures !selectionActivated ==> nodes == old(nodes) && selectedNeighbours == old(selectedNeighbours)
      ensures graphParts == old(graphParts)[key := updated]
    {
      if filterChanged {
        UpdateLinks(key);
      }
      PropagatePart(key);
    }

    /** One iteration of the `graphParts.forEach` of `Graph.update`, towards the registry `target`. */
    method UpdateNext(key: string, filterChanged: bool, ghost before: seq<NodeState>, ghost parts0: map<string, GraphPart>,
                      ghost target: map<string, GraphPart>, ghost remaining: set<string>, ghost neighbours0: seq<nat>)
      requires Valid() && PassState(before, parts0, target, remaining, neighbours0) && key in remaining
      requires Relinkable(before, data.nodeMapping, currentBareNodeLinks, parts0)
      requires target[key] == AfterUpdate(before, data.nodeMapping, currentBareNodeLinks, parts0[key], filterChanged)
      modifies this`nodes, this`selectedNeighbours, this`graphParts
      ensures Valid() && PassState(before, parts0, target, remaining - {key}, neighbours0)
    {
      ghost var n0 := nodes;
      assert PartOk(nodes, key, graphParts[key], data.numberOfLayers);
      RelinkedShape(before, nodes, data.nodeMapping, currentBareNodeLinks, parts0[key]);
      VisitedStep(parts0, target, graphParts, remaining, key);
      UpdatePart(key, filterChanged, target[key]);
      SameStructureTrans(before, n0, nodes);
    }

    /**
     * Midway through the `graphParts.forEach` of `Graph.update`: the arena has
     * the structure it had before, the visited entries hold their targets,
     * and without an activated selection nothing but the registry changed.
     */
    ghost predicate PassState(before: seq<NodeState>, parts0: map<string, GraphPart>, target: map<string, GraphPart>, remaining: set<string>,
                              neighbours0: seq<nat>)
      reads this`nodes, this`graphParts, this`selectedNeighbours, this`selectionActivated
    {
      && SameStructure(before, nodes)
      && Visited(parts0, target, graphParts, remaining)
      && (!selectionActivated ==> nodes == before && selectedNeighbours == neighbours0)
    }

    /** The `graphParts.forEach` of `Graph.update`, in the map's (unmodelled) order. */
    method UpdateParts(filterChanged: bool)
      requires Valid()
      modifies this`nodes, this`selectedNeighbours, this`graphParts
      ensures Valid() && SameStructure(old(nodes), nodes)
      ensures !selectionActivated ==> nodes == old(nodes) && selectedNeighbours == old(selectedNeighbours)
      ensures Relinkable(old(nodes), data.nodeMapping, currentBareNodeLinks, old(graphParts))
      ensures graphParts == UpdatedRegistry(old(nodes), data.nodeMapping, currentBareNodeLinks, old(graphParts), filterChanged)
    {
      ghost var before, parts0, neighbours0 := nodes, graphParts, selectedNeighbours;
      PartsRelinkable(nodes, data.nodeMapping, currentBareNodeLinks, data.numberOfLayers, graphParts);
      ghost var target := UpdatedRegistry(before, data.nodeMapping, currentBareNodeLinks, parts0, filterChanged);
      var remaining := graphParts.Keys;
      while remaining != {}
        invariant Valid() && PassState(before, parts0, target, remaining, neighbours0)
        decreases remaining
      {
        var key :| key in remaining;
        UpdateNext(key, filterChanged, before, parts0, target, remaining, neighbours0);
        remaining := remaining - {key};
      }
      VisitedAll(parts0, target, graphParts);
    }

    /**
     * `Graph.update(filterChanged, openNodeChanged)`: every entry
     * (`UpdateParts`), then the open nodes from the top level down,
     * recomputing the caches when either flag is set.
     */
    method Update(filterChanged: bool, openNodeChanged: bool)
      requires Valid()
      modifies this`nodes, this`selectedNeighbours, this`graphParts, this`crossLinks, this`crossNodes
      ensures Valid() && SameStructure(old(nodes), nodes)
      ensures !selectionActivated ==> nodes == old(nodes) && selectedNeighbours == old(selectedNeighbours)
      ensures Relinkable(old(nodes), data.nodeMapping, currentBareNodeLinks, old(graphParts))
      ensures graphParts == UpdatedRegistry(old(nodes), data.nodeMapping, currentBareNodeLinks, old(graphParts), filterChanged)
      ensures TopCaches(old(crossLinks), old(crossNodes), filterChanged || openNodeChanged)
    {
      UpdateParts(filterChanged);
      FinishUpdate(filterChanged || openNodeChanged, old(nodes), old(selectedNeighbours));
    }

    /** The open-node pass of `update`, read against the arena `n0` and neighbour list `nb0` before the part pass. */
    method FinishUpdate(recompute: bool, ghost n0: seq<NodeState>, ghost nb0: seq<nat>)
      requires Valid() && SameStructure(n0, nodes)
      requires !selectionActivated ==> nodes == n0 && selectedNeighbours == nb0
      modifies this`nodes, this`selectedNeighbours, this`crossLinks, this`crossNodes
      ensures Valid() && SameStructure(n0, nodes)
      ensures !selectionActivated ==> nodes == n0 && selectedNeighbours == nb0
      ensures TopCaches(old(crossLinks), old(crossNodes), recompute)
    {
      ghost var mid := nodes;
      RefreshOpen(recompute);
      SameStructureTrans(n0, mid, nodes);
    }

    /**
     * The caches after the open-node pass: untouched when nothing is open;
     * otherwise what `updateOpenNodes(topOpen, recompute)` leaves
     * (`OpenPass`): on every layer down from the top, when recomputed,
     * exactly the nodes of the next layer's registry entries and the active,
     * aggregated bridge links among them between that layer's open nodes.
     */
    ghost predicate TopCaches(links0: map<nat, seq<Link>>, nodes0: map<nat, seq<nat>>, recompute: bool)
      reads this`nodes, this`currentBareNodeLinks, this`topOpen, this`graphParts, this`crossLinks, this`crossNodes
    {
      && (|topOpen| == 0 ==> crossLinks == links0 && crossNodes == nodes0)
      && (|topOpen| > 0 ==>
            && InArena(nodes, topOpen)
            && OpenPass(nodes, graphParts, data.nodeMapping, currentBareNodeLinks, topOpen, 1, recompute,
                        links0, nodes0, crossLinks, crossNodes, data.numberOfLayers))
    }

    /** The open-node pass of `Graph.update`: `updateOpenNodes` on the top-level open list. */
    method RefreshOpen(recompute: bool)
      requires Valid()
      modifies this`nodes, this`selectedNeighbours, this`crossLinks, this`crossNodes
      ensures Valid() && SameStructure(old(nodes), nodes)
      ensures !selectionActivated ==> nodes == old(nodes) && selectedNeighbours == old(selectedNeighbours)
      ensures TopCaches(old(crossLinks), old(crossNodes), recompute)
    {
      RootsOnLayer(nodes, topOpen, data.numberOfLayers);
      ghost var n0 := nodes;
      assert |topOpen| > 0 ==> nodes[topOpen[0]].layer == 1 < data.numberOfLayers;
      UpdateOpenNodes(topOpen, recompute);
      if |topOpen| > 0 {
        OpenPassTransfer(nodes, n0, graphParts, data.nodeMapping, currentBareNodeLinks, topOpen, 1, recompute,
                         old(crossLinks), old(crossNodes), crossLinks, crossNodes, data.numberOfLayers);
      }
    }

    /**
     * The filter callback of the time slicer once the bounds moved: the new
     * time-filtered edges, the neighbour marks cleared, and `update(true, false)`.
     */
    method ApplyFilter(filtered: seq<RawEdge>)
      requires Valid() && EdgesMapped(data.nodeMapping, filtered, data.numberOfLayers)
      modifies this`currentBareNodeLinks, this`nodes, this`selectedNeighbours, this`graphParts, this`crossLinks, this`crossNodes
      ensures Valid() && currentBareNodeLinks == filtered && SameStructure(old(nodes), nodes)
      ensures !selectionActivated ==> selectedNeighbours == [] && nodes == Relabel(old(nodes), (set n | n in old(selectedNeighbours)), NoRelation)
      ensures Relinkable(old(nodes), data.nodeMapping, filtered, old(graphParts))
      ensures graphParts == UpdatedRegistry(old(nodes), data.nodeMapping, filtered, old(graphParts), true)
      ensures TopCaches(old(crossLinks), old(crossNodes), true)
    {
      SetFilter(filtered);
      ghost var mid := nodes;
      Update(true, false);
      SameStructureTrans(old(nodes), mid, nodes);
      UpdatedRegistryShape(mid, old(nodes), data.nodeMapping, filtered, old(graphParts), true);
    }

    /** The new filtered edges become current and the neighbour marks are cleared. */
    method SetFilter(filtered: seq<RawEdge>)
      requires Valid() && EdgesMapped(data.nodeMapping, filtered, data.numberOfLayers)
      modifies this`currentBareNodeLinks, this`nodes, this`selectedNeighbours
      ensures Valid() && currentBareNodeLinks == filtered && selectedNeighbours == [] && SameStructure(old(nodes), nodes)
      ensures nodes == Relabel(old(nodes), (set n | n in old(selectedNeighbours)), NoRelation)
    {
      CoreStateFilter(data, currentBareNodeLinks, nodes, topOpen, graphParts, crossLinks, crossNodes, selectedNode, selectedNeighbours,
                      selectionActivated, filtered);
      assert ListedOpen(nodes, topOpen) && MaxExclusive(nodes, currentMaximized);
      currentBareNodeLinks := filtered;
      RemoveNeighbours();
      RelabelKeepsStructure(old(nodes), (set n | n in old(selectedNeighbours)), NoRelation);
    }

    /**
     * `Graph.circleClick(node)`: `toggleSelection`, then `update(false, false)`.
     * `marked` is the arena after the toggle; the update changes only
     * selection marks in it.
     */
    method CircleClick(i: nat) returns (ghost marked: seq<NodeState>)
      requires Valid() && i < |nodes|
      modifies this`nodes, this`selectedNode, this`selectionActivated, this`selectedNeighbours, this`graphParts, this`crossLinks, this`crossNodes
      ensures Valid() && graphParts == old(graphParts) && SameStructure(marked, nodes)
      ensures TopCaches(old(crossLinks), old(crossNodes), false)
      ensures !old(selectionActivated) ==>
                selectionActivated && selectedNode == Some(i) && marked == MarkSelected(old(nodes), data.numberOfLayers, i)
      ensures old(selectionActivated) && old(nodes[selectedNode.value].relation) == old(nodes[i].relation) ==>
                !selectionActivated && selectedNeighbours == []
                && nodes == marked == ClearSelected(old(nodes), data.numberOfLayers, old(selectedNode).value, old(selectedNeighbours))
      ensures old(selectionActivated) && old(nodes[selectedNode.value].relation) != old(nodes[i].relation) ==>
                && selectionActivated && selectedNode == Some(i)
                && marked == MarkSelected(ClearSelected(old(nodes), data.numberOfLayers, old(selectedNode).value, old(selectedNeighbours)),
                                          data.numberOfLayers, i)
    {
      ToggleSelection(i);
      marked := nodes;
      ghost var parts0 := graphParts;
      Update(false, false);
      UpdatedRegistryEntries(marked, data.nodeMapping, currentBareNodeLinks, parts0, false);
    }

    /**
     * The closing half of `circleDoubleClick`: the node's index and offsets
     * reset, then `removeOpenNodes` tears down it and everything open below it.
     */
    method CloseNode(i: nat)
      requires Valid() && i < |nodes| && !nodes[i].isMaximized
      modifies this`nodes, this`graphParts, this`topOpen, this`pending
      ensures Valid()
      ensures ClosedWith(old(nodes), old(topOpen), old(graphParts), old(pending), nodes, topOpen, graphParts, pending, i, data.numberOfLayers)
    {
      ghost var a0 := nodes;
      ResetNode(i);
      TearDown(i, a0);
    }

    /** `removeOpenNodes` after the reset, read against the arena `a0` before it. */
    method TearDown(i: nat, ghost a0: seq<NodeState>)
      requires Core() && i < |a0| && CloseReady(a0, topOpen, currentMaximized, data.numberOfLayers, i)
      requires nodes == a0[i := Closed(a0[i])]
      modifies this`nodes, this`graphParts, this`topOpen, this`pending
      ensures Valid()
      ensures ClosedWith(a0, old(topOpen), old(graphParts), old(pending), nodes, topOpen, graphParts, pending, i, data.numberOfLayers)
    {
      ghost var closed, top0, parts0, pending0 := nodes, topOpen, graphParts, pending;
      RemoveOpenNodes(i);
      CloseOutcome(a0, closed, nodes, data.numberOfLayers, i, parts0, graphParts, pending0, pending, top0, topOpen, currentMaximized);
      CloseResetsNode(a0, closed, nodes, data.numberOfLayers, i, parts0, graphParts, pending0, pending, top0, topOpen);
    }

    /** `node.openNodeIndex = -1` and the offsets back to zero, before the teardown. */
    method ResetNode(i: nat)
      requires Valid() && i < |nodes| && !nodes[i].isMaximized
      modifies this`nodes
      ensures Core() && nodes == old(nodes)[i := Closed(old(nodes)[i])]
      ensures CloseReady(old(nodes), topOpen, currentMaximized, data.numberOfLayers, i)
    {
      assert CloseReady(nodes, topOpen, currentMaximized, data.numberOfLayers, i);
      var closed := nodes[i := Closed(nodes[i])];
      ListsKeepCore(data, currentBareNodeLinks, nodes, closed, topOpen, graphParts, crossLinks, crossNodes, selectedNode, selectedNeighbours,
                    selectionActivated);
      nodes := closed;
    }

    /**
     * The opening half of `circleDoubleClick`: the node takes its layer's
     * horizontal offset, joins its owner's list, and every entry of that list
     * is renumbered and spread vertically.
     */
    method OpenNode(i: nat)
      requires Valid() && i < |nodes| && !IsOpen(nodes[i]) && nodes[i].layer < data.numberOfLayers
      requires |OwnerList(nodes, topOpen, i)| < MaxOpenNodes
      modifies this`nodes, this`topOpen
      ensures Valid()
      ensures var list := old(OwnerList(nodes, topOpen, i)) + [i];
        && topOpen == (if old(nodes[i].parent).None? then list else old(topOpen))
        && Reindexed(Pushed(old(nodes), i, list, width), nodes, list, height)
    {
      var list := OwnerList(nodes, topOpen, i) + [i];
      var top := if nodes[i].parent.None? then list else topOpen;
      PushKeepsCore(data, currentBareNodeLinks, nodes, topOpen, graphParts, crossLinks, crossNodes, selectedNode, selectedNeighbours,
                    selectionActivated, i, width);
      var pushed := Pushed(nodes, i, list, width);
      var r := Reindex(pushed, list, height);
      ReindexedShape(pushed, r, list, height);
      ListsKeepCore(data, currentBareNodeLinks, pushed, r, top, graphParts, crossLinks, crossNodes, selectedNode, selectedNeighbours,
                    selectionActivated);
      OpenKeepsFlags(nodes, topOpen, i, width, height, r, currentMaximized);
      nodes, topOpen := r, top;
    }

    /**
     * The closing branch of `circleDoubleClick`: close and tear down, then
     * `update(false, true)`. `torn` is the arena after the teardown; the
     * update changes only selection marks in it.
     */
    method Collapse(i: nat) returns (ghost torn: seq<NodeState>)
      requires Valid() && i < |nodes| && !nodes[i].isMaximized
      modifies this`nodes, this`graphParts, this`topOpen, this`pending, this`selectedNeighbours, this`crossLinks, this`crossNodes
      ensures Valid()
      ensures ClosedWith(old(nodes), old(topOpen), old(graphParts), old(pending), torn, topOpen, graphParts, pending, i, data.numberOfLayers)
      ensures SameStructure(torn, nodes) && (!selectionActivated ==> nodes == torn)
      ensures |nodes| == old(|nodes|) && !IsOpen(nodes[i]) && nodes[i].offsetX == 0.0 && nodes[i].offsetY == 0.0 && nodes[i].openNodes == []
      ensures i !in OwnerList(nodes, topOpen, i)
      ensures TopCaches(old(crossLinks), old(crossNodes), true)
    {
      CloseNode(i);
      assert crossLinks == old(crossLinks) && crossNodes == old(crossNodes);
      torn := UpdateAfterClose(i, old(nodes), old(topOpen), old(graphParts), old(pending));
    }

    /** `update(false, true)` once `i` is closed: `torn` is the arena before it. */
    method UpdateAfterClose(i: nat, ghost a0: seq<NodeState>, ghost top0: seq<nat>, ghost parts0: map<string, GraphPart>,
                            ghost pending0: seq<string>) returns (ghost torn: seq<NodeState>)
      requires Valid() && i < |a0| && ClosedWith(a0, top0, parts0, pending0, nodes, topOpen, graphParts, pending, i, data.numberOfLayers)
      modifies this`nodes, this`selectedNeighbours, this`graphParts, this`crossLinks, this`crossNodes
      ensures Valid()
      ensures ClosedWith(a0, top0, parts0, pending0, torn, topOpen, graphParts, pending, i, data.numberOfLayers)
      ensures SameStructure(torn, nodes) && (!selectionActivated ==> nodes == torn)
      ensures |nodes| == |a0| && !IsOpen(nodes[i]) && nodes[i].offsetX == 0.0 && nodes[i].offsetY == 0.0 && nodes[i].openNodes == []
      ensures i !in OwnerList(nodes, topOpen, i)
      ensures TopCaches(old(crossLinks), old(crossNodes), true)
    {
      torn := nodes;
      ghost var top1, parts1, pending1 := topOpen, graphParts, pending;
      UpdateAfterToggle();
      ClosedUnder(a0, top0, parts0, pending0, torn, top1, parts1, pending1, topOpen, graphParts, pending, i, data.numberOfLayers);
      MarksKeepNode(torn, nodes, topOpen, i);
    }

    /** `update(false, true)` once `i` is open and its part built: `built` is the arena before it. */
    method UpdateAfterOpen(i: nat, ghost a0: seq<NodeState>, ghost top0: seq<nat>, ghost parts0: map<string, GraphPart>,
                           ghost pending0: seq<string>) returns (ghost built: seq<NodeState>)
      requires Valid() && i < |a0| && (a0[i].parent.Some? ==> a0[i].parent.value < |a0|)
      requires OpenedWith(a0, top0, parts0, pending0, nodes, topOpen, graphParts, pending, i, width, height, data.nodeMapping, data.bareNodeLinks)
      modifies this`nodes, this`selectedNeighbours, this`graphParts, this`crossLinks, this`crossNodes
      ensures Valid() && |built| == |nodes|
      ensures OpenedWith(a0, top0, parts0, pending0, built, topOpen, graphParts, pending, i, width, height, data.nodeMapping, data.bareNodeLinks)
      ensures SameStructure(built, nodes) && (!selectionActivated ==> nodes == built)
      ensures OwnerList(nodes, topOpen, i) == OwnerList(a0, top0, i) + [i]
      ensures IsOpen(nodes[i]) && nodes[i].openNodeIndex == |OwnerList(a0, top0, i)|
      ensures TopCaches(old(crossLinks), old(crossNodes), true)
    {
      built := nodes;
      ghost var top1, parts1, pending1 := topOpen, graphParts, pending;
      OpenedShape(a0, top0, parts0, pending0, built, top1, parts1, pending1, i, width, height, data.nodeMapping, data.bareNodeLinks);
      UpdateAfterToggle();
      OpenedUnder(a0, top0, parts0, pending0, built, top1, parts1, pending1, topOpen, graphParts, pending, i,
                  width, height, data.nodeMapping, data.bareNodeLinks);
      MarksKeepNode(built, nodes, topOpen, i);
    }

    /** `update(false, true)` after a node opens or closes: the registry stays, the marks and the top-level caches refresh. */
    method UpdateAfterToggle()
      requires Valid()
      modifies this`nodes, this`selectedNeighbours, this`graphParts, this`crossLinks, this`crossNodes
      ensures Valid() && SameStructure(old(nodes), nodes) && (!selectionActivated ==> nodes == old(nodes))
      ensures graphParts == old(graphParts) && topOpen == old(topOpen) && pending == old(pending)
      ensures TopCaches(old(crossLinks), old(crossNodes), true)
    {
      ghost var n0, parts0 := nodes, graphParts;
      Update(false, true);
      UpdatedRegistryEntries(n0, data.nodeMapping, currentBareNodeLinks, parts0, false);
    }

    /**
     * The opening branch of `circleDoubleClick`: open the node on its owner's
     * list, build the part inside it (`initGraphPart(layer + 1, node)`), then
     * `update(false, true)`. `built` is the arena before the update, which
     * changes only selection marks in it.
     */
    method Expand(i: nat) returns (ghost built: seq<NodeState>)
      requires Valid() && i < |nodes| && !IsOpen(nodes[i]) && nodes[i].layer < data.numberOfLayers
      requires |OwnerList(nodes, topOpen, i)| < MaxOpenNodes
      modifies this`nodes, this`graphParts, this`topOpen, this`pending, this`selectedNeighbours, this`crossLinks, this`crossNodes
      ensures Valid() && |built| == |nodes|
      ensures OpenedWith(old(nodes), old(topOpen), old(graphParts), old(pending), built, topOpen, graphParts, pending, i, width, height,
                         data.nodeMapping, data.bareNodeLinks)
      ensures SameStructure(built, nodes) && (!selectionActivated ==> nodes == built)
      ensures OwnerList(nodes, topOpen, i) == old(OwnerList(nodes, topOpen, i)) + [i]
      ensures IsOpen(nodes[i]) && nodes[i].openNodeIndex == |old(OwnerList(nodes, topOpen, i))|
      ensures TopCaches(old(crossLinks), old(crossNodes), true)
    {
      assert ParentOk(nodes, i, data.numberOfLayers);
      OpenAndInit(i);
      assert crossLinks == old(crossLinks) && crossNodes == old(crossNodes);
      built := UpdateAfterOpen(i, old(nodes), old(topOpen), old(graphParts), old(pending));
    }

    /**
     * `OpenNode`, then the registry entry inside the node
     * (`initGraphPart(layer + 1, node)`): the owner's list renumbered with
     * the node last, and the new part under the node's name.
     */
    method OpenAndInit(i: nat)
      requires Valid() && i < |nodes| && !IsOpen(nodes[i]) && nodes[i].layer < data.numberOfLayers
      requires |OwnerList(nodes, topOpen, i)| < MaxOpenNodes
      modifies this`nodes, this`graphParts, this`topOpen, this`pending
      ensures Valid()
      ensures OpenedWith(old(nodes), old(topOpen), old(graphParts), old(pending), nodes, topOpen, graphParts, pending, i, width, height,
                         data.nodeMapping, data.bareNodeLinks)
      ensures OwnerList(nodes, topOpen, i) == old(OwnerList(nodes, topOpen, i)) + [i]
      ensures IsOpen(nodes[i]) && nodes[i].openNodeIndex == |old(OwnerList(nodes, topOpen, i))|
    {
      ghost var a0, top0 := nodes, topOpen;
      assert ParentOk(nodes, i, data.numberOfLayers);
      OpenNode(i);
      InitChild(i, a0, top0);
      OpenedShape(a0, top0, old(graphParts), old(pending), nodes, topOpen, graphParts, pending, i, width, height,
                  data.nodeMapping, data.bareNodeLinks);
    }

    /** `initGraphPart(layer + 1, node)` once `i` is open, read against the arena `a0` and list `top0` before opening. */
    method InitChild(i: nat, ghost a0: seq<NodeState>, ghost top0: seq<nat>)
      requires Valid() && i < |a0| == |nodes| && (a0[i].parent.Some? ==> a0[i].parent.value < |a0|) && 1 <= a0[i].layer < data.numberOfLayers
      requires Reindexed(Pushed(a0, i, OwnerList(a0, top0, i) + [i], width), nodes, OwnerList(a0, top0, i) + [i], height)
      requires topOpen == if a0[i].parent.None? then OwnerList(a0, top0, i) + [i] else top0
      modifies this`nodes, this`graphParts, this`pending
      ensures Valid()
      ensures OpenedWith(a0, top0, old(graphParts), old(pending), nodes, topOpen, graphParts, pending, i, width, height,
                         data.nodeMapping, data.bareNodeLinks)
    {
      OpenAppends(a0, top0, i, width, height, nodes);
      ghost var n1 := nodes;
      ghost var key := PartKey(nodes, Some(i));
      var layer := nodes[i].layer + 1;
      InitGraphPart(layer, Some(i));
      InitOpened(a0, top0, n1, old(graphParts), old(pending), nodes, topOpen, graphParts, pending, i, width, height, data.nodeMapping, data.bareNodeLinks,
                 key, layer);
    }

    /**
     * `Graph.circleDoubleClick(node)`: nothing for a maximized node or one on
     * the last layer; an open node closes (`Collapse`); a closed one opens
     * (`Expand`) when its owner's list has room. `staged` is the arena before
     * the closing `update`, which changes only selection marks in it.
     */
    method ToggleOpen(i: nat) returns (ghost staged: seq<NodeState>)
      requires Valid() && i < |nodes|
      modifies this`nodes, this`graphParts, this`topOpen, this`pending, this`selectedNeighbours, this`crossLinks, this`crossNodes
      ensures Valid() && old(|nodes|) <= |nodes|
      ensures old(nodes[i].isMaximized) || data.numberOfLayers <= old(nodes[i].layer)
              || (!old(IsOpen(nodes[i])) && MaxOpenNodes <= |old(OwnerList(nodes, topOpen, i))|) ==>
                && nodes == old(nodes) && graphParts == old(graphParts) && topOpen == old(topOpen) && pending == old(pending)
                && selectedNeighbours == old(selectedNeighbours) && crossLinks == old(crossLinks) && crossNodes == old(crossNodes)
      ensures !old(nodes[i].isMaximized) && old(nodes[i].layer) < data.numberOfLayers && old(IsOpen(nodes[i])) ==>
                && ClosedWith(old(nodes), old(topOpen), old(graphParts), old(pending), staged, topOpen, graphParts, pending, i,
                              data.numberOfLayers)
                && SameStructure(staged, nodes) && (!selectionActivated ==> nodes == staged)
                && !IsOpen(nodes[i]) && nodes[i].offsetX == 0.0 && nodes[i].offsetY == 0.0 && nodes[i].openNodes == []
                && i !in OwnerList(nodes, topOpen, i)
                && TopCaches(old(crossLinks), old(crossNodes), true)
      ensures !old(nodes[i].isMaximized) && old(nodes[i].layer) < data.numberOfLayers && !old(IsOpen(nodes[i]))
              && |old(OwnerList(nodes, topOpen, i))| < MaxOpenNodes ==>
                && OpenedWith(old(nodes), old(topOpen), old(graphParts), old(pending), staged, topOpen, graphParts, pending, i, width, height,
                              data.nodeMapping, data.bareNodeLinks)
                && SameStructure(staged, nodes) && (!selectionActivated ==> nodes == staged)
                && OwnerList(nodes, topOpen, i) == old(OwnerList(nodes, topOpen, i)) + [i] && IsOpen(nodes[i])
                && nodes[i].openNodeIndex == |old(OwnerList(nodes, topOpen, i))|
                && TopCaches(old(crossLinks), old(crossNodes), true)
    {
      staged := nodes;
      if !nodes[i].isMaximized && nodes[i].layer < data.numberOfLayers {
        if IsOpen(nodes[i]) {
          staged := Collapse(i);
        } else if |OwnerList(nodes, topOpen, i)| < MaxOpenNodes {
          staged := Expand(i);
        }
      }
    }
  }
}
