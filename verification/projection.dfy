/**
 * Layer projection: how raw leaf edges become the weighted links of one layer
 * (`GraphPart.assignBareNodeLinks`, `resolveBareNodes`, `getWeightedLinks`),
 * the bridge links between open clusters (`Graph.getCrossConnectionLinks`)
 * and the descendant-neighbour count of `Node.updateSelectedNodeNeighbourCount`.
 */
module Projection {
  import opened Wrappers
  import opened Data
  import opened Entities
  import opened Aggregation

  /** Every index of the pool names a node of the arena. */
  predicate InArena(nodes: seq<NodeState>, pool: seq<nat>)
  {
    forall k :: 0 <= k < |pool| ==> pool[k] < |nodes|
  }

  /** `pool.find(node => node.name === name)`. */
  function FindNode(nodes: seq<NodeState>, pool: seq<nat>, name: string): (r: Option<nat>)
    requires InArena(nodes, pool)
    ensures r.Some? ==> r.value in pool && nodes[r.value].name == name
    ensures r.None? <==> forall k :: 0 <= k < |pool| ==> nodes[pool[k]].name != name
  {
    if pool == [] then None
    else if nodes[pool[0]].name == name then Some(pool[0])
    else FindNode(nodes, pool[1..], name)
  }

  /** `assignBareNodeLinks` with a parent: the edges with both ends inside the cluster, in order. */
  function ClusterEdges(m: NodeMapping, edges: seq<RawEdge>, clusterName: string, clusterLayer: nat): (r: seq<RawEdge>)
    requires 1 <= clusterLayer && EdgesMapped(m, edges, clusterLayer)
    ensures |r| <= |edges|
    ensures forall e :: e in r <==>
              e in edges && IsInCluster(m, e.source, clusterName, clusterLayer) && IsInCluster(m, e.target, clusterName, clusterLayer)
  {
    if edges == [] then []
    else
      var init, e := edges[..|edges| - 1], edges[|edges| - 1];
      assert forall x :: x in edges <==> x in init || x == e;
      ClusterEdges(m, init, clusterName, clusterLayer)
        + (if IsInCluster(m, e.source, clusterName, clusterLayer) && IsInCluster(m, e.target, clusterName, clusterLayer)
           then [e] else [])
  }

  /** `id` is the projection at `layer` of an endpoint of one of the edges. */
  ghost predicate IsEndpointId(m: NodeMapping, edges: seq<RawEdge>, layer: nat, id: string)
    requires 1 <= layer && EdgesMapped(m, edges, layer)
  {
    exists e :: e in edges && (Project(m, e.source, layer) == id || Project(m, e.target, layer) == id)
  }

  /**
   * `GraphPart.resolveBareNodes`, first half: one name per distinct projected
   * endpoint id, each created the first time it is met.
   */
  method ResolveBareNodes(m: NodeMapping, links: seq<RawEdge>, layer: nat) returns (names: seq<string>)
    requires 1 <= layer && EdgesMapped(m, links, layer)
    ensures forall a, b :: 0 <= a < b < |names| ==> names[a] != names[b]
    ensures forall id :: id in names <==> IsEndpointId(m, links, layer, id)
  {
    names := [];
    var k := 0;
    while k < |links|
      invariant 0 <= k <= |links|
      invariant forall a, b :: 0 <= a < b < |names| ==> names[a] != names[b]
      invariant forall id :: id in names <==> IsEndpointId(m, links[..k], layer, id)
    {
      assert forall e :: e in links[..k + 1] <==> e in links[..k] || e == links[k];
      var layeredSourceId := Project(m, links[k].source, layer);
      var layeredTargetId := Project(m, links[k].target, layer);
      if layeredSourceId !in names {
        names := names + [layeredSourceId];
      }
      if layeredTargetId !in names {
        names := names + [layeredTargetId];
      }
      k := k + 1;
    }
    assert links[..k] == links;
  }

  /** The `map` step of `getWeightedLinks`: both endpoints looked up by projected name. */
  function Candidate(nodes: seq<NodeState>, pool: seq<nat>, m: NodeMapping, e: RawEdge, layer: nat): Option<Link>
    requires InArena(nodes, pool) && 1 <= layer && Mapped(m, e.source, layer) && Mapped(m, e.target, layer)
  {
    var sourceNode := FindNode(nodes, pool, Project(m, e.source, layer));
    var targetNode := FindNode(nodes, pool, Project(m, e.target, layer));
    if sourceNode.Some? && targetNode.Some? then Some(Link(sourceNode.value, targetNode.value, e.date, 0, false))
    else None
  }

  /** The `filter(link => link && link.source !== link.target)` step. */
  function KeepProper(c: Option<Link>): seq<Link>
  {
    if c.Some? && c.value.source != c.value.target then [c.value] else []
  }

  /** The map/filter part of `getWeightedLinks`, before the `weightLink` fold. */
  function ProjectedLinks(nodes: seq<NodeState>, pool: seq<nat>, m: NodeMapping, edges: seq<RawEdge>, layer: nat): seq<Link>
    requires InArena(nodes, pool) && 1 <= layer && EdgesMapped(m, edges, layer)
  {
    if edges == [] then []
    else
      assert edges[|edges| - 1] in edges;
      ProjectedLinks(nodes, pool, m, edges[..|edges| - 1], layer) + KeepProper(Candidate(nodes, pool, m, edges[|edges| - 1], layer))
  }

  /**
   * `GraphPart.getWeightedLinks` (the cluster filter at app.js:727 tests an
   * undeclared `graph`, so it never applies): project, drop unmatched and
   * self links, fold with `weightLink`.
   */
  method GetWeightedLinks(nodes: seq<NodeState>, pool: seq<nat>, m: NodeMapping, edges: seq<RawEdge>, layer: nat)
    returns (weightedLinks: seq<Link>)
    requires InArena(nodes, pool) && 1 <= layer && EdgesMapped(m, edges, layer)
    ensures weightedLinks == Aggregate(ProjectedLinks(nodes, pool, m, edges, layer))
  {
    var candidates := ProjectedLinks(nodes, pool, m, edges, layer);
    weightedLinks := [];
    for k := 0 to |candidates|
      invariant weightedLinks == Aggregate(candidates[..k])
    {
      assert candidates[..k + 1][..k] == candidates[..k];
      weightedLinks := WeightLink(candidates[k], weightedLinks);
    }
    assert candidates[..|candidates|] == candidates;
  }

  lemma {:induction false} ProjectedLinksProper(nodes: seq<NodeState>, pool: seq<nat>, m: NodeMapping, edges: seq<RawEdge>, layer: nat)
    requires InArena(nodes, pool) && 1 <= layer && EdgesMapped(m, edges, layer)
    ensures |ProjectedLinks(nodes, pool, m, edges, layer)| <= |edges|
    ensures forall l :: l in ProjectedLinks(nodes, pool, m, edges, layer) ==>
              l.source in pool && l.target in pool && l.source != l.target
  {
    if edges != [] {
      ProjectedLinksProper(nodes, pool, m, edges[..|edges| - 1], layer);
    }
  }

  /**
   * Every link `getWeightedLinks` returns joins two distinct nodes of the part,
   * no two share an unordered pair, and the weights add up to the number of
   * edges that survived the lookup and self-link filters.
   */
  lemma WeightedLinksWellFormed(nodes: seq<NodeState>, pool: seq<nat>, m: NodeMapping, edges: seq<RawEdge>, layer: nat)
    requires InArena(nodes, pool) && 1 <= layer && EdgesMapped(m, edges, layer)
    ensures var r := Aggregate(ProjectedLinks(nodes, pool, m, edges, layer));
      && NoDuplicatePairs(r)
      && TotalWeight(r) == |ProjectedLinks(nodes, pool, m, edges, layer)| <= |edges|
      && forall k :: 0 <= k < |r| ==> r[k].source in pool && r[k].target in pool && r[k].source != r[k].target
  {
    var cs := ProjectedLinks(nodes, pool, m, edges, layer);
    ProjectedLinksProper(nodes, pool, m, edges, layer);
    AggregateSummarises(cs);
    AggregateTotalWeight(cs);
    AggregateFromInputs(cs);
    var r := Aggregate(cs);
    forall k | 0 <= k < |r| ensures r[k].source in pool && r[k].target in pool && r[k].source != r[k].target {
      var j :| 0 <= j < |cs| && r[k] == cs[j].(weight := r[k].weight);
      assert cs[j] in cs;
    }
  }

  /** A raw edge whose projected endpoint is not among the part's nodes is silently dropped. */
  lemma DroppedEdge(nodes: seq<NodeState>, pool: seq<nat>, m: NodeMapping, edges: seq<RawEdge>, e: RawEdge, layer: nat)
    requires InArena(nodes, pool) && 1 <= layer && EdgesMapped(m, edges, layer)
    requires Mapped(m, e.source, layer) && Mapped(m, e.target, layer)
    requires (forall k :: 0 <= k < |pool| ==> nodes[pool[k]].name != Project(m, e.source, layer))
          || (forall k :: 0 <= k < |pool| ==> nodes[pool[k]].name != Project(m, e.target, layer))
    ensures EdgesMapped(m, edges + [e], layer)
    ensures ProjectedLinks(nodes, pool, m, edges + [e], layer) == ProjectedLinks(nodes, pool, m, edges, layer)
  {
    assert (edges + [e])[..|edges|] == edges;
  }

  /** Every leaf that projects onto a pool node at `layer` lies in the cluster one layer up. */
  ghost predicate PoolWithinCluster(nodes: seq<NodeState>, pool: seq<nat>, m: NodeMapping, layer: nat, clusterName: string)
    requires InArena(nodes, pool) && 2 <= layer
  {
    forall k, leaf :: 0 <= k < |pool| && Mapped(m, leaf, layer) && Project(m, leaf, layer) == nodes[pool[k]].name ==>
      Project(m, leaf, layer - 1) == clusterName
  }

  lemma ProjectedLinksSnoc(nodes: seq<NodeState>, pool: seq<nat>, m: NodeMapping, edges: seq<RawEdge>, e: RawEdge, layer: nat)
    requires InArena(nodes, pool) && 1 <= layer && EdgesMapped(m, edges, layer)
    requires Mapped(m, e.source, layer) && Mapped(m, e.target, layer)
    ensures EdgesMapped(m, edges + [e], layer)
    ensures ProjectedLinks(nodes, pool, m, edges + [e], layer)
            == ProjectedLinks(nodes, pool, m, edges, layer) + KeepProper(Candidate(nodes, pool, m, e, layer))
  {
    assert (edges + [e])[..|edges|] == edges;
  }

  /** An edge with an end outside the cluster finds no pool node for that end. */
  lemma OutsideClusterDropped(nodes: seq<NodeState>, pool: seq<nat>, m: NodeMapping, e: RawEdge, layer: nat, clusterName: string)
    requires InArena(nodes, pool) && 2 <= layer && PoolWithinCluster(nodes, pool, m, layer, clusterName)
    requires Mapped(m, e.source, layer) && Mapped(m, e.target, layer)
    requires !IsInCluster(m, e.source, clusterName, layer - 1) || !IsInCluster(m, e.target, clusterName, layer - 1)
    ensures Candidate(nodes, pool, m, e, layer).None?
  {
    if !IsInCluster(m, e.source, clusterName, layer - 1) {
      assert FindNode(nodes, pool, Project(m, e.source, layer)).None?;
    } else {
      assert FindNode(nodes, pool, Project(m, e.target, layer)).None?;
    }
  }

  /**
   * The cluster filter that app.js:727 skips loses nothing when the pool holds
   * only nodes of the cluster: projecting all edges gives the same links as
   * projecting the cluster's edges.
   */
  lemma {:induction false} ClusterFilterRedundant(nodes: seq<NodeState>, pool: seq<nat>, m: NodeMapping, edges: seq<RawEdge>, layer: nat, clusterName: string)
    requires InArena(nodes, pool) && 2 <= layer && EdgesMapped(m, edges, layer)
    requires PoolWithinCluster(nodes, pool, m, layer, clusterName)
    ensures EdgesMapped(m, ClusterEdges(m, edges, clusterName, layer - 1), layer)
    ensures ProjectedLinks(nodes, pool, m, ClusterEdges(m, edges, clusterName, layer - 1), layer)
            == ProjectedLinks(nodes, pool, m, edges, layer)
  {
    if edges != [] {
      var init, e := edges[..|edges| - 1], edges[|edges| - 1];
      assert e in edges;
      ClusterFilterRedundant(nodes, pool, m, init, layer, clusterName);
      var ci := ClusterEdges(m, init, clusterName, layer - 1);
      if IsInCluster(m, e.source, clusterName, layer - 1) && IsInCluster(m, e.target, clusterName, layer - 1) {
        assert ClusterEdges(m, edges, clusterName, layer - 1) == ci + [e];
        ProjectedLinksSnoc(nodes, pool, m, ci, e, layer);
      } else {
        assert ClusterEdges(m, edges, clusterName, layer - 1) == ci;
        OutsideClusterDropped(nodes, pool, m, e, layer, clusterName);
      }
    }
  }

  /** A raw edge between two different open clusters of layer `currentLayer`. */
  predicate IsCrossEdge(m: NodeMapping, e: RawEdge, currentLayer: nat, openNodeNames: seq<string>)
    requires 1 <= currentLayer && Mapped(m, e.source, currentLayer) && Mapped(m, e.target, currentLayer)
  {
    var layeredSourceParentId := Project(m, e.source, currentLayer);
    var layeredTargetParentId := Project(m, e.target, currentLayer);
    layeredSourceParentId != layeredTargetParentId
      && layeredSourceParentId in openNodeNames && layeredTargetParentId in openNodeNames
  }

  /** The `map` step of `getCrossConnectionLinks`. */
  function CrossCandidate(nodes: seq<NodeState>, pool: seq<nat>, m: NodeMapping, e: RawEdge, currentLayer: nat, openNodeNames: seq<string>): Option<Link>
    requires InArena(nodes, pool) && 1 <= currentLayer
    requires Mapped(m, e.source, currentLayer + 1) && Mapped(m, e.target, currentLayer + 1)
  {
    if IsCrossEdge(m, e, currentLayer, openNodeNames) then
      var sourceNode := FindNode(nodes, pool, Project(m, e.source, currentLayer + 1));
      var targetNode := FindNode(nodes, pool, Project(m, e.target, currentLayer + 1));
      if sourceNode.Some? && targetNode.Some? then Some(Link(sourceNode.value, targetNode.value, e.date, 0, false))
      else None
    else None
  }

  /** The `filter(link => link && link.source.name !== link.target.name)` step. */
  function KeepNamed(nodes: seq<NodeState>, c: Option<Link>): seq<Link>
    requires c.Some? ==> c.value.source < |nodes| && c.value.target < |nodes|
  {
    if c.Some? && nodes[c.value.source].name != nodes[c.value.target].name then [c.value] else []
  }

  /** The map/filter part of `getCrossConnectionLinks`, before the `weightLink` fold. */
  function CrossCandidates(nodes: seq<NodeState>, pool: seq<nat>, m: NodeMapping, edges: seq<RawEdge>, currentLayer: nat, openNodeNames: seq<string>): seq<Link>
    requires InArena(nodes, pool) && 1 <= currentLayer && EdgesMapped(m, edges, currentLayer + 1)
  {
    if edges == [] then []
    else
      var e := edges[|edges| - 1];
      assert e in edges;
      var c := CrossCandidate(nodes, pool, m, e, currentLayer, openNodeNames);
      CrossCandidates(nodes, pool, m, edges[..|edges| - 1], currentLayer, openNodeNames) + KeepNamed(nodes, c)
  }

  /** `Graph.getCrossConnectionLinks`: the bridge links between the children of open clusters. */
  method GetCrossConnectionLinks(nodes: seq<NodeState>, pool: seq<nat>, m: NodeMapping, edges: seq<RawEdge>, currentLayer: nat, openNodeNames: seq<string>)
    returns (weightedLinks: seq<Link>)
    requires InArena(nodes, pool) && 1 <= currentLayer && EdgesMapped(m, edges, currentLayer + 1)
    ensures weightedLinks == Aggregate(CrossCandidates(nodes, pool, m, edges, currentLayer, openNodeNames))
  {
    var candidates := CrossCandidates(nodes, pool, m, edges, currentLayer, openNodeNames);
    weightedLinks := [];
    for k := 0 to |candidates|
      invariant weightedLinks == Aggregate(candidates[..k])
    {
      assert candidates[..k + 1][..k] == candidates[..k];
      weightedLinks := WeightLink(candidates[k], weightedLinks);
    }
    assert candidates[..|candidates|] == candidates;
  }

  /** The bridge `l` comes from raw edge `e`. */
  ghost predicate BridgeFrom(nodes: seq<NodeState>, pool: seq<nat>, m: NodeMapping, e: RawEdge, currentLayer: nat, openNodeNames: seq<string>, l: Link)
    requires InArena(nodes, pool) && 1 <= currentLayer
    requires Mapped(m, e.source, currentLayer + 1) && Mapped(m, e.target, currentLayer + 1)
  {
    && IsCrossEdge(m, e, currentLayer, openNodeNames)
    && FindNode(nodes, pool, Project(m, e.source, currentLayer + 1)) == Some(l.source)
    && FindNode(nodes, pool, Project(m, e.target, currentLayer + 1)) == Some(l.target)
    && Project(m, e.source, currentLayer + 1) != Project(m, e.target, currentLayer + 1)
  }

  lemma {:induction false} CrossCandidatesFromEdges(nodes: seq<NodeState>, pool: seq<nat>, m: NodeMapping, edges: seq<RawEdge>, currentLayer: nat, openNodeNames: seq<string>)
    requires InArena(nodes, pool) && 1 <= currentLayer && EdgesMapped(m, edges, currentLayer + 1)
    ensures |CrossCandidates(nodes, pool, m, edges, currentLayer, openNodeNames)| <= |edges|
    ensures forall l :: l in CrossCandidates(nodes, pool, m, edges, currentLayer, openNodeNames) ==>
              exists e :: e in edges && BridgeFrom(nodes, pool, m, e, currentLayer, openNodeNames, l)
  {
    if edges != [] {
      var init, e := edges[..|edges| - 1], edges[|edges| - 1];
      CrossCandidatesFromEdges(nodes, pool, m, init, currentLayer, openNodeNames);
      assert e in edges;
      forall l | l in CrossCandidates(nodes, pool, m, edges, currentLayer, openNodeNames)
        ensures exists e' :: e' in edges && BridgeFrom(nodes, pool, m, e', currentLayer, openNodeNames, l)
      {
        if l in CrossCandidates(nodes, pool, m, init, currentLayer, openNodeNames) {
          var e' :| e' in init && BridgeFrom(nodes, pool, m, e', currentLayer, openNodeNames, l);
          assert e' in edges;
        } else {
          assert BridgeFrom(nodes, pool, m, e, currentLayer, openNodeNames, l);
        }
      }
    }
  }

  /**
   * Every bridge link comes from a raw edge whose ancestors at `currentLayer`
   * differ and are both open, its endpoints are the pool nodes found under the
   * two (different) child-layer names, and the result is deduplicated and
   * weighted as `weightLink` does.
   */
  lemma CrossConnectionLinksSound(nodes: seq<NodeState>, pool: seq<nat>, m: NodeMapping, edges: seq<RawEdge>, currentLayer: nat, openNodeNames: seq<string>)
    requires InArena(nodes, pool) && 1 <= currentLayer && EdgesMapped(m, edges, currentLayer + 1)
    ensures var r := Aggregate(CrossCandidates(nodes, pool, m, edges, currentLayer, openNodeNames));
      && NoDuplicatePairs(r)
      && TotalWeight(r) == |CrossCandidates(nodes, pool, m, edges, currentLayer, openNodeNames)| <= |edges|
      && forall k :: 0 <= k < |r| ==> exists e :: e in edges && BridgeFrom(nodes, pool, m, e, currentLayer, openNodeNames, r[k])
  {
    var cs := CrossCandidates(nodes, pool, m, edges, currentLayer, openNodeNames);
    CrossCandidatesFromEdges(nodes, pool, m, edges, currentLayer, openNodeNames);
    AggregateSummarises(cs);
    AggregateTotalWeight(cs);
    AggregateFromInputs(cs);
    var r := Aggregate(cs);
    forall k | 0 <= k < |r| ensures exists e :: e in edges && BridgeFrom(nodes, pool, m, e, currentLayer, openNodeNames, r[k]) {
      var j :| 0 <= j < |cs| && r[k] == cs[j].(weight := r[k].weight);
      assert cs[j] in cs;
      var e :| e in edges && BridgeFrom(nodes, pool, m, e, currentLayer, openNodeNames, cs[j]);
      assert BridgeFrom(nodes, pool, m, e, currentLayer, openNodeNames, r[k]);
    }
  }

  /**
   * What one raw edge contributes in `updateSelectedNodeNeighbourCount`: the
   * selected-layer id at the far end of an edge whose one end lies in the
   * selected node and whose other end projects onto this node. The `else if`
   * means an edge whose source lies in the selected node is only looked at
   * from the source side.
   */
  function NeighbourOf(m: NodeMapping, e: RawEdge, layer: nat, name: string, selectedLayer: nat, selectedName: string): Option<string>
    requires 1 <= layer && 1 <= selectedLayer
    requires Mapped(m, e.source, layer) && Mapped(m, e.target, layer)
    requires Mapped(m, e.source, selectedLayer) && Mapped(m, e.target, selectedLayer)
  {
    var layeredSourceId := Project(m, e.source, layer);
    var layeredTargetId := Project(m, e.target, layer);
    var layeredSelectionSourceId := Project(m, e.source, selectedLayer);
    var layeredSelectionTargetId := Project(m, e.target, selectedLayer);
    if layeredSelectionSourceId == selectedName then
      (if layeredTargetId == name then Some(layeredSelectionTargetId) else None)
    else if layeredSelectionTargetId == selectedName then
      (if layeredSourceId == name then Some(layeredSelectionSourceId) else None)
    else None
  }

  ghost predicate NeighbourArgsOk(m: NodeMapping, edges: seq<RawEdge>, layer: nat, selectedLayer: nat)
  {
    1 <= layer && 1 <= selectedLayer && EdgesMapped(m, edges, layer) && EdgesMapped(m, edges, selectedLayer)
  }

  /** The distinct ids that the edges contribute. */
  ghost function NeighbourIds(m: NodeMapping, edges: seq<RawEdge>, layer: nat, name: string, selectedLayer: nat, selectedName: string): set<string>
    requires NeighbourArgsOk(m, edges, layer, selectedLayer)
  {
    set e | e in edges && NeighbourOf(m, e, layer, name, selectedLayer, selectedName).Some?
      :: NeighbourOf(m, e, layer, name, selectedLayer, selectedName).value
  }

  lemma {:induction false} DistinctCardinality(s: seq<string>)
    requires forall a, b :: 0 <= a < b < |s| ==> s[a] != s[b]
    ensures |set x | x in s| == |s|
  {
    if s != [] {
      var init := s[..|s| - 1];
      DistinctCardinality(init);
      assert (set x | x in s) == (set x | x in init) + {s[|s| - 1]};
      assert s[|s| - 1] !in init;
    }
  }

  /**
   * The loop of `updateSelectedNodeNeighbourCount`: collects each contributed id
   * once, so the count it stores is the number of distinct contributed ids.
   */
  method CollectNeighbourNames(m: NodeMapping, edges: seq<RawEdge>, layer: nat, name: string, selectedLayer: nat, selectedName: string)
    returns (neighbourNames: seq<string>)
    requires NeighbourArgsOk(m, edges, layer, selectedLayer)
    ensures forall a, b :: 0 <= a < b < |neighbourNames| ==> neighbourNames[a] != neighbourNames[b]
    ensures forall id :: id in neighbourNames <==> id in NeighbourIds(m, edges, layer, name, selectedLayer, selectedName)
    ensures |neighbourNames| == |NeighbourIds(m, edges, layer, name, selectedLayer, selectedName)|
  {
    neighbourNames := [];
    var k := 0;
    while k < |edges|
      invariant 0 <= k <= |edges|
      invariant forall a, b :: 0 <= a < b < |neighbourNames| ==> neighbourNames[a] != neighbourNames[b]
      invariant forall id :: id in neighbourNames <==> id in NeighbourIds(m, edges[..k], layer, name, selectedLayer, selectedName)
    {
      assert forall e :: e in edges[..k + 1] <==> e in edges[..k] || e == edges[k];
      assert edges[k] in edges;
      var c := NeighbourOf(m, edges[k], layer, name, selectedLayer, selectedName);
      if c.Some? && c.value !in neighbourNames {
        neighbourNames := neighbourNames + [c.value];
      }
      k := k + 1;
    }
    assert edges[..k] == edges;
    DistinctCardinality(neighbourNames);
    assert (set x | x in neighbourNames) == NeighbourIds(m, edges, layer, name, selectedLayer, selectedName);
  }
}
