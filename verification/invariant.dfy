/**
 * The structural invariant of the explorer state, over plain values: the
 * dataset, the time-filtered edges, the node arena, the top-level open list,
 * the registry of graph parts, the cross-connection node cache and the
 * selection.
 */
module StateInvariant {
  import opened Wrappers
  import opened Data
  import opened Entities
  import opened Hierarchy

  /** Every index the caches (links and nodes) and the selection hold names a node of an arena of `size` nodes. */
  ghost predicate IndicesIn(crossLinks: map<nat, seq<Link>>, crossNodes: map<nat, seq<nat>>, selected: Option<nat>, neighbours: seq<nat>,
                            size: nat)
  {
    && (forall L, k :: L in crossLinks && 0 <= k < |crossLinks[L]| ==> crossLinks[L][k].source < size && crossLinks[L][k].target < size)
    && (forall L, k :: L in crossNodes && 0 <= k < |crossNodes[L]| ==> crossNodes[L][k] < size)
    && (selected.Some? ==> selected.value < size)
    && (forall k :: 0 <= k < |neighbours| ==> neighbours[k] < size)
  }

  /**
   * Well-formed dataset and filtered edges, well-formed nodes, top-level open
   * list and registry, cache and selection indices inside the arena, and an
   * activated selection that has a selected node.
   */
  ghost predicate CoreState(data: GraphData, bare: seq<RawEdge>, ns: seq<NodeState>, top: seq<nat>, parts: map<string, GraphPart>,
                            crossLinks: map<nat, seq<Link>>, crossNodes: map<nat, seq<nat>>, selected: Option<nat>, neighbours: seq<nat>, activated: bool)
  {
    && WellFormed(data)
    && EdgesMapped(data.nodeMapping, bare, data.numberOfLayers)
    && NodesOk(ns, data.numberOfLayers)
    && OpenListOk(ns, top, None, data.numberOfLayers)
    && PartsOk(ns, parts, data.numberOfLayers)
    && IndicesIn(crossLinks, crossNodes, selected, neighbours, |ns|)
    && (activated ==> selected.Some?)
  }

  /** The invariant only asks of the registry that it be well formed. */
  lemma CoreStateParts(data: GraphData, bare: seq<RawEdge>, ns: seq<NodeState>, top: seq<nat>, parts: map<string, GraphPart>,
                       parts': map<string, GraphPart>, crossLinks: map<nat, seq<Link>>, crossNodes: map<nat, seq<nat>>, selected: Option<nat>, neighbours: seq<nat>,
                       activated: bool)
    requires CoreState(data, bare, ns, top, parts, crossLinks, crossNodes, selected, neighbours, activated)
    requires PartsOk(ns, parts', data.numberOfLayers)
    ensures CoreState(data, bare, ns, top, parts', crossLinks, crossNodes, selected, neighbours, activated)
  {
  }

  /** The invariant only asks of the selection that its indices lie in the arena and that an activated one has a node. */
  lemma CoreStateSelection(data: GraphData, bare: seq<RawEdge>, ns: seq<NodeState>, top: seq<nat>, parts: map<string, GraphPart>,
                           crossLinks: map<nat, seq<Link>>, crossNodes: map<nat, seq<nat>>, selected: Option<nat>, neighbours: seq<nat>,
                           activated: bool, selected': Option<nat>, neighbours': seq<nat>, activated': bool)
    requires CoreState(data, bare, ns, top, parts, crossLinks, crossNodes, selected, neighbours, activated)
    requires selected'.Some? ==> selected'.value < |ns|
    requires forall k :: 0 <= k < |neighbours'| ==> neighbours'[k] < |ns|
    requires activated' ==> selected'.Some?
    ensures CoreState(data, bare, ns, top, parts, crossLinks, crossNodes, selected', neighbours', activated')
  {
  }

  /** The invariant only asks of the cross-connection caches that their indices lie in the arena. */
  lemma CoreStateCaches(data: GraphData, bare: seq<RawEdge>, ns: seq<NodeState>, top: seq<nat>, parts: map<string, GraphPart>,
                        crossLinks: map<nat, seq<Link>>, crossNodes: map<nat, seq<nat>>, selected: Option<nat>, neighbours: seq<nat>,
                        activated: bool, crossLinks': map<nat, seq<Link>>, crossNodes': map<nat, seq<nat>>)
    requires CoreState(data, bare, ns, top, parts, crossLinks, crossNodes, selected, neighbours, activated)
    requires forall L, k :: L in crossLinks' && 0 <= k < |crossLinks'[L]| ==> crossLinks'[L][k].source < |ns| && crossLinks'[L][k].target < |ns|
    requires forall L, k :: L in crossNodes' && 0 <= k < |crossNodes'[L]| ==> crossNodes'[L][k] < |ns|
    ensures CoreState(data, bare, ns, top, parts, crossLinks', crossNodes', selected, neighbours, activated)
  {
  }

  /** Storing one layer's entries, when they lie in the arena, keeps the invariant. */
  lemma StoreKeepsCore(data: GraphData, bare: seq<RawEdge>, ns: seq<NodeState>, top: seq<nat>, parts: map<string, GraphPart>,
                       crossLinks: map<nat, seq<Link>>, crossNodes: map<nat, seq<nat>>, selected: Option<nat>, neighbours: seq<nat>,
                       activated: bool, L: nat, links: seq<Link>, pool: seq<nat>)
    requires CoreState(data, bare, ns, top, parts, crossLinks, crossNodes, selected, neighbours, activated)
    requires LinksIn(links, |ns|) && forall k :: 0 <= k < |pool| ==> pool[k] < |ns|
    ensures CoreState(data, bare, ns, top, parts, crossLinks[L := links], crossNodes[L := pool], selected, neighbours, activated)
  {
    CoreStateCaches(data, bare, ns, top, parts, crossLinks, crossNodes, selected, neighbours, activated,
                    crossLinks[L := links], crossNodes[L := pool]);
  }

  /** The invariant only asks of the time-filtered edges that every endpoint be mapped. */
  lemma CoreStateFilter(data: GraphData, bare: seq<RawEdge>, ns: seq<NodeState>, top: seq<nat>, parts: map<string, GraphPart>,
                        crossLinks: map<nat, seq<Link>>, crossNodes: map<nat, seq<nat>>, selected: Option<nat>, neighbours: seq<nat>,
                        activated: bool, bare': seq<RawEdge>)
    requires CoreState(data, bare, ns, top, parts, crossLinks, crossNodes, selected, neighbours, activated)
    requires EdgesMapped(data.nodeMapping, bare', data.numberOfLayers)
    ensures CoreState(data, bare', ns, top, parts, crossLinks, crossNodes, selected, neighbours, activated)
  {
  }
}
