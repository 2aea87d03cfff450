/**
 * The value-level pieces of `Graph.update` and `Graph.updateOpenNodes` in
 * Scripts/app.js: the pool of candidate child nodes, the concatenated open
 * lists one layer down, and the facts that the recomputed links depend only
 * on node names.
 */
module Refresh {
  import opened Wrappers
  import opened Data
  import opened Entities
  import opened Aggregation
  import opened Projection
  import opened Hierarchy

  /** Looking a name up only reads names. */
  lemma {:induction false} FindNodeShape(a: seq<NodeState>, b: seq<NodeState>, pool: seq<nat>, name: string)
    requires SameShape(a, b) && InArena(a, pool)
    ensures InArena(b, pool) && FindNode(a, pool, name) == FindNode(b, pool, name)
  {
    if pool != [] {
      FindNodeShape(a, b, pool[1..], name);
    }
  }

  /** The projected links of a part only read names, so flags and marks do not change them. */
  lemma {:induction false} ProjectedLinksShape(a: seq<NodeState>, b: seq<NodeState>, pool: seq<nat>, m: NodeMapping, edges: seq<RawEdge>, layer: nat)
    requires SameShape(a, b) && InArena(a, pool) && 1 <= layer && EdgesMapped(m, edges, layer)
    ensures InArena(b, pool) && ProjectedLinks(a, pool, m, edges, layer) == ProjectedLinks(b, pool, m, edges, layer)
  {
    if edges != [] {
      var e := edges[|edges| - 1];
      assert e in edges;
      ProjectedLinksShape(a, b, pool, m, edges[..|edges| - 1], layer);
      FindNodeShape(a, b, pool, Project(m, e.source, layer));
      FindNodeShape(a, b, pool, Project(m, e.target, layer));
    }
  }

  /** The same for the bridge candidates. */
  lemma {:induction false} CrossCandidatesShape(a: seq<NodeState>, b: seq<NodeState>, pool: seq<nat>, m: NodeMapping, edges: seq<RawEdge>,
                                                 currentLayer: nat, openNodeNames: seq<string>)
    requires SameShape(a, b) && InArena(a, pool) && 1 <= currentLayer && EdgesMapped(m, edges, currentLayer + 1)
    ensures InArena(b, pool)
    ensures CrossCandidates(a, pool, m, edges, currentLayer, openNodeNames) == CrossCandidates(b, pool, m, edges, currentLayer, openNodeNames)
  {
    if edges != [] {
      var e := edges[|edges| - 1];
      assert e in edges;
      CrossCandidatesShape(a, b, pool, m, edges[..|edges| - 1], currentLayer, openNodeNames);
      FindNodeShape(a, b, pool, Project(m, e.source, currentLayer + 1));
      FindNodeShape(a, b, pool, Project(m, e.target, currentLayer + 1));
    }
  }

  /** The bridge links join nodes of the candidate pool. */
  lemma CrossLinksInPool(nodes: seq<NodeState>, pool: seq<nat>, m: NodeMapping, edges: seq<RawEdge>, currentLayer: nat, openNodeNames: seq<string>)
    requires InArena(nodes, pool) && 1 <= currentLayer && EdgesMapped(m, edges, currentLayer + 1)
    ensures LinksIn(Aggregate(CrossCandidates(nodes, pool, m, edges, currentLayer, openNodeNames)), |nodes|)
  {
    CrossConnectionLinksSound(nodes, pool, m, edges, currentLayer, openNodeNames);
    var r := Aggregate(CrossCandidates(nodes, pool, m, edges, currentLayer, openNodeNames));
    forall k | 0 <= k < |r| ensures r[k].source < |nodes| && r[k].target < |nodes| {
      var e :| e in edges && BridgeFrom(nodes, pool, m, e, currentLayer, openNodeNames, r[k]);
    }
  }

  /** Node `n` belongs to a registry entry on `layer`. */
  ghost predicate InLayerPart(parts: map<string, GraphPart>, layer: nat, n: nat)
  {
    exists key :: key in parts && parts[key].layer == layer && n in parts[key].nodes
  }

  /**
   * `allAvailableChildLayerNodes`: the nodes of every registry entry on
   * `layer`, concatenated in the (unmodelled) iteration order of the map.
   */
  method ChildLayerPool(parts: map<string, GraphPart>, layer: nat) returns (pool: seq<nat>)
    ensures forall n :: n in pool <==> InLayerPart(parts, layer, n)
  {
    pool := [];
    var remaining := parts.Keys;
    while remaining != {}
      invariant remaining <= parts.Keys
      invariant forall n :: n in pool <==> exists key :: key in parts && key !in remaining && parts[key].layer == layer && n in parts[key].nodes
      decreases |remaining|
    {
      var key :| key in remaining;
      if parts[key].layer == layer {
        pool := pool + parts[key].nodes;
      }
      remaining := remaining - {key};
    }
  }

  /** The pool lies in the arena. */
  lemma PoolInArena(nodes: seq<NodeState>, parts: map<string, GraphPart>, N: nat, layer: nat, pool: seq<nat>)
    requires PartsOk(nodes, parts, N)
    requires forall n :: n in pool ==> InLayerPart(parts, layer, n)
    ensures InArena(nodes, pool)
  {
    forall k | 0 <= k < |pool| ensures pool[k] < |nodes| {
      assert pool[k] in pool;
      var key :| key in parts && parts[key].layer == layer && pool[k] in parts[key].nodes;
      assert PartOk(nodes, key, parts[key], N);
    }
  }

  /** `Array.from(openNodeDrawingComponents, ondc => ondc.datum().name)`. */
  function ListNames(nodes: seq<NodeState>, list: seq<nat>): (r: seq<string>)
    requires InArena(nodes, list)
    ensures |r| == |list| && forall k :: 0 <= k < |r| ==> r[k] == nodes[list[k]].name
  {
    seq(|list|, k requires 0 <= k < |list| => nodes[list[k]].name)
  }

  /** The open lists of the listed nodes, concatenated in order. */
  function ChildOpenLists(nodes: seq<NodeState>, list: seq<nat>): seq<nat>
    requires InArena(nodes, list)
  {
    if list == [] then [] else ChildOpenLists(nodes, list[..|list| - 1]) + nodes[list[|list| - 1]].openNodes
  }

  /** Node `c` is an open child, on layer `L + 1`, of a node of `list`. */
  ghost predicate ChildOf(nodes: seq<NodeState>, c: nat, N: nat, L: nat, list: seq<nat>)
  {
    && c < |nodes| && nodes[c].layer == L + 1 && nodes[c].layer < N
    && nodes[c].parent.Some? && nodes[c].parent.value in list
  }

  /** Every node of a list on layer `L` is a child of a listed node, on layer `L + 1`. */
  lemma {:induction false} ChildOpenListsLayer(nodes: seq<NodeState>, list: seq<nat>, N: nat, L: nat)
    requires NodesOk(nodes, N)
    requires forall k :: 0 <= k < |list| ==> list[k] < |nodes| && nodes[list[k]].layer == L
    ensures forall c :: c in ChildOpenLists(nodes, list) ==> ChildOf(nodes, c, N, L, list)
  {
    if list != [] {
      var init, last := list[..|list| - 1], list[|list| - 1];
      ChildOpenListsLayer(nodes, init, N, L);
      assert OpenListOk(nodes, nodes[last].openNodes, Some(last), N);
      assert ChildOpenLists(nodes, list) == ChildOpenLists(nodes, init) + nodes[last].openNodes;
      forall c | c in ChildOpenLists(nodes, list) ensures ChildOf(nodes, c, N, L, list) {
        if c in ChildOpenLists(nodes, init) {
          assert ChildOf(nodes, c, N, L, init);
          assert nodes[c].parent.value in init;
        } else {
          var k :| 0 <= k < |nodes[last].openNodes| && nodes[last].openNodes[k] == c;
          assert ParentOk(nodes, c, N);
        }
      }
    }
  }

  /** `openNodeDrawingComponents.forEach(ondc => all = all.concat(ondc.datum().openNodes))`. */
  method CollectChildOpenLists(nodes: seq<NodeState>, list: seq<nat>) returns (all: seq<nat>)
    requires InArena(nodes, list)
    ensures all == ChildOpenLists(nodes, list)
  {
    all := [];
    for k := 0 to |list|
      invariant all == ChildOpenLists(nodes, list[..k])
    {
      assert list[..k + 1][..k] == list[..k];
      all := all + nodes[list[k]].openNodes;
    }
    assert list[..|list|] == list;
  }

  /** A registry entry after `updateLinks()`: its links recomputed from `edges`, all active. */
  ghost function Relinked(nodes: seq<NodeState>, m: NodeMapping, edges: seq<RawEdge>, part: GraphPart): GraphPart
    requires InArena(nodes, part.nodes) && 1 <= part.layer && EdgesMapped(m, edges, part.layer)
  {
    part.(links := SetLinksActive(Aggregate(ProjectedLinks(nodes, part.nodes, m, edges, part.layer)), true))
  }

  /** Recomputing only reads names, so it gives the same entry on any arena of the same shape. */
  lemma RelinkedShape(a: seq<NodeState>, b: seq<NodeState>, m: NodeMapping, edges: seq<RawEdge>, part: GraphPart)
    requires SameShape(a, b) && InArena(a, part.nodes) && 1 <= part.layer && EdgesMapped(m, edges, part.layer)
    ensures InArena(b, part.nodes) && Relinked(a, m, edges, part) == Relinked(b, m, edges, part)
  {
    ProjectedLinksShape(a, b, part.nodes, m, edges, part.layer);
  }

  /** The nodes of `list` are on layer `L`, one that still has a layer below it. */
  ghost predicate OnLayer(nodes: seq<NodeState>, list: seq<nat>, L: nat, N: nat)
  {
    forall k :: 0 <= k < |list| ==> list[k] < |nodes| && nodes[list[k]].layer == L && 1 <= L < N
  }

  /** The open lists one layer down from a list on layer `L` are on layer `L + 1`. */
  lemma ChildrenOnLayer(nodes: seq<NodeState>, list: seq<nat>, L: nat, N: nat)
    requires NodesOk(nodes, N) && OnLayer(nodes, list, L, N)
    ensures InArena(nodes, ChildOpenLists(nodes, list)) && OnLayer(nodes, ChildOpenLists(nodes, list), L + 1, N)
  {
    ChildOpenListsLayer(nodes, list, N, L);
    var r := ChildOpenLists(nodes, list);
    forall k | 0 <= k < |r| ensures r[k] < |nodes| && nodes[r[k]].layer == L + 1 && 1 <= L + 1 < N {
      assert r[k] in r;
    }
  }

  /** The cache entries of the layers below `L` are the same in both maps. */
  ghost predicate SameBelow<T>(a: map<nat, T>, b: map<nat, T>, L: nat)
  {
    forall L' :: L' < L ==> (L' in a <==> L' in b) && (L' in a ==> a[L'] == b[L'])
  }

  /** Replacing the entry of layer `L` and then changing only layers from `L + 1` down keeps the layers above `L`. */
  lemma SameBelowStep<T>(final: map<nat, T>, mid: map<nat, T>, start: map<nat, T>, L: nat)
    requires L in mid && mid == start[L := mid[L]] && SameBelow(final, mid, L + 1)
    ensures SameBelow(final, start, L) && L in final && final[L] == mid[L]
  {
  }

  /** The cache entries of layer `L` and every layer deeper are the same in both maps. */
  ghost predicate SameFrom<T>(a: map<nat, T>, b: map<nat, T>, L: nat)
  {
    forall L' :: L <= L' ==> (L' in a <==> L' in b) && (L' in a ==> a[L'] == b[L'])
  }

  /** Replacing the entry of layer `L` keeps every entry from `L + 1` on. */
  lemma SameFromUpdate<T>(mid: map<nat, T>, start: map<nat, T>, L: nat)
    requires L in mid && mid == start[L := mid[L]]
    ensures SameFrom(start, mid, L + 1)
  {
  }


  /**
   * The cache entries of layer `L` after the cache step of `updateOpenNodes`
   * for the open nodes `list` (app.js:610-625), starting from `links0` and
   * `pools0`: when asked to, or when an entry was missing, the pool holds
   * exactly the nodes of the parts one layer down and the links are the
   * active aggregate of the bridge candidates between the listed clusters;
   * otherwise both entries are kept.
   */
  ghost predicate CacheStep(nodes: seq<NodeState>, parts: map<string, GraphPart>, m: NodeMapping, bare: seq<RawEdge>, list: seq<nat>,
                            L: nat, recompute: bool, links0: map<nat, seq<Link>>, pools0: map<nat, seq<nat>>,
                            links: map<nat, seq<Link>>, pools: map<nat, seq<nat>>)
  {
    && L in links && L in pools
    && if recompute || L !in links0 || L !in pools0 then
         && (forall n :: n in pools[L] <==> InLayerPart(parts, L + 1, n))
         && InArena(nodes, pools[L]) && InArena(nodes, list) && 1 <= L && EdgesMapped(m, bare, L + 1)
         && links[L] == SetLinksActive(Aggregate(CrossCandidates(nodes, pools[L], m, bare, L, ListNames(nodes, list))), true)
       else
         links[L] == links0[L] && pools[L] == pools0[L]
  }

  /**
   * The caches of layer `L` and deeper after `updateOpenNodes(list)` on layer
   * `L`: the cache step for `list`, then, recursively, for the concatenated
   * open lists of the listed nodes one layer down (app.js:637-639). Once a
   * list is empty the recursion stops and the deeper entries are kept. The
   * arena is the one the pass starts from; the steps read only names and
   * open lists, which the pass does not change.
   */
  ghost predicate DeepCaches(nodes: seq<NodeState>, parts: map<string, GraphPart>, m: NodeMapping, bare: seq<RawEdge>, list: seq<nat>,
                             L: nat, recompute: bool, links0: map<nat, seq<Link>>, pools0: map<nat, seq<nat>>,
                             links: map<nat, seq<Link>>, pools: map<nat, seq<nat>>, N: nat)
    decreases N - L
  {
    if |list| > 0 && L < N && InArena(nodes, list) then
      && CacheStep(nodes, parts, m, bare, list, L, recompute, links0, pools0, links, pools)
      && DeepCaches(nodes, parts, m, bare, ChildOpenLists(nodes, list), L + 1, recompute, links0, pools0, links, pools, N)
    else
      SameFrom(links, links0, L) && SameFrom(pools, pools0, L)
  }

  /** A cache step stays stated when later steps keep its layer's entries. */
  lemma CacheStepKept(nodes: seq<NodeState>, parts: map<string, GraphPart>, m: NodeMapping, bare: seq<RawEdge>, list: seq<nat>,
                      L: nat, recompute: bool, links0: map<nat, seq<Link>>, pools0: map<nat, seq<nat>>,
                      links: map<nat, seq<Link>>, pools: map<nat, seq<nat>>, links': map<nat, seq<Link>>, pools': map<nat, seq<nat>>)
    requires CacheStep(nodes, parts, m, bare, list, L, recompute, links0, pools0, links, pools)
    requires L in links' && L in pools' && links'[L] == links[L] && pools'[L] == pools[L]
    ensures CacheStep(nodes, parts, m, bare, list, L, recompute, links0, pools0, links', pools')
  {
  }

  /** `SameStructure` is symmetric. */
  lemma StructureSymmetric(a: seq<NodeState>, b: seq<NodeState>)
    requires SameStructure(a, b)
    ensures SameStructure(b, a)
  {
  }

  /** The concatenated open lists read only the open lists, which marks leave alone. */
  lemma {:induction false} ChildOpenListsStructure(a: seq<NodeState>, b: seq<NodeState>, list: seq<nat>)
    requires SameStructure(a, b) && InArena(a, list)
    ensures InArena(b, list) && ChildOpenLists(a, list) == ChildOpenLists(b, list)
  {
    if list != [] {
      ChildOpenListsStructure(a, b, list[..|list| - 1]);
      assert b[list[|list| - 1]].openNodes == a[list[|list| - 1]].openNodes;
    }
  }

  /** One layer's cache step looks at the arena only through its structure and names. */
  lemma CacheStepTransfer(a: seq<NodeState>, b: seq<NodeState>, parts: map<string, GraphPart>, m: NodeMapping, bare: seq<RawEdge>,
                          list: seq<nat>, L: nat, recompute: bool, links0: map<nat, seq<Link>>, pools0: map<nat, seq<nat>>,
                          links0': map<nat, seq<Link>>, pools0': map<nat, seq<nat>>,
                          links: map<nat, seq<Link>>, pools: map<nat, seq<nat>>)
    requires SameStructure(a, b) && InArena(a, list) && SameFrom(links0, links0', L) && SameFrom(pools0, pools0', L)
    requires CacheStep(b, parts, m, bare, list, L, recompute, links0', pools0', links, pools)
    ensures CacheStep(a, parts, m, bare, list, L, recompute, links0, pools0, links, pools)
  {
    assert (L in links0 <==> L in links0') && (L in pools0 <==> L in pools0');
    if recompute || L !in links0' || L !in pools0' {
      assert SameShape(b, a);
      CrossCandidatesShape(b, a, pools[L], m, bare, L, ListNames(b, list));
      assert ListNames(b, list) == ListNames(a, list);
    } else {
      assert links0[L] == links0'[L] && pools0[L] == pools0'[L];
    }
  }

  /**
   * The deeper caches read only names and open lists of the arena, and only
   * the entries from layer `L` down of the starting maps: an arena that
   * differs in marks, and starting maps that agree from `L` down, give the
   * same statement.
   */
  lemma {:induction false} DeepCachesTransfer(a: seq<NodeState>, b: seq<NodeState>, parts: map<string, GraphPart>, m: NodeMapping,
                                              bare: seq<RawEdge>, list: seq<nat>, L: nat, recompute: bool,
                                              links0: map<nat, seq<Link>>, pools0: map<nat, seq<nat>>,
                                              links0': map<nat, seq<Link>>, pools0': map<nat, seq<nat>>,
                                              links: map<nat, seq<Link>>, pools: map<nat, seq<nat>>, N: nat)
    requires SameStructure(a, b) && SameFrom(links0, links0', L) && SameFrom(pools0, pools0', L)
    requires DeepCaches(b, parts, m, bare, list, L, recompute, links0', pools0', links, pools, N)
    ensures DeepCaches(a, parts, m, bare, list, L, recompute, links0, pools0, links, pools, N)
    decreases N - L
  {
    if |list| > 0 && L < N && InArena(a, list) {
      assert InArena(b, list);
      CacheStepTransfer(a, b, parts, m, bare, list, L, recompute, links0, pools0, links0', pools0', links, pools);
      ChildOpenListsStructure(a, b, list);
      DeepCachesTransfer(a, b, parts, m, bare, ChildOpenLists(a, list), L + 1, recompute, links0, pools0, links0', pools0', links, pools, N);
    } else {
      assert !InArena(b, list) ==> !InArena(a, list);
    }
  }

  /**
   * What `updateOpenNodes(list, recompute)` leaves in the caches, for the open
   * nodes `list` of layer `L`: the layers above `L` keep their entries, layer
   * `L` takes its cache step, and every deeper layer takes the step for the
   * open nodes one level further down (`DeepCaches`).
   */
  ghost predicate OpenPass(nodes: seq<NodeState>, parts: map<string, GraphPart>, m: NodeMapping, bare: seq<RawEdge>,
                           list: seq<nat>, L: nat, recompute: bool, links0: map<nat, seq<Link>>, pools0: map<nat, seq<nat>>,
                           links: map<nat, seq<Link>>, pools: map<nat, seq<nat>>, N: nat)
    requires InArena(nodes, list)
  {
    && SameBelow(links, links0, L) && SameBelow(pools, pools0, L)
    && CacheStep(nodes, parts, m, bare, list, L, recompute, links0, pools0, links, pools)
    && DeepCaches(nodes, parts, m, bare, ChildOpenLists(nodes, list), L + 1, recompute, links0, pools0, links, pools, N)
  }

  /** The pass on the open nodes of layer `L` gives the deeper caches from `L` on; no open node there changes nothing. */
  lemma PassBelow(nodes: seq<NodeState>, parts: map<string, GraphPart>, m: NodeMapping, bare: seq<RawEdge>, list: seq<nat>, L: nat,
                  recompute: bool, links0: map<nat, seq<Link>>, pools0: map<nat, seq<nat>>,
                  links: map<nat, seq<Link>>, pools: map<nat, seq<nat>>, N: nat)
    requires InArena(nodes, list)
    requires |list| > 0 ==> L < N && OpenPass(nodes, parts, m, bare, list, L, recompute, links0, pools0, links, pools, N)
    requires |list| == 0 ==> links == links0 && pools == pools0
    ensures DeepCaches(nodes, parts, m, bare, list, L, recompute, links0, pools0, links, pools, N)
  {
  }

  /**
   * One pass of `updateOpenNodes`: the cache step of layer `L` over the arena
   * `a`, then the recursive pass below it over the arena `b` the step left
   * (same structure), give the step and the deeper caches over `a` from the
   * starting caches.
   */
  lemma LayerThenDeeper(a: seq<NodeState>, b: seq<NodeState>, parts: map<string, GraphPart>, m: NodeMapping, bare: seq<RawEdge>,
                        list: seq<nat>, L: nat, recompute: bool, links0: map<nat, seq<Link>>, pools0: map<nat, seq<nat>>,
                        midLinks: map<nat, seq<Link>>, midPools: map<nat, seq<nat>>,
                        links: map<nat, seq<Link>>, pools: map<nat, seq<nat>>, N: nat)
    requires SameStructure(a, b) && InArena(a, list) && InArena(b, list)
    requires CacheStep(a, parts, m, bare, list, L, recompute, links0, pools0, midLinks, midPools)
    requires midLinks == links0[L := midLinks[L]] && midPools == pools0[L := midPools[L]]
    requires SameBelow(links, midLinks, L + 1) && SameBelow(pools, midPools, L + 1)
    requires DeepCaches(b, parts, m, bare, ChildOpenLists(b, list), L + 1, recompute, midLinks, midPools, links, pools, N)
    ensures OpenPass(a, parts, m, bare, list, L, recompute, links0, pools0, links, pools, N)
  {
    LayerKept(a, parts, m, bare, list, L, recompute, links0, pools0, midLinks, midPools, links, pools);
    DeeperKept(a, b, parts, m, bare, list, L, recompute, links0, pools0, midLinks, midPools, links, pools, N);
  }

  /** The pass below layer `L` leaves layer `L`'s entries, so its cache step and the layers above survive it. */
  lemma LayerKept(a: seq<NodeState>, parts: map<string, GraphPart>, m: NodeMapping, bare: seq<RawEdge>,
                  list: seq<nat>, L: nat, recompute: bool, links0: map<nat, seq<Link>>, pools0: map<nat, seq<nat>>,
                  midLinks: map<nat, seq<Link>>, midPools: map<nat, seq<nat>>,
                  links: map<nat, seq<Link>>, pools: map<nat, seq<nat>>)
    requires CacheStep(a, parts, m, bare, list, L, recompute, links0, pools0, midLinks, midPools)
    requires midLinks == links0[L := midLinks[L]] && midPools == pools0[L := midPools[L]]
    requires SameBelow(links, midLinks, L + 1) && SameBelow(pools, midPools, L + 1)
    ensures SameBelow(links, links0, L) && SameBelow(pools, pools0, L)
    ensures CacheStep(a, parts, m, bare, list, L, recompute, links0, pools0, links, pools)
  {
    SameBelowStep(links, midLinks, links0, L);
    SameBelowStep(pools, midPools, pools0, L);
    CacheStepKept(a, parts, m, bare, list, L, recompute, links0, pools0, midLinks, midPools, links, pools);
  }

  /** The pass below layer `L`, stated from the caches after layer `L`'s step over `b`, holds from the starting caches over `a`. */
  lemma DeeperKept(a: seq<NodeState>, b: seq<NodeState>, parts: map<string, GraphPart>, m: NodeMapping, bare: seq<RawEdge>,
                   list: seq<nat>, L: nat, recompute: bool, links0: map<nat, seq<Link>>, pools0: map<nat, seq<nat>>,
                   midLinks: map<nat, seq<Link>>, midPools: map<nat, seq<nat>>,
                   links: map<nat, seq<Link>>, pools: map<nat, seq<nat>>, N: nat)
    requires SameStructure(a, b) && InArena(a, list) && InArena(b, list)
    requires L in midLinks && L in midPools
    requires midLinks == links0[L := midLinks[L]] && midPools == pools0[L := midPools[L]]
    requires DeepCaches(b, parts, m, bare, ChildOpenLists(b, list), L + 1, recompute, midLinks, midPools, links, pools, N)
    ensures DeepCaches(a, parts, m, bare, ChildOpenLists(a, list), L + 1, recompute, links0, pools0, links, pools, N)
  {
    SameFromUpdate(midLinks, links0, L);
    SameFromUpdate(midPools, pools0, L);
    ChildOpenListsStructure(a, b, list);
    DeepCachesTransfer(a, b, parts, m, bare, ChildOpenLists(b, list), L + 1, recompute, links0, pools0, midLinks, midPools,
                       links, pools, N);
  }

  /** The open-node pass's outcome looks at the arena only through its structure and names. */
  lemma OpenPassTransfer(a: seq<NodeState>, b: seq<NodeState>, parts: map<string, GraphPart>, m: NodeMapping, bare: seq<RawEdge>,
                         list: seq<nat>, L: nat, recompute: bool, links0: map<nat, seq<Link>>, pools0: map<nat, seq<nat>>,
                         links: map<nat, seq<Link>>, pools: map<nat, seq<nat>>, N: nat)
    requires SameStructure(a, b) && InArena(b, list) && |list| > 0 && L < N
    requires OpenPass(b, parts, m, bare, list, L, recompute, links0, pools0, links, pools, N)
    ensures InArena(a, list) && OpenPass(a, parts, m, bare, list, L, recompute, links0, pools0, links, pools, N)
  {
    StructureSymmetric(a, b);
    ChildOpenListsStructure(b, a, list);
    assert DeepCaches(b, parts, m, bare, list, L, recompute, links0, pools0, links, pools, N);
    DeepCachesTransfer(a, b, parts, m, bare, list, L, recompute, links0, pools0, links0, pools0, links, pools, N);
  }

  /** A registry entry as `Graph.update` leaves it: relinked when the filter changed, as it was otherwise. */
  ghost function AfterUpdate(nodes: seq<NodeState>, m: NodeMapping, edges: seq<RawEdge>, part: GraphPart, filterChanged: bool): GraphPart
    requires InArena(nodes, part.nodes) && 1 <= part.layer && EdgesMapped(m, edges, part.layer)
  {
    if filterChanged then Relinked(nodes, m, edges, part) else part
  }

  /** Every entry of the registry can be relinked against `nodes` and `edges`. */
  ghost predicate Relinkable(nodes: seq<NodeState>, m: NodeMapping, edges: seq<RawEdge>, parts: map<string, GraphPart>)
  {
    forall key :: key in parts ==> InArena(nodes, parts[key].nodes) && 1 <= parts[key].layer && EdgesMapped(m, edges, parts[key].layer)
  }

  /** A well-formed registry over filtered edges of the dataset can be relinked. */
  lemma PartsRelinkable(nodes: seq<NodeState>, m: NodeMapping, edges: seq<RawEdge>, N: nat, parts: map<string, GraphPart>)
    requires PartsOk(nodes, parts, N) && EdgesMapped(m, edges, N)
    ensures Relinkable(nodes, m, edges, parts)
  {
    forall key | key in parts ensures InArena(nodes, parts[key].nodes) && 1 <= parts[key].layer && EdgesMapped(m, edges, parts[key].layer) {
      assert PartOk(nodes, key, parts[key], N);
    }
  }

  /** The registry after the `graphParts.forEach` of `Graph.update`: every entry as `AfterUpdate` leaves it. */
  ghost function UpdatedRegistry(nodes: seq<NodeState>, m: NodeMapping, edges: seq<RawEdge>, parts: map<string, GraphPart>,
                                 filterChanged: bool): map<string, GraphPart>
    requires Relinkable(nodes, m, edges, parts)
  {
    map key | key in parts :: AfterUpdate(nodes, m, edges, parts[key], filterChanged)
  }

  /**
   * Without a filter change the pass leaves the registry as it was; with
   * one, every entry keeps its key, layer, parent and nodes and gets the
   * active, aggregated links recomputed from `edges`.
   */
  lemma UpdatedRegistryEntries(nodes: seq<NodeState>, m: NodeMapping, edges: seq<RawEdge>, parts: map<string, GraphPart>, filterChanged: bool)
    requires Relinkable(nodes, m, edges, parts)
    ensures var r := UpdatedRegistry(nodes, m, edges, parts, filterChanged);
      && r.Keys == parts.Keys
      && (!filterChanged ==> r == parts)
      && forall key :: key in parts ==>
           && r[key].layer == parts[key].layer && r[key].parent == parts[key].parent && r[key].nodes == parts[key].nodes
           && (filterChanged ==>
                 r[key].links == SetLinksActive(Aggregate(ProjectedLinks(nodes, parts[key].nodes, m, edges, parts[key].layer)), true))
  {
  }

  /** The pass only reads names, so any arena of the same shape gives the same registry. */
  lemma UpdatedRegistryShape(a: seq<NodeState>, b: seq<NodeState>, m: NodeMapping, edges: seq<RawEdge>, parts: map<string, GraphPart>,
                             filterChanged: bool)
    requires SameShape(a, b) && Relinkable(a, m, edges, parts)
    ensures Relinkable(b, m, edges, parts)
    ensures UpdatedRegistry(a, m, edges, parts, filterChanged) == UpdatedRegistry(b, m, edges, parts, filterChanged)
  {
    forall key | key in parts ensures AfterUpdate(a, m, edges, parts[key], filterChanged) == AfterUpdate(b, m, edges, parts[key], filterChanged) {
      RelinkedShape(a, b, m, edges, parts[key]);
    }
  }

  /** The entries in `remaining` are as in `parts0`, the others as in `target`. */
  ghost predicate Visited(parts0: map<string, GraphPart>, target: map<string, GraphPart>, parts: map<string, GraphPart>, remaining: set<string>)
  {
    && remaining <= parts0.Keys && parts.Keys == parts0.Keys && target.Keys == parts0.Keys
    && forall key :: key in parts0 ==> parts[key] == if key in remaining then parts0[key] else target[key]
  }

  /** Setting one remaining entry to its target moves it to the visited ones. */
  lemma VisitedStep(parts0: map<string, GraphPart>, target: map<string, GraphPart>, parts: map<string, GraphPart>, remaining: set<string>,
                    key: string)
    requires Visited(parts0, target, parts, remaining) && key in remaining
    ensures Visited(parts0, target, parts[key := target[key]], remaining - {key})
  {
  }

  /** Once nothing remains, the registry is the target. */
  lemma VisitedAll(parts0: map<string, GraphPart>, target: map<string, GraphPart>, parts: map<string, GraphPart>)
    requires Visited(parts0, target, parts, {})
    ensures parts == target
  {
  }

  /** The top-level open list lies on layer 1. */
  lemma RootsOnLayer(nodes: seq<NodeState>, list: seq<nat>, N: nat)
    requires ParentsOk(nodes, N) && OpenListOk(nodes, list, None, N)
    ensures OnLayer(nodes, list, 1, N)
  {
    forall k | 0 <= k < |list| ensures list[k] < |nodes| && nodes[list[k]].layer == 1 && 1 < N {
      assert ParentOk(nodes, list[k], N);
    }
  }
}
