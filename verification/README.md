# LayeredVisualisation graph core in Dafny

This project models the graph-state logic of `Scripts/app.js`, the browser explorer of LayeredVisualisation. The explorer shows a hierarchical graph one layer at a time. Each raw edge joins two leaves. A node mapping sends every leaf to its ancestor id on every layer. A node of layer *L* stands for a cluster, and the links of a layer are the raw edges projected onto that layer and merged pairwise.

A user drills down by double-clicking a node:
- the node opens;
- a new graph part holding the node's children is built inside it;
- "bridge" links are computed between the children of open sibling clusters.

The user can also maximize one open node, fading everything outside it. A single click selects a node and marks its ancestors and neighbours.

The model is organised as follows.

- **Entities** (`Entities`, `Data`)
  - `Node`, `Link` and `GraphPart` are datatypes.
  - Nodes live in an arena, a sequence owned by the explorer, and refer to one another by index: `parent` and `openNodes` hold indices.
  - The dataset holds the raw edges, the number of layers and the node mapping, indexed by layer.
- **Pure computations** (`Aggregation`, `Projection`, `Loading`)
  - The `weightLink` fold and the layer projection of `getWeightedLinks`.
  - The bridge candidates of `getCrossConnectionLinks` and the neighbour count of `updateSelectedNodeNeighbourCount`.
  - The pending-loading list.
  - Each is a function. Wherever the source loops, a method is proved equal to that function.
- **Specification functions for the stateful operations** (`Hierarchy`, `Maximize`, `Closing`, `Opening`, `Selection`, `Refresh`, `StateInvariant`)
  - Each states, over plain values, what an operation does to the arena. Examples are the nodes `removeOpenNodes` visits, the arena after `toggleMaximization`, and the marks `setNodeSelected` leaves.
  - Lemmas prove each operation's properties from these functions.
  - `StateInvariant.CoreState` is the structural invariant the explorer keeps:
    - every open list holds at most `maxOpenNodes` = 2 children of its owner;
    - layers and parents are consistent;
    - the registry entries are well formed and node-disjoint;
    - the caches and the selection index only existing nodes.
- **The explorer object** (`Explorer.Explorer`)
  - A class whose fields are the module-level variables the handlers mutate: `graphParts`, `topLayerOpenNodeDrawingComponents`, `currentMaximized`, `selectedNode`, `selectionActivated`, `selectedNodeNeighbours`, `pendingLoadingOperations`, `currentBareNodeLinks` and the two cross-connection caches. The node arena is a field too.
  - Every handler is a method with a `modifies` frame. Each keeps `Valid()`, which is the invariant plus two facts:
    - every listed node is open;
    - at most one node is maximized, and that node is open.
  - Each ties the new state to the specification functions of the old state.

Quirks of the code that the model keeps as written:
- `getWeightedLinks` (app.js:727) tests `graph.parent` rather than `this.parent`.
  - In a browser, `graph` resolves to the `#graph` element, which has no `parent`, so the cluster filter never runs.
  - Only the node lookups restrict the links.
  - `Projection.ClusterFilterRedundant` proves this loses nothing when every node of the part lies inside the cluster.
- Closing a node renumbers nothing:
  - surviving siblings keep their `openNodeIndex`;
  - torn-down descendants keep theirs too.
- `setSelectionRelationNeighbourChild` ignores its argument, and `selectedNodeNeighbours` may hold the same node more than once.
- In `updateSelectedNodeNeighbourCount`, because of the `else if` at app.js:174, an edge whose source lies in the selected node is only examined from the source side.
- `removeCurrentSelection` leaves `selectedNode` set.
- `toggleSelection` compares the selected node's relation with the clicked node's, not the nodes themselves.
- `LoadingAnimation.remove` splices out only the first occurrence of a name.

Three more behaviours of the code, also kept:
- **Fading on maximize.** For graph parts at or above the toggled node's layer, `toggleMaximization` exempts only nodes *named* like the toggled node, not the toggled node's whole sibling set. Un-maximizing turns the same nodes active again.
- **Closing.** `circleDoubleClick` resets `openNodeIndex` and the offsets only on the clicked node, not on the descendants it tears down.
- **Cluster restriction.** A new part is restricted to its cluster's edges only when it is built (`assignBareNodeLinks`), not when its links are recomputed after a filter change (the app.js:727 quirk above).

## Model

| member | source | states |
|---|---|---|
| Data.InitNodeMapping | Scripts/app.js:415-420 | the keys of the mapping are exactly the deepest-layer ids of the rows; each key maps to a row carrying that id; when several rows share an id, the last one wins |
| Entities.NewNode | Scripts/app.js:45-58 | a new node has the given name, layer and parent and is inactive, unselected, unscaled (factor 1), closed (index -1, no open children) and not maximized |
| Entities.SetLinksActive | Scripts/app.js:755-757 | every link takes the flag and nothing else about it changes; no link is added or lost |
| Aggregation.FirstMatch | Scripts/app.js:205-210 | the first accumulator link joining the same unordered pair as the new link; absent exactly when no link matches in either direction |
| Aggregation.WeightLink | Scripts/app.js:204-216 | the filter-then-increment-or-push method yields exactly one step of the fold that every caller performs |
| Aggregation.AddLinkKeepsNoDuplicates | Scripts/app.js:204-216 | one `weightLink` step never creates a second link on an unordered pair already present |
| Aggregation.AddLinkTotal | Scripts/app.js:209-215 | one `weightLink` step raises the total weight by exactly one, whether it increments or pushes |
| Aggregation.AddLinkSummarises | Scripts/app.js:204-216 | folding one more link keeps the accumulator a summary of the longer input: duplicate-free, each weight the number of inputs on its pair in either order, every input represented |
| Aggregation.AggregateSummarises | Scripts/app.js:204-216 | folding any sequence of links leaves no two links on one unordered pair; each weight counts the folded links on that pair in either direction; every folded link has its entry |
| Aggregation.AggregateTotalWeight | Scripts/app.js:204-216 | the weights of the folded links add up to the number of links folded |
| Aggregation.AggregateFromInputs | Scripts/app.js:209-214 | every aggregated link is one of the inputs with only its weight replaced |
| Aggregation.ThreeEdgesOneLink | Scripts/app.js:204-216 | three parallel edges (a,b), (b,a), (a,b) collapse into one link of weight 3, oriented like the first |
| Projection.FindNode | Scripts/app.js:736-738 | a found node is in the pool and carries the name; nothing is found exactly when no pool node carries it |
| Projection.ClusterEdges | Scripts/app.js:695-697 | an edge is kept exactly when it is an input edge with both ends in the cluster; never more edges than the input |
| Projection.ResolveBareNodes | Scripts/app.js:700-711 | the created names are pairwise distinct, and a name is created exactly when it is the projection at the part's layer of an endpoint of some edge |
| Projection.GetWeightedLinks | Scripts/app.js:724-749 | the method's map, filter and fold yield the `weightLink` aggregate of the projected, found, non-self links |
| Projection.ProjectedLinksProper | Scripts/app.js:733-745 | every projected link joins two different nodes of the part, and there are no more of them than raw edges |
| Projection.WeightedLinksWellFormed | Scripts/app.js:724-749 | the weighted links join distinct nodes of the part, share no unordered pair, and their weights add up to the number of surviving edges, at most the number of raw edges |
| Projection.DroppedEdge | Scripts/app.js:736-745 | a raw edge with a projected endpoint that names no node of the part contributes nothing |
| Projection.OutsideClusterDropped | Scripts/app.js:727-744 | an edge with an end outside the cluster finds no node for that end when every node of the part lies in the cluster |
| Projection.ClusterFilterRedundant | Scripts/app.js:727-729 | the skipped cluster filter loses nothing: when every node of the part lies in the cluster, projecting all edges and projecting only the cluster's edges give the same links |
| Projection.GetCrossConnectionLinks | Scripts/app.js:643-667 | the method's map, filter and fold yield the `weightLink` aggregate of the bridge candidates |
| Projection.CrossCandidatesFromEdges | Scripts/app.js:646-663 | every bridge candidate comes from a raw edge whose ancestors at the current layer differ and are both open, joining the pool nodes named by its child-layer ids, whose names differ |
| Projection.CrossConnectionLinksSound | Scripts/app.js:643-667 | the bridge links are duplicate-free, weigh in total the number of candidates (at most the raw edges), and each comes from a qualifying raw edge |
| Projection.CollectNeighbourNames | Scripts/app.js:162-180 | the loop collects each contributed selected-layer id once, so the stored count is the number of distinct ids contributed by edges with one end in the selected node and the other end on this node |
| Hierarchy.RemoveNamed | Scripts/app.js:1041-1043 | the filter keeps exactly the entries named differently from the node, never grows the list and keeps it free of repeats |
| Hierarchy.AncestorAt | Scripts/app.js:94-97 | the walk up the parent chain from a deeper node ends at a node on the requested layer |
| Hierarchy.TeardownDescends | Scripts/app.js:1036-1038 | every node the recursive teardown visits lies on or below the closed node's layer and has the closed node as its ancestor there |
| Hierarchy.SiblingTeardownsDisjoint | Scripts/app.js:1036-1038 | the sub-trees of different entries of one open list share no node, so tearing one down leaves the others alone |
| Hierarchy.TeardownFrame | Scripts/app.js:1036-1038 | the teardown of a node reads only the open lists of the nodes it visits |
| Hierarchy.TeardownFinish | Scripts/app.js:1029-1051 | once all children are torn down and the node's own list is empty, the owner-list edit completes the teardown of exactly the visited nodes |
| Hierarchy.FilterNamesStep | Scripts/app.js:1041-1043 | each child's filter of its parent's list removes one more name from the names already filtered out |
| Hierarchy.FilterNamesAll | Scripts/app.js:1036-1043 | after every child has filtered itself out of the closed node's list, that list is empty |
| Hierarchy.AppendKeepsOk | Scripts/app.js:705-710 | appending new closed nodes under existing parents keeps the arena, the top-level list and the registry well formed |
| Hierarchy.AddPartKeepsPartsOk | Scripts/app.js:576 | registering a well-formed part over new nodes keeps the registry well formed and node-disjoint |
| Hierarchy.NewPartOk | Scripts/app.js:680-687 | a part built over distinct nodes of its layer under its parent, with links among them, is a well-formed registry entry under the parent's name (or "top") |
| Hierarchy.PartsOkRemove | Scripts/app.js:1031 | deleting registry entries keeps the registry well formed |
| Hierarchy.PartLinkKinds | Scripts/app.js:192-198 | a link inside one part is never a cross connection, and it is a top-layer link exactly when the part is the root part |
| Hierarchy.ListedLinkOpen | Scripts/app.js:200-202 | a link between two nodes of the top-level open list is open |
| Maximize.RescaledIsScaledAt | Scripts/app.js:123-130 | `scale(factor)` sets the factor of exactly the node and the nodes reachable through the open sub-parts, and changes nothing else |
| Maximize.ScaledAtUnique | Scripts/app.js:123-130 | the scaled arena is determined by the reached set and the factor |
| Maximize.ScaleStopsAtMissingEntry | Scripts/app.js:123-130 | a walk that does not complete reached an open node whose name has no registry entry |
| Maximize.ScaleStuck | Scripts/app.js:126-128 | once one child's walk raises, the `forEach` stops: later children add no node and the walk stays failed |
| Maximize.ScaleStep | Scripts/app.js:126-128 | scaling one more child, after the earlier ones completed, adds exactly that child's reach, and the walk so far completes exactly when that child's does |
| Maximize.ScaleReachFrame | Scripts/app.js:123-130 | the walk looks only at names and open state: arenas that agree on them have the same reach and outcome |
| Maximize.AdjustOffsetRoundTrip | Scripts/app.js:112-121 | shifting an open node's offsets one way and then the other gives the node back |
| Maximize.FadeNode | Scripts/app.js:85-92 | only activity and offsets change; every node not named like the toggled node becomes active exactly when nothing is maximized |
| Maximize.MaxFactor | Scripts/app.js:66-78 | the factor is 1 exactly when un-maximizing (or on layer 0), and at least 2 when maximizing a node of layer 1 or deeper |
| Maximize.ToggleEffectSpec | Scripts/app.js:64-105 | after the toggle only the node's own flag has changed; the node and everything `scale` reaches carry the new factor and other factors stay; when the walk meets an open node without a registry entry nothing is faded or shifted; names, layers, parents, open lists, open indices, relations and counts are untouched |
| Maximize.FadedOnAll | Scripts/app.js:83-105 | once every registry entry is visited, the arena is the fully faded one, whatever the visiting order |
| Maximize.ToggleKeepsExclusive | Scripts/app.js:68-77 | a toggle that moves the pointer keeps the open lists and leaves exactly the pointed-to node maximized |
| Maximize.MaximizeEffectSpec | Scripts/app.js:64-110 | a toggle leaves at most one node maximized: the one the new pointer names, if any; open lists are kept; unless un-maximizing the previous node raised a `TypeError`, every node the walk reaches carries 2^layer or 1 |
| Maximize.MaximizeSteps | Scripts/app.js:72-79 | maximizing while another node is maximized is the un-maximizing toggle of that node, then, if it completed, the maximizing toggle of the node; the inner toggle changes nothing the node's walk looks at |
| Loading.IndexOf | Scripts/app.js:1277 | the position of the first occurrence of the name |
| Loading.RemoveFirstMultiset | Scripts/app.js:1276-1278 | removal takes exactly one copy of the name out of the pending list when there is one, and changes nothing otherwise |
| Loading.RemoveFirstKeepsPrefix | Scripts/app.js:1277 | the entries before the first occurrence keep their places |
| Loading.CreateThenRemove | Scripts/app.js:1306-1309 | pushing a name and removing it again restores the same multiset of pending names |
| Loading.RemoveEachMultiset | Scripts/app.js:1034 | removing the names of a list, one by one, takes one copy of each out of the pending multiset |
| Closing.TeardownProgressStart | Scripts/app.js:1031-1034 | before the walk over the children, only the node's own registry entry and loading entry are gone |
| Closing.TeardownProgressStep | Scripts/app.js:1036-1038 | tearing down one more child, as the recursive call promises, advances the teardown by that child's whole sub-tree |
| Closing.TeardownProgressFinish | Scripts/app.js:1040-1049 | after the walk, filtering the node out of its parent's list (or the top-level list) completes `removeOpenNodes` as the teardown relation states it |
| Opening.Closed | Scripts/app.js:958-960 | the reset node is no longer open |
| Opening.Reindex | Scripts/app.js:971-975 | every entry of the owner's list gets its position as its index and the matching vertical offset; no other node changes |
| Opening.CloseOutcome | Scripts/app.js:957-961 | after the reset and teardown, every listed node is still open and the maximized node is unique and open; the closed node is off its owner's list and its registry entry is gone |
| Opening.CloseRemovesNode | Scripts/app.js:1040-1049 | the closed node is not open, not on its owner's list, and has no registry entry |
| Opening.CloseResetsNode | Scripts/app.js:958-961 | after the reset and teardown the closed node has index -1, zero offsets and an empty open list, and nothing else about it changes |
| Opening.PushListOk | Scripts/app.js:965-969 | the owner's list with a closed, openable node appended is a valid open list (at most 2 entries, no repeats) when the list had room |
| Opening.PushKeepsCore | Scripts/app.js:965-969 | pushing a closed node that can still be opened onto a list with room keeps the structural invariant, the owner's new list included |
| Opening.OpenKeepsFlags | Scripts/app.js:965-975 | opening and re-indexing leaves every listed node open and the maximized node unique and open |
| Opening.OpenAppends | Scripts/app.js:968-975 | after the open, the node is last on its owner's list, open at the last index, with its layer's horizontal offset |
| Opening.OpenInitOutcome | Scripts/app.js:968-977 | after the open and the new part, the node is last on its owner's list, and the part registered under its name lies one layer below it, with the node as parent |
| Selection.ChainAbove | Scripts/app.js:1005-1009 | every node on the parent chain lies on the start node's layer or above |
| Selection.NotOwnAncestor | Scripts/app.js:1005-1009 | a node is never among its own ancestors, so the walk up the parent chain ends |
| Selection.MarkSelectedSpec | Scripts/app.js:1001-1010 | selecting marks the node `self`, marks every ancestor `child`, and leaves every other node as it was |
| Selection.SelectThenClear | Scripts/app.js:1001-1020 | selecting a node in an unmarked arena and clearing the selection again (no neighbours listed) restores the arena |
| Selection.RelabelUnion | Scripts/app.js:1013-1026 | two relabellings with the same relation amount to one over the union |
| Selection.RelabelCommute | Scripts/app.js:1013-1026 | relabelling disjoint sets commutes |
| Selection.MarkNeighbour | Scripts/app.js:152-160 | the node takes the relation and is appended to the neighbour list, even if already listed; no structure changes |
| Selection.ChildStep | Scripts/app.js:226-236 | the far end is listed, and marked `neighbourChild`, or the list is unchanged |
| Selection.NeighbourStepMarks | Scripts/app.js:218-239 | one `updateNeighbours` lists at most one node, an end of the link, marked `neighbour` or `neighbourChild`, and touches no node but the two ends |
| Selection.PropagatedGrows | Scripts/app.js:361-362 | propagating over the links only appends to the neighbour list, and every appended node is an end of one of the links |
| Selection.RelabelChain | Scripts/app.js:1005-1009 | the `while (parent)` walk gives exactly the chain from the start node upward the relation |
| Selection.SetRelations | Scripts/app.js:1023-1025 | exactly the listed nodes take the relation |
| Selection.SelectIn | Scripts/app.js:1003-1009 | the arena part of `setNodeSelected` is the selection marking |
| Selection.UnselectIn | Scripts/app.js:1013-1018 | the selected node and its ancestors go back to `none`, and no other node changes |
| Refresh.CrossLinksInPool | Scripts/app.js:653-657 | the bridge links join nodes of the arena |
| Refresh.ChildLayerPool | Scripts/app.js:612-618 | a node is in the candidate pool exactly when it belongs to a registry entry one layer down |
| Refresh.PoolInArena | Scripts/app.js:614-618 | the candidate pool indexes nodes of the arena |
| Refresh.ListNames | Scripts/app.js:611 | the names of the open nodes, in list order |
| Refresh.ChildOpenListsLayer | Scripts/app.js:637-639 | every node of the concatenated open lists is an open child, one layer down, of a listed node |
| Refresh.CollectChildOpenLists | Scripts/app.js:637-638 | the `forEach` concatenation yields the listed nodes' open lists, in order |
| Refresh.UpdatedRegistryEntries | Scripts/app.js:592-595 | without a filter change the registry is unchanged; with one, every entry keeps its key, layer, parent and nodes and gets the active aggregate recomputed from the filtered edges |
| Refresh.UpdatedRegistryShape | Scripts/app.js:592-595 | the recomputed registry depends only on node names, layers and parents, not on flags or marks |
| Refresh.ChildOpenListsStructure | Scripts/app.js:637-638 | the concatenated child open lists depend only on the arena's structure, so the propagation's marks do not change them |
| Refresh.DeepCachesTransfer | Scripts/app.js:606-641 | what the pass leaves in the deeper layers depends only on the arena's structure and on the starting entries from the layer on |
| Refresh.LayerThenDeeper | Scripts/app.js:606-641 | one layer's cache step followed by the recursive pass below it gives the whole pass's outcome (`OpenPass`) from the starting caches |
| Refresh.CacheStepTransfer | Scripts/app.js:610-625 | one layer's cache step depends only on the arena's structure and names and on the starting entries of that layer |
| Refresh.LayerKept | Scripts/app.js:610-639 | the recursive pass below a layer leaves that layer's cache step and the layers above it intact |
| Refresh.DeeperKept | Scripts/app.js:637-639 | what the recursive pass leaves below a layer, stated from the caches after that layer's step, holds from the caches before it |
| Refresh.PassBelow | Scripts/app.js:606-639 | the pass on a layer's open nodes gives the deeper caches from that layer on; with no open node there, nothing changes |
| Refresh.OpenPassTransfer | Scripts/app.js:606-641 | the pass's outcome holds over any arena of the same structure, in particular over the one the propagation leaves |
| Refresh.RootsOnLayer | Scripts/app.js:603-608 | the top-level open list lies on layer 1 |
| Explorer.SetNodesActive | Scripts/app.js:752-754 | exactly the part's nodes take the flag |
| Explorer.FadeNodes | Scripts/app.js:85-92 | exactly the part's nodes are faded as `FadeNode` states, and other nodes are untouched |
| Explorer.Explorer.constructor | Scripts/app.js:1394-1399 | the loaded state is valid and holds only the root part, built from index 0 over every raw edge (layer 1, no parent, the aggregated projected links); nothing is open, pending, maximized or selected, no neighbour is listed and both caches are empty |
| Explorer.Explorer.LoadingCreate | Scripts/app.js:1306-1309 | a name is appended to the pending list only when there is a node |
| Explorer.Explorer.LoadingRemove | Scripts/app.js:1274-1278 | the first pending entry with the node's name is removed (one copy fewer in the multiset); nothing changes without a node |
| Explorer.Explorer.CreateNodes | Scripts/app.js:705-714 | one fresh node per name is appended, with the part's layer and parent and the given factor; the new indices name them in order; the invariant is kept |
| Explorer.Explorer.NewGraphPart | Scripts/app.js:680-717 | the new part holds exactly one fresh node per distinct projected endpoint of the cluster's edges (all edges for the root part), scaled like the parent; its links are the aggregate of all raw edges projected onto them; it is a well-formed entry |
| Explorer.Explorer.InitGraphPart | Scripts/app.js:573-576 | the parent's name goes on the pending list; existing nodes keep their places; only the entry under the parent's name (or "top") is replaced, by the part built over the new nodes as `NewGraphPart` states |
| Explorer.Explorer.SetPartActive | Scripts/app.js:751-761 | the part's nodes and links take the flag and no other node changes; activating also ends the parent's loading entry |
| Explorer.Explorer.UpdateLinks | Scripts/app.js:719-722 | only the entry's links change, recomputed from the time-filtered edges and all active |
| Explorer.Explorer.Scale | Scripts/app.js:123-130 | the arena after the recursive `scale` is the rescaled arena of the specification; the result is false exactly when the walk met an open node with no registry entry, where `graphParts.get(name).nodes` raises a `TypeError` and the walk stops |
| Explorer.Explorer.ScaleWalk | Scripts/app.js:123-130 | exactly the nodes the walk reaches take the factor and every other node is unchanged; the result says whether the walk completed |
| Explorer.Explorer.FadePart | Scripts/app.js:84-104 | exactly the part's nodes are faded, as the per-part rule states for parts at, above and below the toggled layer |
| Explorer.Explorer.FadeParts | Scripts/app.js:83-105 | the `graphParts.forEach` produces the fully faded arena, in any map order |
| Explorer.Explorer.ApplyToggle | Scripts/app.js:81-105 | setting the flag, scaling and, only when the scale walk completes, fading produce the arena the toggle specification states; the result says whether the walk completed |
| Explorer.Explorer.ToggleMaximization | Scripts/app.js:64-110 | on a closed node: an illegal-state outcome and no change. On an open node: a `TypeError` outcome exactly when a scale walk met an open node without a registry entry; the arena is the one the maximize specification states, which keeps the flag, pointer and factors set before the failing walk and fades nothing after it; the pointer moves to the node, or to nothing when the node was maximized or the inner call failed |
| Explorer.Explorer.Maximize | Scripts/app.js:72-79 | any previously maximized node is un-maximized first; if that raises a `TypeError` the node is left alone and the pointer is cleared; otherwise the node is maximized and becomes the pointer; the result says whether both walks completed |
| Explorer.Explorer.SetMaximized | Scripts/app.js:68-105 | one direction of the toggle: the pointer, the flag, the factor over the reach and, when the walk completes, the fading; the result says whether it completed; the invariant is kept |
| Explorer.Explorer.RemoveOpenNodes | Scripts/app.js:1029-1051 | the visited sub-tree's open lists are emptied, its registry entries are gone and one loading entry per visited node is removed; the node is filtered by name out of its owner's list; nothing else changes |
| Explorer.Explorer.DropOwnEntry | Scripts/app.js:1031-1034 | the node's registry entry and the first loading entry with its name are removed |
| Explorer.Explorer.RemoveChildren | Scripts/app.js:1036-1038 | the walk over the list as it was before the walk tears down every child's sub-tree |
| Explorer.Explorer.CloseOwnerEntry | Scripts/app.js:1040-1049 | the node is filtered by name out of its parent's list, or out of the top-level list; nothing else changes |
| Explorer.Explorer.SetNodeSelected | Scripts/app.js:1001-1010 | the selection is active on the node, which is marked `self`, with its ancestors `child` |
| Explorer.Explorer.RemoveNeighbours | Scripts/app.js:1022-1027 | every listed neighbour goes back to `none` and the list is emptied |
| Explorer.Explorer.RemoveCurrentSelection | Scripts/app.js:1012-1020 | the selected node, its ancestors and every listed neighbour go back to `none`; the list is emptied; the selected node stays recorded |
| Explorer.Explorer.ToggleSelection | Scripts/app.js:985-999 | with no selection, the node is selected. With one: when the relations are equal, the selection is cleared and deactivated; otherwise it is replaced by the node |
| Explorer.Explorer.SetSelectionRelation | Scripts/app.js:152-160 | the node takes `neighbour` or `neighbourChild` and is appended to the neighbour list |
| Explorer.Explorer.UpdateSelectedNodeNeighbourCount | Scripts/app.js:162-181 | only the node's count changes; it becomes the number of distinct contributed ids |
| Explorer.Explorer.ChildNeighbour | Scripts/app.js:226-236 | recount the far end, and list and mark it `neighbourChild` only when the count is positive |
| Explorer.Explorer.UpdateNeighbours | Scripts/app.js:218-239 | no change without an active selection; otherwise the first of source `self`, target `self`, source `child`, target `child` decides the step |
| Explorer.Explorer.PropagateSelection | Scripts/app.js:361-362 | `updateNeighbours` over the links in order, with no change without an active selection |
| Explorer.Explorer.RefreshCache | Scripts/app.js:610-625 | only the current layer's entries change. When asked, or when an entry is missing, they hold exactly the nodes of the parts one layer down and the active bridge links between the open clusters; otherwise they are kept |
| Explorer.Explorer.StoreCache | Scripts/app.js:611-624 | the recomputing branch: the pool of the parts one layer down and the active bridge links are stored for the layer |
| Explorer.Explorer.RefreshLayer | Scripts/app.js:610-635 | the cache step for one layer, then the selection propagated, with no structural change |
| Explorer.Explorer.UpdateOpenNodes | Scripts/app.js:606-641 | nothing changes for an empty list; otherwise the caches end as `OpenPass` states: the layers above the list's layer keep their entries, the list's layer takes the cache step above, and every deeper layer takes the same step for the open nodes one level further down, as far as any are open |
| Explorer.Explorer.UpdateChildOpenNodes | Scripts/app.js:637-639 | the recursive call on the concatenated child lists keeps the invariant and the caches of the layers above, and every layer from the next one down takes the cache step for its open nodes (`DeepCaches`) |
| Explorer.Explorer.PropagatePart | Scripts/app.js:597-600 | the selection is propagated over the part's links |
| Explorer.Explorer.UpdatePart | Scripts/app.js:592-601 | one entry is relinked when the filter changed, otherwise kept; no structural change |
| Explorer.Explorer.UpdateParts | Scripts/app.js:592-601 | the registry becomes the updated registry of the specification, in any map order |
| Explorer.Explorer.Update | Scripts/app.js:591-604 | the registry is updated as specified; only selection marks change and, without a selection, nothing; the caches end as the open-node pass leaves them on every layer with open nodes (`TopCaches`): with recompute set by either flag, or a missing entry, a layer's entries hold the nodes of the next layer's parts and the active aggregated bridge links between that layer's open nodes, otherwise they are kept |
| Explorer.Explorer.FinishUpdate | Scripts/app.js:603 | the open-node pass keeps the structure and the unselected arena of before the part pass |
| Explorer.Explorer.RefreshOpen | Scripts/app.js:603 | the pass over the top-level list changes only selection marks and leaves the caches as `OpenPass` states, from layer 1 down: when asked, or when an entry is missing, each layer with open nodes holds the nodes of the next layer's parts and the active aggregated bridge links between its open nodes; otherwise its entries are kept; caches are untouched when nothing is open |
| Explorer.Explorer.ApplyFilter | Scripts/app.js:462-467 | the new filtered edges become current, the neighbour marks are cleared, `update(true, false)` relinks every entry, and the caches of every layer with open nodes are recomputed from the filtered edges |
| Explorer.Explorer.SetFilter | Scripts/app.js:465-466 | the filtered edges are stored and the listed neighbours go back to `none` |
| Explorer.Explorer.CircleClick | Scripts/app.js:947-950 | with no selection the node is marked `self` and its ancestors `child`; with one of the same relation the marks are cleared, exactly, and the selection ends; otherwise the old marks are cleared and the node's are set. The update that follows changes only selection marks, keeps the registry and keeps or fills the caches of every layer with open nodes as `TopCaches` states |
| Explorer.Explorer.ResetNode | Scripts/app.js:958-960 | only the node changes: its index and offsets are reset |
| Explorer.Explorer.TearDown | Scripts/app.js:961 | after `removeOpenNodes` the state is valid; the reset node keeps index -1 and zero offsets with an empty open list; every node open below it is torn down, with its registry entry and pending name removed; the node is off its owner's list and without a registry entry |
| Explorer.Explorer.CloseNode | Scripts/app.js:957-961 | the node is reset (index -1, zero offsets) with an empty open list; its whole open sub-tree is torn down as `removeOpenNodes` states; it is off its owner's list and without a registry entry; the state stays valid |
| Explorer.Explorer.OpenNode | Scripts/app.js:965-975 | the node is pushed on its owner's list, which is renumbered by position with matching offsets |
| Explorer.Explorer.InitChild | Scripts/app.js:977 | the opened and renumbered owner list is kept; the part inside the node is built over new nodes and registered under its name one layer down; the name is pending |
| Explorer.Explorer.OpenAndInit | Scripts/app.js:965-977 | the node is pushed on its owner's list and the whole list is renumbered by position with matching offsets; the node is open at the last index; the part inside it is built and registered one layer down; its name is pending |
| Explorer.Explorer.Collapse | Scripts/app.js:957-962 | closing as `CloseNode` states (reset, emptied list, sub-tree torn down, off the list, no entry), then `update(false, true)`, which changes only selection marks and recomputes the caches of every layer with open nodes |
| Explorer.Explorer.Expand | Scripts/app.js:965-978 | opening, renumbering and building as `OpenAndInit` states, then `update(false, true)`, which changes only selection marks and recomputes the caches of every layer with open nodes |
| Explorer.Explorer.ToggleOpen | Scripts/app.js:952-983 | a maximized node, a node on the last layer, or a closed node whose owner's list is full: no change at all. An open node: closed and torn down as `Collapse` states. Otherwise: opened, renumbered and built as `Expand` states. Either way the update after it recomputes the caches of every layer with open nodes |

## Left out

- Rendering is not modelled: the d3 data joins, `updateGraphComponents`, the link and node drawing components, styles and text. Only the state they read is kept, because they are presentation only.
- Float rounding is not modelled. Offsets and dimensions are reals, so `adjustOffset` and the opening offsets hold exactly.
- `getXValue` and `getYValue` are not modelled; they are pixel geometry.
- The force layout and its Promise continuation are not modelled, because they are a physics engine and asynchronous completion. The layout's `x`/`y` positions are node fields that no operation writes. The continuation's effects are separate calls, `SetPartActive` and `Update`, that a caller makes once a part's layout completes.
- The time slicer, crossfilter and dc chart are foreign libraries. `ApplyFilter` models only the branch that runs when the bounds moved; the filtered edges are its parameter, and its date comparison is not modelled.
- The search bar, `d3.json` loading and the random link generator are not modelled: they are UI, I/O and randomness. The constructor takes the loaded dataset and the initial filtered edges as parameters.
- The loading animation's DOM elements are not modelled; only `pendingLoadingOperations` is kept.
- JavaScript `Map` iteration order is not modelled. The `graphParts.forEach` loops visit the keys in an unspecified order. Only for the loop of `toggleMaximization` (app.js:83-90) and the `updateLinks` calls of `update` (app.js:592-595) is the outcome independent of that order, because entries are node-disjoint and each write is a constant. Two outcomes do depend on it and are stated only up to order: the order of the candidate pool the loop at app.js:614-618 concatenates (see Refresh.ChildLayerPool), and the neighbour marks the per-entry selection propagation of `update` leaves (app.js:591-600; see Explorer.Explorer.Update).
- Data.EdgesMapped: `Data.WellFormed`, `Explorer.Explorer.Valid` and the requires of `Explorer.Explorer.constructor`, `Explorer.Explorer.ApplyFilter` and `Explorer.Explorer.SetFilter` demand that every edge endpoint has a mapping row with an id on every layer. That excludes two inputs the code accepts. An endpoint with no row makes `nodeMapping.get(...)` `undefined`, and the property read on it throws a `TypeError` (app.js:165-168, 647-650, 702-703, 735-737). A row missing an intermediate layer yields the id `undefined`, and `resolveBareNodes` then creates a node named "undefined" (app.js:702-706). Neither case is modelled.
- Refresh.ChildLayerPool: states which nodes the candidate pool holds, not their order, because the order is the `Map` iteration order.
- Explorer.Explorer.Scale: the recursion through open sub-parts is cut after `fuel` levels (the number of layers is used). Names repeat across layers, so the entry found under an open node's name can be the part of another node of that name, and the source's walk can then go deeper than `fuel` levels; the model does not follow it there. A missing entry is modelled: the walk stops and reports the `TypeError`.
- Explorer.Explorer.SetPartActive: ends the parent's loading entry before setting the flags, where the source sets the flags first. The two touch disjoint state, so the result is the same.
- Explorer.Explorer.Expand: the child part's activation, and the update after its layout, are left to the caller, as for the force layout above.
- Explorer.Explorer.Update: with a selection active, the neighbour marks and the neighbour list that the propagation leaves are not stated, only that nothing but selection marks changes, because the propagation runs over the registry in `Map` order, which is not modelled. Each single pass is stated by `PropagateSelection`.
- Explorer.Explorer.RefreshOpen: the same holds for the marks the propagation over the bridge links leaves.
- Explorer.Explorer.ApplyFilter: the same holds for the marks the update leaves after the filter change.
- Explorer.Explorer.CircleClick: the marks are stated up to the update; the neighbour marks and list that the update's propagation adds are not stated, as for `Update`.
- Explorer.Explorer.Collapse: the same holds for the marks the update leaves; the arena before the update is stated in full.
- Explorer.Explorer.Expand: the same holds for the marks the update leaves; the arena before the update is stated in full.
- Explorer.Explorer.ToggleOpen: the same holds for the marks the update leaves in either branch.
- Projection.ResolveBareNodes: the source collects the names as keys of a plain object (app.js:705-712). There an id that every object already has as a property, such as `constructor` or `toString`, is never created, and integer-like ids come back in ascending numeric order rather than in order of first appearance. The model creates every id, in order of first appearance.
- Explorer.Explorer.CreateNodes: creates the nodes in the order `ResolveBareNodes` gives, so both differences apply to the new nodes and their indices.
- Data.InitNodeMapping: requires every row to hold an id for every layer. For a row without the deepest-layer key the source raises a `TypeError` (app.js:418), which the model does not represent.
- Node references are indices into an arena. JavaScript object identity (`link.source !== link.target`) is index equality, and a `Node` held twice is the same index.
