/**
 * The graph entities of Scripts/app.js: `Node`, `Link` and `GraphPart`,
 * stored by value. Nodes live in an arena (a sequence owned by the explorer)
 * and refer to one another by index.
 */
module Entities {
  import opened Wrappers

  /** `selectionRelation`: none, self, neighbour, child, neighbourChild. */
  datatype Relation = NoRelation | Self | Neighbour | Child | NeighbourChild

  /** The open-slot capacity of every open list (`maxOpenNodes`). */
  const MaxOpenNodes: nat := 2

  /** The registry key of the root graph part. */
  const TopKey: string := "top"

  /**
   * A `Node`. `x`/`y` are the positions written by the force layout,
   * `openNodes` the indices of the children currently opened inside it.
   */
  datatype NodeState = NodeState(
    name: string,
    layer: nat,
    parent: Option<nat>,
    isActive: bool,
    relation: Relation,
    scaleFactor: nat,
    x: real,
    y: real,
    offsetX: real,
    offsetY: real,
    openNodes: seq<nat>,
    openNodeIndex: int,
    isMaximized: bool,
    selectedNodeNeighbourCount: nat)

  /** The `Node` constructor: inactive, unselected, unscaled, closed. */
  function NewNode(name: string, layer: nat, parent: Option<nat>): (n: NodeState)
    ensures n.name == name && n.layer == layer && n.parent == parent
    ensures !n.isActive && n.relation == NoRelation && n.scaleFactor == 1
    ensures n.openNodes == [] && n.openNodeIndex == -1 && !n.isMaximized
  {
    NodeState(name, layer, parent, false, NoRelation, 1, 0.0, 0.0, 0.0, 0.0, [], -1, false, 0)
  }

  /** `Node.isOpen`. */
  predicate IsOpen(n: NodeState)
  {
    n.openNodeIndex >= 0
  }

  /** A `Link` between two nodes of the arena, with its aggregated weight. */
  datatype Link = Link(source: nat, target: nat, date: int, weight: nat, isActive: bool)

  /** Links whose ends lie in an arena of `size` nodes. */
  predicate LinksIn(links: seq<Link>, size: nat)
  {
    forall k :: 0 <= k < |links| ==> links[k].source < size && links[k].target < size
  }

  /** A `GraphPart`: the sub-graph at `layer` inside `parent` (or the root part). */
  datatype GraphPart = GraphPart(layer: nat, parent: Option<nat>, nodes: seq<nat>, links: seq<Link>)

  /** `links.forEach(link => link.isActive = active)`. */
  function SetLinksActive(links: seq<Link>, active: bool): (r: seq<Link>)
    ensures |r| == |links|
    ensures forall k :: 0 <= k < |r| ==> r[k] == links[k].(isActive := active)
  {
    seq(|links|, k requires 0 <= k < |links| => links[k].(isActive := active))
  }
}
