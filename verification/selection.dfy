/**
 * The selection marks of Scripts/app.js over the node arena: the selected
 * node is `self`, every node on its parent chain `child`, and the listed
 * neighbours `neighbour` / `neighbourChild`. Selecting and clearing walk the
 * parent chain (`setNodeSelected`, `removeCurrentSelection`).
 */
module Selection {
  import opened Wrappers
  import opened Data
  import opened Entities
  import opened Hierarchy
  import opened Projection

  /** The node `start` (if any) and every node above it on its parent chain. */
  ghost function Chain(nodes: seq<NodeState>, N: nat, start: Option<nat>): (r: set<nat>)
    requires ParentsOk(nodes, N) && (start.Some? ==> start.value < |nodes|)
    ensures forall a :: a in r ==> a < |nodes|
    decreases if start.Some? then nodes[start.value].layer else 0
  {
    if start.None? then {}
    else
      assert ParentOk(nodes, start.value, N);
      {start.value} + Chain(nodes, N, nodes[start.value].parent)
  }

  /** Every node of the chain from `start` sits on `start`'s layer or above it. */
  lemma {:induction false} ChainAbove(nodes: seq<NodeState>, N: nat, start: nat)
    requires ParentsOk(nodes, N) && start < |nodes|
    ensures forall a :: a in Chain(nodes, N, Some(start)) ==> nodes[a].layer <= nodes[start].layer
    decreases nodes[start].layer
  {
    assert ParentOk(nodes, start, N);
    if nodes[start].parent.Some? {
      ChainAbove(nodes, N, nodes[start].parent.value);
    }
  }

  /** The strict ancestors of node `i`. */
  ghost function Ancestors(nodes: seq<NodeState>, N: nat, i: nat): (r: set<nat>)
    requires ParentsOk(nodes, N) && i < |nodes|
    ensures forall a :: a in r ==> a < |nodes|
  {
    assert ParentOk(nodes, i, N);
    Chain(nodes, N, nodes[i].parent)
  }

  /** A node is not among its own ancestors. */
  lemma NotOwnAncestor(nodes: seq<NodeState>, N: nat, i: nat)
    requires ParentsOk(nodes, N) && i < |nodes|
    ensures i !in Ancestors(nodes, N, i)
  {
    assert ParentOk(nodes, i, N);
    if nodes[i].parent.Some? {
      ChainAbove(nodes, N, nodes[i].parent.value);
    }
  }

  /** The chain only looks at parents, so arenas of the same shape have the same chains. */
  lemma {:induction false} ChainShape(a: seq<NodeState>, b: seq<NodeState>, N: nat, start: Option<nat>)
    requires SameShape(a, b) && ParentsOk(a, N) && ParentsOk(b, N) && (start.Some? ==> start.value < |a|)
    ensures Chain(a, N, start) == Chain(b, N, start)
    decreases if start.Some? then a[start.value].layer else 0
  {
    if start.Some? {
      assert ParentOk(a, start.value, N);
      ChainShape(a, b, N, a[start.value].parent);
    }
  }

  /** `nodes` with the relation of every node of `marked` set to `rel`. */
  function Relabel(nodes: seq<NodeState>, marked: set<nat>, rel: Relation): (r: seq<NodeState>)
    ensures |r| == |nodes|
    ensures forall n :: 0 <= n < |r| ==> r[n] == if n in marked then nodes[n].(relation := rel) else nodes[n]
  {
    seq(|nodes|, n requires 0 <= n < |nodes| => if n in marked then nodes[n].(relation := rel) else nodes[n])
  }

  /** Relabelling changes no structure. */
  lemma RelabelKeepsStructure(nodes: seq<NodeState>, marked: set<nat>, rel: Relation)
    ensures SameStructure(nodes, Relabel(nodes, marked, rel))
  {
  }

  /** The arena after `setNodeSelected(i)`: `i` is `self`, its ancestors `child`. */
  ghost function MarkSelected(nodes: seq<NodeState>, N: nat, i: nat): (r: seq<NodeState>)
    requires ParentsOk(nodes, N) && i < |nodes|
    ensures |r| == |nodes| && SameStructure(nodes, r) && ParentsOk(r, N)
  {
    var m := Relabel(nodes, Ancestors(nodes, N, i), Child);
    var r := Relabel(m, {i}, Self);
    RelabelKeepsStructure(nodes, Ancestors(nodes, N, i), Child);
    RelabelKeepsStructure(m, {i}, Self);
    ShapeKeepsParentsOk(nodes, r, N);
    r
  }

  /**
   * The arena after `removeCurrentSelection()` with `i` selected: `i`, its
   * ancestors and every listed neighbour are back to `none`.
   */
  ghost function ClearSelected(nodes: seq<NodeState>, N: nat, i: nat, neighbours: seq<nat>): (r: seq<NodeState>)
    requires ParentsOk(nodes, N) && i < |nodes|
    ensures |r| == |nodes| && SameStructure(nodes, r) && ParentsOk(r, N)
  {
    var marked := {i} + Ancestors(nodes, N, i) + (set n | n in neighbours);
    var r := Relabel(nodes, marked, NoRelation);
    RelabelKeepsStructure(nodes, marked, NoRelation);
    ShapeKeepsParentsOk(nodes, r, N);
    r
  }

  /** Selecting `i` marks exactly `i` (as `self`) and its ancestors (as `child`). */
  lemma MarkSelectedSpec(nodes: seq<NodeState>, N: nat, i: nat)
    requires ParentsOk(nodes, N) && i < |nodes|
    ensures var r := MarkSelected(nodes, N, i);
      && r[i] == nodes[i].(relation := Self)
      && (forall a :: a in Ancestors(nodes, N, i) ==> r[a] == nodes[a].(relation := Child))
      && (forall n :: 0 <= n < |nodes| && n != i && n !in Ancestors(nodes, N, i) ==> r[n] == nodes[n])
  {
    NotOwnAncestor(nodes, N, i);
  }

  /**
   * Selecting a node in an unmarked arena and clearing that selection again
   * (no neighbours listed) gives back the arena.
   */
  lemma SelectThenClear(nodes: seq<NodeState>, N: nat, i: nat)
    requires ParentsOk(nodes, N) && i < |nodes|
    requires forall n :: 0 <= n < |nodes| ==> nodes[n].relation == NoRelation
    ensures ParentsOk(MarkSelected(nodes, N, i), N)
    ensures ClearSelected(MarkSelected(nodes, N, i), N, i, []) == nodes
  {
    var A := Ancestors(nodes, N, i);
    var m := MarkSelected(nodes, N, i);
    MarkSelectedSpec(nodes, N, i);
    assert ParentOk(nodes, i, N);
    ChainShape(nodes, m, N, nodes[i].parent);
    assert Ancestors(m, N, i) == A;
    assert (set n: nat | n in []) == {};
    var c := ClearSelected(m, N, i, []);
    assert c == Relabel(m, {i} + A, NoRelation);
    forall n | 0 <= n < |nodes| ensures c[n] == nodes[n] {
      assert nodes[n] == nodes[n].(relation := NoRelation);
    }
  }

  /** Relabelling one more node. */
  lemma RelabelOneMore(nodes: seq<NodeState>, marked: set<nat>, p: nat, rel: Relation)
    requires p < |nodes|
    ensures var r := Relabel(nodes, marked, rel); r[p := r[p].(relation := rel)] == Relabel(nodes, marked + {p}, rel)
  {
  }

  /** Relabelling two sets with the same relation, one after the other, relabels their union. */
  lemma RelabelUnion(nodes: seq<NodeState>, a: set<nat>, b: set<nat>, rel: Relation)
    ensures Relabel(Relabel(nodes, a, rel), b, rel) == Relabel(nodes, a + b, rel)
  {
  }

  /** Relabelling disjoint sets commutes. */
  lemma RelabelCommute(nodes: seq<NodeState>, a: set<nat>, ra: Relation, b: set<nat>, rb: Relation)
    requires a !! b
    ensures Relabel(Relabel(nodes, a, ra), b, rb) == Relabel(Relabel(nodes, b, rb), a, ra)
  {
  }

  /** The selection marks: the arena and `selectedNodeNeighbours`. */
  datatype Marks = Marks(nodes: seq<NodeState>, neighbours: seq<nat>)

  /** The arena and the filtered edges admit the neighbour count of node `n` against the selected node `s`. */
  ghost predicate CountArgsOk(m: NodeMapping, bare: seq<RawEdge>, nodes: seq<NodeState>, N: nat, n: nat, s: nat)
  {
    ParentsOk(nodes, N) && EdgesMapped(m, bare, N) && n < |nodes| && s < |nodes|
  }

  /** What `updateSelectedNodeNeighbourCount` stores on node `n` while `s` is selected. */
  ghost function NeighbourCount(m: NodeMapping, bare: seq<RawEdge>, nodes: seq<NodeState>, N: nat, n: nat, s: nat): nat
    requires CountArgsOk(m, bare, nodes, N, n, s)
  {
    assert ParentOk(nodes, n, N) && ParentOk(nodes, s, N);
    |NeighbourIds(m, bare, nodes[n].layer, nodes[n].name, nodes[s].layer, nodes[s].name)|
  }

  /** The count only looks at names and layers. */
  lemma NeighbourCountShape(m: NodeMapping, bare: seq<RawEdge>, a: seq<NodeState>, b: seq<NodeState>, N: nat, n: nat, s: nat)
    requires CountArgsOk(m, bare, a, N, n, s) && SameShape(a, b)
    ensures CountArgsOk(m, bare, b, N, n, s)
    ensures NeighbourCount(m, bare, a, N, n, s) == NeighbourCount(m, bare, b, N, n, s)
  {
    ShapeKeepsParentsOk(a, b, N);
  }

  /** The marks admit one more `updateNeighbours` step with `s` selected. */
  ghost predicate StepArgsOk(m: NodeMapping, bare: seq<RawEdge>, N: nat, st: Marks, s: nat)
  {
    && ParentsOk(st.nodes, N) && EdgesMapped(m, bare, N) && s < |st.nodes|
    && forall k :: 0 <= k < |st.neighbours| ==> st.neighbours[k] < |st.nodes|
  }

  /** Node `n` takes relation `rel` and is listed as a neighbour (`setSelectionRelationNeighbour[Child]`). */
  function MarkNeighbour(st: Marks, n: nat, rel: Relation): (r: Marks)
    requires n < |st.nodes|
    ensures SameStructure(st.nodes, r.nodes) && r.neighbours == st.neighbours + [n]
    ensures r.nodes[n].relation == rel
  {
    Marks(st.nodes[n := st.nodes[n].(relation := rel)], st.neighbours + [n])
  }

  /**
   * The `child` branches of `updateNeighbours` for the far end `n`: recount,
   * and mark `n` `neighbourChild` (listing it) only when the count is positive.
   */
  ghost function ChildStep(m: NodeMapping, bare: seq<RawEdge>, N: nat, st: Marks, s: nat, n: nat): (r: Marks)
    requires StepArgsOk(m, bare, N, st, s) && n < |st.nodes|
    ensures SameStructure(st.nodes, r.nodes)
    ensures r.neighbours == st.neighbours || (r.neighbours == st.neighbours + [n] && r.nodes[n].relation == NeighbourChild)
  {
    var c := NeighbourCount(m, bare, st.nodes, N, n, s);
    var counted := Marks(st.nodes[n := st.nodes[n].(selectedNodeNeighbourCount := c)], st.neighbours);
    if c > 0 then MarkNeighbour(counted, n, NeighbourChild) else counted
  }

  /**
   * `link.updateNeighbours()` while a selection is active: the first of
   * source `self`, target `self`, source `child`, target `child` that holds
   * decides what happens to the other end.
   */
  ghost function NeighbourStep(m: NodeMapping, bare: seq<RawEdge>, N: nat, st: Marks, s: nat, l: Link): (r: Marks)
    requires StepArgsOk(m, bare, N, st, s) && l.source < |st.nodes| && l.target < |st.nodes|
    ensures SameStructure(st.nodes, r.nodes) && StepArgsOk(m, bare, N, r, s)
  {
    var ns := st.nodes;
    var r :=
      if ns[l.source].relation == Self then MarkNeighbour(st, l.target, Neighbour)
      else if ns[l.target].relation == Self then MarkNeighbour(st, l.source, Neighbour)
      else if ns[l.source].relation == Child then ChildStep(m, bare, N, st, s, l.target)
      else if ns[l.target].relation == Child then ChildStep(m, bare, N, st, s, l.source)
      else st;
    ShapeKeepsParentsOk(ns, r.nodes, N);
    r
  }

  /** `selection.each(link => link.updateNeighbours())` over `links`, in order. */
  ghost function Propagated(m: NodeMapping, bare: seq<RawEdge>, N: nat, st: Marks, s: nat, links: seq<Link>): (r: Marks)
    requires StepArgsOk(m, bare, N, st, s) && LinksIn(links, |st.nodes|)
    ensures SameStructure(st.nodes, r.nodes) && StepArgsOk(m, bare, N, r, s)
  {
    if links == [] then st
    else
      var mid := Propagated(m, bare, N, st, s, links[..|links| - 1]);
      var r := NeighbourStep(m, bare, N, mid, s, links[|links| - 1]);
      assert SameStructure(st.nodes, r.nodes) by {
        assert forall n :: 0 <= n < |st.nodes| ==> st.nodes[n].openNodes == mid.nodes[n].openNodes == r.nodes[n].openNodes;
      }
      r
  }

  /** The ends of the links. */
  function Ends(links: seq<Link>): set<nat>
  {
    if links == [] then {} else Ends(links[..|links| - 1]) + {links[|links| - 1].source, links[|links| - 1].target}
  }

  /**
   * One step lists at most one node, an end of its link, which it marks
   * `neighbour` or `neighbourChild`; it touches no node but the two ends.
   */
  lemma NeighbourStepMarks(m: NodeMapping, bare: seq<RawEdge>, N: nat, st: Marks, s: nat, l: Link)
    requires StepArgsOk(m, bare, N, st, s) && l.source < |st.nodes| && l.target < |st.nodes|
    ensures var r := NeighbourStep(m, bare, N, st, s, l);
      || r.neighbours == st.neighbours
      || (exists e :: e in {l.source, l.target} && r.neighbours == st.neighbours + [e]
            && (r.nodes[e].relation == Neighbour || r.nodes[e].relation == NeighbourChild))
    ensures forall n :: 0 <= n < |st.nodes| && n != l.source && n != l.target ==> NeighbourStep(m, bare, N, st, s, l).nodes[n] == st.nodes[n]
  {
  }

  /**
   * Propagation only adds to the neighbour list, and every node it adds is
   * an end of one of the links.
   */
  lemma {:induction false} PropagatedGrows(m: NodeMapping, bare: seq<RawEdge>, N: nat, st: Marks, s: nat, links: seq<Link>)
    requires StepArgsOk(m, bare, N, st, s) && LinksIn(links, |st.nodes|)
    ensures var r := Propagated(m, bare, N, st, s, links);
      && |st.neighbours| <= |r.neighbours| && r.neighbours[..|st.neighbours|] == st.neighbours
      && forall k :: |st.neighbours| <= k < |r.neighbours| ==> r.neighbours[k] in Ends(links)
  {
    if links != [] {
      var init := links[..|links| - 1];
      var l := links[|links| - 1];
      PropagatedGrows(m, bare, N, st, s, init);
      var mid := Propagated(m, bare, N, st, s, init);
      NeighbourStepMarks(m, bare, N, mid, s, l);
      var r := NeighbourStep(m, bare, N, mid, s, l);
      assert r == Propagated(m, bare, N, st, s, links);
      assert Ends(links) == Ends(init) + {l.source, l.target};
      assert |mid.neighbours| <= |r.neighbours| && r.neighbours[..|mid.neighbours|] == mid.neighbours;
      assert forall k :: |mid.neighbours| <= k < |r.neighbours| ==> r.neighbours[k] in {l.source, l.target};
    }
  }

  /** The `while (parent)` walk: every node of the chain from `start` upward takes `rel`. */
  method RelabelChain(nodes: seq<NodeState>, ghost N: nat, start: Option<nat>, rel: Relation) returns (r: seq<NodeState>)
    requires ParentsOk(nodes, N) && (start.Some? ==> start.value < |nodes|)
    ensures r == Relabel(nodes, Chain(nodes, N, start), rel)
  {
    r := nodes;
    var parent: Option<nat> := start;
    ghost var done: set<nat> := {};
    while parent.Some?
      invariant parent.Some? ==> parent.value < |nodes|
      invariant done !! Chain(nodes, N, parent) && done + Chain(nodes, N, parent) == Chain(nodes, N, start)
      invariant r == Relabel(nodes, done, rel)
      decreases if parent.Some? then nodes[parent.value].layer else 0
    {
      var p := parent.value;
      assert ParentOk(nodes, p, N);
      NotOwnAncestor(nodes, N, p);
      assert Chain(nodes, N, parent) == {p} + Ancestors(nodes, N, p);
      RelabelOneMore(nodes, done, p, rel);
      r := r[p := r[p].(relation := rel)];
      done := done + {p};
      parent := r[p].parent;
    }
  }

  /** `forEach(node => node.selectionRelation = rel)` over the listed nodes. */
  method SetRelations(nodes: seq<NodeState>, members: seq<nat>, rel: Relation) returns (r: seq<NodeState>)
    requires forall k :: 0 <= k < |members| ==> members[k] < |nodes|
    ensures r == Relabel(nodes, (set n | n in members), rel)
  {
    r := nodes;
    for k := 0 to |members|
      invariant |r| == |nodes|
      invariant forall n :: 0 <= n < |r| ==> r[n] == if n in members[..k] then nodes[n].(relation := rel) else nodes[n]
    {
      var n := members[k];
      r := r[n := r[n].(relation := rel)];
      assert members[..k + 1] == members[..k] + [n];
    }
    assert members[..|members|] == members;
  }

  /** The arena part of `setNodeSelected(node)`: `i` becomes `self`, then its parent chain `child`. */
  method SelectIn(nodes: seq<NodeState>, ghost N: nat, i: nat) returns (r: seq<NodeState>)
    requires ParentsOk(nodes, N) && i < |nodes|
    ensures r == MarkSelected(nodes, N, i)
  {
    assert ParentOk(nodes, i, N);
    var ns := nodes[i := nodes[i].(relation := Self)];
    assert ns == Relabel(nodes, {i}, Self);
    RelabelKeepsStructure(nodes, {i}, Self);
    ShapeKeepsParentsOk(nodes, ns, N);
    ChainShape(nodes, ns, N, nodes[i].parent);
    r := RelabelChain(ns, N, nodes[i].parent, Child);
    NotOwnAncestor(nodes, N, i);
    RelabelCommute(nodes, {i}, Self, Ancestors(nodes, N, i), Child);
  }

  /** The arena part of `removeCurrentSelection()` before `removeNeighbours`: `s` and its parent chain back to `none`. */
  method UnselectIn(nodes: seq<NodeState>, ghost N: nat, s: nat) returns (r: seq<NodeState>)
    requires ParentsOk(nodes, N) && s < |nodes|
    ensures r == Relabel(nodes, {s} + Ancestors(nodes, N, s), NoRelation)
  {
    assert ParentOk(nodes, s, N);
    var ns := nodes[s := nodes[s].(relation := NoRelation)];
    assert ns == Relabel(nodes, {s}, NoRelation);
    RelabelKeepsStructure(nodes, {s}, NoRelation);
    ShapeKeepsParentsOk(nodes, ns, N);
    ChainShape(nodes, ns, N, nodes[s].parent);
    r := RelabelChain(ns, N, nodes[s].parent, NoRelation);
    RelabelUnion(nodes, {s}, Ancestors(nodes, N, s), NoRelation);
  }
}
