/**
 * The drill-down hierarchy over the node arena: what a well-formed arena,
 * open list and graph-part registry look like, the ancestor walk up the
 * `parent` chain, and the order in which `removeOpenNodes` tears an open
 * node's sub-tree down.
 */
module Hierarchy {
  import opened Wrappers
  import opened Entities

  predicate Distinct<T(==)>(s: seq<T>)
  {
    forall a, b :: 0 <= a < b < |s| ==> s[a] != s[b]
  }

  /** `x` keeps some of the entries of `y`, none twice. */
  predicate IsSublist(x: seq<nat>, y: seq<nat>)
  {
    |x| <= |y| && Distinct(x) && forall e :: e in x ==> e in y
  }

  /**
   * An open list (a node's `openNodes`, or the top-level list when `owner` is
   * None): at most `maxOpenNodes` entries, all children of the owner that can
   * still be opened (not on the deepest layer), none twice.
   */
  ghost predicate OpenListOk(nodes: seq<NodeState>, list: seq<nat>, owner: Option<nat>, N: nat)
  {
    && |list| <= MaxOpenNodes
    && Distinct(list)
    && forall k :: 0 <= k < |list| ==> list[k] < |nodes| && nodes[list[k]].parent == owner && nodes[list[k]].layer < N
  }

  /** A node sits on a layer 1..N, one layer below its parent; only layer-1 nodes have no parent. */
  ghost predicate ParentOk(nodes: seq<NodeState>, n: nat, N: nat)
    requires n < |nodes|
  {
    var x := nodes[n];
    && 1 <= x.layer <= N
    && (x.parent.None? <==> x.layer == 1)
    && (x.parent.Some? ==> x.parent.value < |nodes| && nodes[x.parent.value].layer + 1 == x.layer)
  }

  ghost predicate ParentsOk(nodes: seq<NodeState>, N: nat)
  {
    forall n :: 0 <= n < |nodes| ==> ParentOk(nodes, n, N)
  }

  /** Parents are well formed and every node owns a well-formed open list. */
  ghost predicate NodesOk(nodes: seq<NodeState>, N: nat)
  {
    && ParentsOk(nodes, N)
    && forall n :: 0 <= n < |nodes| ==> OpenListOk(nodes, nodes[n].openNodes, Some(n), N)
  }

  /**
   * A registry entry: the root part (key "top", layer 1, no parent) or the
   * part inside its parent (keyed by the parent's name, one layer below it);
   * its nodes are distinct, sit on its layer under its parent, and its links
   * join nodes of the arena.
   */
  ghost predicate PartOk(nodes: seq<NodeState>, key: string, part: GraphPart, N: nat)
  {
    && 1 <= part.layer <= N
    && (part.parent.None? <==> part.layer == 1)
    && (part.parent.None? ==> key == TopKey)
    && (part.parent.Some? ==>
          part.parent.value < |nodes| && nodes[part.parent.value].layer + 1 == part.layer && key == nodes[part.parent.value].name)
    && Distinct(part.nodes)
    && (forall k :: 0 <= k < |part.nodes| ==>
          part.nodes[k] < |nodes| && nodes[part.nodes[k]].layer == part.layer && nodes[part.nodes[k]].parent == part.parent)
    && (forall k :: 0 <= k < |part.links| ==> part.links[k].source < |nodes| && part.links[k].target < |nodes|)
  }

  /** Every entry is well formed and no node belongs to two entries. */
  ghost predicate PartsOk(nodes: seq<NodeState>, parts: map<string, GraphPart>, N: nat)
  {
    && (forall key :: key in parts ==> PartOk(nodes, key, parts[key], N))
    && (forall k1, k2, n :: k1 in parts && k2 in parts && k1 != k2 && n in parts[k1].nodes ==> n !in parts[k2].nodes)
  }

  /** Two arenas with the same nodes, names, layers and parents. */
  predicate SameShape(a: seq<NodeState>, b: seq<NodeState>)
  {
    && |a| == |b|
    && forall n :: 0 <= n < |a| ==> a[n].name == b[n].name && a[n].layer == b[n].layer && a[n].parent == b[n].parent
  }

  lemma ShapeKeepsOpenListOk(a: seq<NodeState>, b: seq<NodeState>, list: seq<nat>, owner: Option<nat>, N: nat)
    requires SameShape(a, b) && OpenListOk(a, list, owner, N)
    ensures OpenListOk(b, list, owner, N)
  {
  }

  lemma ShapeKeepsParentsOk(a: seq<NodeState>, b: seq<NodeState>, N: nat)
    requires SameShape(a, b) && ParentsOk(a, N)
    ensures ParentsOk(b, N)
  {
    forall n | 0 <= n < |b| ensures ParentOk(b, n, N) {
      assert ParentOk(a, n, N);
    }
  }

  lemma ShapeKeepsPartsOk(a: seq<NodeState>, b: seq<NodeState>, parts: map<string, GraphPart>, N: nat)
    requires SameShape(a, b) && PartsOk(a, parts, N)
    ensures PartsOk(b, parts, N)
  {
    forall key | key in parts ensures PartOk(b, key, parts[key], N) {
      assert PartOk(a, key, parts[key], N);
    }
  }

  lemma SublistKeepsOpenListOk(nodes: seq<NodeState>, x: seq<nat>, y: seq<nat>, owner: Option<nat>, N: nat)
    requires OpenListOk(nodes, y, owner, N) && IsSublist(x, y)
    ensures OpenListOk(nodes, x, owner, N)
  {
    forall k | 0 <= k < |x| ensures x[k] < |nodes| && nodes[x[k]].parent == owner && nodes[x[k]].layer < N {
      assert x[k] in y;
    }
  }

  /** Shrinking open lists keeps the arena well formed. */
  lemma SublistsKeepNodesOk(a: seq<NodeState>, b: seq<NodeState>, N: nat)
    requires NodesOk(a, N) && SameShape(a, b)
    requires forall n :: 0 <= n < |b| ==> IsSublist(b[n].openNodes, a[n].openNodes)
    ensures NodesOk(b, N)
  {
    forall n | 0 <= n < |b| ensures ParentOk(b, n, N) && OpenListOk(b, b[n].openNodes, Some(n), N) {
      assert ParentOk(a, n, N);
      ShapeKeepsOpenListOk(a, b, a[n].openNodes, Some(n), N);
      SublistKeepsOpenListOk(b, b[n].openNodes, a[n].openNodes, Some(n), N);
    }
  }

  /** `list.filter(c => c.name !== name)`. */
  function RemoveNamed(nodes: seq<NodeState>, list: seq<nat>, name: string): (r: seq<nat>)
    requires forall k :: 0 <= k < |list| ==> list[k] < |nodes|
    ensures |r| <= |list|
    ensures forall e :: e in r <==> e in list && nodes[e].name != name
    ensures Distinct(list) ==> Distinct(r)
  {
    if list == [] then []
    else
      var init, last := list[..|list| - 1], list[|list| - 1];
      assert forall e :: e in list <==> e in init || e == last;
      RemoveNamed(nodes, init, name) + (if nodes[last].name != name then [last] else [])
  }

  /** The names of the indexed nodes, in order. */
  function Names(nodes: seq<NodeState>, s: seq<nat>): (r: seq<string>)
    requires forall k :: 0 <= k < |s| ==> s[k] < |nodes|
    ensures |r| == |s| && forall k :: 0 <= k < |s| ==> r[k] == nodes[s[k]].name
  {
    seq(|s|, k requires 0 <= k < |s| => nodes[s[k]].name)
  }

  /** The ancestor of node `j` on layer `L` (the walk up `parent` in `toggleMaximization`). */
  ghost function AncestorAt(nodes: seq<NodeState>, N: nat, j: nat, L: nat): (r: nat)
    requires ParentsOk(nodes, N) && j < |nodes| && 1 <= L <= nodes[j].layer
    ensures r < |nodes| && nodes[r].layer == L
    decreases nodes[j].layer
  {
    assert ParentOk(nodes, j, N);
    if nodes[j].layer == L then j else AncestorAt(nodes, N, nodes[j].parent.value, L)
  }

  lemma {:induction false} AncestorAtTrans(nodes: seq<NodeState>, N: nat, j: nat, L: nat, L': nat)
    requires ParentsOk(nodes, N) && j < |nodes| && 1 <= L <= L' <= nodes[j].layer
    ensures AncestorAt(nodes, N, j, L) == AncestorAt(nodes, N, AncestorAt(nodes, N, j, L'), L)
    decreases nodes[j].layer
  {
    assert ParentOk(nodes, j, N);
    if nodes[j].layer != L' {
      AncestorAtTrans(nodes, N, nodes[j].parent.value, L, L');
    }
  }

  /** The children of open list entries sit one layer below the owner. */
  ghost predicate ChildrenAt(nodes: seq<NodeState>, cs: seq<nat>, L: nat)
  {
    forall k :: 0 <= k < |cs| ==> cs[k] < |nodes| && nodes[cs[k]].layer == L + 1
  }
  lemma ChildrenPrefix(nodes: seq<NodeState>, cs: seq<nat>, L: nat, k: nat)
    requires ChildrenAt(nodes, cs, L) && k <= |cs|
    ensures ChildrenAt(nodes, cs[..k], L)
  {
  }


  lemma OpenNodesAreChildren(nodes: seq<NodeState>, N: nat, i: nat)
    requires NodesOk(nodes, N) && i < |nodes|
    ensures ChildrenAt(nodes, nodes[i].openNodes, nodes[i].layer)
  {
    assert OpenListOk(nodes, nodes[i].openNodes, Some(i), N);
    forall k | 0 <= k < |nodes[i].openNodes| ensures nodes[nodes[i].openNodes[k]].layer == nodes[i].layer + 1 {
      assert ParentOk(nodes, nodes[i].openNodes[k], N);
    }
  }

  /**
   * The nodes `removeOpenNodes(i)` visits, in visiting order: `i`, then the
   * sub-tree of each entry of its open list in turn.
   */
  ghost function Teardown(nodes: seq<NodeState>, N: nat, i: nat): (r: seq<nat>)
    requires NodesOk(nodes, N) && i < |nodes|
    ensures forall k :: 0 <= k < |r| ==> r[k] < |nodes|
    decreases N - nodes[i].layer, 1, 0
  {
    assert ParentOk(nodes, i, N);
    OpenNodesAreChildren(nodes, N, i);
    [i] + TeardownAll(nodes, N, nodes[i].openNodes, nodes[i].layer)
  }

  ghost function TeardownAll(nodes: seq<NodeState>, N: nat, cs: seq<nat>, L: nat): (r: seq<nat>)
    requires NodesOk(nodes, N) && ChildrenAt(nodes, cs, L)
    ensures forall k :: 0 <= k < |r| ==> r[k] < |nodes|
    decreases N - L, 0, |cs|
  {
    if cs == [] then []
    else
      assert ParentOk(nodes, cs[|cs| - 1], N);
      TeardownAll(nodes, N, cs[..|cs| - 1], L) + Teardown(nodes, N, cs[|cs| - 1])
  }

  /**
   * Every node of the teardown of `i` lies on or below `i`'s layer, with `i`
   * as its ancestor on that layer.
   */
  lemma {:induction false} TeardownDescends(nodes: seq<NodeState>, N: nat, i: nat)
    requires NodesOk(nodes, N) && i < |nodes|
    ensures forall j :: j in Teardown(nodes, N, i) ==>
              j < |nodes| && 1 <= nodes[i].layer <= nodes[j].layer && AncestorAt(nodes, N, j, nodes[i].layer) == i
    decreases N - nodes[i].layer, 1, 0
  {
    assert ParentOk(nodes, i, N);
    var L := nodes[i].layer;
    OpenNodesAreChildren(nodes, N, i);
    TeardownAllDescends(nodes, N, nodes[i].openNodes, L);
    forall j | j in TeardownAll(nodes, N, nodes[i].openNodes, L)
      ensures AncestorAt(nodes, N, j, L) == i
    {
      var c := AncestorAt(nodes, N, j, L + 1);
      AncestorAtTrans(nodes, N, j, L, L + 1);
      assert ParentOk(nodes, c, N) && OpenListOk(nodes, nodes[i].openNodes, Some(i), N);
    }
  }

  lemma {:induction false} TeardownAllDescends(nodes: seq<NodeState>, N: nat, cs: seq<nat>, L: nat)
    requires NodesOk(nodes, N) && ChildrenAt(nodes, cs, L)
    ensures forall j :: j in TeardownAll(nodes, N, cs, L) ==>
              j < |nodes| && L + 1 <= nodes[j].layer && AncestorAt(nodes, N, j, L + 1) in cs
    decreases N - L, 0, |cs|
  {
    if cs != [] {
      var init, last := cs[..|cs| - 1], cs[|cs| - 1];
      assert ParentOk(nodes, last, N);
      TeardownAllDescends(nodes, N, init, L);
      TeardownDescends(nodes, N, last);
    }
  }

  /** Sibling sub-trees are disjoint, so tearing one down leaves the others' open lists alone. */
  lemma SiblingTeardownsDisjoint(nodes: seq<NodeState>, N: nat, cs: seq<nat>, L: nat, k: nat)
    requires NodesOk(nodes, N) && ChildrenAt(nodes, cs, L) && Distinct(cs) && k < |cs|
    ensures forall j :: j in Teardown(nodes, N, cs[k]) ==> j !in TeardownAll(nodes, N, cs[..k], L)
  {
    TeardownDescends(nodes, N, cs[k]);
    TeardownAllDescends(nodes, N, cs[..k], L);
  }

  /** The teardown only looks at the open lists of the nodes it visits. */
  lemma {:induction false} TeardownFrame(a: seq<NodeState>, b: seq<NodeState>, N: nat, i: nat)
    requires NodesOk(a, N) && NodesOk(b, N) && SameShape(a, b) && i < |a|
    requires forall j :: j in Teardown(a, N, i) ==> j < |a| && b[j].openNodes == a[j].openNodes
    ensures Teardown(b, N, i) == Teardown(a, N, i)
    decreases N - a[i].layer, 1, 0
  {
    assert ParentOk(a, i, N);
    OpenNodesAreChildren(a, N, i);
    forall j | j in TeardownAll(a, N, a[i].openNodes, a[i].layer) ensures j < |a| && b[j].openNodes == a[j].openNodes {
      assert j in Teardown(a, N, i);
    }
    TeardownAllFrame(a, b, N, a[i].openNodes, a[i].layer);
  }

  lemma {:induction false} TeardownAllFrame(a: seq<NodeState>, b: seq<NodeState>, N: nat, cs: seq<nat>, L: nat)
    requires NodesOk(a, N) && NodesOk(b, N) && SameShape(a, b) && ChildrenAt(a, cs, L)
    requires forall j :: j in TeardownAll(a, N, cs, L) ==> j < |a| && b[j].openNodes == a[j].openNodes
    ensures ChildrenAt(b, cs, L)
    ensures TeardownAll(b, N, cs, L) == TeardownAll(a, N, cs, L)
    decreases N - L, 0, |cs|
  {
    if cs != [] {
      var init, last := cs[..|cs| - 1], cs[|cs| - 1];
      assert ParentOk(a, last, N);
      assert TeardownAll(a, N, cs, L) == TeardownAll(a, N, init, L) + Teardown(a, N, last);
      forall j | j in Teardown(a, N, last) ensures j < |a| && b[j].openNodes == a[j].openNodes {
        assert j in TeardownAll(a, N, cs, L);
      }
      forall j | j in TeardownAll(a, N, init, L) ensures j < |a| && b[j].openNodes == a[j].openNodes {
        assert j in TeardownAll(a, N, cs, L);
      }
      TeardownAllFrame(a, b, N, init, L);
      TeardownFrame(a, b, N, last);
    }
  }

  /** A node the arena can take in: correctly layered under an existing parent, with nothing open. */
  ghost predicate FreshOk(a: seq<NodeState>, x: NodeState, N: nat)
  {
    && x.openNodes == []
    && 1 <= x.layer <= N
    && (x.parent.None? <==> x.layer == 1)
    && (x.parent.Some? ==> x.parent.value < |a| && a[x.parent.value].layer + 1 == x.layer)
  }

  /** Appending new, closed nodes keeps the arena, the top-level list and the registry well formed. */
  lemma AppendKeepsOk(a: seq<NodeState>, added: seq<NodeState>, parts: map<string, GraphPart>, topOpen: seq<nat>, N: nat)
    requires NodesOk(a, N) && PartsOk(a, parts, N) && OpenListOk(a, topOpen, None, N)
    requires forall k :: 0 <= k < |added| ==> FreshOk(a, added[k], N)
    ensures NodesOk(a + added, N) && PartsOk(a + added, parts, N) && OpenListOk(a + added, topOpen, None, N)
  {
    var b := a + added;
    forall n | 0 <= n < |b| ensures ParentOk(b, n, N) && OpenListOk(b, b[n].openNodes, Some(n), N) {
      if n < |a| {
        assert ParentOk(a, n, N) && OpenListOk(a, a[n].openNodes, Some(n), N);
      } else {
        assert FreshOk(a, added[n - |a|], N);
      }
    }
    forall key | key in parts ensures PartOk(b, key, parts[key], N) {
      assert PartOk(a, key, parts[key], N);
    }
  }

  /** Every node on an open list is open (`openNodeIndex >= 0`). */
  ghost predicate ListedOpen(nodes: seq<NodeState>, topOpen: seq<nat>)
  {
    && (forall k :: 0 <= k < |topOpen| && topOpen[k] < |nodes| ==> IsOpen(nodes[topOpen[k]]))
    && (forall n, k :: 0 <= n < |nodes| && 0 <= k < |nodes[n].openNodes| && nodes[n].openNodes[k] < |nodes| ==>
          IsOpen(nodes[nodes[n].openNodes[k]]))
  }

  /** `current` is the one maximized node, and a maximized node is open. */
  ghost predicate MaxExclusive(nodes: seq<NodeState>, current: Option<nat>)
  {
    && (current.Some? ==> current.value < |nodes|)
    && forall n :: 0 <= n < |nodes| ==>
         (nodes[n].isMaximized <==> current == Some(n)) && (nodes[n].isMaximized ==> IsOpen(nodes[n]))
  }

  lemma AppendKeepsFlags(a: seq<NodeState>, added: seq<NodeState>, topOpen: seq<nat>, current: Option<nat>, N: nat)
    requires NodesOk(a, N) && OpenListOk(a, topOpen, None, N) && ListedOpen(a, topOpen) && MaxExclusive(a, current)
    requires forall k :: 0 <= k < |added| ==> added[k].openNodes == [] && !added[k].isMaximized
    ensures ListedOpen(a + added, topOpen) && MaxExclusive(a + added, current)
  {
    var b := a + added;
    forall n, k | 0 <= n < |b| && 0 <= k < |b[n].openNodes| && b[n].openNodes[k] < |b|
      ensures IsOpen(b[b[n].openNodes[k]])
    {
      assert n < |a|;
      assert OpenListOk(a, a[n].openNodes, Some(n), N);
    }
  }

  /** Registering a part over new nodes keeps the registry well formed. */
  lemma AddPartKeepsPartsOk(nodes: seq<NodeState>, parts: map<string, GraphPart>, key: string, part: GraphPart, first: nat, N: nat)
    requires PartsOk(nodes, parts, N) && PartOk(nodes, key, part, N)
    requires forall key', k :: key' in parts && 0 <= k < |parts[key'].nodes| ==> parts[key'].nodes[k] < first
    requires forall k :: 0 <= k < |part.nodes| ==> first <= part.nodes[k]
    ensures PartsOk(nodes, parts[key := part], N)
  {
    var r := parts[key := part];
    forall k1, k2, n | k1 in r && k2 in r && k1 != k2 && n in r[k1].nodes ensures n !in r[k2].nodes {
    }
  }

  /** The registry key of the part inside `parent`: its name, or "top" for the root part. */
  function PartKey(nodes: seq<NodeState>, parent: Option<nat>): string
    requires parent.Some? ==> parent.value < |nodes|
  {
    if parent.Some? then nodes[parent.value].name else TopKey
  }

  /** A part built over distinct, correctly placed nodes, with links among them, is a well-formed entry. */
  lemma NewPartOk(nodes: seq<NodeState>, layer: nat, parent: Option<nat>, members: seq<nat>, links: seq<Link>, N: nat)
    requires 1 <= layer <= N && (parent.None? <==> layer == 1)
    requires parent.Some? ==> parent.value < |nodes| && nodes[parent.value].layer + 1 == layer
    requires Distinct(members)
    requires forall k :: 0 <= k < |members| ==> members[k] < |nodes| && nodes[members[k]].layer == layer && nodes[members[k]].parent == parent
    requires forall k :: 0 <= k < |links| ==> links[k].source in members && links[k].target in members
    ensures PartOk(nodes, PartKey(nodes, parent), GraphPart(layer, parent, members, links), N)
  {
    forall k | 0 <= k < |links| ensures links[k].source < |nodes| && links[k].target < |nodes| {
      var a :| 0 <= a < |members| && members[a] == links[k].source;
      var b :| 0 <= b < |members| && members[b] == links[k].target;
    }
  }

  /** Two arenas with the same shape, open lists and open state. */
  predicate SameOpenLists(a: seq<NodeState>, b: seq<NodeState>)
  {
    && SameShape(a, b)
    && forall n :: 0 <= n < |a| ==> a[n].openNodes == b[n].openNodes && a[n].openNodeIndex == b[n].openNodeIndex
  }

  /** Two arenas that differ at most in flags and positions no invariant depends on. */
  predicate SameHierarchy(a: seq<NodeState>, b: seq<NodeState>)
  {
    && SameOpenLists(a, b)
    && forall n :: 0 <= n < |a| ==> a[n].isMaximized == b[n].isMaximized
  }

  /** Two arenas that differ at most in the selection marks: relations and neighbour counts. */
  predicate SameStructure(a: seq<NodeState>, b: seq<NodeState>)
  {
    && |a| == |b|
    && forall n :: 0 <= n < |a| ==>
         b[n] == a[n].(relation := b[n].relation, selectedNodeNeighbourCount := b[n].selectedNodeNeighbourCount)
  }

  lemma StructureKeepsHierarchy(a: seq<NodeState>, b: seq<NodeState>)
    requires SameStructure(a, b)
    ensures SameHierarchy(a, b)
  {
  }

  lemma OpenListsKeepOk(a: seq<NodeState>, b: seq<NodeState>, parts: map<string, GraphPart>, topOpen: seq<nat>, N: nat)
    requires SameOpenLists(a, b)
    requires NodesOk(a, N) && PartsOk(a, parts, N) && OpenListOk(a, topOpen, None, N) && ListedOpen(a, topOpen)
    ensures NodesOk(b, N) && PartsOk(b, parts, N) && OpenListOk(b, topOpen, None, N) && ListedOpen(b, topOpen)
  {
    forall n | 0 <= n < |b| ensures ParentOk(b, n, N) && OpenListOk(b, b[n].openNodes, Some(n), N) {
      assert ParentOk(a, n, N);
      ShapeKeepsOpenListOk(a, b, a[n].openNodes, Some(n), N);
    }
    ShapeKeepsPartsOk(a, b, parts, N);
    ShapeKeepsOpenListOk(a, b, topOpen, None, N);
  }

  lemma SameStructureTrans(a: seq<NodeState>, b: seq<NodeState>, c: seq<NodeState>)
    requires SameStructure(a, b) && SameStructure(b, c)
    ensures SameStructure(a, c)
  {
  }

  lemma StructureKeepsOk(a: seq<NodeState>, b: seq<NodeState>, parts: map<string, GraphPart>, topOpen: seq<nat>, current: Option<nat>, N: nat)
    requires SameHierarchy(a, b)
    requires NodesOk(a, N) && PartsOk(a, parts, N) && OpenListOk(a, topOpen, None, N) && ListedOpen(a, topOpen) && MaxExclusive(a, current)
    ensures NodesOk(b, N) && PartsOk(b, parts, N) && OpenListOk(b, topOpen, None, N) && ListedOpen(b, topOpen) && MaxExclusive(b, current)
  {
    OpenListsKeepOk(a, b, parts, topOpen, N);
  }

  /** The ancestor walk only looks at names, layers and parents. */
  lemma {:induction false} AncestorAtShape(a: seq<NodeState>, b: seq<NodeState>, N: nat, j: nat, L: nat)
    requires SameShape(a, b) && ParentsOk(a, N) && ParentsOk(b, N) && j < |a| && 1 <= L <= a[j].layer
    ensures AncestorAt(a, N, j, L) == AncestorAt(b, N, j, L)
    decreases a[j].layer
  {
    assert ParentOk(a, j, N);
    if a[j].layer != L {
      AncestorAtShape(a, b, N, a[j].parent.value, L);
    }
  }

  /** Dropping registry entries keeps the registry well formed. */
  lemma PartsOkRemove(nodes: seq<NodeState>, parts: map<string, GraphPart>, keys: set<string>, N: nat)
    requires PartsOk(nodes, parts, N)
    ensures PartsOk(nodes, parts - keys, N)
  {
  }

  /** Replacing one entry's links by links among arena nodes keeps the registry well formed. */
  lemma ReplaceLinksKeepsPartsOk(nodes: seq<NodeState>, parts: map<string, GraphPart>, key: string, links: seq<Link>, N: nat)
    requires PartsOk(nodes, parts, N) && key in parts
    requires forall k :: 0 <= k < |links| ==> links[k].source < |nodes| && links[k].target < |nodes|
    ensures PartsOk(nodes, parts[key := parts[key].(links := links)], N)
  {
    assert PartOk(nodes, key, parts[key], N);
    var r := parts[key := parts[key].(links := links)];
    forall k1, k2, n | k1 in r && k2 in r && k1 != k2 && n in r[k1].nodes ensures n !in r[k2].nodes {
      assert n in parts[k1].nodes;
    }
  }

  /** The names of the indexed nodes, as a set. */
  ghost function NameSet(nodes: seq<NodeState>, s: seq<nat>): set<string>
  {
    set j | j in s && j < |nodes| :: nodes[j].name
  }

  lemma NameSetHas(nodes: seq<NodeState>, s: seq<nat>, j: nat)
    requires j in s && j < |nodes|
    ensures nodes[j].name in NameSet(nodes, s)
  {
  }

  lemma NameSetSingle(nodes: seq<NodeState>, j: nat)
    requires j < |nodes|
    ensures NameSet(nodes, [j]) == {nodes[j].name}
  {
    assert forall e :: e in [j] <==> e == j;
  }

  lemma NameSetSnoc(nodes: seq<NodeState>, s: seq<nat>, j: nat)
    requires j < |nodes|
    ensures NameSet(nodes, s + [j]) == NameSet(nodes, s) + {nodes[j].name}
  {
    assert forall e :: e in s + [j] <==> e in s || e == j;
  }

  lemma NamesConcat(nodes: seq<NodeState>, x: seq<nat>, y: seq<nat>)
    requires forall k :: 0 <= k < |x| ==> x[k] < |nodes|
    requires forall k :: 0 <= k < |y| ==> y[k] < |nodes|
    ensures Names(nodes, x + y) == Names(nodes, x) + Names(nodes, y)
    ensures NameSet(nodes, x + y) == NameSet(nodes, x) + NameSet(nodes, y)
  {
  }

  /**
   * `b` is `a` with the open lists of the nodes of `T` emptied and, at most,
   * the open list of `owner` changed; nothing else differs.
   */
  ghost predicate ClosedIn(a: seq<NodeState>, b: seq<NodeState>, T: seq<nat>, owner: Option<nat>)
  {
    && |a| == |b|
    && (forall j :: j in T && j < |a| ==> b[j] == a[j].(openNodes := []))
    && (owner.Some? ==> owner.value < |a| && b[owner.value] == a[owner.value].(openNodes := b[owner.value].openNodes))
    && (forall n :: 0 <= n < |a| && n !in T && Some(n) != owner ==> b[n] == a[n])
  }

  lemma ClosedInShape(a: seq<NodeState>, b: seq<NodeState>, T: seq<nat>, owner: Option<nat>)
    requires ClosedIn(a, b, T, owner)
    ensures SameShape(a, b)
  {
    forall n | 0 <= n < |a| ensures a[n].name == b[n].name && a[n].layer == b[n].layer && a[n].parent == b[n].parent {
      if n in T {
      } else if Some(n) == owner {
      }
    }
  }

  /**
   * One entry of `node.openNodes.forEach(removeOpenNodes)`, before the call:
   * the `k`-th child's sub-tree is the same as before the loop started, and
   * shares no node with `i` or the sub-trees already torn down.
   */
  lemma TeardownStepFrame(before: seq<NodeState>, mid: seq<NodeState>, N: nat, i: nat, k: nat)
    requires NodesOk(before, N) && i < |before| && k < |before[i].openNodes|
    requires ChildrenAt(before, before[i].openNodes, before[i].layer)
    requires NodesOk(mid, N) && ClosedIn(before, mid, TeardownAll(before, N, before[i].openNodes[..k], before[i].layer), Some(i))
    ensures Teardown(mid, N, before[i].openNodes[k]) == Teardown(before, N, before[i].openNodes[k])
    ensures i !in Teardown(before, N, before[i].openNodes[k])
    ensures i !in TeardownAll(before, N, before[i].openNodes[..k], before[i].layer)
    ensures forall j :: j in Teardown(before, N, before[i].openNodes[k]) ==>
              j !in TeardownAll(before, N, before[i].openNodes[..k], before[i].layer)
    ensures TeardownAll(before, N, before[i].openNodes[..k + 1], before[i].layer)
            == TeardownAll(before, N, before[i].openNodes[..k], before[i].layer) + Teardown(before, N, before[i].openNodes[k])
  {
    OpenNodesAreChildren(before, N, i);
    var cs, L := before[i].openNodes, before[i].layer;
    var c := cs[k];
    var done := TeardownAll(before, N, cs[..k], L);
    assert OpenListOk(before, cs, Some(i), N);
    ClosedInShape(before, mid, done, Some(i));
    SiblingTeardownsDisjoint(before, N, cs, L, k);
    TeardownDescends(before, N, c);
    TeardownAllDescends(before, N, cs[..k], L);
    forall j | j in Teardown(before, N, c) ensures j < |before| && mid[j].openNodes == before[j].openNodes {
      assert j !in done && j != i;
    }
    TeardownFrame(before, mid, N, c);
    assert cs[..k + 1][..k] == cs[..k];
  }

  /** Composing the torn-down nodes so far with one more disjoint sub-tree. */
  lemma ClosedInCompose(a: seq<NodeState>, b: seq<NodeState>, c: seq<NodeState>, done: seq<nat>, t: seq<nat>, owner: Option<nat>)
    requires ClosedIn(a, b, done, owner) && ClosedIn(b, c, t, owner)
    requires forall j :: j in t ==> j !in done
    requires owner.Some? ==> owner.value !in t && owner.value !in done
    ensures ClosedIn(a, c, done + t, owner)
  {
    forall j | j in done + t && j < |a| ensures c[j] == a[j].(openNodes := []) {
      if j in t {
        assert j !in done && Some(j) != owner;
        assert b[j] == a[j];
      } else {
        assert j in done && j !in t && Some(j) != owner;
        assert c[j] == b[j];
      }
    }
  }

  /**
   * After all of `i`'s children are torn down and its list is empty, editing
   * the owner's list (`parent`'s, when there is one) completes the teardown of `i`.
   */
  lemma TeardownFinish(before: seq<NodeState>, mid: seq<NodeState>, after: seq<NodeState>, N: nat, i: nat)
    requires NodesOk(before, N) && i < |before|
    requires ChildrenAt(before, before[i].openNodes, before[i].layer)
    requires ClosedIn(before, mid, TeardownAll(before, N, before[i].openNodes, before[i].layer), Some(i)) && mid[i].openNodes == []
    requires ClosedIn(mid, after, [], before[i].parent)
    ensures ClosedIn(before, after, Teardown(before, N, i), before[i].parent)
  {
    assert ParentOk(before, i, N);
    TeardownDescends(before, N, i);
    var t := Teardown(before, N, i);
    assert t == [i] + TeardownAll(before, N, before[i].openNodes, before[i].layer);
    if before[i].parent.Some? {
      var p := before[i].parent.value;
      assert p !in t;
      assert p !in TeardownAll(before, N, before[i].openNodes, before[i].layer);
    }
  }

  /** Names and name filters depend on the names only. */
  lemma NamesShape(a: seq<NodeState>, b: seq<NodeState>, t: seq<nat>)
    requires SameShape(a, b) && forall k :: 0 <= k < |t| ==> t[k] < |a|
    ensures Names(a, t) == Names(b, t) && NameSet(a, t) == NameSet(b, t)
  {
  }

  lemma {:induction false} RemoveNamedShape(a: seq<NodeState>, b: seq<NodeState>, list: seq<nat>, name: string)
    requires SameShape(a, b) && forall k :: 0 <= k < |list| ==> list[k] < |a|
    ensures RemoveNamed(a, list, name) == RemoveNamed(b, list, name)
  {
    if list != [] {
      RemoveNamedShape(a, b, list[..|list| - 1], name);
    }
  }

  /** The entries of `list` whose names are not in `names`, in order. */
  function FilterNames(nodes: seq<NodeState>, list: seq<nat>, names: set<string>): (r: seq<nat>)
    requires forall k :: 0 <= k < |list| ==> list[k] < |nodes|
    ensures forall k :: 0 <= k < |r| ==> r[k] < |nodes|
  {
    if list == [] then []
    else
      var init, last := list[..|list| - 1], list[|list| - 1];
      FilterNames(nodes, init, names) + (if nodes[last].name in names then [] else [last])
  }

  lemma {:induction false} FilterNamesNone(nodes: seq<NodeState>, list: seq<nat>)
    requires forall k :: 0 <= k < |list| ==> list[k] < |nodes|
    ensures FilterNames(nodes, list, {}) == list
  {
    if list != [] {
      FilterNamesNone(nodes, list[..|list| - 1]);
    }
  }

  /** Filtering out one more name is one more `RemoveNamed`. */
  lemma {:induction false} FilterNamesStep(nodes: seq<NodeState>, list: seq<nat>, names: set<string>, name: string)
    requires forall k :: 0 <= k < |list| ==> list[k] < |nodes|
    ensures RemoveNamed(nodes, FilterNames(nodes, list, names), name) == FilterNames(nodes, list, names + {name})
  {
    if list != [] {
      var init, last := list[..|list| - 1], list[|list| - 1];
      FilterNamesStep(nodes, init, names, name);
      var f := FilterNames(nodes, init, names);
      var rest := FilterNames(nodes, init, names + {name});
      assert FilterNames(nodes, list, names + {name}) == rest + (if nodes[last].name in names + {name} then [] else [last]);
      if nodes[last].name in names {
        assert FilterNames(nodes, list, names) == f;
        assert FilterNames(nodes, list, names + {name}) == rest;
      } else {
        var g := f + [last];
        assert FilterNames(nodes, list, names) == g;
        assert g[..|g| - 1] == f && g[|g| - 1] == last;
        assert RemoveNamed(nodes, g, name) == rest + (if nodes[last].name != name then [last] else []);
      }
    }
  }

  /** Filtering out every entry's name leaves nothing. */
  lemma {:induction false} FilterNamesAll(nodes: seq<NodeState>, list: seq<nat>, names: set<string>)
    requires forall k :: 0 <= k < |list| ==> list[k] < |nodes| && nodes[list[k]].name in names
    ensures FilterNames(nodes, list, names) == []
  {
    if list != [] {
      FilterNamesAll(nodes, list[..|list| - 1], names);
    }
  }

  /** `Link.isTopLayerLink()`: neither end has a parent. */
  predicate IsTopLayerLink(nodes: seq<NodeState>, l: Link)
    requires l.source < |nodes| && l.target < |nodes|
  {
    nodes[l.source].parent.None? && nodes[l.target].parent.None?
  }

  /** `Link.isCrossConnection()`: the ends have different parents. */
  predicate IsCrossConnection(nodes: seq<NodeState>, l: Link)
    requires l.source < |nodes| && l.target < |nodes|
  {
    nodes[l.source].parent != nodes[l.target].parent
  }

  /** `Link.isOpen()`: both ends are open. */
  predicate LinkIsOpen(nodes: seq<NodeState>, l: Link)
    requires l.source < |nodes| && l.target < |nodes|
  {
    IsOpen(nodes[l.source]) && IsOpen(nodes[l.target])
  }

  /**
   * A link between two nodes of one registry entry is never a cross
   * connection, and it is a top-layer link exactly when the entry is the
   * root part.
   */
  lemma PartLinkKinds(nodes: seq<NodeState>, key: string, part: GraphPart, N: nat, l: Link)
    requires PartOk(nodes, key, part, N) && l.source in part.nodes && l.target in part.nodes
    ensures l.source < |nodes| && l.target < |nodes|
    ensures !IsCrossConnection(nodes, l)
    ensures IsTopLayerLink(nodes, l) <==> part.layer == 1
  {
    var i :| 0 <= i < |part.nodes| && part.nodes[i] == l.source;
    var j :| 0 <= j < |part.nodes| && part.nodes[j] == l.target;
  }

  /** A link between two listed top-level nodes is open. */
  lemma ListedLinkOpen(nodes: seq<NodeState>, topOpen: seq<nat>, l: Link)
    requires ListedOpen(nodes, topOpen) && l.source < |nodes| && l.target < |nodes|
    requires l.source in topOpen && l.target in topOpen
    ensures LinkIsOpen(nodes, l)
  {
    var i :| 0 <= i < |topOpen| && topOpen[i] == l.source;
    var j :| 0 <= j < |topOpen| && topOpen[j] == l.target;
  }
}
