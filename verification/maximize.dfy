/**
 * What `Node.toggleMaximization` does to the arena, as functions of the state
 * before it: the node's flag, the recursive `Node.scale` through the open
 * sub-parts, and the `graphParts.forEach` that fades everything outside the
 * maximized node and shifts the open nodes' offsets.
 */
module Maximize {
  import opened Wrappers
  import opened Data
  import opened Entities
  import opened Hierarchy

  /** Every node index of every registry entry names a node of the arena. */
  ghost predicate PartsInArena(nodes: seq<NodeState>, parts: map<string, GraphPart>)
  {
    forall key, k :: key in parts && 0 <= k < |parts[key].nodes| ==> parts[key].nodes[k] < |nodes|
  }

  lemma PartsOkInArena(nodes: seq<NodeState>, parts: map<string, GraphPart>, N: nat)
    requires PartsOk(nodes, parts, N)
    ensures PartsInArena(nodes, parts)
  {
    forall key, k | key in parts && 0 <= k < |parts[key].nodes| ensures parts[key].nodes[k] < |nodes| {
      assert PartOk(nodes, key, parts[key], N);
    }
  }

  /**
   * The nodes `scale` reaches from `i`: `i` itself and, when `i` is open and
   * has a registry entry under its name, the nodes of that entry,
   * recursively, up to the first walk that stops on a missing entry. The
   * recursion is cut after `fuel` levels.
   */
  ghost function ScaleReach(nodes: seq<NodeState>, parts: map<string, GraphPart>, i: nat, fuel: nat): (r: set<nat>)
    requires PartsInArena(nodes, parts) && i < |nodes|
    ensures i in r && forall n :: n in r ==> n < |nodes|
    decreases fuel, 0, 0
  {
    {i} + if IsOpen(nodes[i]) && nodes[i].name in parts && fuel > 0
          then ScaleReachAll(nodes, parts, parts[nodes[i].name].nodes, fuel - 1)
          else {}
  }

  ghost function ScaleReachAll(nodes: seq<NodeState>, parts: map<string, GraphPart>, cs: seq<nat>, fuel: nat): (r: set<nat>)
    requires PartsInArena(nodes, parts) && forall k :: 0 <= k < |cs| ==> cs[k] < |nodes|
    ensures forall n :: n in r ==> n < |nodes|
    decreases fuel, 1, |cs|
  {
    if cs == [] then {}
    else if ScaleCompletesAll(nodes, parts, cs[..|cs| - 1], fuel)
    then ScaleReachAll(nodes, parts, cs[..|cs| - 1], fuel) + ScaleReach(nodes, parts, cs[|cs| - 1], fuel)
    else ScaleReachAll(nodes, parts, cs[..|cs| - 1], fuel)
  }

  /**
   * Whether `scale` from `i` runs to its end: every open node it reaches
   * (within `fuel` levels) has a registry entry under its name. Otherwise
   * `graphParts.get(name)` is `undefined`, reading its `nodes` raises a
   * `TypeError`, and the walk stops there.
   */
  ghost function ScaleCompletes(nodes: seq<NodeState>, parts: map<string, GraphPart>, i: nat, fuel: nat): bool
    requires PartsInArena(nodes, parts) && i < |nodes|
    decreases fuel, 0, 0
  {
    !IsOpen(nodes[i]) || fuel == 0
    || (nodes[i].name in parts && ScaleCompletesAll(nodes, parts, parts[nodes[i].name].nodes, fuel - 1))
  }

  ghost function ScaleCompletesAll(nodes: seq<NodeState>, parts: map<string, GraphPart>, cs: seq<nat>, fuel: nat): bool
    requires PartsInArena(nodes, parts) && forall k :: 0 <= k < |cs| ==> cs[k] < |nodes|
    decreases fuel, 1, |cs|
  {
    cs == [] || (ScaleCompletesAll(nodes, parts, cs[..|cs| - 1], fuel) && ScaleCompletes(nodes, parts, cs[|cs| - 1], fuel))
  }

  /** A walk that stops names a reached open node with no registry entry. */
  lemma {:induction false} ScaleStopsAtMissingEntry(nodes: seq<NodeState>, parts: map<string, GraphPart>, i: nat, fuel: nat)
    requires PartsInArena(nodes, parts) && i < |nodes| && !ScaleCompletes(nodes, parts, i, fuel)
    ensures exists n :: n in ScaleReach(nodes, parts, i, fuel) && IsOpen(nodes[n]) && nodes[n].name !in parts
    decreases fuel, 0, 0
  {
    if nodes[i].name in parts {
      var cs := parts[nodes[i].name].nodes;
      ScaleAllStopsAtMissingEntry(nodes, parts, cs, fuel - 1);
      var n :| n in ScaleReachAll(nodes, parts, cs, fuel - 1) && IsOpen(nodes[n]) && nodes[n].name !in parts;
      assert n in ScaleReach(nodes, parts, i, fuel);
    } else {
      assert i in ScaleReach(nodes, parts, i, fuel);
    }
  }

  lemma {:induction false} ScaleAllStopsAtMissingEntry(nodes: seq<NodeState>, parts: map<string, GraphPart>, cs: seq<nat>, fuel: nat)
    requires PartsInArena(nodes, parts) && (forall k :: 0 <= k < |cs| ==> cs[k] < |nodes|) && !ScaleCompletesAll(nodes, parts, cs, fuel)
    ensures exists n :: n in ScaleReachAll(nodes, parts, cs, fuel) && IsOpen(nodes[n]) && nodes[n].name !in parts
    decreases fuel, 1, |cs|
  {
    var prefix := cs[..|cs| - 1];
    if !ScaleCompletesAll(nodes, parts, prefix, fuel) {
      ScaleAllStopsAtMissingEntry(nodes, parts, prefix, fuel);
    } else {
      ScaleStopsAtMissingEntry(nodes, parts, cs[|cs| - 1], fuel);
    }
  }

  /** Once a prefix of `cs` stops, longer prefixes reach nothing more and stop too. */
  lemma {:induction false} ScaleStuck(nodes: seq<NodeState>, parts: map<string, GraphPart>, cs: seq<nat>, k: nat, m: nat, fuel: nat)
    requires PartsInArena(nodes, parts) && (forall j :: 0 <= j < |cs| ==> cs[j] < |nodes|) && k <= m <= |cs|
    requires !ScaleCompletesAll(nodes, parts, cs[..k], fuel)
    ensures ScaleReachAll(nodes, parts, cs[..m], fuel) == ScaleReachAll(nodes, parts, cs[..k], fuel)
    ensures !ScaleCompletesAll(nodes, parts, cs[..m], fuel)
    decreases m
  {
    if m > k {
      ScaleStuck(nodes, parts, cs, k, m - 1, fuel);
      assert cs[..m][..m - 1] == cs[..m - 1];
    }
  }

  /** Two arenas that agree on what `scale` looks at: names and open state. */
  predicate SameOpenShape(a: seq<NodeState>, b: seq<NodeState>)
  {
    && |a| == |b|
    && forall n :: 0 <= n < |a| ==> a[n].name == b[n].name && a[n].openNodeIndex == b[n].openNodeIndex
  }

  lemma {:induction false} ScaleReachFrame(a: seq<NodeState>, b: seq<NodeState>, parts: map<string, GraphPart>, i: nat, fuel: nat)
    requires SameOpenShape(a, b) && PartsInArena(a, parts) && i < |a|
    ensures PartsInArena(b, parts)
    ensures ScaleReach(b, parts, i, fuel) == ScaleReach(a, parts, i, fuel)
    ensures ScaleCompletes(b, parts, i, fuel) == ScaleCompletes(a, parts, i, fuel)
    decreases fuel, 0, 0
  {
    if IsOpen(a[i]) && a[i].name in parts && fuel > 0 {
      ScaleReachAllFrame(a, b, parts, parts[a[i].name].nodes, fuel - 1);
    }
  }

  lemma {:induction false} ScaleReachAllFrame(a: seq<NodeState>, b: seq<NodeState>, parts: map<string, GraphPart>, cs: seq<nat>, fuel: nat)
    requires SameOpenShape(a, b) && PartsInArena(a, parts) && forall k :: 0 <= k < |cs| ==> cs[k] < |a|
    ensures PartsInArena(b, parts)
    ensures ScaleReachAll(b, parts, cs, fuel) == ScaleReachAll(a, parts, cs, fuel)
    ensures ScaleCompletesAll(b, parts, cs, fuel) == ScaleCompletesAll(a, parts, cs, fuel)
    decreases fuel, 1, |cs|
  {
    if cs != [] {
      ScaleReachAllFrame(a, b, parts, cs[..|cs| - 1], fuel);
      ScaleReachFrame(a, b, parts, cs[|cs| - 1], fuel);
    }
  }

  /** The arena after `scale(factor)` on node `i`. */
  ghost function Rescaled(nodes: seq<NodeState>, parts: map<string, GraphPart>, i: nat, factor: nat, fuel: nat): (r: seq<NodeState>)
    requires PartsInArena(nodes, parts) && i < |nodes|
    ensures |r| == |nodes|
    ensures forall n :: 0 <= n < |r| ==> r[n] == nodes[n].(scaleFactor := r[n].scaleFactor)
  {
    var reach := ScaleReach(nodes, parts, i, fuel);
    seq(|nodes|, n requires 0 <= n < |nodes| => if n in reach then nodes[n].(scaleFactor := factor) else nodes[n])
  }

  /** `r` is `nodes` with the factor of exactly the nodes of `reach` set to `factor`. */
  predicate ScaledAt(nodes: seq<NodeState>, r: seq<NodeState>, reach: set<nat>, factor: nat)
  {
    && |r| == |nodes|
    && forall n :: 0 <= n < |r| ==> r[n] == if n in reach then nodes[n].(scaleFactor := factor) else nodes[n]
  }

  lemma RescaledIsScaledAt(nodes: seq<NodeState>, parts: map<string, GraphPart>, i: nat, factor: nat, fuel: nat)
    requires PartsInArena(nodes, parts) && i < |nodes|
    ensures ScaledAt(nodes, Rescaled(nodes, parts, i, factor, fuel), ScaleReach(nodes, parts, i, fuel), factor)
  {
  }

  lemma ScaledAtUnique(nodes: seq<NodeState>, r: seq<NodeState>, r': seq<NodeState>, reach: set<nat>, factor: nat)
    requires ScaledAt(nodes, r, reach, factor) && ScaledAt(nodes, r', reach, factor)
    ensures r == r'
  {
  }

  /** A scaled arena keeps every name and open state, so the registry still fits it. */
  lemma ScaledShape(before: seq<NodeState>, mid: seq<NodeState>, parts: map<string, GraphPart>, reach: set<nat>, factor: nat)
    requires ScaledAt(before, mid, reach, factor) && PartsInArena(before, parts)
    ensures SameOpenShape(before, mid) && PartsInArena(mid, parts)
  {
  }

  /** `scale` from an open node with an entry goes on to that entry's nodes, one level less deep. */
  lemma ScaleOpens(nodes: seq<NodeState>, parts: map<string, GraphPart>, i: nat, fuel: nat)
    requires PartsInArena(nodes, parts) && i < |nodes| && IsOpen(nodes[i]) && nodes[i].name in parts && fuel > 0
    ensures ScaleReach(nodes, parts, i, fuel) == {i} + ScaleReachAll(nodes, parts, parts[nodes[i].name].nodes, fuel - 1)
    ensures ScaleCompletes(nodes, parts, i, fuel) == ScaleCompletesAll(nodes, parts, parts[nodes[i].name].nodes, fuel - 1)
  {
  }

  /**
   * One step of `scale`'s `forEach`, once the earlier children ran to their
   * end: scaling child `cs[k]` of the arena so far (`mid` to `after`)
   * extends the scaled set by that child's reach in the original arena, and
   * the walk so far ends as that child's walk does.
   */
  lemma ScaleStep(before: seq<NodeState>, mid: seq<NodeState>, after: seq<NodeState>, parts: map<string, GraphPart>, i: nat,
                  cs: seq<nat>, k: nat, factor: nat, fuel: nat)
    requires PartsInArena(before, parts) && i < |before| && k < |cs| && forall j :: 0 <= j < |cs| ==> cs[j] < |before|
    requires ScaledAt(before, mid, {i} + ScaleReachAll(before, parts, cs[..k], fuel), factor)
    requires ScaleCompletesAll(before, parts, cs[..k], fuel)
    requires PartsInArena(mid, parts) && ScaledAt(mid, after, ScaleReach(mid, parts, cs[k], fuel), factor)
    ensures ScaledAt(before, after, {i} + ScaleReachAll(before, parts, cs[..k + 1], fuel), factor)
    ensures ScaleCompletes(mid, parts, cs[k], fuel) == ScaleCompletesAll(before, parts, cs[..k + 1], fuel)
  {
    assert SameOpenShape(before, mid);
    ScaleReachFrame(before, mid, parts, cs[k], fuel);
    assert cs[..k + 1][..k] == cs[..k];
  }

  /** The horizontal width of one slot on `layer`: `width / 2^layer`. */
  function SlotWidth(layer: nat, width: real): real
  {
    width / (Pow2(layer) as real)
  }

  /** The vertical shift of slot `index` on `layer`: `index * height / 2^layer`. */
  function SlotHeight(layer: nat, index: int, height: real): real
  {
    (index as real) * height / (Pow2(layer) as real)
  }

  /** `Node.adjustOffset`: shift by one slot of the node's layer, forwards or back. */
  function AdjustOffset(n: NodeState, positive: bool, width: real, height: real): NodeState
  {
    var dx := SlotWidth(n.layer, width);
    var dy := SlotHeight(n.layer, n.openNodeIndex, height);
    if positive then n.(offsetX := n.offsetX + dx, offsetY := n.offsetY + dy)
    else n.(offsetX := n.offsetX - dx, offsetY := n.offsetY - dy)
  }

  /** Un-maximizing shifts an open node's offsets back to where maximizing found them. */
  lemma AdjustOffsetRoundTrip(n: NodeState, width: real, height: real)
    ensures AdjustOffset(AdjustOffset(n, false, width, height), true, width, height) == n
    ensures AdjustOffset(AdjustOffset(n, true, width, height), false, width, height) == n
  {
  }

  /**
   * A node of an entry at or above the toggled node's layer: every node but the
   * toggled one is (de)activated, and an open one has its offset adjusted.
   */
  function FadeNode(node: NodeState, name: string, nowMax: bool, factor: nat, width: real, height: real): (r: NodeState)
    ensures r == node.(isActive := r.isActive, offsetX := r.offsetX, offsetY := r.offsetY)
    ensures r.isActive == if node.name != name then !nowMax else node.isActive
  {
    var a := if node.name != name then node.(isActive := !nowMax) else node;
    if IsOpen(a) then AdjustOffset(a, factor == 1, width, height) else a
  }

  /**
   * What the `graphParts.forEach` of `toggleMaximization` does to node `n` of
   * `part`. In a part on or above the toggled node's layer, every node not
   * named like the toggled node becomes active exactly when nothing is
   * maximized, and every open node has its offset adjusted. In a deeper part,
   * all nodes do the same when the part's ancestor on the toggled node's layer
   * is named differently from it; otherwise they are left alone.
   */
  ghost function FadeInPart(nodes: seq<NodeState>, N: nat, part: GraphPart, key: string, i: nat, nowMax: bool, factor: nat,
                            width: real, height: real, n: nat): (r: NodeState)
    requires ParentsOk(nodes, N) && PartOk(nodes, key, part, N) && i < |nodes| && n < |nodes|
    ensures r == nodes[n].(isActive := r.isActive, offsetX := r.offsetX, offsetY := r.offsetY)
  {
    assert ParentOk(nodes, i, N);
    if part.layer <= nodes[i].layer then
      FadeNode(nodes[n], nodes[i].name, nowMax, factor, width, height)
    else
      var ancestor := AncestorAt(nodes, N, part.parent.value, nodes[i].layer);
      if nodes[ancestor].name != nodes[i].name then nodes[n].(isActive := !nowMax) else nodes[n]
  }

  /** Node `n` after the `forEach`: handled by the one entry holding it, if any. */
  ghost function FadedAt(nodes: seq<NodeState>, parts: map<string, GraphPart>, N: nat, i: nat, nowMax: bool, factor: nat,
                         width: real, height: real, n: nat): (r: NodeState)
    requires ParentsOk(nodes, N) && PartsOk(nodes, parts, N) && i < |nodes| && n < |nodes|
    ensures r == nodes[n].(isActive := r.isActive, offsetX := r.offsetX, offsetY := r.offsetY)
  {
    if exists key :: key in parts && n in parts[key].nodes then
      var key :| key in parts && n in parts[key].nodes;
      FadeInPart(nodes, N, parts[key], key, i, nowMax, factor, width, height, n)
    else nodes[n]
  }

  ghost function Faded(nodes: seq<NodeState>, parts: map<string, GraphPart>, N: nat, i: nat, nowMax: bool, factor: nat,
                       width: real, height: real): (r: seq<NodeState>)
    requires ParentsOk(nodes, N) && PartsOk(nodes, parts, N) && i < |nodes|
    ensures |r| == |nodes|
    ensures forall n :: 0 <= n < |r| ==> r[n] == nodes[n].(isActive := r[n].isActive, offsetX := r[n].offsetX, offsetY := r[n].offsetY)
  {
    seq(|nodes|, n requires 0 <= n < |nodes| => FadedAt(nodes, parts, N, i, nowMax, factor, width, height, n))
  }

  /** The scale factor `toggleMaximization` applies: 2^layer when maximizing, 1 when not. */
  function MaxFactor(layer: nat, nowMax: bool): (factor: nat)
    ensures nowMax && 1 <= layer ==> 2 <= factor
    ensures factor == 1 <==> !nowMax || layer == 0
  {
    if nowMax then Pow2(layer) else 1
  }

  /**
   * The arena after `toggleMaximization` of open node `i` that leaves it
   * maximized (`nowMax`) or not: set the flag, scale, and fade. When the
   * scale walk stops on a missing registry entry, the `TypeError` ends the
   * toggle before the fading.
   */
  ghost function ToggleEffect(nodes: seq<NodeState>, parts: map<string, GraphPart>, N: nat, i: nat, nowMax: bool,
                              width: real, height: real): (r: seq<NodeState>)
    requires ParentsOk(nodes, N) && PartsOk(nodes, parts, N) && i < |nodes|
    ensures |r| == |nodes|
  {
    var factor := MaxFactor(nodes[i].layer, nowMax);
    var flagged := nodes[i := nodes[i].(isMaximized := nowMax)];
    assert SameShape(nodes, flagged);
    ShapeKeepsParentsOk(nodes, flagged, N);
    ShapeKeepsPartsOk(nodes, flagged, parts, N);
    PartsOkInArena(flagged, parts, N);
    var scaled := Rescaled(flagged, parts, i, factor, N);
    assert SameShape(flagged, scaled);
    ShapeKeepsParentsOk(flagged, scaled, N);
    ShapeKeepsPartsOk(flagged, scaled, parts, N);
    if ScaleCompletes(flagged, parts, i, N) then Faded(scaled, parts, N, i, nowMax, factor, width, height) else scaled
  }

  /** Node by node, the toggle sets the flag, the factor on the reach, and at most activity and offsets. */
  lemma ToggleEffectPointwise(nodes: seq<NodeState>, parts: map<string, GraphPart>, N: nat, i: nat, nowMax: bool, width: real, height: real)
    requires ParentsOk(nodes, N) && PartsOk(nodes, parts, N) && i < |nodes|
    ensures PartsInArena(nodes, parts)
    ensures var r := ToggleEffect(nodes, parts, N, i, nowMax, width, height);
      forall n :: 0 <= n < |r| ==>
        r[n] == nodes[n].(isMaximized := if n == i then nowMax else nodes[n].isMaximized,
                          scaleFactor := if n in ScaleReach(nodes, parts, i, N) then MaxFactor(nodes[i].layer, nowMax) else nodes[n].scaleFactor,
                          isActive := r[n].isActive, offsetX := r[n].offsetX, offsetY := r[n].offsetY)
    ensures var r := ToggleEffect(nodes, parts, N, i, nowMax, width, height);
      !ScaleCompletes(nodes, parts, i, N) ==>
        forall n :: 0 <= n < |r| ==> r[n].isActive == nodes[n].isActive && r[n].offsetX == nodes[n].offsetX && r[n].offsetY == nodes[n].offsetY
  {
    PartsOkInArena(nodes, parts, N);
    var factor := MaxFactor(nodes[i].layer, nowMax);
    var flagged := nodes[i := nodes[i].(isMaximized := nowMax)];
    assert SameShape(nodes, flagged);
    ShapeKeepsParentsOk(nodes, flagged, N);
    ShapeKeepsPartsOk(nodes, flagged, parts, N);
    PartsOkInArena(flagged, parts, N);
    assert SameOpenShape(nodes, flagged);
    ScaleReachFrame(nodes, flagged, parts, i, N);
    var scaled := Rescaled(flagged, parts, i, factor, N);
    RescaledIsScaledAt(flagged, parts, i, factor, N);
    assert SameShape(flagged, scaled);
    ShapeKeepsParentsOk(flagged, scaled, N);
    ShapeKeepsPartsOk(flagged, scaled, parts, N);
    var r := if ScaleCompletes(flagged, parts, i, N) then Faded(scaled, parts, N, i, nowMax, factor, width, height) else scaled;
    assert r == ToggleEffect(nodes, parts, N, i, nowMax, width, height);
  }

  /**
   * After the toggle only `i`'s flag has changed, `i` and every node `scale`
   * reaches from it carry the new factor (2^layer or 1), and nothing else
   * about the hierarchy (names, layers, parents, open lists, open state) moves.
   */
  lemma ToggleEffectSpec(nodes: seq<NodeState>, parts: map<string, GraphPart>, N: nat, i: nat, nowMax: bool, width: real, height: real)
    requires ParentsOk(nodes, N) && PartsOk(nodes, parts, N) && i < |nodes|
    ensures PartsInArena(nodes, parts)
    ensures var r := ToggleEffect(nodes, parts, N, i, nowMax, width, height);
      && SameShape(nodes, r)
      && (forall n :: 0 <= n < |r| ==>
            r[n].openNodes == nodes[n].openNodes && r[n].openNodeIndex == nodes[n].openNodeIndex
            && r[n].relation == nodes[n].relation && r[n].selectedNodeNeighbourCount == nodes[n].selectedNodeNeighbourCount)
      && (forall n :: 0 <= n < |r| ==> r[n].isMaximized == if n == i then nowMax else nodes[n].isMaximized)
      && (forall n :: n in ScaleReach(nodes, parts, i, N) ==> r[n].scaleFactor == MaxFactor(nodes[i].layer, nowMax))
      && (forall n :: 0 <= n < |r| && n !in ScaleReach(nodes, parts, i, N) ==> r[n].scaleFactor == nodes[n].scaleFactor)
      && (!ScaleCompletes(nodes, parts, i, N) ==>
            forall n :: 0 <= n < |r| ==> r[n].isActive == nodes[n].isActive && r[n].offsetX == nodes[n].offsetX && r[n].offsetY == nodes[n].offsetY)
  {
    ToggleEffectPointwise(nodes, parts, N, i, nowMax, width, height);
  }

  /** `FadeInPart` looks only at the shape of the arena and at node `n` itself. */
  lemma FadeInPartFrame(a: seq<NodeState>, b: seq<NodeState>, N: nat, part: GraphPart, key: string, i: nat, nowMax: bool, factor: nat,
                        width: real, height: real, n: nat)
    requires SameShape(a, b) && ParentsOk(a, N) && ParentsOk(b, N) && PartOk(a, key, part, N) && PartOk(b, key, part, N)
    requires i < |a| && n < |a| && a[n] == b[n]
    ensures FadeInPart(a, N, part, key, i, nowMax, factor, width, height, n) == FadeInPart(b, N, part, key, i, nowMax, factor, width, height, n)
  {
    if part.layer > a[i].layer {
      assert ParentOk(a, i, N);
      AncestorAtShape(a, b, N, part.parent.value, a[i].layer);
    }
  }

  /** A node of an entry is faded by that entry (entries are disjoint). */
  lemma FadedAtIn(nodes: seq<NodeState>, parts: map<string, GraphPart>, N: nat, i: nat, nowMax: bool, factor: nat,
                  width: real, height: real, key: string, n: nat)
    requires ParentsOk(nodes, N) && PartsOk(nodes, parts, N) && i < |nodes| && n < |nodes|
    requires key in parts && n in parts[key].nodes
    ensures FadedAt(nodes, parts, N, i, nowMax, factor, width, height, n)
            == FadeInPart(nodes, N, parts[key], key, i, nowMax, factor, width, height, n)
  {
  }

  /** The nodes of the entries under `keys`. */
  ghost function Covered(parts: map<string, GraphPart>, keys: set<string>): set<nat>
  {
    set key, n | key in keys && key in parts && n in parts[key].nodes :: n
  }

  /** `r` is `nodes` with exactly the nodes of `done` faded. */
  ghost predicate FadedOn(nodes: seq<NodeState>, r: seq<NodeState>, parts: map<string, GraphPart>, N: nat, i: nat, nowMax: bool,
                          factor: nat, width: real, height: real, done: set<nat>)
    requires ParentsOk(nodes, N) && PartsOk(nodes, parts, N) && i < |nodes|
  {
    && |r| == |nodes|
    && forall n :: 0 <= n < |r| ==>
         r[n] == if n in done then FadedAt(nodes, parts, N, i, nowMax, factor, width, height, n) else nodes[n]
  }

  /** Fading one more entry extends the faded set by that entry's nodes. */
  lemma FadeStep(before: seq<NodeState>, mid: seq<NodeState>, after: seq<NodeState>, parts: map<string, GraphPart>, N: nat,
                 i: nat, nowMax: bool, factor: nat, width: real, height: real, done: set<string>, key: string)
    requires ParentsOk(before, N) && PartsOk(before, parts, N) && i < |before| && key in parts && key !in done
    requires SameShape(before, mid) && FadedOn(before, mid, parts, N, i, nowMax, factor, width, height, Covered(parts, done))
    requires ParentsOk(mid, N) && PartsOk(mid, parts, N)
    requires |after| == |mid|
    requires forall n :: 0 <= n < |after| ==>
               after[n] == if n in parts[key].nodes then FadeInPart(mid, N, parts[key], key, i, nowMax, factor, width, height, n) else mid[n]
    ensures SameShape(before, after)
    ensures FadedOn(before, after, parts, N, i, nowMax, factor, width, height, Covered(parts, done + {key}))
  {
    var C0, C1 := Covered(parts, done), Covered(parts, done + {key});
    CoveredStep(parts, done, key);
    forall n | 0 <= n < |after|
      ensures after[n] == if n in C1 then FadedAt(before, parts, N, i, nowMax, factor, width, height, n) else before[n]
    {
      if n in parts[key].nodes {
        assert n !in C0;
        assert PartOk(before, key, parts[key], N) && PartOk(mid, key, parts[key], N);
        FadeInPartFrame(before, mid, N, parts[key], key, i, nowMax, factor, width, height, n);
        FadedAtIn(before, parts, N, i, nowMax, factor, width, height, key, n);
      }
    }
  }

  /** The nodes covered by one more key are those covered before plus that key's own. */
  lemma CoveredStep(parts: map<string, GraphPart>, done: set<string>, key: string)
    requires key in parts
    ensures forall n :: n in Covered(parts, done + {key}) <==> n in Covered(parts, done) || n in parts[key].nodes
  {
  }

  /** Moving one key from the pending keys to the visited ones keeps the two a partition. */
  lemma MoveKey(all: set<string>, keys: set<string>, done: set<string>, key: string)
    requires keys !! done && keys + done == all && key in keys
    ensures (keys - {key}) !! (done + {key}) && (keys - {key}) + (done + {key}) == all
  {
  }

  /** Once every entry is faded, the arena is `Faded`. */
  lemma FadedOnAll(nodes: seq<NodeState>, r: seq<NodeState>, parts: map<string, GraphPart>, N: nat, i: nat, nowMax: bool,
                   factor: nat, width: real, height: real)
    requires ParentsOk(nodes, N) && PartsOk(nodes, parts, N) && i < |nodes|
    requires FadedOn(nodes, r, parts, N, i, nowMax, factor, width, height, Covered(parts, parts.Keys))
    ensures r == Faded(nodes, parts, N, i, nowMax, factor, width, height)
  {
    var f := Faded(nodes, parts, N, i, nowMax, factor, width, height);
    forall n | 0 <= n < |r| ensures r[n] == f[n] {
      if n !in Covered(parts, parts.Keys) {
        assert !exists key :: key in parts && n in parts[key].nodes;
      }
    }
  }

  /**
   * Maximizing `i` while `current` is maximized: the inner
   * `currentMaximized.toggleMaximization()` raises a `TypeError` before `i`
   * is touched.
   */
  ghost predicate InnerFails(nodes: seq<NodeState>, parts: map<string, GraphPart>, N: nat, i: nat, current: Option<nat>)
    requires PartsInArena(nodes, parts) && i < |nodes| && (current.Some? ==> current.value < |nodes|)
  {
    !nodes[i].isMaximized && current.Some? && !ScaleCompletes(nodes, parts, current.value, N)
  }

  /** Whether `toggleMaximization` of open node `i` while `current` is maximized raises no `TypeError`. */
  ghost predicate MaximizeCompletes(nodes: seq<NodeState>, parts: map<string, GraphPart>, N: nat, i: nat, current: Option<nat>)
    requires PartsInArena(nodes, parts) && i < |nodes| && (current.Some? ==> current.value < |nodes|)
  {
    && ScaleCompletes(nodes, parts, i, N)
    && (!nodes[i].isMaximized && current.Some? ==> ScaleCompletes(nodes, parts, current.value, N))
  }

  /**
   * `currentMaximized` after `toggleMaximization` of open node `i`: nothing
   * when `i` was maximized or the inner call failed, `i` otherwise (it is
   * set before `i`'s own scale walk, so it stays set if that walk fails).
   */
  ghost function MaximizePointer(nodes: seq<NodeState>, parts: map<string, GraphPart>, N: nat, i: nat, current: Option<nat>): Option<nat>
    requires PartsInArena(nodes, parts) && i < |nodes| && (current.Some? ==> current.value < |nodes|)
  {
    if nodes[i].isMaximized || InnerFails(nodes, parts, N, i, current) then None else Some(i)
  }

  /**
   * The arena after `toggleMaximization` of open node `i` while `current` is
   * maximized: un-maximize `i`, or maximize it after un-maximizing `current`
   * (the inner call, whose `TypeError` leaves `i` alone).
   */
  ghost function MaximizeEffect(nodes: seq<NodeState>, parts: map<string, GraphPart>, N: nat, i: nat, current: Option<nat>,
                                width: real, height: real): (r: seq<NodeState>)
    requires ParentsOk(nodes, N) && PartsOk(nodes, parts, N) && i < |nodes| && (current.Some? ==> current.value < |nodes|)
    ensures |r| == |nodes|
  {
    PartsOkInArena(nodes, parts, N);
    if nodes[i].isMaximized then ToggleEffect(nodes, parts, N, i, false, width, height)
    else if current.None? then ToggleEffect(nodes, parts, N, i, true, width, height)
    else
      var inner := ToggleEffect(nodes, parts, N, current.value, false, width, height);
      ToggleEffectSpec(nodes, parts, N, current.value, false, width, height);
      ShapeKeepsParentsOk(nodes, inner, N);
      ShapeKeepsPartsOk(nodes, inner, parts, N);
      if InnerFails(nodes, parts, N, i, current) then inner else ToggleEffect(inner, parts, N, i, true, width, height)
  }

  /**
   * One toggle of an open node `i` that moves the maximized pointer from
   * `current` (`i` itself, or nothing) to nothing (or `i`) keeps the open
   * lists and leaves exactly the new pointer's node maximized.
   */
  lemma ToggleKeepsExclusive(nodes: seq<NodeState>, parts: map<string, GraphPart>, N: nat, i: nat, nowMax: bool, current: Option<nat>,
                             width: real, height: real)
    requires ParentsOk(nodes, N) && PartsOk(nodes, parts, N) && i < |nodes| && MaxExclusive(nodes, current) && IsOpen(nodes[i])
    requires current == if nowMax then None else Some(i)
    ensures var r := ToggleEffect(nodes, parts, N, i, nowMax, width, height);
      SameOpenLists(nodes, r) && MaxExclusive(r, if nowMax then Some(i) else None)
  {
    ToggleEffectSpec(nodes, parts, N, i, nowMax, width, height);
  }

  /**
   * A toggle of open node `i` leaves at most one node maximized: the node the
   * new pointer names, if any. It keeps the hierarchy and, unless the inner
   * un-maximizing call failed, gives every node `i`'s walk reaches the factor
   * 2^layer (maximizing) or 1 (un-maximizing). Whether it raises a
   * `TypeError` does not depend on the inner call's changes.
   */
  lemma MaximizeEffectSpec(nodes: seq<NodeState>, parts: map<string, GraphPart>, N: nat, i: nat, current: Option<nat>,
                           width: real, height: real)
    requires ParentsOk(nodes, N) && PartsOk(nodes, parts, N) && i < |nodes| && MaxExclusive(nodes, current) && IsOpen(nodes[i])
    ensures PartsInArena(nodes, parts)
    ensures var r := MaximizeEffect(nodes, parts, N, i, current, width, height);
      && SameOpenLists(nodes, r)
      && MaxExclusive(r, MaximizePointer(nodes, parts, N, i, current))
      && (!InnerFails(nodes, parts, N, i, current) ==>
            forall n :: n in ScaleReach(nodes, parts, i, N) ==> r[n].scaleFactor == MaxFactor(nodes[i].layer, !nodes[i].isMaximized))
  {
    PartsOkInArena(nodes, parts, N);
    var r := MaximizeEffect(nodes, parts, N, i, current, width, height);
    var nowMax := !nodes[i].isMaximized;
    if nodes[i].isMaximized || current.None? {
      ToggleKeepsExclusive(nodes, parts, N, i, nowMax, current, width, height);
      ToggleEffectSpec(nodes, parts, N, i, nowMax, width, height);
    } else {
      var j := current.value;
      var inner := ToggleEffect(nodes, parts, N, j, false, width, height);
      ToggleKeepsExclusive(nodes, parts, N, j, false, current, width, height);
      ShapeKeepsParentsOk(nodes, inner, N);
      ShapeKeepsPartsOk(nodes, inner, parts, N);
      if !InnerFails(nodes, parts, N, i, current) {
        assert r == ToggleEffect(inner, parts, N, i, true, width, height);
        ToggleKeepsExclusive(inner, parts, N, i, true, None, width, height);
        ToggleEffectSpec(inner, parts, N, i, true, width, height);
        assert SameOpenShape(nodes, inner);
        ScaleReachFrame(nodes, inner, parts, i, N);
      }
    }
  }

  /**
   * Maximizing `i` while `j` is maximized, as two toggles: un-maximizing `j`
   * alone is `MaximizeEffect` at `j`, and its outcome decides whether the
   * toggle of `i` runs; that inner toggle changes nothing `i`'s scale walk
   * looks at.
   */
  lemma MaximizeSteps(nodes: seq<NodeState>, parts: map<string, GraphPart>, N: nat, i: nat, j: nat, width: real, height: real)
    requires ParentsOk(nodes, N) && PartsOk(nodes, parts, N) && i < |nodes| && j < |nodes| && !nodes[i].isMaximized && nodes[j].isMaximized
    ensures PartsInArena(nodes, parts)
    ensures MaximizeEffect(nodes, parts, N, j, Some(j), width, height) == ToggleEffect(nodes, parts, N, j, false, width, height)
    ensures MaximizeCompletes(nodes, parts, N, j, Some(j)) == ScaleCompletes(nodes, parts, j, N)
    ensures MaximizePointer(nodes, parts, N, j, Some(j)).None?
    ensures var inner := ToggleEffect(nodes, parts, N, j, false, width, height);
      && ParentsOk(inner, N) && PartsOk(inner, parts, N) && PartsInArena(inner, parts)
      && IsOpen(inner[i]) == IsOpen(nodes[i]) && !inner[i].isMaximized
      && ScaleCompletes(inner, parts, i, N) == ScaleCompletes(nodes, parts, i, N)
      && MaximizeCompletes(nodes, parts, N, i, Some(j)) == (ScaleCompletes(nodes, parts, j, N) && ScaleCompletes(nodes, parts, i, N))
      && MaximizeEffect(nodes, parts, N, i, Some(j), width, height)
         == (if ScaleCompletes(nodes, parts, j, N) then ToggleEffect(inner, parts, N, i, true, width, height) else inner)
      && MaximizePointer(nodes, parts, N, i, Some(j)) == (if ScaleCompletes(nodes, parts, j, N) then Some(i) else None)
  {
    PartsOkInArena(nodes, parts, N);
    ToggleEffectSpec(nodes, parts, N, j, false, width, height);
    var inner := ToggleEffect(nodes, parts, N, j, false, width, height);
    ShapeKeepsParentsOk(nodes, inner, N);
    ShapeKeepsPartsOk(nodes, inner, parts, N);
    assert SameOpenShape(nodes, inner);
    ScaleReachFrame(nodes, inner, parts, i, N);
  }
}
