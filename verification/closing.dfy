/**
 * What `NodeDrawingComponent.removeOpenNodes` leaves behind, as relations
 * between the state before and after: the torn-down sub-tree's open lists
 * emptied, its registry entries and loading entries dropped, and the node
 * filtered out of its owner's open list.
 */
module Closing {
  import opened Wrappers
  import opened Entities
  import opened Hierarchy
  import opened Loading

  /**
   * The state after `removeOpenNodes(i)` on arena `a`, registry `parts0`,
   * pending list `pending0` and top-level list `top0`: the nodes `Teardown`
   * visits have empty open lists; `i` is filtered by name out of its parent's
   * list, or out of the top-level list; the registry entries under their names
   * are gone; one pending entry per visited node is removed, in visiting
   * order; nothing else changes.
   */
  ghost predicate TeardownDone(a: seq<NodeState>, b: seq<NodeState>, N: nat, i: nat,
                               parts0: map<string, GraphPart>, parts: map<string, GraphPart>,
                               pending0: seq<string>, pending: seq<string>, top0: seq<nat>, top: seq<nat>)
  {
    && NodesOk(a, N) && OpenListOk(a, top0, None, N) && i < |a|
    && var owner := a[i].parent;
    var t := Teardown(a, N, i);
    && ClosedIn(a, b, t, owner)
    && (owner.Some? ==> owner.value < |a| && OwnerFiltered(a, b, owner.value, a[i].name))
    && top == (if owner.None? then RemoveNamed(a, top0, a[i].name) else top0)
    && parts == parts0 - NameSet(a, t)
    && pending == RemoveEach(pending0, Names(a, t))
  }

  /** `b`'s open list at `p` is `a`'s with every node named `name` filtered out. */
  ghost predicate OwnerFiltered(a: seq<NodeState>, b: seq<NodeState>, p: nat, name: string)
    requires p < |a| && p < |b|
  {
    && (forall k :: 0 <= k < |a[p].openNodes| ==> a[p].openNodes[k] < |a|)
    && b[p].openNodes == RemoveNamed(a, a[p].openNodes, name)
  }

  /** `i` and the sub-trees of the first `k` entries of its open list: what `removeOpenNodes(i)` has visited after `k` entries. */
  ghost function VisitedUpTo(before: seq<NodeState>, N: nat, i: nat, k: nat): (r: seq<nat>)
    requires NodesOk(before, N) && i < |before| && k <= |before[i].openNodes| && ChildrenAt(before, before[i].openNodes, before[i].layer)
    ensures forall j :: 0 <= j < |r| ==> r[j] < |before|
  {
    ChildrenPrefix(before, before[i].openNodes, before[i].layer, k);
    [i] + TeardownAll(before, N, before[i].openNodes[..k], before[i].layer)
  }

  /**
   * Part way through `node.openNodes.forEach(removeOpenNodes)` in
   * `removeOpenNodes(i)`: the sub-trees of the first `k` entries are torn
   * down, `i`'s own list keeps only entries named unlike those `k`, and `i`'s
   * entry and those sub-trees' entries are gone from the registry and the
   * pending list.
   */
  ghost predicate TeardownProgress(before: seq<NodeState>, ns: seq<NodeState>, N: nat, i: nat, k: nat,
                                   parts0: map<string, GraphPart>, parts: map<string, GraphPart>,
                                   pending0: seq<string>, pending: seq<string>)
  {
    && NodesOk(before, N) && i < |before| && k <= |before[i].openNodes|
    && ChildrenAt(before, before[i].openNodes, before[i].layer)
    && var cs, L := before[i].openNodes, before[i].layer;
    assert ChildrenAt(before, cs[..k], L);
    var done := TeardownAll(before, N, cs[..k], L);
    && ClosedIn(before, ns, done, Some(i))
    && ns[i].openNodes == FilterNames(before, cs, NameSet(before, cs[..k]))
    && parts == parts0 - NameSet(before, VisitedUpTo(before, N, i, k))
    && pending == RemoveEach(pending0, Names(before, VisitedUpTo(before, N, i, k)))
  }

  lemma TeardownProgressIntro(before: seq<NodeState>, ns: seq<NodeState>, N: nat, i: nat, k: nat,
                              parts0: map<string, GraphPart>, parts: map<string, GraphPart>,
                              pending0: seq<string>, pending: seq<string>)
    requires NodesOk(before, N) && i < |before| && k <= |before[i].openNodes|
    requires ChildrenAt(before, before[i].openNodes, before[i].layer)
    requires ChildrenAt(before, before[i].openNodes[..k], before[i].layer)
    requires ClosedIn(before, ns, TeardownAll(before, N, before[i].openNodes[..k], before[i].layer), Some(i))
    requires ns[i].openNodes == FilterNames(before, before[i].openNodes, NameSet(before, before[i].openNodes[..k]))
    requires parts == parts0 - NameSet(before, VisitedUpTo(before, N, i, k))
    requires pending == RemoveEach(pending0, Names(before, VisitedUpTo(before, N, i, k)))
    ensures TeardownProgress(before, ns, N, i, k, parts0, parts, pending0, pending)
  {
  }

  /** Part way through, the arena keeps its shape, and the next entry is a child of `i` one layer down. */
  lemma ProgressShape(before: seq<NodeState>, ns: seq<NodeState>, N: nat, i: nat, k: nat,
                      parts0: map<string, GraphPart>, parts: map<string, GraphPart>,
                      pending0: seq<string>, pending: seq<string>)
    requires TeardownProgress(before, ns, N, i, k, parts0, parts, pending0, pending)
    ensures SameShape(before, ns)
    ensures k < |before[i].openNodes| ==>
              before[i].openNodes[k] < |ns| && ns[before[i].openNodes[k]].layer == before[i].layer + 1
  {
    ClosedInShape(before, ns, TeardownAll(before, N, before[i].openNodes[..k], before[i].layer), Some(i));
  }

  /** Before the `forEach`: only `i`'s own registry and loading entries are gone. */
  lemma TeardownProgressStart(before: seq<NodeState>, N: nat, i: nat, parts0: map<string, GraphPart>, parts: map<string, GraphPart>,
                              pending0: seq<string>, pending: seq<string>)
    requires NodesOk(before, N) && i < |before|
    requires parts == parts0 - {before[i].name} && pending == RemoveFirst(pending0, before[i].name)
    ensures TeardownProgress(before, before, N, i, 0, parts0, parts, pending0, pending)
  {
    OpenNodesAreChildren(before, N, i);
    var cs, L := before[i].openNodes, before[i].layer;
    assert cs[..0] == [];
    assert TeardownAll(before, N, cs[..0], L) == [];
    assert VisitedUpTo(before, N, i, 0) == [i];
    assert Names(before, [i]) == [before[i].name];
    assert NameSet(before, [i]) == {before[i].name};
    assert [before[i].name][..0] == [];
    assert NameSet(before, cs[..0]) == {};
    assert ParentsOk(before, N);
    FilterNamesNone(before, cs);
    TeardownProgressIntro(before, before, N, i, 0, parts0, parts, pending0, pending);
  }

  /** Tearing down one more child: the arena part of the progress. */
  lemma StepNodes(before: seq<NodeState>, mid: seq<NodeState>, after: seq<NodeState>, N: nat, i: nat, k: nat)
    requires NodesOk(before, N) && i < |before| && k < |before[i].openNodes|
    requires ChildrenAt(before, before[i].openNodes, before[i].layer)
    requires NodesOk(mid, N) && ClosedIn(before, mid, TeardownAll(before, N, before[i].openNodes[..k], before[i].layer), Some(i))
    requires ClosedIn(mid, after, Teardown(mid, N, before[i].openNodes[k]), mid[before[i].openNodes[k]].parent)
    ensures SameShape(before, mid)
    ensures mid[before[i].openNodes[k]].parent == Some(i)
    ensures Teardown(mid, N, before[i].openNodes[k]) == Teardown(before, N, before[i].openNodes[k])
    ensures TeardownAll(before, N, before[i].openNodes[..k + 1], before[i].layer)
            == TeardownAll(before, N, before[i].openNodes[..k], before[i].layer) + Teardown(before, N, before[i].openNodes[k])
    ensures ClosedIn(before, after, TeardownAll(before, N, before[i].openNodes[..k + 1], before[i].layer), Some(i))
  {
    var cs, L := before[i].openNodes, before[i].layer;
    var c := cs[k];
    TeardownStepFrame(before, mid, N, i, k);
    ClosedInShape(before, mid, TeardownAll(before, N, cs[..k], L), Some(i));
    assert OpenListOk(before, cs, Some(i), N);
    ClosedInCompose(before, mid, after, TeardownAll(before, N, cs[..k], L), Teardown(before, N, c), Some(i));
  }

  /** Tearing down one more child: `i`'s list loses the entries named like it. */
  lemma StepList(before: seq<NodeState>, cs: seq<nat>, k: nat, midList: seq<nat>, afterList: seq<nat>)
    requires forall m :: 0 <= m < |cs| ==> cs[m] < |before|
    requires k < |cs|
    requires midList == FilterNames(before, cs, NameSet(before, cs[..k]))
    requires afterList == RemoveNamed(before, midList, before[cs[k]].name)
    ensures afterList == FilterNames(before, cs, NameSet(before, cs[..k + 1]))
  {
    var c := cs[k];
    PrefixSnoc(cs, k);
    NameSetSnoc(before, cs[..k], c);
    var names := NameSet(before, cs[..k]);
    assert NameSet(before, cs[..k + 1]) == names + {before[c].name};
    FilterNamesStep(before, cs, names, before[c].name);
  }

  lemma PrefixSnoc(s: seq<nat>, k: nat)
    requires k < |s|
    ensures s[..k + 1] == s[..k] + [s[k]]
  {
  }

  lemma ConsConcat(i: nat, a: seq<nat>, b: seq<nat>, c: seq<nat>)
    requires c == a + b
    ensures ([i] + a) + b == [i] + c
  {
  }

  /** Tearing down one more child: its names leave the registry and the pending list. */
  lemma StepNames(before: seq<NodeState>, done: seq<nat>, t: seq<nat>,
                  parts0: map<string, GraphPart>, midParts: map<string, GraphPart>, afterParts: map<string, GraphPart>,
                  pending0: seq<string>, midPending: seq<string>, afterPending: seq<string>)
    requires forall k :: 0 <= k < |done| ==> done[k] < |before|
    requires forall k :: 0 <= k < |t| ==> t[k] < |before|
    requires midParts == parts0 - NameSet(before, done) && afterParts == midParts - NameSet(before, t)
    requires midPending == RemoveEach(pending0, Names(before, done)) && afterPending == RemoveEach(midPending, Names(before, t))
    ensures afterParts == parts0 - NameSet(before, done + t)
    ensures afterPending == RemoveEach(pending0, Names(before, done + t))
  {
    NamesConcat(before, done, t);
    RemoveEachConcat(pending0, Names(before, done), Names(before, t));
  }

  /** The arena part of one entry of the `forEach`. */
  lemma ProgressStepNodes(before: seq<NodeState>, mid: seq<NodeState>, after: seq<NodeState>, N: nat, i: nat, k: nat,
                             top: seq<nat>, parts0: map<string, GraphPart>, midParts: map<string, GraphPart>, afterParts: map<string, GraphPart>,
                             pending0: seq<string>, midPending: seq<string>, afterPending: seq<string>)
    requires TeardownProgress(before, mid, N, i, k, parts0, midParts, pending0, midPending)
    requires k < |before[i].openNodes|
    requires TeardownDone(mid, after, N, before[i].openNodes[k], midParts, afterParts, midPending, afterPending, top, top)
    ensures ClosedIn(before, after, TeardownAll(before, N, before[i].openNodes[..k + 1], before[i].layer), Some(i))
  {
    StepNodes(before, mid, after, N, i, k);
  }

  /** `i`'s own list in one entry of the `forEach`. */
  lemma ProgressStepList(before: seq<NodeState>, mid: seq<NodeState>, after: seq<NodeState>, N: nat, i: nat, k: nat,
                             top: seq<nat>, parts0: map<string, GraphPart>, midParts: map<string, GraphPart>, afterParts: map<string, GraphPart>,
                             pending0: seq<string>, midPending: seq<string>, afterPending: seq<string>)
    requires TeardownProgress(before, mid, N, i, k, parts0, midParts, pending0, midPending)
    requires k < |before[i].openNodes|
    requires TeardownDone(mid, after, N, before[i].openNodes[k], midParts, afterParts, midPending, afterPending, top, top)
    ensures forall m :: 0 <= m < |before[i].openNodes| ==> before[i].openNodes[m] < |before|
    ensures after[i].openNodes == FilterNames(before, before[i].openNodes, NameSet(before, before[i].openNodes[..k + 1]))
  {
    var cs, c := before[i].openNodes, before[i].openNodes[k];
    StepNodes(before, mid, after, N, i, k);
    assert OpenListOk(before, cs, Some(i), N);
    assert OwnerFiltered(mid, after, i, mid[c].name);
    RemoveNamedShape(before, mid, mid[i].openNodes, mid[c].name);
    StepList(before, cs, k, mid[i].openNodes, after[i].openNodes);
  }

  /** The registry and the pending list in one entry of the `forEach`. */
  lemma ProgressStepNames(before: seq<NodeState>, mid: seq<NodeState>, after: seq<NodeState>, N: nat, i: nat, k: nat,
                             top: seq<nat>, parts0: map<string, GraphPart>, midParts: map<string, GraphPart>, afterParts: map<string, GraphPart>,
                             pending0: seq<string>, midPending: seq<string>, afterPending: seq<string>)
    requires NodesOk(before, N) && i < |before| && k < |before[i].openNodes| && ChildrenAt(before, before[i].openNodes, before[i].layer)
    requires TeardownProgress(before, mid, N, i, k, parts0, midParts, pending0, midPending)
    requires TeardownDone(mid, after, N, before[i].openNodes[k], midParts, afterParts, midPending, afterPending, top, top)
    ensures afterParts == parts0 - NameSet(before, VisitedUpTo(before, N, i, k + 1))
    ensures afterPending == RemoveEach(pending0, Names(before, VisitedUpTo(before, N, i, k + 1)))
  {
    var cs, L := before[i].openNodes, before[i].layer;
    var c := cs[k];
    var done := TeardownAll(before, N, cs[..k], L);
    var t := Teardown(before, N, c);
    TeardownStepFrame(before, mid, N, i, k);
    ClosedInShape(before, mid, done, Some(i));
    StepNamesAt(before, mid, i, done, t, TeardownAll(before, N, cs[..k + 1], L),
                parts0, midParts, afterParts, pending0, midPending, afterPending);
  }

  lemma StepNamesAt(before: seq<NodeState>, mid: seq<NodeState>, i: nat, done: seq<nat>, t: seq<nat>, done1: seq<nat>,
                    parts0: map<string, GraphPart>, midParts: map<string, GraphPart>, afterParts: map<string, GraphPart>,
                    pending0: seq<string>, midPending: seq<string>, afterPending: seq<string>)
    requires SameShape(before, mid) && i < |before|
    requires forall k :: 0 <= k < |done| ==> done[k] < |before|
    requires forall k :: 0 <= k < |t| ==> t[k] < |before|
    requires done1 == done + t
    requires midParts == parts0 - NameSet(before, [i] + done) && afterParts == midParts - NameSet(mid, t)
    requires midPending == RemoveEach(pending0, Names(before, [i] + done)) && afterPending == RemoveEach(midPending, Names(mid, t))
    ensures afterParts == parts0 - NameSet(before, [i] + done1)
    ensures afterPending == RemoveEach(pending0, Names(before, [i] + done1))
  {
    ConsConcat(i, done, t, done1);
    NamesShape(before, mid, t);
    StepNames(before, [i] + done, t, parts0, midParts, afterParts, pending0, midPending, afterPending);
  }

  /**
   * One entry of the `forEach`: `removeOpenNodes` on the `k`-th child, done as
   * `TeardownDone` says on the state reached so far, advances the progress by
   * one entry.
   */
  lemma TeardownProgressStep(before: seq<NodeState>, mid: seq<NodeState>, after: seq<NodeState>, N: nat, i: nat, k: nat,
                             top: seq<nat>, parts0: map<string, GraphPart>, midParts: map<string, GraphPart>, afterParts: map<string, GraphPart>,
                             pending0: seq<string>, midPending: seq<string>, afterPending: seq<string>)
    requires TeardownProgress(before, mid, N, i, k, parts0, midParts, pending0, midPending)
    requires k < |before[i].openNodes|
    requires TeardownDone(mid, after, N, before[i].openNodes[k], midParts, afterParts, midPending, afterPending, top, top)
    ensures TeardownProgress(before, after, N, i, k + 1, parts0, afterParts, pending0, afterPending)
  {
    ProgressStepNodes(before, mid, after, N, i, k, top, parts0, midParts, afterParts, pending0, midPending, afterPending);
    ProgressStepList(before, mid, after, N, i, k, top, parts0, midParts, afterParts, pending0, midPending, afterPending);
    ProgressStepNames(before, mid, after, N, i, k, top, parts0, midParts, afterParts, pending0, midPending, afterPending);
    ChildrenPrefix(before, before[i].openNodes, before[i].layer, k + 1);
    TeardownProgressIntro(before, after, N, i, k + 1, parts0, afterParts, pending0, afterPending);
  }

  /**
   * After the `forEach`, `i`'s list is empty, and filtering `i` out of its
   * owner's list completes `removeOpenNodes(i)`.
   */
  lemma TeardownProgressFinish(before: seq<NodeState>, mid: seq<NodeState>, after: seq<NodeState>, N: nat, i: nat,
                               top0: seq<nat>, top: seq<nat>, parts0: map<string, GraphPart>, parts: map<string, GraphPart>,
                               pending0: seq<string>, pending: seq<string>)
    requires i < |before| && OpenListOk(before, top0, None, N)
    requires TeardownProgress(before, mid, N, i, |before[i].openNodes|, parts0, parts, pending0, pending)
    requires |mid| == |before| && ClosedIn(mid, after, [], mid[i].parent)
    requires mid[i].parent.Some? ==> mid[i].parent.value < |mid| && OwnerFiltered(mid, after, mid[i].parent.value, mid[i].name)
    requires top == (if mid[i].parent.None? then RemoveNamed(mid, top0, mid[i].name) else top0)
    ensures TeardownDone(before, after, N, i, parts0, parts, pending0, pending, top0, top)
  {
    var cs, L := before[i].openNodes, before[i].layer;
    assert cs[..|cs|] == cs;
    assert VisitedUpTo(before, N, i, |cs|) == Teardown(before, N, i);
    FinishNodes(before, mid, after, N, i);
    FinishOwner(before, mid, after, N, i, top0, top);
  }

  /** After the `forEach` and the owner filter, exactly the teardown of `i` is closed. */
  lemma FinishNodes(before: seq<NodeState>, mid: seq<NodeState>, after: seq<NodeState>, N: nat, i: nat)
    requires NodesOk(before, N) && i < |before| && ChildrenAt(before, before[i].openNodes, before[i].layer)
    requires ClosedIn(before, mid, TeardownAll(before, N, before[i].openNodes, before[i].layer), Some(i))
    requires mid[i].openNodes == FilterNames(before, before[i].openNodes, NameSet(before, before[i].openNodes))
    requires ClosedIn(mid, after, [], mid[i].parent)
    ensures ClosedIn(before, after, Teardown(before, N, i), before[i].parent)
  {
    var cs, L := before[i].openNodes, before[i].layer;
    ClosedInShape(before, mid, TeardownAll(before, N, cs, L), Some(i));
    assert OpenListOk(before, cs, Some(i), N);
    forall m | 0 <= m < |cs| ensures before[cs[m]].name in NameSet(before, cs) {
      NameSetHas(before, cs, cs[m]);
    }
    FilterNamesAll(before, cs, NameSet(before, cs));
    TeardownFinish(before, mid, after, N, i);
  }

  /** The owner filter, read on the arena before the walk: `i`'s name leaves its owner's list. */
  lemma FinishOwner(before: seq<NodeState>, mid: seq<NodeState>, after: seq<NodeState>, N: nat, i: nat, top0: seq<nat>, top: seq<nat>)
    requires NodesOk(before, N) && i < |before| && OpenListOk(before, top0, None, N)
    requires |mid| == |before| && |after| == |before|
    requires ChildrenAt(before, before[i].openNodes, before[i].layer)
    requires ClosedIn(before, mid, TeardownAll(before, N, before[i].openNodes, before[i].layer), Some(i))
    requires mid[i].parent.Some? ==> mid[i].parent.value < |mid| && OwnerFiltered(mid, after, mid[i].parent.value, mid[i].name)
    requires top == (if mid[i].parent.None? then RemoveNamed(mid, top0, mid[i].name) else top0)
    ensures before[i].parent.Some? ==> before[i].parent.value < |before| && OwnerFiltered(before, after, before[i].parent.value, before[i].name)
    ensures top == (if before[i].parent.None? then RemoveNamed(before, top0, before[i].name) else top0)
  {
    ClosedInShape(before, mid, TeardownAll(before, N, before[i].openNodes, before[i].layer), Some(i));
    assert ParentOk(before, i, N);
    if before[i].parent.Some? {
      var p := before[i].parent.value;
      assert OpenListOk(before, before[p].openNodes, Some(p), N);
      assert p !in Teardown(before, N, i) by {
        TeardownDescends(before, N, i);
      }
      RemoveNamedShape(before, mid, before[p].openNodes, before[i].name);
    } else {
      RemoveNamedShape(before, mid, top0, before[i].name);
    }
  }
}
