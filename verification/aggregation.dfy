/**
 * `Link.weightLink` and the fold that every caller performs with it:
 * links are merged when they join the same two nodes in either direction,
 * and the merged link's weight counts how many links were folded into it.
 */
module Aggregation {
  import opened Wrappers
  import opened Entities

  /** The two links join the same unordered pair of nodes. */
  predicate SamePair(a: Link, b: Link)
  {
    (a.source == b.source && a.target == b.target) || (a.source == b.target && a.target == b.source)
  }

  /** The index of the first link of `acc` that joins the same pair as `l`. */
  function FirstMatch(acc: seq<Link>, l: Link): (r: Option<nat>)
    ensures r.Some? ==> r.value < |acc| && SamePair(acc[r.value], l)
    ensures r.Some? ==> forall k :: 0 <= k < r.value ==> !SamePair(acc[k], l)
    ensures r.None? <==> forall k :: 0 <= k < |acc| ==> !SamePair(acc[k], l)
  {
    if acc == [] then None
    else if SamePair(acc[0], l) then Some(0)
    else match FirstMatch(acc[1..], l)
      case None => None
      case Some(k) => Some(k + 1)
  }

  /** The accumulator after `weightLink(l, acc)`. */
  function AddLink(acc: seq<Link>, l: Link): seq<Link>
  {
    match FirstMatch(acc, l)
    case Some(k) => acc[k := acc[k].(weight := acc[k].weight + 1)]
    case None => acc + [l.(weight := 1)]
  }

  /** `links.forEach(link => Link.weightLink(link, weightedLinks))` from an empty array. */
  function Aggregate(links: seq<Link>): seq<Link>
  {
    if links == [] then [] else AddLink(Aggregate(links[..|links| - 1]), links[|links| - 1])
  }

  /** No two links of `acc` join the same pair. */
  predicate NoDuplicatePairs(acc: seq<Link>)
  {
    forall a, b :: 0 <= a < b < |acc| ==> !SamePair(acc[a], acc[b])
  }

  /** How many links of `links` join the same pair as `l`. */
  function CountPair(links: seq<Link>, l: Link): nat
  {
    if links == [] then 0
    else CountPair(links[..|links| - 1], l) + (if SamePair(links[|links| - 1], l) then 1 else 0)
  }

  /** The sum of the weights. */
  function TotalWeight(acc: seq<Link>): nat
  {
    if acc == [] then 0 else TotalWeight(acc[..|acc| - 1]) + acc[|acc| - 1].weight
  }

  /**
   * `Link.weightLink`: filter the accumulator for links joining the same pair;
   * increment the first match, or else give the link weight 1 and push it.
   */
  method WeightLink(link: Link, targetArray: seq<Link>) returns (r: seq<Link>)
    ensures r == AddLink(targetArray, link)
  {
    var linkMatches: seq<nat> := [];
    var k := 0;
    while k < |targetArray|
      invariant 0 <= k <= |targetArray|
      invariant forall j :: 0 <= j < |linkMatches| ==> linkMatches[j] < k && SamePair(targetArray[linkMatches[j]], link)
      invariant linkMatches != [] ==> forall j :: 0 <= j < linkMatches[0] ==> !SamePair(targetArray[j], link)
      invariant linkMatches == [] ==> forall j :: 0 <= j < k ==> !SamePair(targetArray[j], link)
    {
      if SamePair(targetArray[k], link) {
        linkMatches := linkMatches + [k];
      }
      k := k + 1;
    }
    if |linkMatches| > 0 {
      var first := linkMatches[0];
      r := targetArray[first := targetArray[first].(weight := targetArray[first].weight + 1)];
    } else {
      r := targetArray + [link.(weight := 1)];
    }
  }

  lemma SamePairTransfer(a: Link, b: Link, l: Link)
    requires SamePair(a, l) && SamePair(b, l)
    ensures SamePair(a, b)
  {
  }

  /** One `weightLink` step keeps the accumulator free of duplicate pairs. */
  lemma AddLinkKeepsNoDuplicates(acc: seq<Link>, l: Link)
    requires NoDuplicatePairs(acc)
    ensures NoDuplicatePairs(AddLink(acc, l))
  {
    var r := AddLink(acc, l);
    match FirstMatch(acc, l)
    case Some(k) =>
      forall a, b | 0 <= a < b < |r| ensures !SamePair(r[a], r[b]) {
        assert SamePair(r[a], r[b]) == SamePair(acc[a], acc[b]);
      }
    case None =>
      forall a, b | 0 <= a < b < |r| ensures !SamePair(r[a], r[b]) {
        if b == |acc| {
          assert !SamePair(acc[a], l);
        }
      }
  }

  /** One `weightLink` step adds exactly one to the total weight. */
  lemma {:induction false} AddLinkTotal(acc: seq<Link>, l: Link)
    ensures TotalWeight(AddLink(acc, l)) == TotalWeight(acc) + 1
  {
    match FirstMatch(acc, l)
    case None =>
      assert (acc + [l.(weight := 1)])[..|acc|] == acc;
    case Some(k) =>
      IncrementTotal(acc, k);
  }

  lemma {:induction false} IncrementTotal(acc: seq<Link>, k: nat)
    requires k < |acc|
    ensures TotalWeight(acc[k := acc[k].(weight := acc[k].weight + 1)]) == TotalWeight(acc) + 1
  {
    var r := acc[k := acc[k].(weight := acc[k].weight + 1)];
    if k == |acc| - 1 {
      assert r[..|r| - 1] == acc[..|acc| - 1];
    } else {
      assert r[..|r| - 1] == acc[..|acc| - 1][k := acc[k].(weight := acc[k].weight + 1)];
      IncrementTotal(acc[..|acc| - 1], k);
    }
  }

  /** The accumulator summarises `links`: weights count the matching inputs and every input has its entry. */
  ghost predicate Summarises(acc: seq<Link>, links: seq<Link>)
  {
    && NoDuplicatePairs(acc)
    && (forall k :: 0 <= k < |acc| ==> acc[k].weight == CountPair(links, acc[k]))
    && (forall j :: 0 <= j < |links| ==> FirstMatch(acc, links[j]).Some?)
  }

  lemma {:induction false} CountPairRespectsPair(links: seq<Link>, a: Link, b: Link)
    requires a.source == b.source && a.target == b.target
    ensures CountPair(links, a) == CountPair(links, b)
  {
    if links != [] {
      CountPairRespectsPair(links[..|links| - 1], a, b);
    }
  }

  lemma {:induction false} CountPairZero(links: seq<Link>, l: Link)
    requires forall j :: 0 <= j < |links| ==> !SamePair(links[j], l)
    ensures CountPair(links, l) == 0
  {
    if links != [] {
      CountPairZero(links[..|links| - 1], l);
    }
  }

  /** Folding one more link keeps the accumulator a summary of the longer input. */
  lemma AddLinkSummarises(acc: seq<Link>, links: seq<Link>, l: Link)
    requires Summarises(acc, links)
    ensures Summarises(AddLink(acc, l), links + [l])
  {
    var r := AddLink(acc, l);
    var ls := links + [l];
    assert ls[..|ls| - 1] == links;
    AddLinkKeepsNoDuplicates(acc, l);
    match FirstMatch(acc, l)
    case Some(m) =>
      forall k | 0 <= k < |r| ensures r[k].weight == CountPair(ls, r[k]) {
        CountPairRespectsPair(links, r[k], acc[k]);
        if k != m {
          assert k < m ==> !SamePair(acc[k], acc[m]);
          assert m < k ==> !SamePair(acc[m], acc[k]);
          assert !SamePair(l, r[k]);
        }
      }
      forall j | 0 <= j < |ls| ensures FirstMatch(r, ls[j]).Some? {
        if j < |links| {
          var q := FirstMatch(acc, ls[j]).value;
          assert SamePair(r[q], ls[j]);
        } else {
          assert SamePair(r[m], ls[j]);
        }
      }
    case None =>
      forall k | 0 <= k < |r| ensures r[k].weight == CountPair(ls, r[k]) {
        if k < |acc| {
          CountPairRespectsPair(links, r[k], acc[k]);
          assert !SamePair(l, r[k]);
        } else {
          forall j | 0 <= j < |links| ensures !SamePair(links[j], r[k]) {
            var q := FirstMatch(acc, links[j]).value;
            assert SamePair(acc[q], links[j]) && !SamePair(acc[q], l);
          }
          CountPairZero(links, r[k]);
        }
      }
      forall j | 0 <= j < |ls| ensures FirstMatch(r, ls[j]).Some? {
        if j < |links| {
          var q := FirstMatch(acc, ls[j]).value;
          assert SamePair(r[q], ls[j]);
        } else {
          assert SamePair(r[|acc|], ls[j]);
        }
      }
  }

  /**
   * Folding any sequence of links with `weightLink` leaves no two links on the same
   * unordered pair, gives each link a weight equal to the number of folded links on
   * its pair (in either direction), and leaves an entry for every folded link.
   */
  lemma {:induction false} AggregateSummarises(links: seq<Link>)
    ensures Summarises(Aggregate(links), links)
  {
    if links != [] {
      var init := links[..|links| - 1];
      AggregateSummarises(init);
      AddLinkSummarises(Aggregate(init), init, links[|links| - 1]);
      assert init + [links[|links| - 1]] == links;
    }
  }

  /** The weights of the folded links add up to the number of links folded. */
  lemma {:induction false} AggregateTotalWeight(links: seq<Link>)
    ensures TotalWeight(Aggregate(links)) == |links|
  {
    if links != [] {
      AggregateTotalWeight(links[..|links| - 1]);
      AddLinkTotal(Aggregate(links[..|links| - 1]), links[|links| - 1]);
    }
  }

  /** Every folded link is one of the inputs (the first on its pair), with its weight replaced. */
  lemma {:induction false} AggregateFromInputs(links: seq<Link>)
    ensures forall k :: 0 <= k < |Aggregate(links)| ==>
              exists j :: 0 <= j < |links| && Aggregate(links)[k] == links[j].(weight := Aggregate(links)[k].weight)
  {
    if links != [] {
      var init := links[..|links| - 1];
      AggregateFromInputs(init);
      var acc := Aggregate(init);
      var r := Aggregate(links);
      assert r == AddLink(acc, links[|links| - 1]);
      forall k | 0 <= k < |r|
        ensures exists j :: 0 <= j < |links| && r[k] == links[j].(weight := r[k].weight)
      {
        if k < |acc| {
          var j :| 0 <= j < |init| && acc[k] == init[j].(weight := acc[k].weight);
          assert links[j] == init[j];
          assert r[k] == acc[k].(weight := r[k].weight);
          assert 0 <= j < |links| && r[k] == links[j].(weight := r[k].weight);
        } else {
          assert FirstMatch(acc, links[|links| - 1]).None?;
          assert r[k] == links[|links| - 1].(weight := 1);
          assert r[k] == links[|links| - 1].(weight := r[k].weight);
        }
      }
    } else {
      assert Aggregate(links) == [];
    }
  }

  /** Three parallel edges (a,b), (b,a), (a,b) collapse to one link of weight 3, oriented as the first. */
  lemma ThreeEdgesOneLink(a: nat, b: nat, d0: int, d1: int, d2: int)
    requires a != b
    ensures Aggregate([Link(a, b, d0, 0, false), Link(b, a, d1, 0, false), Link(a, b, d2, 0, false)])
            == [Link(a, b, d0, 3, false)]
  {
    var l0, l1, l2 := Link(a, b, d0, 0, false), Link(b, a, d1, 0, false), Link(a, b, d2, 0, false);
    assert [l0, l1, l2][..2] == [l0, l1];
    assert [l0, l1][..1] == [l0];
    assert [l0][..0] == [];
    assert Aggregate([l0]) == [l0.(weight := 1)];
    assert FirstMatch([l0.(weight := 1)], l1) == Some(0);
    assert Aggregate([l0, l1]) == [l0.(weight := 2)];
    assert FirstMatch([l0.(weight := 2)], l2) == Some(0);
  }
}
