/**
 * The `pendingLoadingOperations` list of `LoadingAnimation`: the names of the
 * clusters whose layout is still running. `create` pushes a name and
 * `remove` splices out its first occurrence.
 */
module Loading {

  /** The index of the first occurrence of `x` (`indexOf`). */
  function IndexOf(s: seq<string>, x: string): (r: nat)
    requires x in s
    ensures r < |s| && s[r] == x && x !in s[..r]
  {
    if s[0] == x then 0 else 1 + IndexOf(s[1..], x)
  }

  /** `if (includes(x)) splice(indexOf(x), 1)`. */
  function RemoveFirst(s: seq<string>, x: string): (r: seq<string>)
  {
    if x in s then s[..IndexOf(s, x)] + s[IndexOf(s, x) + 1..] else s
  }

  /**
   * Removing the first occurrence takes exactly one copy of `x` out of the
   * list when there is one, and changes nothing otherwise.
   */
  lemma RemoveFirstMultiset(s: seq<string>, x: string)
    ensures multiset(RemoveFirst(s, x)) == multiset(s) - multiset{x}
    ensures x in s ==> |RemoveFirst(s, x)| == |s| - 1
    ensures x !in s ==> RemoveFirst(s, x) == s
  {
    if x in s {
      var i := IndexOf(s, x);
      var a, b := s[..i], s[i + 1..];
      assert s == a + [x] + b;
      assert multiset(s) == multiset(a) + multiset{x} + multiset(b);
      assert RemoveFirst(s, x) == a + b;
    }
  }

  /** The entries before the first occurrence of `x` keep their places. */
  lemma RemoveFirstKeepsPrefix(s: seq<string>, x: string, k: nat)
    requires k < |s| && x !in s[..k + 1]
    ensures k < |RemoveFirst(s, x)| && RemoveFirst(s, x)[k] == s[k]
  {
    if x in s {
      var i := IndexOf(s, x);
      assert k < i;
    }
  }

  /** Pushing a name and removing it again restores the same multiset of pending names. */
  lemma CreateThenRemove(s: seq<string>, x: string)
    ensures multiset(RemoveFirst(s + [x], x)) == multiset(s)
  {
    RemoveFirstMultiset(s + [x], x);
    assert multiset(s + [x]) == multiset(s) + multiset{x};
  }

  /** One `remove` per name, in order. */
  function RemoveEach(s: seq<string>, names: seq<string>): (r: seq<string>)
  {
    if names == [] then s else RemoveFirst(RemoveEach(s, names[..|names| - 1]), names[|names| - 1])
  }

  lemma {:induction false} RemoveEachConcat(s: seq<string>, a: seq<string>, b: seq<string>)
    ensures RemoveEach(s, a + b) == RemoveEach(RemoveEach(s, a), b)
  {
    if b != [] {
      assert (a + b)[..|a + b| - 1] == a + b[..|b| - 1];
      RemoveEachConcat(s, a, b[..|b| - 1]);
    } else {
      assert a + b == a;
    }
  }

  /** Removing a list of names takes one copy of each out of the pending multiset. */
  lemma {:induction false} RemoveEachMultiset(s: seq<string>, names: seq<string>)
    ensures multiset(RemoveEach(s, names)) == multiset(s) - multiset(names)
  {
    if names != [] {
      var init, x := names[..|names| - 1], names[|names| - 1];
      var r := RemoveEach(s, init);
      assert names == init + [x];
      assert multiset(names) == multiset(init) + multiset{x};
      RemoveEachMultiset(s, init);
      RemoveFirstMultiset(r, x);
      SubtractTwice(multiset(s), multiset(init), multiset{x});
    }
  }

  lemma SubtractTwice(a: multiset<string>, b: multiset<string>, c: multiset<string>)
    ensures a - b - c == a - (b + c)
  {
    forall e ensures (a - b - c)[e] == (a - (b + c))[e] {
    }
  }
}
