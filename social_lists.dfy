/** The list edits the social routes (routes/index.js) make on follower,
    following and like lists: removing every occurrence of an id with
    `filter`, and the like toggle's `indexOf` + `splice` or `push`. */
module SocialLists {
  import opened Common

  /** `list.filter(id => String(id) !== String(x))`: every occurrence of `x`
      goes and every other element keeps its multiplicity. */
  function RemoveAll(s: seq<Id>, x: Id): (r: seq<Id>)
    ensures x !in r
    ensures forall y :: y != x ==> multiset(r)[y] == multiset(s)[y]
    ensures |r| == |s| - multiset(s)[x]
  {
    if s == [] then []
    else
      assert s == [s[0]] + s[1..];
      if s[0] == x then RemoveAll(s[1..], x)
      else [s[0]] + RemoveAll(s[1..], x)
  }

  /** Filtering keeps the order: it distributes over concatenation. */
  lemma {:induction false} RemoveAllAppend(s: seq<Id>, t: seq<Id>, x: Id)
    ensures RemoveAll(s + t, x) == RemoveAll(s, x) + RemoveAll(t, x)
  {
    if s == [] {
      assert s + t == t;
    } else {
      assert (s + t)[0] == s[0] && (s + t)[1..] == s[1..] + t;
      RemoveAllAppend(s[1..], t, x);
    }
  }

  /** A list without `x` is left as it is. */
  lemma {:induction false} RemoveAllAbsent(s: seq<Id>, x: Id)
    requires x !in s
    ensures RemoveAll(s, x) == s
  {
    if s != [] {
      RemoveAllAbsent(s[1..], x);
    }
  }

  /** Unfollowing undoes a follow: appending `x` to a list that did not hold
      it and then filtering `x` out gives the list back. */
  lemma RemoveAllUndoesAppend(s: seq<Id>, x: Id)
    requires x !in s
    ensures RemoveAll(s + [x], x) == s
  {
    RemoveAllAppend(s, [x], x);
    RemoveAllAbsent(s, x);
  }

  /** `list.indexOf(x)`: the first position holding `x`, or -1. */
  function IndexOf(s: seq<Id>, x: Id): (i: int)
    ensures -1 <= i < |s|
    ensures i == -1 <==> x !in s
    ensures 0 <= i ==> s[i] == x && x !in s[..i]
  {
    if s == [] then -1
    else if s[0] == x then 0
    else
      var j := IndexOf(s[1..], x);
      if j == -1 then -1
      else
        assert s[..j + 1] == [s[0]] + s[1..][..j];
        j + 1
  }

  /** The like toggle: `splice(indexOf(x), 1)` when `x` is present (one
      occurrence goes, the first), `push(x)` otherwise. */
  function Toggle(s: seq<Id>, x: Id): (r: seq<Id>)
    ensures x in s ==> multiset(r) == multiset(s) - multiset{x}
    ensures x in s ==> |r| == |s| - 1
    ensures x !in s ==> r == s + [x]
  {
    var i := IndexOf(s, x);
    if i >= 0 then
      assert s == s[..i] + [s[i]] + s[i + 1..];
      s[..i] + s[i + 1..]
    else s + [x]
  }

  /** No element occurs twice. */
  predicate Distinct(s: seq<Id>) {
    forall y | y in s :: multiset(s)[y] <= 1
  }

  /** Toggling keeps a duplicate-free list duplicate-free, and afterwards `x`
      is in the list exactly when it was not before. */
  lemma ToggleKeepsDistinct(s: seq<Id>, x: Id)
    requires Distinct(s)
    ensures Distinct(Toggle(s, x))
    ensures x in Toggle(s, x) <==> x !in s
  {
    var r := Toggle(s, x);
    if x in s {
      assert multiset(s)[x] == 1;
      assert x !in multiset(r);
    } else {
      assert multiset(r) == multiset(s) + multiset{x};
    }
  }

  /** Liking and then unliking restores the list exactly. */
  lemma ToggleTwiceFromAbsent(s: seq<Id>, x: Id)
    requires x !in s
    ensures Toggle(Toggle(s, x), x) == s
  {
    var t := s + [x];
    assert IndexOf(t, x) == |s| by {
      assert t[|s|] == x && t[..|s|] == s;
    }
    assert t[..|s|] == s;
  }

  /** Unliking and then liking again keeps the same likes, possibly in
      another order. */
  lemma ToggleTwiceFromPresent(s: seq<Id>, x: Id)
    requires Distinct(s) && x in s
    ensures multiset(Toggle(Toggle(s, x), x)) == multiset(s)
  {
    ToggleKeepsDistinct(s, x);
  }
}
