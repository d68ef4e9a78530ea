/** The collection queries the handlers issue, on a collection held as a
    list: `findOne(filter)`, `find(filter)`, `countDocuments(filter)` and
    `sort({ createdAt: -1 })`. */
module Queries {
  import opened Js
  import opened Sums

  /** `findOne(filter)`: the position of the first document that matches, or
      None when none does. */
  function FindOne<T>(s: seq<T>, p: T -> bool): (r: Option<nat>)
    ensures r.Some? ==> r.value < |s| && p(s[r.value]) && forall k :: 0 <= k < r.value ==> !p(s[k])
    ensures r.None? <==> forall k :: 0 <= k < |s| ==> !p(s[k])
  {
    if s == [] then None
    else if p(s[0]) then Some(0)
    else
      var rest := FindOne(s[1..], p);
      if rest.None? then
        assert forall k :: 1 <= k < |s| ==> s[k] == s[1..][k - 1];
        None
      else Some(rest.value + 1)
  }

  /** `find(filter)`: the documents that match, in collection order. Each
      document occurs in the result as often as in the collection when it
      matches, and not at all otherwise. */
  function Filter<T(!new)>(s: seq<T>, p: T -> bool): (r: seq<T>)
    ensures |r| <= |s|
    ensures forall k :: 0 <= k < |r| ==> p(r[k])
    ensures forall x :: multiset(r)[x] == if p(x) then multiset(s)[x] else 0
  {
    if s == [] then []
    else
      var rest := Filter(s[..|s| - 1], p);
      assert s == s[..|s| - 1] + [s[|s| - 1]];
      if p(s[|s| - 1]) then rest + [s[|s| - 1]] else rest
  }

  /** Every document matches a filter or its negation `q`, never both. */
  lemma {:induction false} FilterSplit<T(!new)>(s: seq<T>, p: T -> bool, q: T -> bool)
    requires forall x :: q(x) == !p(x)
    ensures |Filter(s, p)| + |Filter(s, q)| == |s|
  {
    if s != [] {
      FilterSplit(s[..|s| - 1], p, q);
    }
  }

  /** Summing `w` over the matching documents is summing, over all of them, a
      weight `v` that is `w` on the matching ones and zero on the others. */
  lemma {:induction false} SumOverFilter<T(!new)>(s: seq<T>, p: T -> bool, w: T -> int, v: T -> int)
    requires forall x :: v(x) == if p(x) then w(x) else 0
    ensures SumBy(Filter(s, p), w) == SumBy(s, v)
  {
    if s != [] {
      var init := s[..|s| - 1];
      var x := s[|s| - 1];
      SumOverFilter(init, p, w, v);
      if p(x) {
        var rest := Filter(init, p);
        assert (rest + [x])[..|rest|] == rest;
      }
    }
  }

  /** Newest first: the keys never increase along the list. */
  predicate SortedDesc<T>(s: seq<T>, key: T -> int)
  {
    forall i, j :: 0 <= i < j < |s| ==> key(s[i]) >= key(s[j])
  }

  /** Puts `x` into a newest-first list in front of the first element that is
      not newer than it. */
  function Insert<T>(x: T, s: seq<T>, key: T -> int): (r: seq<T>)
    requires SortedDesc(s, key)
    ensures SortedDesc(r, key)
    ensures multiset(r) == multiset(s) + multiset{x}
    ensures |r| == |s| + 1
    ensures r[0] == x || (s != [] && r[0] == s[0])
  {
    if s == [] then [x]
    else if key(x) >= key(s[0]) then [x] + s
    else
      var tail := Insert(x, s[1..], key);
      InsertBehindHead(x, s, tail, key);
      [s[0]] + tail
  }

  /** The step of `Insert` that keeps the head: `x` went into the rest. */
  lemma InsertBehindHead<T>(x: T, s: seq<T>, tail: seq<T>, key: T -> int)
    requires s != [] && SortedDesc(s, key) && key(x) < key(s[0])
    requires SortedDesc(tail, key) && multiset(tail) == multiset(s[1..]) + multiset{x}
    requires |tail| == |s| && (tail[0] == x || (s[1..] != [] && tail[0] == s[1..][0]))
    ensures SortedDesc([s[0]] + tail, key)
    ensures multiset([s[0]] + tail) == multiset(s) + multiset{x}
  {
    assert s == [s[0]] + s[1..];
    if tail[0] != x {
      assert key(s[0]) >= key(s[1]);
    }
    ConsSorted(s[0], tail, key);
  }

  /** A newest-first list stays so with an element in front that is not
      older than its head. */
  lemma ConsSorted<T>(h: T, tail: seq<T>, key: T -> int)
    requires SortedDesc(tail, key)
    requires tail != [] ==> key(h) >= key(tail[0])
    ensures SortedDesc([h] + tail, key)
  {
    var r := [h] + tail;
    forall i, j | 0 <= i < j < |r| ensures key(r[i]) >= key(r[j]) {
      assert r[j] == tail[j - 1];
      if i > 0 {
        assert r[i] == tail[i - 1];
      } else if j > 1 {
        assert key(tail[0]) >= key(tail[j - 1]);
      }
    }
  }

  /** `sort({ createdAt: -1 })`: the same documents, newest first. Documents
      with equal keys may come out in any order; this is one of them. */
  function SortDesc<T>(s: seq<T>, key: T -> int): (r: seq<T>)
    ensures SortedDesc(r, key)
    ensures multiset(r) == multiset(s)
    ensures |r| == |s|
  {
    if s == [] then []
    else
      assert s == [s[0]] + s[1..];
      Insert(s[0], SortDesc(s[1..], key), key)
  }
}
