/** Sums of weights over a list, the `reduce((sum, x) => sum + w(x), 0)` and
    `forEach(x => total += w(x))` shapes the server uses for prices, revenue
    and views. */
module Sums {

  function SumBy<T>(s: seq<T>, w: T -> int): int
  {
    if s == [] then 0 else SumBy(s[..|s| - 1], w) + w(s[|s| - 1])
  }

  lemma {:induction false} SumByAppend<T>(a: seq<T>, b: seq<T>, w: T -> int)
    ensures SumBy(a + b, w) == SumBy(a, w) + SumBy(b, w)
    decreases |b|
  {
    if b == [] {
      assert a + b == a;
    } else {
      var c := b[..|b| - 1];
      assert (a + b)[..|a + b| - 1] == a + c;
      SumByAppend(a, c, w);
    }
  }

  /** Taking element `k` out of the list takes exactly its weight off the sum. */
  lemma SumByRemove<T>(s: seq<T>, k: nat, w: T -> int)
    requires k < |s|
    ensures SumBy(s, w) == SumBy(s[..k] + s[k + 1..], w) + w(s[k])
  {
    assert s == s[..k] + [s[k]] + s[k + 1..];
    SumByAppend(s[..k] + [s[k]], s[k + 1..], w);
    SumByAppend(s[..k], s[k + 1..], w);
    assert (s[..k] + [s[k]])[..k] == s[..k];
  }

  /** Changing the weight of one element changes the sum by the difference. */
  lemma SumByUpdate<T>(s: seq<T>, k: nat, x: T, w: T -> int)
    requires k < |s|
    ensures SumBy(s[k := x], w) == SumBy(s, w) - w(s[k]) + w(x)
  {
    SumByRemove(s, k, w);
    SumByRemove(s[k := x], k, w);
    assert s[k := x][..k] == s[..k];
    assert s[k := x][k + 1..] == s[k + 1..];
  }

  /** The sum depends only on how often each element occurs, not on the order. */
  lemma {:induction false} SumByPermutation<T>(a: seq<T>, b: seq<T>, w: T -> int)
    requires multiset(a) == multiset(b)
    ensures SumBy(a, w) == SumBy(b, w)
    decreases |a|
  {
    if a == [] {
      assert |b| == |multiset(b)| == 0;
    } else {
      var x := a[|a| - 1];
      var a' := a[..|a| - 1];
      assert a == a' + [x];
      assert x in multiset(b);
      var k :| 0 <= k < |b| && b[k] == x;
      var b' := b[..k] + b[k + 1..];
      assert b == b[..k] + [x] + b[k + 1..];
      assert multiset(b') == multiset(b) - multiset{x};
      MultisetWithoutLast(a', b', x, a, b);
      SumByPermutation(a', b', w);
      SumByRemove(b, k, w);
    }
  }

  lemma MultisetWithoutLast<T>(a': seq<T>, b': seq<T>, x: T, a: seq<T>, b: seq<T>)
    requires a == a' + [x]
    requires multiset(a) == multiset(b)
    requires multiset(b') == multiset(b) - multiset{x}
    ensures multiset(a') == multiset(b')
  {
    assert multiset(a) == multiset(a') + multiset{x};
  }

  /** Non-negative weights give a non-negative sum. */
  lemma {:induction false} SumByNonNegative<T>(s: seq<T>, w: T -> int)
    requires forall k :: 0 <= k < |s| ==> w(s[k]) >= 0
    ensures SumBy(s, w) >= 0
    decreases |s|
  {
    if s != [] {
      SumByNonNegative(s[..|s| - 1], w);
    }
  }
}
