/** A stable sort by a numeric key, standing in for the stable `Array.prototype.sort`
    the application calls with a subtracting comparator (`(a, b) => key(a) - key(b)`
    sorts ascending; `(a, b) => key(b) - key(a)` is the ascending sort of the negated
    key). */
module Sorting {
  import opened Common

  /** Non-decreasing by key. */
  predicate SortedBy<T>(xs: seq<T>, key: T -> real) {
    forall i, j :: 0 <= i < j < |xs| ==> key(xs[i]) <= key(xs[j])
  }

  /** Inserts x before the first element whose key is not smaller, so that x stays
      ahead of the elements with an equal key. */
  function Insert<T>(x: T, ys: seq<T>, key: T -> real): (r: seq<T>)
    ensures multiset(r) == multiset(ys) + multiset{x}
  {
    if ys == [] || key(x) <= key(ys[0]) then [x] + ys
    else
      assert ys == [ys[0]] + ys[1..];
      [ys[0]] + Insert(x, ys[1..], key)
  }

  /** Insertion adds no element below a bound that x and ys respect. */
  lemma InsertAbove<T>(x: T, ys: seq<T>, key: T -> real, bound: real)
    requires bound <= key(x)
    requires forall i :: 0 <= i < |ys| ==> bound <= key(ys[i])
    ensures forall i :: 0 <= i < |Insert(x, ys, key)| ==> bound <= key(Insert(x, ys, key)[i])
  {
    var r := Insert(x, ys, key);
    forall i | 0 <= i < |r|
      ensures bound <= key(r[i])
    {
      assert r[i] in multiset(ys) + multiset{x};
      if r[i] != x {
        assert r[i] in ys;
      }
    }
  }

  /** Inserting into a sorted sequence keeps it sorted. */
  lemma {:induction false} InsertSorted<T>(x: T, ys: seq<T>, key: T -> real)
    requires SortedBy(ys, key)
    ensures SortedBy(Insert(x, ys, key), key)
  {
    if ys == [] || key(x) <= key(ys[0]) {
    } else {
      var tail := ys[1..];
      var rest := Insert(x, tail, key);
      assert SortedBy(tail, key) by {
        forall i, j | 0 <= i < j < |tail|
          ensures key(tail[i]) <= key(tail[j])
        {
          assert tail[i] == ys[i + 1] && tail[j] == ys[j + 1];
        }
      }
      InsertSorted(x, tail, key);
      assert forall i :: 0 <= i < |tail| ==> key(ys[0]) <= key(tail[i]) by {
        forall i | 0 <= i < |tail|
          ensures key(ys[0]) <= key(tail[i])
        {
          assert tail[i] == ys[i + 1];
        }
      }
      InsertAbove(x, tail, key, key(ys[0]));
      var r := [ys[0]] + rest;
      assert Insert(x, ys, key) == r;
      forall i, j | 0 <= i < j < |r|
        ensures key(r[i]) <= key(r[j])
      {
        assert r[j] == rest[j - 1];
        if i > 0 {
          assert r[i] == rest[i - 1];
        }
      }
    }
  }

  /** Stable insertion sort, ascending by key. */
  function SortBy<T>(xs: seq<T>, key: T -> real): (r: seq<T>)
    ensures multiset(r) == multiset(xs)
    ensures SortedBy(r, key)
  {
    if xs == [] then []
    else
      assert xs == [xs[0]] + xs[1..];
      var sortedTail := SortBy(xs[1..], key);
      InsertSorted(xs[0], sortedTail, key);
      Insert(xs[0], sortedTail, key)
  }

  lemma {:induction false} InsertSumBy<T>(x: T, ys: seq<T>, key: T -> real, f: T -> real)
    ensures SumBy(Insert(x, ys, key), f) == f(x) + SumBy(ys, f)
  {
    if ys == [] || key(x) <= key(ys[0]) {
      assert ([x] + ys)[1..] == ys;
    } else {
      InsertSumBy(x, ys[1..], key, f);
      assert ([ys[0]] + Insert(x, ys[1..], key))[1..] == Insert(x, ys[1..], key);
    }
  }

  /** Sorting keeps every sum over the elements. */
  lemma {:induction false} SortBySumBy<T>(xs: seq<T>, key: T -> real, f: T -> real)
    ensures SumBy(SortBy(xs, key), f) == SumBy(xs, f)
  {
    if xs != [] {
      SortBySumBy(xs[1..], key, f);
      InsertSumBy(xs[0], SortBy(xs[1..], key), key, f);
    }
  }

  /** Sorting keeps exactly the elements of its input. */
  lemma SortByMembership<T>(xs: seq<T>, key: T -> real, x: T)
    ensures x in SortBy(xs, key) <==> x in xs
  {
    assert x in SortBy(xs, key) <==> x in multiset(SortBy(xs, key));
  }

  /** An input that is already sorted comes back unchanged. */
  lemma {:induction false} SortBySorted<T>(xs: seq<T>, key: T -> real)
    requires SortedBy(xs, key)
    ensures SortBy(xs, key) == xs
  {
    if xs != [] {
      assert SortedBy(xs[1..], key);
      SortBySorted(xs[1..], key);
    }
  }
}
