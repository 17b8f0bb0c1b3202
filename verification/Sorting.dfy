/**
 * `Array.prototype.sort` by an integer key: stable insertion.
 *
 * The renderer sorts queued messages by position, runs by claim time, buffered
 * events by sequence number and transcripts by timestamp. Each of these sorts is
 * stable, so elements with equal keys keep their order.
 */
module Sorting {
  function Insert<T>(sorted: seq<T>, x: T, key: T -> int): seq<T> {
    if sorted != [] && key(x) < key(sorted[|sorted| - 1])
    then Insert(sorted[..|sorted| - 1], x, key) + [sorted[|sorted| - 1]]
    else sorted + [x]
  }

  function SortBy<T>(xs: seq<T>, key: T -> int): seq<T> {
    if xs == [] then [] else Insert(SortBy(xs[..|xs| - 1], key), xs[|xs| - 1], key)
  }

  predicate Ascending<T>(xs: seq<T>, key: T -> int) {
    forall i, j :: 0 <= i < j < |xs| ==> key(xs[i]) <= key(xs[j])
  }

  lemma {:induction false} InsertMembers<T>(sorted: seq<T>, x: T, key: T -> int)
    ensures multiset(Insert(sorted, x, key)) == multiset(sorted) + multiset{x}
  {
    if sorted != [] {
      var before := sorted[..|sorted| - 1];
      assert sorted == before + [sorted[|sorted| - 1]];
      InsertMembers(before, x, key);
    }
  }

  ghost predicate Bounded<T>(xs: seq<T>, key: T -> int, bound: int) {
    forall i :: 0 <= i < |xs| ==> key(xs[i]) <= bound
  }

  lemma {:induction false} InsertBounded<T>(sorted: seq<T>, x: T, key: T -> int, bound: int)
    requires Bounded(sorted, key, bound) && key(x) <= bound
    ensures Bounded(Insert(sorted, x, key), key, bound)
  {
    if sorted != [] {
      InsertBounded(sorted[..|sorted| - 1], x, key, bound);
    }
  }

  lemma {:induction false} InsertAscending<T>(sorted: seq<T>, x: T, key: T -> int)
    requires Ascending(sorted, key)
    ensures Ascending(Insert(sorted, x, key), key)
  {
    if sorted != [] && key(x) < key(sorted[|sorted| - 1]) {
      var before := sorted[..|sorted| - 1];
      InsertAscending(before, x, key);
      InsertBounded(before, x, key, key(sorted[|sorted| - 1]));
    }
  }

  /** Sorting orders the elements and neither loses nor repeats any. */
  lemma {:induction false} SortByOrders<T>(xs: seq<T>, key: T -> int)
    ensures Ascending(SortBy(xs, key), key)
    ensures multiset(SortBy(xs, key)) == multiset(xs) && |SortBy(xs, key)| == |xs|
  {
    if xs != [] {
      var before := xs[..|xs| - 1];
      assert xs == before + [xs[|xs| - 1]];
      SortByOrders(before, key);
      InsertMembers(SortBy(before, key), xs[|xs| - 1], key);
      InsertAscending(SortBy(before, key), xs[|xs| - 1], key);
    }
    assert |multiset(SortBy(xs, key))| == |SortBy(xs, key)| && |multiset(xs)| == |xs|;
  }

  lemma InsertLast<T>(sorted: seq<T>, last: T, key: T -> int)
    requires sorted != [] ==> key(sorted[|sorted| - 1]) <= key(last)
    ensures Insert(sorted, last, key) == sorted + [last]
  {
  }

  /** What is in order already is left alone. */
  lemma {:induction false} SortByAscending<T>(xs: seq<T>, key: T -> int)
    requires Ascending(xs, key)
    ensures SortBy(xs, key) == xs
  {
    if xs != [] {
      var before, last := xs[..|xs| - 1], xs[|xs| - 1];
      SortByAscending(before, key);
      InsertLast(before, last, key);
    }
  }
}
