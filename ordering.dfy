/** Sorting records newest first by a numeric field, as the database's
    `.sort({ field: -1 })` returns them, and keeping the first `n`, as
    `.limit(n)` does. */
module Ordering {

  /** No element is newer than one before it. */
  predicate SortedDesc<T>(xs: seq<T>, key: T -> int) {
    forall i, j :: 0 <= i < j < |xs| ==> key(xs[i]) >= key(xs[j])
  }

  /** `x` placed before the first element it is at least as new as. */
  function Insert<T>(x: T, xs: seq<T>, key: T -> int): seq<T> {
    if xs == [] then [x]
    else if key(x) >= key(xs[0]) then [x] + xs
    else [xs[0]] + Insert(x, xs[1..], key)
  }

  /** Inserting adds `x` and loses nothing. */
  lemma {:induction false} InsertPermutes<T>(x: T, xs: seq<T>, key: T -> int)
    ensures multiset(Insert(x, xs, key)) == multiset(xs) + multiset{x}
  {
    if xs != [] && key(x) < key(xs[0]) {
      InsertPermutes(x, xs[1..], key);
      assert xs == [xs[0]] + xs[1..];
    }
  }

  /** Inserting into a sorted sequence keeps it sorted. */
  lemma {:induction false} InsertSorted<T>(x: T, xs: seq<T>, key: T -> int)
    requires SortedDesc(xs, key)
    ensures SortedDesc(Insert(x, xs, key), key)
    ensures forall k :: 0 <= k < |Insert(x, xs, key)| ==> Insert(x, xs, key)[k] == x || Insert(x, xs, key)[k] in xs
  {
    if xs != [] && key(x) < key(xs[0]) {
      var tail := xs[1..];
      InsertSorted(x, tail, key);
      var rest := Insert(x, tail, key);
      forall k | 0 <= k < |rest|
        ensures key(xs[0]) >= key(rest[k])
      {
        if rest[k] != x {
          var m :| 0 <= m < |tail| && tail[m] == rest[k];
          assert xs[m + 1] == rest[k];
        }
      }
      forall k | 0 <= k < |rest|
        ensures rest[k] == x || rest[k] in xs
      {
        if rest[k] != x {
          var m :| 0 <= m < |tail| && tail[m] == rest[k];
          assert xs[m + 1] == rest[k];
        }
      }
    }
  }

  /** Insertion sort, newest first. */
  function SortDesc<T>(xs: seq<T>, key: T -> int): seq<T> {
    if xs == [] then [] else Insert(xs[0], SortDesc(xs[1..], key), key)
  }

  /** Sorting gives a permutation of its input, newest first. */
  lemma {:induction false} SortDescSpec<T>(xs: seq<T>, key: T -> int)
    ensures multiset(SortDesc(xs, key)) == multiset(xs)
    ensures SortedDesc(SortDesc(xs, key), key)
  {
    if xs != [] {
      var rest := SortDesc(xs[1..], key);
      SortDescSpec(xs[1..], key);
      InsertPermutes(xs[0], rest, key);
      InsertSorted(xs[0], rest, key);
      assert xs == [xs[0]] + xs[1..];
    }
  }

  /** Sorting keeps exactly the elements it was given. */
  lemma SortKeepsMembers<T>(xs: seq<T>, key: T -> int)
    ensures forall x :: x in SortDesc(xs, key) <==> x in xs
  {
    var r := SortDesc(xs, key);
    SortDescSpec(xs, key);
    assert forall x :: x in r <==> x in multiset(r);
    assert forall x :: x in xs <==> x in multiset(xs);
  }

  /** `.limit(n)`: the first `n` elements, or all of them. */
  function Take<T>(xs: seq<T>, n: nat): (r: seq<T>)
    ensures |r| == if n < |xs| then n else |xs|
    ensures r <= xs
  {
    if n < |xs| then xs[..n] else xs
  }

  /** Keeping the first `n` of a sorted sequence keeps the newest: nothing
      left out is newer than anything kept. */
  lemma TakeKeepsNewest<T>(xs: seq<T>, key: T -> int, n: nat)
    requires SortedDesc(xs, key)
    ensures SortedDesc(Take(xs, n), key)
    ensures multiset(Take(xs, n)) <= multiset(xs)
    ensures forall i, j :: 0 <= i < |Take(xs, n)| <= j < |xs| ==> key(Take(xs, n)[i]) >= key(xs[j])
  {
    if n < |xs| {
      assert xs == xs[..n] + xs[n..];
    }
  }
}
