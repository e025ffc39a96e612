/**
 * Ordering by a numeric key, largest first, as `.sort({ key: -1 })` does. The sort is a
 * stable insertion sort: elements with equal keys keep their original relative order.
 */
module Sorting {

  predicate SortedDesc<T>(s: seq<T>, key: T -> int) {
    forall i, j :: 0 <= i < j < |s| ==> key(s[i]) >= key(s[j])
  }

  /** Places x before the first element whose key it reaches, keeping s sorted. */
  function Insert<T(==)>(x: T, s: seq<T>, key: T -> int): (r: seq<T>)
    requires SortedDesc(s, key)
    ensures SortedDesc(r, key)
    ensures multiset(r) == multiset(s) + multiset{x}
    ensures |r| == |s| + 1 && (r[0] == x || (s != [] && r[0] == s[0]))
  {
    if s == [] || key(x) >= key(s[0]) then [x] + s
    else
      var tail := Insert(x, s[1..], key);
      assert s == [s[0]] + s[1..];
      assert key(s[0]) >= key(tail[0]);
      assert forall k :: 0 <= k < |tail| ==> key(tail[0]) >= key(tail[k]);
      [s[0]] + tail
  }

  /** The elements of s reordered by decreasing key. */
  function SortDesc<T(==)>(s: seq<T>, key: T -> int): (r: seq<T>)
    ensures SortedDesc(r, key)
    ensures multiset(r) == multiset(s)
  {
    if s == [] then []
    else
      assert s == [s[0]] + s[1..];
      Insert(s[0], SortDesc(s[1..], key), key)
  }

  /** The sum of f over the elements of s. */
  function SumBy<T>(s: seq<T>, f: T -> int): int {
    if s == [] then 0 else f(s[0]) + SumBy(s[1..], f)
  }

  lemma {:induction false} SumByInsert<T>(x: T, s: seq<T>, key: T -> int, f: T -> int)
    requires SortedDesc(s, key)
    ensures SumBy(Insert(x, s, key), f) == f(x) + SumBy(s, f)
  {
    if s != [] && key(x) < key(s[0]) {
      SumByInsert(x, s[1..], key, f);
      assert (s[0..1] + Insert(x, s[1..], key))[1..] == Insert(x, s[1..], key);
    }
  }

  /** Sorting does not change a sum over the elements. */
  lemma {:induction false} SumBySort<T>(s: seq<T>, key: T -> int, f: T -> int)
    ensures SumBy(SortDesc(s, key), f) == SumBy(s, f)
  {
    if s != [] {
      SumBySort(s[1..], key, f);
      SumByInsert(s[0], SortDesc(s[1..], key), key, f);
    }
  }
}
