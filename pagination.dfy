/**
 * Offset pagination as the audit listings do it: skip `(page - 1) * limit` results,
 * keep at most `limit`, and report `totalPages = ceil(totalCount / limit)`.
 */
module Pagination {

  function Min(a: int, b: int): int { if a <= b then a else b }

  /** `.limit(n)`: the first n elements, or all of them when there are fewer. */
  function Take<T>(s: seq<T>, n: nat): (r: seq<T>)
    ensures |r| == Min(n, |s|)
    ensures r == s[..|r|]
  {
    if n >= |s| then s else s[..n]
  }

  /** `.skip(n)`: everything after the first n elements. */
  function Drop<T>(s: seq<T>, n: nat): (r: seq<T>)
    ensures |r| == if n >= |s| then 0 else |s| - n
    ensures forall i :: 0 <= i < |r| ==> r[i] == s[n + i]
  {
    if n >= |s| then [] else s[n..]
  }

  /** Page `page` (1-based) of s, with `limit` elements per page. */
  function PageOf<T>(s: seq<T>, page: int, limit: int): seq<T>
    requires page >= 1 && limit >= 1
  {
    Take(Drop(s, (page - 1) * limit), limit)
  }

  /** A page is `.skip(skip).limit(limit)` for the skip `(page - 1) * limit`. */
  lemma PageOfSkip<T>(s: seq<T>, page: int, limit: int, skip: nat)
    requires page >= 1 && limit >= 1 && skip == (page - 1) * limit
    ensures PageOf(s, page, limit) == Take(Drop(s, skip), limit)
  {
  }

  /** `Math.ceil(count / limit)`: the least number of pages of size limit that hold count items. */
  function TotalPages(count: nat, limit: int): (n: nat)
    requires limit >= 1
    ensures n * limit >= count
    ensures n > 0 ==> (n - 1) * limit < count
  {
    var n := (count + limit - 1) / limit;
    assert n * limit <= count + limit - 1 < n * limit + limit;
    n
  }

  /** Pages 1 through k, one after the other. */
  function Pages<T>(s: seq<T>, limit: int, k: nat): seq<T>
    requires limit >= 1
  {
    if k == 0 then [] else Pages(s, limit, k - 1) + PageOf(s, k, limit)
  }

  /** A page is the slice of s between its two offsets, each cut off at the end of s. */
  lemma PageSlice<T>(s: seq<T>, lo: nat, limit: int)
    requires limit >= 1
    ensures Take(Drop(s, lo), limit) == s[Min(lo, |s|)..Min(lo + limit, |s|)]
  {
  }

  lemma ProductStep(k: nat, limit: int)
    requires k >= 1
    ensures k * limit == (k - 1) * limit + limit
  {
  }

  lemma SliceConcat<T>(s: seq<T>, a: int, b: int)
    requires 0 <= a <= b <= |s|
    ensures s[..a] + s[a..b] == s[..b]
  {
  }

  /** Adding page k to the pages before it extends the prefix by one page. */
  lemma PagesStep<T>(s: seq<T>, limit: int, k: nat, lo: nat)
    requires limit >= 1 && k >= 1 && lo == (k - 1) * limit
    requires Pages(s, limit, k - 1) == s[..Min(lo, |s|)]
    ensures Pages(s, limit, k) == s[..Min(lo + limit, |s|)]
  {
    PageOfSkip(s, k, limit, lo);
    PageSlice(s, lo, limit);
    SliceConcat(s, Min(lo, |s|), Min(lo + limit, |s|));
  }

  /** The first k pages together are the first k * limit elements. */
  lemma {:induction false} PagesPrefix<T>(s: seq<T>, limit: int, k: nat)
    requires limit >= 1
    ensures Pages(s, limit, k) == s[..Min(k * limit, |s|)]
  {
    if k > 0 {
      PagesPrefix(s, limit, k - 1);
      ProductStep(k, limit);
      PagesStep(s, limit, k, (k - 1) * limit);
    }
  }

  /** Pages 1..totalPages partition the sequence: concatenated, they are exactly s. */
  lemma PagesPartition<T>(s: seq<T>, limit: int)
    requires limit >= 1
    ensures Pages(s, limit, TotalPages(|s|, limit)) == s
    ensures |Pages(s, limit, TotalPages(|s|, limit))| == |s|
  {
    PagesPrefix(s, limit, TotalPages(|s|, limit));
  }

  /** A page past the last one is empty rather than an error. */
  lemma PageBeyondLast<T>(s: seq<T>, page: int, limit: int)
    requires limit >= 1 && page > TotalPages(|s|, limit)
    ensures PageOf(s, page, limit) == []
  {
    var n := TotalPages(|s|, limit);
    assert (page - 1) * limit >= n * limit;
  }

  /** Every page up to the last one is non-empty, so totalPages is not larger than needed. */
  lemma PageWithinRangeNonEmpty<T>(s: seq<T>, page: int, limit: int)
    requires limit >= 1 && 1 <= page <= TotalPages(|s|, limit)
    ensures PageOf(s, page, limit) != []
  {
    var n := TotalPages(|s|, limit);
    assert (page - 1) * limit <= (n - 1) * limit;
  }
}
