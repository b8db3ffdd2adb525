/**
 * The `page`/`limit` pagination shared by the listing handlers: `skip((page - 1) * limit)`,
 * `limit(limit)`, and `pages: Math.ceil(total / limit)`.
 */
module Paging {

  /** `Math.ceil(total / limit)`: the fewest pages of `limit` items that hold `total` items. */
  function Pages(total: nat, limit: nat): (pages: nat)
    requires limit >= 1
    ensures pages * limit >= total
    ensures pages > 0 ==> (pages - 1) * limit < total
    ensures pages == 0 <==> total == 0
  {
    (total + limit - 1) / limit
  }

  /** `(page - 1) * limit`, the number of items skipped before page `page`. */
  function Skip(page: nat, limit: nat): nat
    requires page >= 1
  {
    (page - 1) * limit
  }

  /** The items a query returns for one page: at most `limit` of them, starting after the skipped ones. */
  function PageOf<T>(s: seq<T>, page: nat, limit: nat): (r: seq<T>)
    requires page >= 1
    ensures |r| <= limit
    ensures forall i :: 0 <= i < |r| ==> Skip(page, limit) + i < |s| && r[i] == s[Skip(page, limit) + i]
    ensures Skip(page, limit) + limit <= |s| ==> |r| == limit
  {
    var skip := Skip(page, limit);
    if skip >= |s| then []
    else if skip + limit <= |s| then s[skip..skip + limit]
    else s[skip..]
  }

  /** Every item appears on page i / limit + 1 (at offset i % limit), and that page is within `pages`. */
  lemma {:induction false} EveryItemOnSomePage<T>(s: seq<T>, limit: nat, i: nat) returns (page: nat)
    requires limit >= 1 && i < |s|
    ensures 1 <= page <= Pages(|s|, limit)
    ensures s[i] in PageOf(s, page, limit)
  {
    page := i / limit + 1;
    assert Skip(page, limit) + i % limit == i;
    assert PageOf(s, page, limit)[i % limit] == s[i];
    var pages := Pages(|s|, limit);
    assert (i / limit) * limit <= i < pages * limit;
    LessFromProducts(i / limit, pages, limit);
  }

  /** The page an item of the listing is on. */
  lemma PageHolding<T>(s: seq<T>, limit: nat, x: T) returns (page: nat)
    requires limit >= 1 && x in s
    ensures 1 <= page <= Pages(|s|, limit) && x in PageOf(s, page, limit)
  {
    var i :| 0 <= i < |s| && s[i] == x;
    page := EveryItemOnSomePage(s, limit, i);
  }

  lemma MulMonotone(a: nat, b: nat, c: nat)
    requires a <= b
    ensures a * c <= b * c
  {
  }

  lemma LessFromProducts(a: nat, b: nat, c: nat)
    requires a * c < b * c
    ensures a < b
  {
    if a >= b {
      MulMonotone(b, a, c);
      assert false;
    }
  }

  /** No element occurs twice. */
  predicate Distinct<T(==)>(s: seq<T>) {
    forall i, j :: 0 <= i < j < |s| ==> s[i] != s[j]
  }

  /** The elements of `s` that satisfy `keep`, in their order in `s` (a `find` filter). */
  function Filter<T(==,!new)>(s: seq<T>, keep: T -> bool): (r: seq<T>)
    ensures |r| <= |s|
    ensures forall x :: x in r <==> x in s && keep(x)
    ensures Distinct(s) ==> Distinct(r)
  {
    if s == [] then []
    else
      var rest := Filter(s[1..], keep);
      assert forall x :: x in s[1..] ==> x in s;
      if keep(s[0]) then
        var r := [s[0]] + rest;
        assert forall j :: 0 < j < |r| ==> r[j] in rest;
        r
      else rest
  }

  /** Two filters that agree on every element of the listing keep the same elements in the same order. */
  lemma {:induction false} FilterAgrees<T(!new)>(s: seq<T>, k1: T -> bool, k2: T -> bool)
    requires forall x :: x in s ==> k1(x) == k2(x)
    ensures Filter(s, k1) == Filter(s, k2)
    decreases |s|
  {
    if s != [] {
      assert forall x :: x in s[1..] ==> x in s;
      FilterAgrees(s[1..], k1, k2);
    }
  }

  /** Filtering distributes over concatenation. */
  lemma {:induction false} FilterAppend<T(!new)>(a: seq<T>, b: seq<T>, keep: T -> bool)
    ensures Filter(a + b, keep) == Filter(a, keep) + Filter(b, keep)
    decreases |a|
  {
    if a == [] {
      assert a + b == b;
    } else {
      assert (a + b)[0] == a[0] && (a + b)[1..] == a[1..] + b;
      FilterAppend(a[1..], b, keep);
    }
  }

  /** A sequence without repetitions has as many elements as the set of its elements. */
  lemma {:induction false} DistinctCardinality<T>(s: seq<T>)
    requires Distinct(s)
    ensures |set x | x in s| == |s|
  {
    if s != [] {
      DistinctCardinality(s[1..]);
      var rest := set x | x in s[1..];
      assert (set x | x in s) == rest + {s[0]};
      assert s[0] !in rest;
    }
  }

  /** Filtering a listing without repetitions yields exactly the matching set, counted once each. */
  lemma FilterCountsMatches<T(!new)>(s: seq<T>, keep: T -> bool, matching: set<T>)
    requires Distinct(s)
    requires forall x :: x in matching <==> x in s && keep(x)
    ensures |Filter(s, keep)| == |matching|
  {
    var r := Filter(s, keep);
    DistinctCardinality(r);
    assert (set x | x in r) == matching;
  }

  /** `s` is ordered by non-increasing `key` (a `sort({ field: -1 })`). */
  predicate SortedDesc<T>(s: seq<T>, key: T -> int) {
    forall a, b :: 0 <= a < b < |s| ==> key(s[a]) >= key(s[b])
  }

  /** Filtering keeps the order of what it keeps. */
  lemma {:induction false} FilterKeepsSortedDesc<T(!new)>(s: seq<T>, keep: T -> bool, key: T -> int)
    requires SortedDesc(s, key)
    ensures SortedDesc(Filter(s, keep), key)
    decreases |s|
  {
    if s != [] {
      var rest := s[1..];
      FilterKeepsSortedDesc(rest, keep, key);
      forall x | x in Filter(rest, keep)
        ensures key(s[0]) >= key(x)
      {
        var b :| 0 <= b < |rest| && rest[b] == x;
        assert s[b + 1] == x;
      }
    }
  }

  /** A page of a sorted listing is sorted. */
  lemma PageOfKeepsSortedDesc<T>(s: seq<T>, page: nat, limit: nat, key: T -> int)
    requires page >= 1 && SortedDesc(s, key)
    ensures SortedDesc(PageOf(s, page, limit), key)
  {
    var r := PageOf(s, page, limit);
    forall a, b | 0 <= a < b < |r|
      ensures key(r[a]) >= key(r[b])
    {
      assert r[a] == s[Skip(page, limit) + a] && r[b] == s[Skip(page, limit) + b];
    }
  }
}
