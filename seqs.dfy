/** The sequence operations behind the database queries the route handlers
    issue: `findUnique`/`findFirst` (Find), a `where` clause (Filter), an
    `orderBy` clause (SortBy), `take` (Take) and the `map` the handlers apply
    to query results (MapSeq). */
module Seqs {
  import opened Common

  /** The first element of `s` satisfying `p`, if there is one. */
  function Find<T>(s: seq<T>, p: T -> bool): (r: Option<T>)
    ensures r.Some? ==> r.value in s && p(r.value)
    ensures r.None? <==> forall x :: x in s ==> !p(x)
  {
    if s == [] then None
    else if p(s[0]) then Some(s[0])
    else Find(s[1..], p)
  }

  /** The elements of `s` satisfying `p`, in their original order. */
  function Filter<T(!new)>(s: seq<T>, p: T -> bool): (r: seq<T>)
    ensures forall x :: x in r <==> x in s && p(x)
    ensures multiset(r) <= multiset(s)
  {
    if s == [] then []
    else
      assert s == [s[0]] + s[1..];
      if p(s[0]) then [s[0]] + Filter(s[1..], p) else Filter(s[1..], p)
  }

  /** `f` applied to every element of `s`. */
  function MapSeq<A, B>(s: seq<A>, f: A -> B): (r: seq<B>)
    ensures |r| == |s|
    ensures forall i :: 0 <= i < |s| ==> r[i] == f(s[i])
  {
    if s == [] then [] else [f(s[0])] + MapSeq(s[1..], f)
  }

  /** At most the first `n` elements of `s`. */
  function Take<T>(s: seq<T>, n: nat): (r: seq<T>)
    ensures |r| == if |s| < n then |s| else n
    ensures r == s[..|r|]
  {
    if |s| <= n then s else s[..n]
  }

  /** `s` is ordered by non-decreasing `key`. */
  ghost predicate SortedBy<T>(s: seq<T>, key: T -> int)
  {
    forall i, j :: 0 <= i < j < |s| ==> key(s[i]) <= key(s[j])
  }

  /** A key no larger than every key of the sorted `s` may go in front of it. */
  lemma PrependSorted<T>(h: T, s: seq<T>, key: T -> int)
    requires SortedBy(s, key)
    requires forall j :: 0 <= j < |s| ==> key(h) <= key(s[j])
    ensures SortedBy([h] + s, key)
  {
  }

  /** `x` placed in front of the first element of the sorted `s` whose key is
      not smaller. */
  function Insert<T>(x: T, s: seq<T>, key: T -> int): (r: seq<T>)
    requires SortedBy(s, key)
    ensures SortedBy(r, key)
    ensures multiset(r) == multiset(s) + multiset{x}
  {
    if s == [] || key(x) <= key(s[0]) then
      PrependSorted(x, s, key);
      [x] + s
    else
      assert s == [s[0]] + s[1..];
      var rest := Insert(x, s[1..], key);
      assert forall j :: 0 <= j < |rest| ==> key(s[0]) <= key(rest[j]) by {
        forall j | 0 <= j < |rest| ensures key(s[0]) <= key(rest[j]) {
          assert rest[j] in multiset(rest);
          if rest[j] != x {
            assert rest[j] in s[1..];
          }
        }
      }
      PrependSorted(s[0], rest, key);
      [s[0]] + rest
  }

  /** `s` ordered by non-decreasing `key` (insertion sort); it is the
      `orderBy` of the queries. The source leaves the order of equal keys
      to the database; this is one of the orders it may return. */
  function SortBy<T(!new)>(s: seq<T>, key: T -> int): (r: seq<T>)
    ensures SortedBy(r, key)
    ensures multiset(r) == multiset(s)
    ensures forall x :: x in r <==> x in s
  {
    if s == [] then []
    else
      assert s == [s[0]] + s[1..];
      var r := Insert(s[0], SortBy(s[1..], key), key);
      SameElements(r, s);
      r
  }

  /** Sequences with the same multiset of elements have the same elements. */
  lemma SameElements<T>(a: seq<T>, b: seq<T>)
    requires multiset(a) == multiset(b)
    ensures forall x :: x in a <==> x in b
  {
    forall x ensures x in a <==> x in b {
      assert x in a <==> x in multiset(a);
      assert x in b <==> x in multiset(b);
    }
  }

  /** A map that keeps every key keeps a sorted sequence sorted. */
  lemma MapKeepsSorted<T>(s: seq<T>, key: T -> int, f: T -> T)
    requires SortedBy(s, key)
    requires forall y :: key(f(y)) == key(y)
    ensures SortedBy(MapSeq(s, f), key)
  {
  }

  /** Inserting and then mapping is mapping and then inserting, when the
      map keeps every key. */
  lemma {:induction false} InsertMap<T>(x: T, s: seq<T>, key: T -> int, f: T -> T)
    requires SortedBy(s, key)
    requires forall y :: key(f(y)) == key(y)
    ensures SortedBy(MapSeq(s, f), key)
    ensures MapSeq(Insert(x, s, key), f) == Insert(f(x), MapSeq(s, f), key)
  {
    MapKeepsSorted(s, key, f);
    var ms := MapSeq(s, f);
    if s == [] || key(x) <= key(s[0]) {
      assert MapSeq([x] + s, f) == [f(x)] + ms;
    } else {
      assert SortedBy(s[1..], key);
      InsertMap(x, s[1..], key, f);
      assert ms[1..] == MapSeq(s[1..], f);
      var rest := Insert(x, s[1..], key);
      assert MapSeq([s[0]] + rest, f) == [f(s[0])] + MapSeq(rest, f);
    }
  }

  /** Sorting commutes with a map that keeps every key. */
  lemma {:induction false} SortByMap<T(!new)>(s: seq<T>, key: T -> int, f: T -> T)
    requires forall y :: key(f(y)) == key(y)
    ensures MapSeq(SortBy(s, key), f) == SortBy(MapSeq(s, f), key)
  {
    if s != [] {
      SortByMap(s[1..], key, f);
      InsertMap(s[0], SortBy(s[1..], key), key, f);
      var ms := MapSeq(s, f);
      assert ms[1..] == MapSeq(s[1..], f);
    }
  }

  /** Filtering commutes with a map that keeps the filter's verdict. */
  lemma {:induction false} FilterMap<T(!new)>(s: seq<T>, p: T -> bool, f: T -> T)
    requires forall y :: p(f(y)) == p(y)
    ensures MapSeq(Filter(s, p), f) == Filter(MapSeq(s, f), p)
  {
    if s != [] {
      FilterMap(s[1..], p, f);
      var ms := MapSeq(s, f);
      assert ms[1..] == MapSeq(s[1..], f);
      var rest := Filter(s[1..], p);
      assert MapSeq([s[0]] + rest, f) == [f(s[0])] + MapSeq(rest, f);
    }
  }
}
