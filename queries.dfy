/**
 * The query operators the services apply to a collection, over an in-memory table:
 * `find(filter)` (Filter), `.sort({ key: -1 })` (SortDesc, stable), `.limit(n)` (Take).
 */
module Queries {
  import opened Wrappers

  function Filter<T>(s: seq<T>, p: T -> bool): (r: seq<T>)
    ensures |r| <= |s|
    ensures forall i :: 0 <= i < |r| ==> p(r[i])
    ensures multiset(r) <= multiset(s)
  {
    if s == [] then []
    else
      assert s == [s[0]] + s[1..];
      (if p(s[0]) then [s[0]] else []) + Filter(s[1..], p)
  }

  /** Filtering with a predicate every element satisfies changes nothing. */
  lemma {:induction false} FilterAllKept<T>(s: seq<T>, p: T -> bool)
    requires forall i :: 0 <= i < |s| ==> p(s[i])
    ensures Filter(s, p) == s
  {
    if s != [] {
      FilterAllKept(s[1..], p);
      assert s == [s[0]] + s[1..];
    }
  }

  lemma {:induction false} FilterKeeps<T>(s: seq<T>, p: T -> bool, x: T)
    requires x in s && p(x)
    ensures x in Filter(s, p)
  {
    if s[0] != x {
      FilterKeeps(s[1..], p, x);
    }
  }

  lemma {:induction false} FilterAppend<T>(a: seq<T>, b: seq<T>, p: T -> bool)
    ensures Filter(a + b, p) == Filter(a, p) + Filter(b, p)
  {
    if a != [] {
      var head := if p(a[0]) then [a[0]] else [];
      TailOfConcat(a, b);
      FilterAppend(a[1..], b, p);
      assert Filter(a + b, p) == head + Filter(a[1..] + b, p);
      assert Filter(a, p) == head + Filter(a[1..], p);
      ConcatAssociative(head, Filter(a[1..], p), Filter(b, p));
    } else {
      assert a + b == b;
    }
  }

  lemma ConcatAssociative<T>(a: seq<T>, b: seq<T>, c: seq<T>)
    ensures a + (b + c) == a + b + c
  {
  }

  lemma TailOfConcat<T>(a: seq<T>, b: seq<T>)
    requires a != []
    ensures (a + b)[0] == a[0] && (a + b)[1..] == a[1..] + b
  {
  }

  /** `a` is `b` with some elements left out, the rest in their order. */
  predicate IsSubsequence<T(==)>(a: seq<T>, b: seq<T>)
    decreases |b|
  {
    a == [] || (b != [] && ((a[0] == b[0] && IsSubsequence(a[1..], b[1..])) || IsSubsequence(a, b[1..])))
  }

  lemma {:induction false} FilterIsSubsequence<T>(s: seq<T>, p: T -> bool)
    ensures IsSubsequence(Filter(s, p), s)
  {
    if s != [] {
      FilterIsSubsequence(s[1..], p);
      if p(s[0]) {
        assert ([s[0]] + Filter(s[1..], p))[1..] == Filter(s[1..], p);
      } else {
        assert Filter(s, p) == Filter(s[1..], p);
      }
    }
  }

  /** `.limit(n)`: the first `n` elements. */
  function Take<T>(s: seq<T>, n: nat): (r: seq<T>)
    ensures |r| == if |s| <= n then |s| else n
    ensures |s| <= n ==> r == s
    ensures r == s[..|r|]
  {
    if |s| <= n then s else s[..n]
  }

  /**
   * `r` is the `n` newest elements of `s` that satisfy `p`: as many as there are, up to
   * `n`, each drawn from them, newest first, and none left out newer than one in `r`.
   */
  ghost predicate NewestOf<T>(r: seq<T>, s: seq<T>, p: T -> bool, key: T -> int, n: nat) {
    var matches := Filter(s, p);
    && |r| == (if |matches| <= n then |matches| else n)
    && multiset(r) <= multiset(matches)
    && (forall k :: 0 <= k < |r| ==> r[k] in s && p(r[k]))
    && SortedDesc(r, key)
    && (forall x, k :: x in matches && x !in r && 0 <= k < |r| ==> key(x) <= key(r[k]))
  }

  /** `find(filter).sort({ key: -1 }).limit(n)` returns the `n` newest matches. */
  lemma Newest<T>(s: seq<T>, p: T -> bool, key: T -> int, n: nat)
    ensures NewestOf(Take(SortDesc(Filter(s, p), key), n), s, p, key, n)
    ensures |Filter(s, p)| <= n ==> multiset(Take(SortDesc(Filter(s, p), key), n)) == multiset(Filter(s, p))
  {
    var all := SortDesc(Filter(s, p), key);
    var r := Take(all, n);
    FilterMembers(s, p);
    SortDescMembers(Filter(s, p), key);
    TakeSorted(all, n, key);
    TakeMultiset(all, n);
    TakeKeepsNewest(all, n, key);
    forall k | 0 <= k < |r|
      ensures r[k] in s && p(r[k])
    {
      assert r[k] == all[k];
    }
  }

  /** `.limit(n)` returns some of the elements, each no more often than it was stored. */
  lemma TakeMultiset<T>(s: seq<T>, n: nat)
    ensures multiset(Take(s, n)) <= multiset(s)
  {
    var r := Take(s, n);
    assert s == r + s[|r|..];
  }

  /** What `.limit(n)` cuts off a sorted list is no newer than anything it keeps. */
  lemma TakeKeepsNewest<T>(s: seq<T>, n: nat, key: T -> int)
    requires SortedDesc(s, key)
    ensures forall x, k :: x in s && x !in Take(s, n) && 0 <= k < |Take(s, n)| ==> key(x) <= key(Take(s, n)[k])
  {
    var r := Take(s, n);
    forall x, k | x in s && x !in r && 0 <= k < |r|
      ensures key(x) <= key(r[k])
    {
      var i :| 0 <= i < |s| && s[i] == x;
      assert r[k] == s[k];
    }
  }

  predicate IsPrefix<T(==)>(a: seq<T>, b: seq<T>) {
    |a| <= |b| && a == b[..|a|]
  }

  predicate SortedDesc<T>(s: seq<T>, key: T -> int) {
    forall i, j :: 0 <= i < j < |s| ==> key(s[i]) >= key(s[j])
  }

  /** Every element of `r` is `x` or an element of `s`, so a bound on both bounds `r`. */
  lemma BoundedByMultiset<T>(r: seq<T>, s: seq<T>, x: T, key: T -> int, b: int)
    requires multiset(r) == multiset(s) + multiset{x}
    requires key(x) <= b && forall k :: 0 <= k < |s| ==> key(s[k]) <= b
    ensures forall k :: 0 <= k < |r| ==> key(r[k]) <= b
  {
    forall k | 0 <= k < |r|
      ensures key(r[k]) <= b
    {
      assert r[k] in multiset(r);
      if r[k] != x {
        assert r[k] in multiset(s);
        var j :| 0 <= j < |s| && s[j] == r[k];
      }
    }
  }

  lemma ConsSorted<T>(h: T, s: seq<T>, key: T -> int)
    requires SortedDesc(s, key)
    requires forall k :: 0 <= k < |s| ==> key(s[k]) <= key(h)
    ensures SortedDesc([h] + s, key)
  {
  }

  function Insert<T>(x: T, s: seq<T>, key: T -> int): (r: seq<T>)
    requires SortedDesc(s, key)
    ensures |r| == |s| + 1
    ensures multiset(r) == multiset(s) + multiset{x}
    ensures SortedDesc(r, key)
  {
    if s == [] || key(x) >= key(s[0]) then [x] + s
    else
      var rest := Insert(x, s[1..], key);
      BoundedByMultiset(rest, s[1..], x, key, key(s[0]));
      ConsSorted(s[0], rest, key);
      assert s == [s[0]] + s[1..];
      [s[0]] + rest
  }

  /** `.sort({ key: -1 })`: a stable insertion sort, largest key first. */
  function SortDesc<T>(s: seq<T>, key: T -> int): (r: seq<T>)
    ensures |r| == |s|
    ensures multiset(r) == multiset(s)
    ensures SortedDesc(r, key)
  {
    if s == [] then []
    else
      assert s == [s[0]] + s[1..];
      Insert(s[0], SortDesc(s[1..], key), key)
  }

  /** Filtering keeps exactly the elements that satisfy the predicate. */
  lemma FilterMembers<T>(s: seq<T>, p: T -> bool)
    ensures forall x :: x in Filter(s, p) <==> x in s && p(x)
  {
    forall x | x in s && p(x)
      ensures x in Filter(s, p)
    {
      FilterKeeps(s, p, x);
    }
    assert forall x :: x in Filter(s, p) ==> x in multiset(Filter(s, p));
  }

  /** Sorting neither adds nor loses an element. */
  lemma SortDescMembers<T>(s: seq<T>, key: T -> int)
    ensures forall x :: x in SortDesc(s, key) <==> x in s
  {
    var r := SortDesc(s, key);
    assert forall x :: x in r <==> x in multiset(r);
    assert forall x :: x in s <==> x in multiset(s);
  }

  /** A prefix of a sorted sequence is sorted. */
  lemma TakeSorted<T>(s: seq<T>, n: nat, key: T -> int)
    requires SortedDesc(s, key)
    ensures SortedDesc(Take(s, n), key)
  {
    var r := Take(s, n);
    assert forall k :: 0 <= k < |r| ==> r[k] == s[k];
  }

  /** A window of a sorted sequence is sorted, and holds the elements from its offset on. */
  lemma SortedSlice<T>(s: seq<T>, key: T -> int, from: nat, prefix: seq<T>)
    requires SortedDesc(s, key) && from <= |s| && IsPrefix(prefix, s[from..])
    ensures SortedDesc(prefix, key)
    ensures forall k :: 0 <= k < |prefix| ==> prefix[k] == s[from + k]
  {
    assert forall k :: 0 <= k < |prefix| ==> prefix[k] == s[from + k];
  }

  /** The present values of a sequence of options, in order (defined from the last one back). */
  function Somes<T>(s: seq<Option<T>>): (r: seq<T>)
    ensures |r| <= |s|
  {
    if s == [] then []
    else Somes(s[..|s| - 1]) + (if s[|s| - 1].Some? then [s[|s| - 1].value] else [])
  }

  /** The positions of the present values, in increasing order. */
  function SomeIndices<T>(s: seq<Option<T>>): (r: seq<nat>)
    ensures forall k :: 0 <= k < |r| ==> r[k] < |s| && s[r[k]].Some?
    ensures forall i :: 0 <= i < |s| && s[i].Some? ==> i in r
    ensures forall k, l :: 0 <= k < l < |r| ==> r[k] < r[l]
  {
    if s == [] then []
    else
      var n := |s| - 1;
      var front := SomeIndices(s[..n]);
      assert forall i :: 0 <= i < n ==> s[..n][i] == s[i];
      front + (if s[n].Some? then [n] else [])
  }

  /** The k-th present value is the one at the k-th present position. */
  lemma {:induction false} SomesAtIndices<T>(s: seq<Option<T>>)
    ensures |Somes(s)| == |SomeIndices(s)|
    ensures forall k :: 0 <= k < |Somes(s)| ==> Somes(s)[k] == s[SomeIndices(s)[k]].value
  {
    if s != [] {
      var n := |s| - 1;
      var front := s[..n];
      SomesAtIndices(front);
      assert Somes(s) == Somes(front) + (if s[n].Some? then [s[n].value] else []);
      assert SomeIndices(s) == SomeIndices(front) + (if s[n].Some? then [n] else []);
      forall k | 0 <= k < |Somes(front)|
        ensures Somes(s)[k] == s[SomeIndices(s)[k]].value
      {
        assert front[SomeIndices(front)[k]] == s[SomeIndices(front)[k]];
      }
    }
  }

  lemma {:induction false} SomesOfPrefix<T>(s: seq<Option<T>>, i: nat)
    requires i < |s|
    ensures Somes(s[..i + 1]) == Somes(s[..i]) + (if s[i].Some? then [s[i].value] else [])
  {
    assert s[..i + 1][..i] == s[..i];
  }

  /** The position of the first element satisfying `p`, or -1 (`findOne`). */
  function FirstIndex<T>(s: seq<T>, p: T -> bool): (r: int)
    ensures -1 <= r < |s|
    ensures r == -1 <==> forall i :: 0 <= i < |s| ==> !p(s[i])
    ensures r >= 0 ==> p(s[r]) && forall i :: 0 <= i < r ==> !p(s[i])
  {
    if s == [] then -1
    else if p(s[0]) then 0
    else
      var k := FirstIndex(s[1..], p);
      if k == -1 then -1 else k + 1
  }

  /** `findOne(filter)`: the first matching element, if any. */
  function FindFirst<T>(s: seq<T>, p: T -> bool): (r: Option<T>)
    ensures r.None? <==> forall i :: 0 <= i < |s| ==> !p(s[i])
    ensures r.Some? ==> p(r.value) && r.value in s
  {
    var k := FirstIndex(s, p);
    if k == -1 then None else Some(s[k])
  }

  /** The document paired with `p.0` names, by its reference, the first of `refs` with that id, or null when none has it. */
  ghost predicate PopulatedFrom<T, R, K>(p: (T, Option<R>), refs: seq<R>, refOf: T -> K, idOf: R -> K) {
    && (p.1.None? <==> forall j :: 0 <= j < |refs| ==> idOf(refs[j]) != refOf(p.0))
    && (p.1.Some? ==> p.1.value in refs && idOf(p.1.value) == refOf(p.0))
  }

  function WithKey<R, K(==)>(idOf: R -> K, key: K): R -> bool {
    (x: R) => idOf(x) == key
  }

  /** The documents of a populated result, without what was populated. */
  function Documents<T, R>(r: seq<(T, Option<R>)>): (d: seq<T>)
    ensures |d| == |r| && forall k :: 0 <= k < |d| ==> d[k] == r[k].0
  {
    seq(|r|, k requires 0 <= k < |r| => r[k].0)
  }

  /** `.populate(path)`: every document, in order, paired with the document its reference names, or null when that one is gone. */
  function Populate<T, R, K(==)>(docs: seq<T>, refs: seq<R>, refOf: T -> K, idOf: R -> K): (r: seq<(T, Option<R>)>)
    ensures Documents(r) == docs
    ensures forall k :: 0 <= k < |r| ==> PopulatedFrom(r[k], refs, refOf, idOf)
  {
    var r := seq(|docs|, k requires 0 <= k < |docs| => (docs[k], FindFirst(refs, WithKey(idOf, refOf(docs[k])))));
    assert Documents(r) == docs;
    r
  }

  /** The first `n` populated documents are the first `n` documents, each populated. */
  lemma TakePopulated<T, R, K>(docs: seq<T>, refs: seq<R>, refOf: T -> K, idOf: R -> K, n: nat)
    ensures var top := Take(Populate(docs, refs, refOf, idOf), n);
            && Documents(top) == Take(docs, n)
            && forall k :: 0 <= k < |top| ==> PopulatedFrom(top[k], refs, refOf, idOf)
  {
    var all := Populate(docs, refs, refOf, idOf);
    var top := Take(all, n);
    forall k | 0 <= k < |top|
      ensures Documents(top)[k] == Take(docs, n)[k]
    {
      assert Documents(all)[k] == all[k].0;
    }
  }

  /** Replacing an element by one the predicate treats alike does not move the first match. */
  lemma FirstIndexUpdate<T>(s: seq<T>, p: T -> bool, k: nat, x: T)
    requires k < |s| && p(x) == p(s[k])
    ensures FirstIndex(s[k := x], p) == FirstIndex(s, p)
  {
    var t := s[k := x];
    assert forall i :: 0 <= i < |s| ==> p(t[i]) == p(s[i]);
  }

  /** Appending a match to a sequence without one makes the appended element the first match. */
  lemma FirstIndexAppend<T>(s: seq<T>, p: T -> bool, x: T)
    requires FirstIndex(s, p) == -1 && p(x)
    ensures FirstIndex(s + [x], p) == |s|
  {
    var t := s + [x];
    assert t[|s|] == x;
    assert forall i :: 0 <= i < |s| ==> t[i] == s[i];
  }

  lemma {:induction false} SubsequenceOfSelf<T>(s: seq<T>)
    ensures IsSubsequence(s, s)
    decreases |s|
  {
    if s != [] {
      SubsequenceOfSelf(s[1..]);
    }
  }

  /** Dropping one element leaves a subsequence. */
  lemma {:induction false} SubsequenceDropOne<T>(s: seq<T>, k: nat)
    requires k < |s|
    ensures IsSubsequence(s[..k] + s[k + 1..], s)
    decreases k
  {
    var r := s[..k] + s[k + 1..];
    if k == 0 {
      assert r == s[1..];
      SubsequenceOfSelf(s[1..]);
    } else {
      SubsequenceDropOne(s[1..], k - 1);
      assert r[0] == s[0];
      assert r[1..] == s[1..][..k - 1] + s[1..][k..];
    }
  }
}
