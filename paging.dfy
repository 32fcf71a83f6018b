/**
 * The pagination arithmetic the list services share: `skip((page - 1) * limit)`,
 * `limit(limit)` and `Math.ceil(total / limit)`, with MongoDB's treatment of the edge
 * values (a negative skip is refused, a limit of 0 means no limit, a negative limit
 * returns that many documents) and JavaScript's for the division.
 */
module Paging {
  import opened Wrappers
  import opened Queries

  /** A JavaScript number as far as a page count needs: an integer, or the results of dividing by zero. */
  datatype JsNumber = Finite(n: int) | Infinity | NaN

  const NegativeSkipMessage: string := "skip value must be non-negative"

  function Skip(page: int, limit: int): int {
    (page - 1) * limit
  }

  /** The number of documents `.limit(limit)` lets through, or None when there is no limit. */
  function LimitCount(limit: int): (r: Option<nat>)
    ensures r.None? <==> limit == 0
    ensures r.Some? ==> r.value == if limit < 0 then -limit else limit
  {
    if limit == 0 then None else if limit < 0 then Some(-limit) else Some(limit)
  }

  /** How many of the `rest` documents after the skip a page holds: all of them, or as many as the limit lets through. */
  function PageSize(rest: nat, limit: int): (n: nat)
    ensures n <= rest
    ensures limit == 0 ==> n == rest
    ensures limit != 0 ==> n == if rest <= LimitCount(limit).value then rest else LimitCount(limit).value
  {
    match LimitCount(limit)
    case None => rest
    case Some(k) => if rest <= k then rest else k
  }

  /** `.skip(skip).limit(limit)` on an already sorted result. */
  function Window<T>(s: seq<T>, skip: int, limit: int): (r: Result<seq<T>>)
    ensures r.Failure? <==> skip < 0
    ensures r.Success? && skip >= |s| ==> r.value == []
    ensures r.Success? && skip < |s| ==> IsPrefix(r.value, s[skip..])
    ensures r.Success? && limit != 0 ==> |r.value| <= LimitCount(limit).value
    ensures r.Success? && skip < |s| ==> |r.value| == PageSize(|s| - skip, limit)
    ensures r.Success? && skip < |s| && (limit == 0 || |s| - skip <= LimitCount(limit).value) ==> r.value == s[skip..]
  {
    if skip < 0 then Failure(NegativeSkipMessage)
    else
      var rest := if skip < |s| then s[skip..] else [];
      match LimitCount(limit)
      case None => Success(rest)
      case Some(n) => Success(Take(rest, n))
  }

  /** A page is the slice of the list that starts at the skip and holds `PageSize` elements. */
  lemma WindowIsSlice<T>(s: seq<T>, skip: int, limit: int)
    requires Window(s, skip, limit).Success? && skip < |s|
    ensures Window(s, skip, limit).value == s[skip..skip + PageSize(|s| - skip, limit)]
  {
    var r := Window(s, skip, limit).value;
    assert r == s[skip..][..|r|];
  }

  /** A window of a newest-first list is newest first and holds only elements of the list. */
  lemma SortedWindow<T>(s: seq<T>, key: T -> int, skip: int, limit: int)
    requires SortedDesc(s, key) && Window(s, skip, limit).Success?
    ensures SortedDesc(Window(s, skip, limit).value, key)
    ensures forall x :: x in Window(s, skip, limit).value ==> x in s
  {
    var items := Window(s, skip, limit).value;
    if skip < |s| {
      SortedSlice(s, key, skip, items);
      assert forall k :: 0 <= k < |items| ==> items[k] == s[skip + k];
    }
  }

  /** `Math.ceil(total / limit)`. */
  function TotalPages(total: nat, limit: int): (r: JsNumber)
    ensures limit == 0 ==> r == (if total == 0 then NaN else Infinity)
    ensures limit != 0 ==> r.Finite?
    ensures limit > 0 ==> (r.n - 1) * limit < total <= r.n * limit
    ensures limit > 0 ==> r.n >= 0 && (r.n == 0 <==> total == 0)
    ensures limit < 0 ==> r.n * limit <= total < (r.n - 1) * limit
  {
    if limit == 0 then (if total == 0 then NaN else Infinity)
    else if limit > 0 then Finite((total + limit - 1) / limit)
    else Finite(-(total / -limit))
  }

  /** Every document lies on exactly one page when the limit is positive: the pages cover `total` and none of them is empty. */
  lemma {:induction false} PagesCoverTotal(total: nat, limit: int, page: int)
    requires limit > 0 && 1 <= page
    requires TotalPages(total, limit).n < page
    ensures Skip(page, limit) >= total
  {
    var n := TotalPages(total, limit).n;
    assert n <= page - 1;
    MulMonotone(n, page - 1, limit);
  }

  lemma MulMonotone(a: int, b: int, c: nat)
    requires a <= b
    ensures a * c <= b * c
  {
  }
}
