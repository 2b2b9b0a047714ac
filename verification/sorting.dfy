/** Python's `list.sort(key=k, reverse=True)` followed by `[:limit]`, the way
    the sector code ranks sectors, stocks and analysis results. */
module Sorting {

  /** Keys never increase from left to right. */
  ghost predicate SortedDesc<T>(s: seq<T>, key: T -> real)
  {
    forall i, j :: 0 <= i < j < |s| ==> key(s[i]) >= key(s[j])
  }

  /** Inserts `x` after every element whose key is at least its own, so that
      earlier elements with an equal key stay in front (Python's sort is stable). */
  function InsertDesc<T>(x: T, s: seq<T>, key: T -> real): (r: seq<T>)
    requires SortedDesc(s, key)
    ensures SortedDesc(r, key)
    ensures multiset(r) == multiset(s) + multiset{x}
    ensures |r| == |s| + 1
    ensures forall y :: y in r ==> y == x || y in s
    decreases |s|
  {
    if |s| == 0 then [x]
    else if key(s[0]) >= key(x) then
      var rest := InsertDesc(x, s[1..], key);
      assert s == [s[0]] + s[1..];
      HeadDominates(s, key);
      assert forall k :: 0 <= k < |rest| ==> rest[k] in rest;
      [s[0]] + rest
    else [x] + s
  }

  /** The first key of a descending sequence bounds every later one. */
  lemma HeadDominates<T>(s: seq<T>, key: T -> real)
    requires |s| > 0 && SortedDesc(s, key)
    ensures forall y :: y in s[1..] ==> key(s[0]) >= key(y)
  {
    forall y | y in s[1..]
      ensures key(s[0]) >= key(y)
    {
      var m :| 0 <= m < |s[1..]| && s[1..][m] == y;
      assert s[m + 1] == y;
    }
  }

  /** A stable sort on descending keys (insertion sort, element by element in
      the original order). */
  function SortDesc<T>(s: seq<T>, key: T -> real): (r: seq<T>)
    ensures SortedDesc(r, key)
    ensures multiset(r) == multiset(s)
    ensures |r| == |s|
    decreases |s|
  {
    if |s| == 0 then []
    else
      assert s == s[..|s| - 1] + [s[|s| - 1]];
      InsertDesc(s[|s| - 1], SortDesc(s[..|s| - 1], key), key)
  }

  /** Python's `s[:limit]`: a negative limit counts from the end. */
  function Take<T>(s: seq<T>, limit: int): (r: seq<T>)
    ensures limit >= 0 ==> |r| == if limit < |s| then limit else |s|
    ensures limit < 0 ==> |r| == if |s| + limit > 0 then |s| + limit else 0
    ensures r <= s
  {
    if limit >= 0 then (if limit < |s| then s[..limit] else s)
    else if |s| + limit > 0 then s[..|s| + limit]
    else []
  }

  /** A prefix of a descending sequence is descending. */
  lemma PrefixSortedDesc<T>(s: seq<T>, p: seq<T>, key: T -> real)
    requires SortedDesc(s, key)
    requires p <= s
    ensures SortedDesc(p, key)
  {
  }

  /** Cutting a descending sequence leaves nothing behind with a larger key
      than anything in front. */
  lemma CutSortedDesc<T>(sorted: seq<T>, n: nat, key: T -> real)
    requires SortedDesc(sorted, key)
    requires n <= |sorted|
    ensures multiset(sorted[..n]) <= multiset(sorted)
    ensures forall y, i :: y in multiset(sorted) - multiset(sorted[..n]) && 0 <= i < n ==>
      key(y) <= key(sorted[..n][i])
  {
    var top, rest := sorted[..n], sorted[n..];
    assert sorted == top + rest;
    assert multiset(sorted) - multiset(top) == multiset(rest);
    forall y, i | y in multiset(sorted) - multiset(top) && 0 <= i < n
      ensures key(y) <= key(top[i])
    {
      assert y in rest;
      var j :| 0 <= j < |rest| && rest[j] == y;
      assert sorted[n + j] == y;
    }
  }

  /** Sort descending, then keep the first `limit` (Python slice semantics):
      the result is drawn from `s`, ordered, as long as the slice allows, and
      nothing left out has a larger key than anything kept. */
  function TopDesc<T>(s: seq<T>, key: T -> real, limit: int): (r: seq<T>)
    ensures SortedDesc(r, key)
    ensures limit >= 0 ==> |r| == if limit < |s| then limit else |s|
    ensures limit < 0 ==> |r| == if |s| + limit > 0 then |s| + limit else 0
    ensures multiset(r) <= multiset(s)
    ensures forall y :: y in r ==> y in s
    ensures forall y, i :: y in multiset(s) - multiset(r) && 0 <= i < |r| ==> key(y) <= key(r[i])
    ensures r <= SortDesc(s, key)
  {
    var sorted := SortDesc(s, key);
    var top := Take(sorted, limit);
    PrefixSortedDesc(sorted, top, key);
    assert top == sorted[..|top|];
    CutSortedDesc(sorted, |top|, key);
    assert forall y :: y in top ==> y in multiset(sorted);
    top
  }
}
