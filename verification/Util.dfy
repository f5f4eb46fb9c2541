/**
 Sequence operations the page reorganizations are written with: filtering, stable sorting and
 the two-way merge of two iterators, each with what it keeps of its input.
 */
module Util {

  datatype Option<+T> = None | Some(value: T)

  datatype Result<+T, +E> = Ok(value: T) | Err(error: E)

  function Max(a: int, b: int): int { if a < b then b else a }

  function Min(a: int, b: int): int { if a < b then a else b }

  /** Every element stands in relation `rel` to every later one. */
  ghost predicate Pairwise<T(!new)>(s: seq<T>, rel: (T, T) -> bool) {
    forall i, j :: 0 <= i < j < |s| ==> rel(s[i], s[j])
  }

  lemma PairwiseSnoc<T(!new)>(s: seq<T>, x: T, rel: (T, T) -> bool)
    requires Pairwise(s, rel)
    requires forall y :: y in s ==> rel(y, x)
    ensures Pairwise(s + [x], rel)
  {
  }

  lemma PairwiseInit<T(!new)>(s: seq<T>, x: T, rel: (T, T) -> bool)
    requires Pairwise(s + [x], rel)
    ensures Pairwise(s, rel)
    ensures forall y :: y in s ==> rel(y, x)
  {
    var all := s + [x];
    forall y | y in s ensures rel(y, x) {
      var i :| 0 <= i < |s| && s[i] == y;
      assert all[i] == y && all[|s|] == x;
    }
    forall i, j | 0 <= i < j < |s| ensures rel(s[i], s[j]) {
      assert all[i] == s[i] && all[j] == s[j];
    }
  }

  lemma PairwiseInsert<T(!new)>(s: seq<T>, x: T, n: nat, rel: (T, T) -> bool)
    requires Pairwise(s, rel) && n <= |s|
    requires forall i :: 0 <= i < n ==> rel(s[i], x)
    requires forall i :: n <= i < |s| ==> rel(x, s[i])
    ensures Pairwise(s[..n] + [x] + s[n..], rel)
  {
    var r := s[..n] + [x] + s[n..];
    assert |r| == |s| + 1;
    forall i, j | 0 <= i < j < |r| ensures rel(r[i], r[j]) {
      var a, b := if i < n then i else i - 1, if j < n then j else j - 1;
      assert i != n ==> r[i] == s[a];
      assert j != n ==> r[j] == s[b];
    }
  }

  lemma PairwiseRemove<T(!new)>(s: seq<T>, n: nat, rel: (T, T) -> bool)
    requires Pairwise(s, rel) && n < |s|
    ensures Pairwise(s[..n] + s[n + 1..], rel)
  {
    var r := s[..n] + s[n + 1..];
    forall i, j | 0 <= i < j < |r| ensures rel(r[i], r[j]) {
      var a, b := if i < n then i else i + 1, if j < n then j else j + 1;
      assert r[i] == s[a] && r[j] == s[b];
    }
  }

  ghost predicate Symmetric<T(!new)>(rel: (T, T) -> bool) {
    forall x, y :: rel(x, y) ==> rel(y, x)
  }

  lemma MultisetMembers<T(!new)>(s: seq<T>, r: seq<T>)
    requires multiset(s) == multiset(r)
    ensures forall x :: x in s <==> x in r
    ensures |s| == |r|
  {
    assert forall x :: x in s <==> x in multiset(s);
    assert forall x :: x in r <==> x in multiset(r);
    assert |multiset(s)| == |s| && |multiset(r)| == |r|;
  }

  // ---------------------------------------------------------------- filtering

  function Filter<T(!new)>(p: T -> bool, s: seq<T>): (r: seq<T>)
    ensures |r| <= |s|
    ensures forall x :: x in r <==> x in s && p(x)
  {
    if |s| == 0 then []
    else
      var last := |s| - 1;
      assert s == s[..last] + [s[last]];
      if p(s[last]) then Filter(p, s[..last]) + [s[last]] else Filter(p, s[..last])
  }

  lemma FilterSnoc<T(!new)>(p: T -> bool, s: seq<T>, x: T)
    ensures Filter(p, s + [x]) == if p(x) then Filter(p, s) + [x] else Filter(p, s)
  {
    assert (s + [x])[..|s|] == s;
  }

  lemma {:induction false} FilterConcat<T(!new)>(p: T -> bool, s: seq<T>, r: seq<T>)
    ensures Filter(p, s + r) == Filter(p, s) + Filter(p, r)
  {
    if |r| == 0 {
      assert s + r == s;
    } else {
      var last := |r| - 1;
      assert (s + r)[..|s + r| - 1] == s + r[..last];
      FilterConcat(p, s, r[..last]);
    }
  }

  /** Replacing one element changes the number of matches by exactly that element's share. */
  lemma {:induction false} FilterUpdate<T(!new)>(p: T -> bool, s: seq<T>, i: nat, x: T)
    requires i < |s|
    ensures |Filter(p, s[i := x])| + (if p(s[i]) then 1 else 0) == |Filter(p, s)| + (if p(x) then 1 else 0)
  {
    assert s == s[..i] + ([s[i]] + s[i + 1..]);
    assert s[i := x] == s[..i] + ([x] + s[i + 1..]);
    FilterConcat(p, s[..i], [s[i]] + s[i + 1..]);
    FilterConcat(p, s[..i], [x] + s[i + 1..]);
    FilterConcat(p, [s[i]], s[i + 1..]);
    FilterConcat(p, [x], s[i + 1..]);
    FilterSingle(p, x);
    FilterSingle(p, s[i]);
  }

  lemma FilterSingle<T(!new)>(p: T -> bool, x: T)
    ensures Filter(p, [x]) == if p(x) then [x] else []
  {
    FilterSnoc(p, [], x);
    assert [] + [x] == [x];
  }

  /** A relation that holds between all matching elements in order holds throughout the result. */
  lemma {:induction false} FilterPairwise<T(!new)>(p: T -> bool, s: seq<T>, rel: (T, T) -> bool)
    requires forall i, j :: 0 <= i < j < |s| && p(s[i]) && p(s[j]) ==> rel(s[i], s[j])
    ensures Pairwise(Filter(p, s), rel)
  {
    if |s| > 0 {
      var last := |s| - 1;
      FilterPairwise(p, s[..last], rel);
      forall x | x in Filter(p, s[..last]) && p(s[last]) ensures rel(x, s[last]) {
        var i :| 0 <= i < last && s[i] == x;
      }
    }
  }

  lemma {:induction false} FilterAll<T(!new)>(p: T -> bool, s: seq<T>)
    requires forall x :: x in s ==> p(x)
    ensures Filter(p, s) == s
  {
    if |s| > 0 {
      var last := |s| - 1;
      FilterAll(p, s[..last]);
      assert s == s[..last] + [s[last]];
    }
  }

  /** `rfind`: the last position whose element satisfies `p`. */
  function RFind<T(!new)>(p: T -> bool, s: seq<T>): (r: Option<nat>)
    ensures r.Some? ==> r.value < |s| && p(s[r.value]) && forall j :: r.value < j < |s| ==> !p(s[j])
    ensures r.None? ==> forall j :: 0 <= j < |s| ==> !p(s[j])
  {
    if |s| == 0 then None
    else if p(s[|s| - 1]) then Some(|s| - 1)
    else RFind(p, s[..|s| - 1])
  }

  // ---------------------------------------------------------------- stable sorting

  ghost predicate SortedBy<T(!new)>(key: T -> int, s: seq<T>) {
    forall i, j :: 0 <= i < j < |s| ==> key(s[i]) <= key(s[j])
  }

  /** Puts `x` behind every element whose key is not larger. */
  function InsertBy<T(!new)>(key: T -> int, x: T, s: seq<T>): (r: seq<T>)
    ensures multiset(r) == multiset(s) + multiset{x}
    ensures |r| == |s| + 1
    ensures forall y :: y in r <==> y in s || y == x
  {
    if |s| == 0 then [x]
    else
      var last := |s| - 1;
      assert s == s[..last] + [s[last]];
      if key(s[last]) <= key(x) then s + [x] else InsertBy(key, x, s[..last]) + [s[last]]
  }

  lemma {:induction false} InsertSorted<T(!new)>(key: T -> int, x: T, s: seq<T>)
    requires SortedBy(key, s)
    ensures SortedBy(key, InsertBy(key, x, s))
  {
    if |s| > 0 && key(s[|s| - 1]) > key(x) {
      var last := |s| - 1;
      InsertSorted(key, x, s[..last]);
      forall y | y in InsertBy(key, x, s[..last]) ensures key(y) <= key(s[last]) {
        if y in s[..last] {
          var i :| 0 <= i < last && s[i] == y;
        }
      }
    }
  }

  /** The stable sort behind `sorted_by_key` and `sort_by_key`. */
  function SortBy<T(!new)>(key: T -> int, s: seq<T>): (r: seq<T>)
    ensures multiset(r) == multiset(s)
    ensures |r| == |s|
    ensures forall y :: y in r <==> y in s
    ensures SortedBy(key, r)
  {
    if |s| == 0 then []
    else
      var last := |s| - 1;
      assert s == s[..last] + [s[last]];
      InsertSorted(key, s[last], SortBy(key, s[..last]));
      InsertBy(key, s[last], SortBy(key, s[..last]))
  }

  lemma {:induction false} InsertPairwise<T(!new)>(key: T -> int, x: T, s: seq<T>, rel: (T, T) -> bool)
    requires Symmetric(rel) && Pairwise(s, rel)
    requires forall y :: y in s ==> rel(y, x)
    ensures Pairwise(InsertBy(key, x, s), rel)
  {
    if |s| > 0 && key(s[|s| - 1]) > key(x) {
      var last := |s| - 1;
      assert s == s[..last] + [s[last]];
      PairwiseInit(s[..last], s[last], rel);
      InsertPairwise(key, x, s[..last], rel);
      assert rel(x, s[last]) by { assert s[last] in s; }
      PairwiseSnoc(InsertBy(key, x, s[..last]), s[last], rel);
    } else {
      PairwiseSnoc(s, x, rel);
    }
  }

  lemma {:induction false} SortPairwise<T(!new)>(key: T -> int, s: seq<T>, rel: (T, T) -> bool)
    requires Symmetric(rel) && Pairwise(s, rel)
    ensures Pairwise(SortBy(key, s), rel)
  {
    if |s| > 0 {
      var last := |s| - 1;
      assert s == s[..last] + [s[last]];
      PairwiseInit(s[..last], s[last], rel);
      SortPairwise(key, s[..last], rel);
      InsertPairwise(key, s[last], SortBy(key, s[..last]), rel);
    }
  }

  // ---------------------------------------------------------------- merging two iterators

  /** Takes the head of `a` while it is first with respect to the head of `b`. */
  function MergeBy<T(!new)>(first: (T, T) -> bool, a: seq<T>, b: seq<T>): (r: seq<T>)
    ensures multiset(r) == multiset(a) + multiset(b)
    ensures |r| == |a| + |b|
    ensures forall y :: y in r <==> y in a || y in b
    decreases |a| + |b|
  {
    if |a| == 0 then b
    else if |b| == 0 then a
    else if first(a[0], b[0]) then
      assert a == [a[0]] + a[1..];
      [a[0]] + MergeBy(first, a[1..], b)
    else
      assert b == [b[0]] + b[1..];
      [b[0]] + MergeBy(first, a, b[1..])
  }

  /** Merging two sorted inputs by `<=` or by `<` on the key gives a sorted output. */
  lemma {:induction false} MergeSorted<T(!new)>(first: (T, T) -> bool, key: T -> int, a: seq<T>, b: seq<T>)
    requires SortedBy(key, a) && SortedBy(key, b)
    requires forall x, y :: x in a && y in b ==>
               (first(x, y) ==> key(x) <= key(y)) && (!first(x, y) ==> key(y) <= key(x))
    ensures SortedBy(key, MergeBy(first, a, b))
    decreases |a| + |b|
  {
    if |a| > 0 && |b| > 0 {
      if first(a[0], b[0]) {
        MergeSorted(first, key, a[1..], b);
        forall y | y in MergeBy(first, a[1..], b) ensures key(a[0]) <= key(y) {
          if y in a[1..] { var i :| 0 < i < |a| && a[i] == y; } else { var i :| 0 <= i < |b| && b[i] == y; }
        }
      } else {
        MergeSorted(first, key, a, b[1..]);
        forall y | y in MergeBy(first, a, b[1..]) ensures key(b[0]) <= key(y) {
          if y in b[1..] { var i :| 0 < i < |b| && b[i] == y; } else { var i :| 0 <= i < |a| && a[i] == y; }
        }
      }
    }
  }

  lemma {:induction false} MergePairwise<T(!new)>(first: (T, T) -> bool, a: seq<T>, b: seq<T>, rel: (T, T) -> bool)
    requires Symmetric(rel) && Pairwise(a, rel) && Pairwise(b, rel)
    requires forall x, y :: x in a && y in b ==> rel(x, y)
    ensures Pairwise(MergeBy(first, a, b), rel)
    decreases |a| + |b|
  {
    if |a| > 0 && |b| > 0 {
      if first(a[0], b[0]) {
        MergePairwise(first, a[1..], b, rel);
        forall y | y in MergeBy(first, a[1..], b) ensures rel(a[0], y) {
          if y in a[1..] { var i :| 0 < i < |a| && a[i] == y; } else { assert y in b; }
        }
      } else {
        MergePairwise(first, a, b[1..], rel);
        forall y | y in MergeBy(first, a, b[1..]) ensures rel(b[0], y) {
          if y in b[1..] { var i :| 0 < i < |b| && b[i] == y; } else { assert y in a; }
        }
      }
    }
  }
}
