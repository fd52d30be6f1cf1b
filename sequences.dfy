/** Generic sequence reductions shared by the server aggregation and the client charts:
    sums (Array.prototype.reduce), filters (Array.prototype.filter) and the stable
    descending sort that Array.prototype.sort performs with a `b - a` comparator. */
module Sequences {

  /** Sum of `w` over `s`, accumulated left to right from 0 as `reduce((sum, x) => sum + w(x), 0)` does.
      With no negative term, the sum is non-negative. */
  function SumBy<T(!new)>(s: seq<T>, w: T -> real): (r: real)
    ensures (forall x :: x in s ==> w(x) >= 0.0) ==> r >= 0.0
  {
    if s == [] then 0.0
    else
      assert forall x :: x in s <==> x in s[..|s| - 1] || x == s[|s| - 1];
      SumBy(s[..|s| - 1], w) + w(s[|s| - 1])
  }

  lemma {:induction false} SumByAppend<T(!new)>(s: seq<T>, t: seq<T>, w: T -> real)
    ensures SumBy(s + t, w) == SumBy(s, w) + SumBy(t, w)
    decreases |t|
  {
    if t == [] {
      assert s + t == s;
    } else {
      assert (s + t)[..|s + t| - 1] == s + t[..|t| - 1];
      SumByAppend(s, t[..|t| - 1], w);
    }
  }

  /** A permutation has the same length. */
  lemma PermutationSameLength<T>(s: seq<T>, t: seq<T>)
    requires multiset(s) == multiset(t)
    ensures |s| == |t|
  {
    assert |multiset(s)| == |multiset(t)|;
  }

  /** A one-term sum is that term. */
  lemma SumBySingleton<T(!new)>(x: T, w: T -> real)
    ensures SumBy([x], w) == w(x)
  {
    assert [x][..0] == [];
  }

  /** Taking one term out of a sum. */
  lemma SumByWithout<T(!new)>(t: seq<T>, j: nat, w: T -> real)
    requires j < |t|
    ensures SumBy(t, w) == SumBy(t[..j] + t[j + 1..], w) + w(t[j])
  {
    var front, back := t[..j], t[j + 1..];
    assert t == front + ([t[j]] + back);
    SumByAppend(front, [t[j]] + back, w);
    SumByAppend([t[j]], back, w);
    SumByAppend(front, back, w);
    SumBySingleton(t[j], w);
  }

  /** Reordering the terms does not change a sum. */
  lemma {:induction false} SumByPermutation<T(!new)>(s: seq<T>, t: seq<T>, w: T -> real)
    requires multiset(s) == multiset(t)
    ensures SumBy(s, w) == SumBy(t, w)
    decreases |s|
  {
    if s == [] {
      assert |t| == |multiset(t)| == 0;
    } else {
      var x := s[|s| - 1];
      var front := s[..|s| - 1];
      assert x in multiset(t);
      var j :| 0 <= j < |t| && t[j] == x;
      var rest := t[..j] + t[j + 1..];
      assert multiset(rest) == multiset(t) - multiset{x} by {
        assert t == t[..j] + [x] + t[j + 1..];
      }
      assert multiset(front) == multiset(s) - multiset{x} by {
        assert s == front + [x];
      }
      SumByPermutation(front, rest, w);
      SumByWithout(t, j, w);
    }
  }

  /** The elements `x` of `s` with `p(x, a)`, in their original order: `s.filter(x => p(x, a))`. */
  function Filter<T(!new), A>(s: seq<T>, p: (T, A) -> bool, a: A): (r: seq<T>)
    ensures |r| <= |s|
    ensures forall x :: x in r <==> x in s && p(x, a)
    ensures forall x :: multiset(r)[x] == if p(x, a) then multiset(s)[x] else 0
  {
    if s == [] then []
    else
      var front := Filter(s[..|s| - 1], p, a);
      assert s == s[..|s| - 1] + [s[|s| - 1]];
      assert forall x :: x in s <==> x in s[..|s| - 1] || x == s[|s| - 1];
      front + if p(s[|s| - 1], a) then [s[|s| - 1]] else []
  }

  /** Filters whose conditions agree on every element select the same elements. */
  lemma {:induction false} FilterCongruent<T(!new), A, B>(s: seq<T>, p: (T, A) -> bool, a: A, q: (T, B) -> bool, b: B)
    requires forall x :: x in s ==> p(x, a) == q(x, b)
    ensures Filter(s, p, a) == Filter(s, q, b)
  {
    if s != [] {
      assert forall x :: x in s[..|s| - 1] ==> x in s;
      FilterCongruent(s[..|s| - 1], p, a, q, b);
    }
  }

  /** With non-negative terms, the sum over a filtered sequence is at most the sum over the whole. */
  lemma {:induction false} FilterSumAtMost<T(!new), A>(s: seq<T>, p: (T, A) -> bool, a: A, w: T -> real)
    requires forall x :: x in s ==> w(x) >= 0.0
    ensures 0.0 <= SumBy(Filter(s, p, a), w) <= SumBy(s, w)
  {
    if s != [] {
      var front, x := s[..|s| - 1], s[|s| - 1];
      assert forall y :: y in front ==> y in s;
      FilterSumAtMost(front, p, a, w);
      if p(x, a) {
        assert Filter(s, p, a) == Filter(front, p, a) + [x];
        SumByAppend(Filter(front, p, a), [x], w);
        SumBySingleton(x, w);
      } else {
        assert Filter(s, p, a) == Filter(front, p, a);
      }
    }
  }

  predicate SortedDesc<T>(s: seq<T>, key: T -> real)
  {
    forall i, j :: 0 <= i < j < |s| ==> key(s[i]) >= key(s[j])
  }

  /** Inserts `x` into `t` after every element whose key is at least `key(x)`:
      the step of a stable insertion sort. */
  function Insert<T>(t: seq<T>, x: T, key: T -> real): (r: seq<T>)
    ensures multiset(r) == multiset(t) + multiset{x}
  {
    if t == [] then [x]
    else if key(t[0]) >= key(x) then
      assert t == [t[0]] + t[1..];
      [t[0]] + Insert(t[1..], x, key)
    else
      [x] + t
  }

  /** Inserting an element no larger than a bound keeps every element within the bound. */
  lemma InsertKeepsBound<T>(t: seq<T>, x: T, key: T -> real, bound: real)
    requires forall y :: y in t ==> key(y) <= bound
    requires key(x) <= bound
    ensures forall y :: y in Insert(t, x, key) ==> key(y) <= bound
  {
    forall y | y in Insert(t, x, key)
      ensures key(y) <= bound
    {
      assert y in multiset(Insert(t, x, key));
    }
  }

  lemma {:induction false} InsertSorted<T>(t: seq<T>, x: T, key: T -> real)
    requires SortedDesc(t, key)
    ensures SortedDesc(Insert(t, x, key), key)
  {
    if t != [] && key(t[0]) >= key(x) {
      var rest := Insert(t[1..], x, key);
      InsertSorted(t[1..], x, key);
      forall y | y in t[1..]
        ensures key(y) <= key(t[0])
      {
        var k :| 0 <= k < |t[1..]| && t[1..][k] == y;
        assert y == t[k + 1];
      }
      InsertKeepsBound(t[1..], x, key, key(t[0]));
      var r := [t[0]] + rest;
      forall i, j | 0 <= i < j < |r|
        ensures key(r[i]) >= key(r[j])
      {
        if i > 0 {
          assert r[i] == rest[i - 1] && r[j] == rest[j - 1];
        } else {
          assert r[j] in rest;
        }
      }
    }
  }

  /** `s` sorted by descending key, equal keys kept in their original order. This is the
      result of Array.prototype.sort with the comparator `(a, b) => key(b) - key(a)`:
      that sort is stable, and a stable sort's output is determined by its input. */
  function SortDesc<T(!new)>(s: seq<T>, key: T -> real): (r: seq<T>)
    ensures multiset(r) == multiset(s)
    ensures SortedDesc(r, key)
  {
    if s == [] then []
    else
      assert s == s[..|s| - 1] + [s[|s| - 1]];
      InsertSorted(SortDesc(s[..|s| - 1], key), s[|s| - 1], key);
      Insert(SortDesc(s[..|s| - 1], key), s[|s| - 1], key)
  }

  /** Sorting neither adds nor drops elements. */
  lemma SortDescMembers<T(!new)>(s: seq<T>, key: T -> real)
    ensures forall x :: x in SortDesc(s, key) <==> x in s
  {
    var r := SortDesc(s, key);
    assert forall x :: x in r <==> x in multiset(r);
  }

  /** Index of the first element of `s` whose key is maximal. */
  function FirstMaxIndex<T>(s: seq<T>, key: T -> real): (i: nat)
    requires s != []
    ensures i < |s|
    ensures forall j :: 0 <= j < |s| ==> key(s[j]) <= key(s[i])
    ensures forall j :: 0 <= j < i ==> key(s[j]) < key(s[i])
  {
    if |s| == 1 then 0
    else
      var i := FirstMaxIndex(s[..|s| - 1], key);
      if key(s[|s| - 1]) > key(s[i]) then |s| - 1 else i
  }

  /** Stability at the head: the first element of the sorted sequence is the first
      element of the input with the largest key. */
  lemma {:induction false} SortDescHead<T(!new)>(s: seq<T>, key: T -> real)
    requires s != []
    ensures SortDesc(s, key)[0] == s[FirstMaxIndex(s, key)]
  {
    var front := s[..|s| - 1];
    var x := s[|s| - 1];
    if |s| > 1 {
      var t := SortDesc(front, key);
      assert |t| == |multiset(t)| == |multiset(front)| == |front| > 0;
      SortDescHead(front, key);
    }
  }

  /** The last `n` elements of `s`, or all of `s` if it is shorter: `s.slice(-n)`. */
  function LastN<T>(s: seq<T>, n: nat): (r: seq<T>)
    requires n > 0
    ensures |r| == if |s| < n then |s| else n
    ensures forall i :: 0 <= i < |r| ==> r[i] == s[|s| - |r| + i]
  {
    if |s| <= n then s else s[|s| - n..]
  }

  /** `slice(-n)` is the suffix of its own length. */
  lemma LastNIsSuffix<T>(s: seq<T>, n: nat)
    requires n > 0
    ensures LastN(s, n) == s[|s| - |LastN(s, n)|..]
  {
  }

  predicate Distinct<T(==)>(s: seq<T>)
  {
    forall i, j :: 0 <= i < j < |s| ==> s[i] != s[j]
  }

  /** In a sequence without repetitions every element occurs at most once. */
  lemma {:induction false} DistinctOccursOnce<T>(s: seq<T>, x: T)
    requires Distinct(s)
    ensures multiset(s)[x] <= 1
  {
    if s != [] {
      var front := s[..|s| - 1];
      assert s == front + [s[|s| - 1]];
      assert Distinct(front);
      DistinctOccursOnce(front, x);
      if x == s[|s| - 1] {
        assert forall i :: 0 <= i < |front| ==> front[i] != x;
        assert x !in multiset(front);
      }
    }
  }

  /** A reordering of a sequence without repetitions has none either. */
  lemma PermutationKeepsDistinct<T>(s: seq<T>, t: seq<T>)
    requires Distinct(s) && multiset(s) == multiset(t)
    ensures Distinct(t)
  {
    forall i, j | 0 <= i < j < |t|
      ensures t[i] != t[j]
    {
      if t[i] == t[j] {
        assert t == t[..j] + t[j..];
        assert t[i] in multiset(t[..j]) && t[j] in multiset(t[j..]);
        assert multiset(t)[t[i]] == multiset(t[..j])[t[i]] + multiset(t[j..])[t[i]];
        DistinctOccursOnce(s, t[i]);
        assert false;
      }
    }
  }
}
