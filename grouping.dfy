/** The group-by reducer that the application writes four times (category breakdown and
    category totals on the server, the category pie chart and the monthly trends chart on
    the client): a `reduce` over the expenses into a dictionary keyed by the group, each
    entry created on first sight and then increased by the expense's amount, read back with
    `Object.entries` / `Object.values`, whose order is the order in which keys were added. */
module Grouping {
  import opened Sequences

  /** The distinct keys of `s`, in order of first occurrence. */
  function FirstKeys<T(!new), K(==, !new)>(s: seq<T>, key: T -> K): (ks: seq<K>)
    ensures Distinct(ks)
    ensures forall k :: k in ks <==> exists x :: x in s && key(x) == k
  {
    if s == [] then []
    else
      var front := FirstKeys(s[..|s| - 1], key);
      assert forall x :: x in s <==> x in s[..|s| - 1] || x == s[|s| - 1];
      if key(s[|s| - 1]) in front then front else front + [key(s[|s| - 1])]
  }

  /** Sum of `w` over the elements of `s` whose key is `k`. */
  function GroupTotal<T, K(==, !new)>(s: seq<T>, key: T -> K, w: T -> real, k: K): real
  {
    if s == [] then 0.0
    else GroupTotal(s[..|s| - 1], key, w, k) + (if key(s[|s| - 1]) == k then w(s[|s| - 1]) else 0.0)
  }

  /** A key that no element has totals 0. */
  lemma {:induction false} GroupTotalOfAbsentKey<T, K(!new)>(s: seq<T>, key: T -> K, w: T -> real, k: K)
    requires forall x :: x in s ==> key(x) != k
    ensures GroupTotal(s, key, w, k) == 0.0
  {
    if s != [] {
      assert forall x :: x in s[..|s| - 1] ==> x in s;
      GroupTotalOfAbsentKey(s[..|s| - 1], key, w, k);
    }
  }

  /** The weight of an element inside the group of `k`, and 0 outside it. */
  function KeyWeight<T, K(==)>(key: T -> K, w: T -> real, k: K): T -> real
  {
    x => if key(x) == k then w(x) else 0.0
  }

  /** A group total is the sum of the weights inside the group. */
  lemma {:induction false} GroupTotalIsSum<T(!new), K(!new)>(s: seq<T>, key: T -> K, w: T -> real, k: K)
    ensures GroupTotal(s, key, w, k) == SumBy(s, KeyWeight(key, w, k))
  {
    if s != [] {
      GroupTotalIsSum(s[..|s| - 1], key, w, k);
    }
  }

  /** Reordering the elements does not change any group total. */
  lemma GroupTotalPermutation<T(!new), K(!new)>(s: seq<T>, t: seq<T>, key: T -> K, w: T -> real, k: K)
    requires multiset(s) == multiset(t)
    ensures GroupTotal(s, key, w, k) == GroupTotal(t, key, w, k)
  {
    GroupTotalIsSum(s, key, w, k);
    GroupTotalIsSum(t, key, w, k);
    SumByPermutation(s, t, KeyWeight(key, w, k));
  }

  /** The entry for each key of `ks`: the key and the total of its group. */
  function Entries<T, K(==, !new)>(ks: seq<K>, s: seq<T>, key: T -> K, w: T -> real): seq<(K, real)>
  {
    seq(|ks|, i requires 0 <= i < |ks| => (ks[i], GroupTotal(s, key, w, ks[i])))
  }

  /** The grouped entries a reducer produces: one per distinct key, in first-occurrence order. */
  function Groups<T(!new), K(==, !new)>(s: seq<T>, key: T -> K, w: T -> real): seq<(K, real)>
  {
    Entries(FirstKeys(s, key), s, key, w)
  }

  function EntryKey<K>(e: (K, real)): K
  {
    e.0
  }

  function EntryTotal<K>(e: (K, real)): real
  {
    e.1
  }

  /** The dictionary reducer: `s.reduce((acc, x) => { if (!acc[k]) acc[k] = 0; acc[k] += w(x); return acc; }, {})`
      followed by `Object.entries(acc)`. */
  method GroupTotals<T(!new), K(==, !new)>(s: seq<T>, key: T -> K, w: T -> real) returns (r: seq<(K, real)>)
    ensures r == Groups(s, key, w)
  {
    var acc: map<K, real> := map[];
    var order: seq<K> := [];
    for i := 0 to |s|
      invariant order == FirstKeys(s[..i], key)
      invariant acc.Keys == set k | k in order
      invariant forall k :: k in acc ==> acc[k] == GroupTotal(s[..i], key, w, k)
    {
      assert s[..i + 1][..i] == s[..i];
      var k := key(s[i]);
      if k !in acc {
        GroupTotalOfAbsentKey(s[..i], key, w, k);
      }
      if k !in acc || acc[k] == 0.0 {
        // `!acc[k]` also holds for a total of 0; resetting it changes nothing, and a key
        // that is already present keeps its place in the key order.
        if k !in acc {
          order := order + [k];
        }
        acc := acc[k := 0.0];
      }
      acc := acc[k := acc[k] + w(s[i])];
      forall k' ensures GroupTotal(s[..i + 1], key, w, k') == GroupTotal(s[..i], key, w, k') + (if k == k' then w(s[i]) else 0.0) {
        assert s[..i + 1][..|s[..i + 1]| - 1] == s[..i];
      }
    }
    assert s[..|s|] == s;
    r := seq(|order|, j requires 0 <= j < |order| => (order[j], acc[order[j]]));
  }

  /** Every key present in `s` has exactly one entry, and nothing else has one. */
  lemma GroupsOnePerKey<T(!new), K(!new)>(s: seq<T>, key: T -> K, w: T -> real, k: K)
    ensures Distinct(Groups(s, key, w)) && |Groups(s, key, w)| == |FirstKeys(s, key)|
    ensures (exists x :: x in s && key(x) == k) <==> (exists i :: 0 <= i < |Groups(s, key, w)| && Groups(s, key, w)[i].0 == k)
    ensures forall i, j :: 0 <= i < j < |Groups(s, key, w)| ==> Groups(s, key, w)[i].0 != Groups(s, key, w)[j].0
  {
    var ks := FirstKeys(s, key);
    if k in ks {
      var i :| 0 <= i < |ks| && ks[i] == k;
      assert Groups(s, key, w)[i].0 == k;
    }
  }

  /** Each entry of the groups pairs its key with the group's total, and no entry occurs twice. */
  lemma GroupEntries<T(!new), K(!new)>(s: seq<T>, key: T -> K, w: T -> real)
    ensures Distinct(Groups(s, key, w))
    ensures forall e :: e in Groups(s, key, w) ==> e.1 == GroupTotal(s, key, w, e.0)
  {
    var g := Groups(s, key, w);
    var ks := FirstKeys(s, key);
    forall i, j | 0 <= i < j < |g|
      ensures g[i] != g[j]
    {
      assert g[i].0 == ks[i] && g[j].0 == ks[j];
    }
  }

  /** A reordering of the groups (such as a sort by total) holds the same entries. */
  lemma ReorderedGroupMembers<T(!new), K(!new)>(s: seq<T>, key: T -> K, w: T -> real, r: seq<(K, real)>)
    requires multiset(r) == multiset(Groups(s, key, w))
    ensures |r| == |FirstKeys(s, key)|
    ensures forall e :: e in r <==> e in Groups(s, key, w)
  {
    var g := Groups(s, key, w);
    assert |r| == |multiset(r)| == |multiset(g)| == |g|;
    forall e
      ensures e in r <==> e in g
    {
      assert e in r <==> e in multiset(r);
    }
  }

  /** Reordered, every group still carries the total of its key. */
  lemma ReorderedGroupTotals<T(!new), K(!new)>(s: seq<T>, key: T -> K, w: T -> real, r: seq<(K, real)>)
    requires multiset(r) == multiset(Groups(s, key, w))
    ensures forall i :: 0 <= i < |r| ==> r[i].1 == GroupTotal(s, key, w, r[i].0)
  {
    ReorderedGroupMembers(s, key, w, r);
    GroupEntries(s, key, w);
    forall i | 0 <= i < |r|
      ensures r[i].1 == GroupTotal(s, key, w, r[i].0)
    {
      assert r[i] in Groups(s, key, w);
    }
  }

  /** Reordered, no key has two entries. */
  lemma ReorderedGroupKeysDistinct<T(!new), K(!new)>(s: seq<T>, key: T -> K, w: T -> real, r: seq<(K, real)>)
    requires multiset(r) == multiset(Groups(s, key, w))
    ensures forall i, j :: 0 <= i < j < |r| ==> r[i].0 != r[j].0
  {
    var g := Groups(s, key, w);
    ReorderedGroupMembers(s, key, w, r);
    GroupEntries(s, key, w);
    PermutationKeepsDistinct(g, r);
    forall i, j | 0 <= i < j < |r|
      ensures r[i].0 != r[j].0
    {
      assert r[i] in g && r[j] in g;
    }
  }

  /** Reordered, every entry's key is the key of some element. */
  lemma ReorderedKeysOccur<T(!new), K(!new)>(s: seq<T>, key: T -> K, w: T -> real, r: seq<(K, real)>)
    requires multiset(r) == multiset(Groups(s, key, w))
    ensures forall i :: 0 <= i < |r| ==> exists x :: x in s && key(x) == r[i].0
  {
    var g := Groups(s, key, w);
    var ks := FirstKeys(s, key);
    forall i | 0 <= i < |r|
      ensures exists x :: x in s && key(x) == r[i].0
    {
      assert r[i] in multiset(g);
      var j :| 0 <= j < |g| && g[j] == r[i];
      assert ks[j] in ks;
    }
  }

  /** Reordered, every element's key still has an entry. */
  lemma ReorderedKeysCovered<T(!new), K(!new)>(s: seq<T>, key: T -> K, w: T -> real, r: seq<(K, real)>)
    requires multiset(r) == multiset(Groups(s, key, w))
    ensures forall x :: x in s ==> exists i :: 0 <= i < |r| && r[i].0 == key(x)
  {
    var g := Groups(s, key, w);
    var ks := FirstKeys(s, key);
    forall x | x in s
      ensures exists i :: 0 <= i < |r| && r[i].0 == key(x)
    {
      assert key(x) in ks;
      var j :| 0 <= j < |ks| && ks[j] == key(x);
      assert g[j] in multiset(r);
    }
  }

  /** There are no groups exactly when there are no elements. */
  lemma GroupsEmpty<T(!new), K(!new)>(s: seq<T>, key: T -> K, w: T -> real)
    ensures Groups(s, key, w) == [] <==> s == []
  {
    if s != [] {
      assert key(s[0]) in FirstKeys(s, key);
    }
  }

  lemma {:induction false} GroupTotalsOfEmpty<T, K(!new)>(ks: seq<K>, key: T -> K, w: T -> real)
    ensures SumBy(Entries(ks, [], key, w), EntryTotal) == 0.0
  {
    if ks != [] {
      var es := Entries(ks, [], key, w);
      assert es[..|es| - 1] == Entries(ks[..|ks| - 1], [], key, w);
      GroupTotalsOfEmpty(ks[..|ks| - 1], key, w);
    }
  }

  /** Appending `x` to the input raises the entries' sum by `w(x)` exactly when its key is listed. */
  lemma {:induction false} EntriesSumStep<T, K(!new)>(ks: seq<K>, s: seq<T>, x: T, key: T -> K, w: T -> real)
    requires Distinct(ks)
    ensures SumBy(Entries(ks, s + [x], key, w), EntryTotal)
         == SumBy(Entries(ks, s, key, w), EntryTotal) + (if key(x) in ks then w(x) else 0.0)
  {
    if ks != [] {
      var front := ks[..|ks| - 1];
      var last := ks[|ks| - 1];
      assert Entries(ks, s + [x], key, w)[..|ks| - 1] == Entries(front, s + [x], key, w);
      assert Entries(ks, s, key, w)[..|ks| - 1] == Entries(front, s, key, w);
      assert (s + [x])[..|s + [x]| - 1] == s;
      assert key(x) in ks <==> key(x) in front || key(x) == last;
      assert key(x) == last ==> key(x) !in front;
      EntriesSumStep(front, s, x, key, w);
    }
  }

  /** With distinct keys covering every element, the entries add up to the whole sum. */
  lemma {:induction false} EntriesConserveTotal<T(!new), K(!new)>(ks: seq<K>, s: seq<T>, key: T -> K, w: T -> real)
    requires Distinct(ks)
    requires forall x :: x in s ==> key(x) in ks
    ensures SumBy(Entries(ks, s, key, w), EntryTotal) == SumBy(s, w)
  {
    if s == [] {
      GroupTotalsOfEmpty(ks, key, w);
    } else {
      var front := s[..|s| - 1];
      assert s == front + [s[|s| - 1]];
      assert forall x :: x in front ==> x in s;
      EntriesConserveTotal(ks, front, key, w);
      EntriesSumStep(ks, front, s[|s| - 1], key, w);
    }
  }

  /** Grouping conserves the total: the group sums add up to the sum over all elements. */
  lemma GroupsConserveTotal<T(!new), K(!new)>(s: seq<T>, key: T -> K, w: T -> real)
    ensures SumBy(Groups(s, key, w), EntryTotal) == SumBy(s, w)
  {
    EntriesConserveTotal(FirstKeys(s, key), s, key, w);
  }

  /** A group total of non-negative terms is at most the sum over all elements. */
  lemma {:induction false} GroupTotalAtMost<T(!new), K(!new)>(s: seq<T>, key: T -> K, w: T -> real, k: K)
    requires forall x :: x in s ==> w(x) >= 0.0
    ensures 0.0 <= GroupTotal(s, key, w, k) <= SumBy(s, w)
  {
    if s != [] {
      assert forall x :: x in s[..|s| - 1] ==> x in s;
      GroupTotalAtMost(s[..|s| - 1], key, w, k);
    }
  }
}
