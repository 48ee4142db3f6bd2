/** The array operations the application relies on (`filter`, `map` with a
    conditional update, `find`, `slice(-n)`, `reduce` sums, `Math.max`, and the
    stable `sort`), each defined once with the contract every caller uses. */
module Seqs {
  import opened Wrappers

  // ---------------------------------------------------------------------------
  // Subsequences and `filter`
  // ---------------------------------------------------------------------------

  /** `a` is obtained from `b` by deleting elements, keeping the order of the rest. */
  predicate IsSubsequence<T(==)>(a: seq<T>, b: seq<T>)
    decreases |b|
  {
    if |a| == 0 then true
    else if |b| == 0 then false
    else if a[0] == b[0] then IsSubsequence(a[1..], b[1..])
    else IsSubsequence(a, b[1..])
  }

  /** `s.filter(p)`: exactly the elements satisfying `p`, in their original order. */
  function Filter<T(==)>(s: seq<T>, p: T -> bool): (r: seq<T>)
    ensures |r| <= |s|
    ensures forall i :: 0 <= i < |r| ==> r[i] in s && p(r[i])
    ensures forall i :: 0 <= i < |s| && p(s[i]) ==> s[i] in r
    ensures IsSubsequence(r, s)
  {
    if |s| == 0 then []
    else if p(s[0]) then [s[0]] + Filter(s[1..], p)
    else Filter(s[1..], p)
  }

  /** An element is kept exactly when it occurs in `s` and satisfies `p`. */
  lemma FilterMembers<T>(s: seq<T>, p: T -> bool)
    ensures forall x :: x in Filter(s, p) <==> x in s && p(x)
  {
    forall x | x in s && p(x) ensures x in Filter(s, p) {
      var i :| 0 <= i < |s| && s[i] == x;
    }
  }

  /** Filtering never adds copies of an element. */
  lemma {:induction false} FilterSubMultiset<T>(s: seq<T>, p: T -> bool)
    ensures multiset(Filter(s, p)) <= multiset(s)
  {
    if |s| > 0 {
      FilterSubMultiset(s[1..], p);
      assert s == [s[0]] + s[1..];
    }
  }

  /** `if (on) s = s.filter(p)`: a sub-multiset of `s` holding the elements
      of `s` that pass `p`, or all of them when the filter is off. */
  function FilterIf<T(==,!new)>(s: seq<T>, on: bool, p: T -> bool): (r: seq<T>)
    ensures multiset(r) <= multiset(s)
    ensures forall x :: x in r <==> x in s && (!on || p(x))
  {
    FilterMembers(s, p);
    FilterSubMultiset(s, p);
    if on then Filter(s, p) else s
  }

  /** Filtering distributes over concatenation. */
  lemma {:induction false} FilterConcat<T>(a: seq<T>, b: seq<T>, p: T -> bool)
    ensures Filter(a + b, p) == Filter(a, p) + Filter(b, p)
  {
    if |a| > 0 {
      assert (a + b)[1..] == a[1..] + b;
      FilterConcat(a[1..], b, p);
    } else {
      assert a + b == b;
    }
  }

  /** A filter that every element passes returns its input. */
  lemma {:induction false} FilterKeepsAll<T>(s: seq<T>, p: T -> bool)
    requires forall i :: 0 <= i < |s| ==> p(s[i])
    ensures Filter(s, p) == s
  {
    if |s| > 0 {
      FilterKeepsAll(s[1..], p);
    }
  }

  /** A filter that no element passes returns the empty sequence. */
  lemma {:induction false} FilterDropsAll<T>(s: seq<T>, p: T -> bool)
    requires forall i :: 0 <= i < |s| ==> !p(s[i])
    ensures Filter(s, p) == []
  {
    if |s| > 0 {
      FilterDropsAll(s[1..], p);
    }
  }

  /** Filters that agree on the elements of `s` give the same result. */
  lemma {:induction false} FilterExtensional<T>(s: seq<T>, p: T -> bool, q: T -> bool)
    requires forall i :: 0 <= i < |s| ==> p(s[i]) == q(s[i])
    ensures Filter(s, p) == Filter(s, q)
  {
    if |s| > 0 {
      FilterExtensional(s[1..], p, q);
    }
  }

  /** Two filters in a row are one filter by the conjunction. */
  lemma {:induction false} FilterFilter<T>(s: seq<T>, p: T -> bool, q: T -> bool, r: T -> bool)
    requires forall i :: 0 <= i < |s| ==> r(s[i]) == (p(s[i]) && q(s[i]))
    ensures Filter(Filter(s, p), q) == Filter(s, r)
  {
    if |s| > 0 {
      FilterFilter(s[1..], p, q, r);
    }
  }

  /** Being a subsequence is transitive, so a pipeline of filters keeps order. */
  lemma {:induction false} SubsequenceTransitive<T>(a: seq<T>, b: seq<T>, c: seq<T>)
    requires IsSubsequence(a, b) && IsSubsequence(b, c)
    ensures IsSubsequence(a, c)
    decreases |c|
  {
    if |a| == 0 {
    } else if |c| > 0 {
      if b[0] == c[0] {
        if a[0] == b[0] {
          SubsequenceTransitive(a[1..], b[1..], c[1..]);
        } else {
          SubsequenceTransitive(a, b[1..], c[1..]);
        }
      } else {
        SubsequenceTransitive(a, b, c[1..]);
        if a[0] == c[0] {
          SubsequenceDropHead(a, c[1..]);
        }
      }
    }
  }

  /** Dropping the first element of a subsequence leaves a subsequence. */
  lemma {:induction false} SubsequenceDropHead<T>(a: seq<T>, d: seq<T>)
    requires |a| > 0 && IsSubsequence(a, d)
    ensures IsSubsequence(a[1..], d)
    decreases |d|, 1
  {
    if |a| > 1 && |d| > 0 {
      if a[0] == d[0] {
        SubsequenceSkip(a[1..], d);
      } else {
        SubsequenceDropHead(a, d[1..]);
        SubsequenceSkip(a[1..], d);
      }
    }
  }

  /** A subsequence of the tail is a subsequence of the whole. */
  lemma {:induction false} SubsequenceSkip<T>(a: seq<T>, d: seq<T>)
    requires |d| > 0 && IsSubsequence(a, d[1..])
    ensures IsSubsequence(a, d)
    decreases |d|, 0
  {
    if |a| > 0 && a[0] == d[0] {
      SubsequenceDropHead(a, d[1..]);
    }
  }

  // ---------------------------------------------------------------------------
  // `map` with a conditional update, `find`, `slice(-n)`
  // ---------------------------------------------------------------------------

  /** `s.map(x => p(x) ? f(x) : x)`: the records selected by `p` are rewritten, the
      others are kept, positions do not move. */
  function UpdateWhere<T>(s: seq<T>, p: T -> bool, f: T -> T): (r: seq<T>)
    ensures |r| == |s|
    ensures forall i :: 0 <= i < |s| && p(s[i]) ==> r[i] == f(s[i])
    ensures forall i :: 0 <= i < |s| && !p(s[i]) ==> r[i] == s[i]
  {
    seq(|s|, i requires 0 <= i < |s| => if p(s[i]) then f(s[i]) else s[i])
  }

  /** `s.find(p)`: the first element satisfying `p`, if any. */
  function Find<T>(s: seq<T>, p: T -> bool): (r: Option<T>)
    ensures r.None? <==> forall i :: 0 <= i < |s| ==> !p(s[i])
    ensures r.Some? ==> exists i :: 0 <= i < |s| && s[i] == r.value && p(s[i])
                                   && forall j :: 0 <= j < i ==> !p(s[j])
  {
    if |s| == 0 then None
    else if p(s[0]) then Some(s[0])
    else
      var r := Find(s[1..], p);
      assert forall i :: 1 <= i < |s| ==> s[i] == s[1..][i - 1];
      r
  }

  /** `find` returns the element at the first index satisfying `p`. */
  lemma FindIsFirst<T>(s: seq<T>, p: T -> bool, i: nat)
    requires i < |s| && p(s[i])
    requires forall j :: 0 <= j < i ==> !p(s[j])
    ensures Find(s, p) == Some(s[i])
  {
    var k :| 0 <= k < |s| && s[k] == Find(s, p).value && p(s[k]) && forall j :: 0 <= j < k ==> !p(s[j]);
    assert k == i;
  }

  /** `s.slice(-n)` for `n > 0`: the last `min(n, |s|)` elements, in order. */
  function LastN<T>(s: seq<T>, n: nat): (r: seq<T>)
    requires n > 0
    ensures |r| == if |s| < n then |s| else n
    ensures r == s[|s| - |r|..]
  {
    if |s| <= n then s else s[|s| - n..]
  }

  // ---------------------------------------------------------------------------
  // `reduce` sums and `Math.max`
  // ---------------------------------------------------------------------------

  /** `s.reduce((t, x) => t + f(x), 0)` */
  function Sum<T>(s: seq<T>, f: T -> int): int
  {
    if |s| == 0 then 0 else Sum(s[..|s| - 1], f) + f(s[|s| - 1])
  }

  /** Sums of non-negative terms are non-negative and bound every term. */
  lemma {:induction false} SumBounds<T>(s: seq<T>, f: T -> int)
    requires forall i :: 0 <= i < |s| ==> f(s[i]) >= 0
    ensures Sum(s, f) >= 0
    ensures forall i :: 0 <= i < |s| ==> f(s[i]) <= Sum(s, f)
  {
    if |s| > 0 {
      SumBounds(s[..|s| - 1], f);
      assert forall i :: 0 <= i < |s| - 1 ==> s[..|s| - 1][i] == s[i];
    }
  }

  /** Summing over a concatenation adds the two sums. */
  lemma {:induction false} SumConcat<T>(a: seq<T>, b: seq<T>, f: T -> int)
    ensures Sum(a + b, f) == Sum(a, f) + Sum(b, f)
    decreases |b|
  {
    if |b| == 0 {
      assert a + b == a;
    } else {
      assert (a + b)[..|a + b| - 1] == a + b[..|b| - 1];
      SumConcat(a, b[..|b| - 1], f);
    }
  }

  /** A sum over the front element and the rest. */
  lemma SumCons<T>(s: seq<T>, f: T -> int)
    requires |s| > 0
    ensures Sum(s, f) == f(s[0]) + Sum(s[1..], f)
  {
    SumConcat([s[0]], s[1..], f);
    assert [s[0]] + s[1..] == s;
    assert Sum([s[0]], f) == Sum([], f) + f(s[0]);
  }

  /** Summing non-negative terms over a filtered sequence gives at most the
      full sum. */
  lemma {:induction false} SumFilterAtMost<T>(s: seq<T>, p: T -> bool, f: T -> int)
    requires forall i :: 0 <= i < |s| ==> f(s[i]) >= 0
    ensures Sum(Filter(s, p), f) <= Sum(s, f)
  {
    if |s| > 0 {
      SumFilterAtMost(s[1..], p, f);
      SumCons(s, f);
      if p(s[0]) {
        SumCons(Filter(s, p), f);
      }
    }
  }

  /** A sum of `|s|` terms each at most `m` is at most `|s| * m`. */
  lemma {:induction false} SumAtMostCountTimes<T>(s: seq<T>, f: T -> int, m: int)
    requires forall i :: 0 <= i < |s| ==> f(s[i]) <= m
    ensures Sum(s, f) <= |s| * m
  {
    if |s| > 0 {
      assert forall i :: 0 <= i < |s| - 1 ==> s[..|s| - 1][i] == s[i];
      SumAtMostCountTimes(s[..|s| - 1], f, m);
      assert (|s| - 1) * m + m == |s| * m;
    }
  }

  /** `Math.max(0, ...s.map(f))`: zero for an empty sequence, otherwise the
      largest value if it is positive. */
  function MaxOrZero<T>(s: seq<T>, f: T -> int): (m: int)
    ensures m >= 0
    ensures forall i :: 0 <= i < |s| ==> f(s[i]) <= m
    ensures m == 0 || exists i :: 0 <= i < |s| && f(s[i]) == m
  {
    if |s| == 0 then 0
    else
      var rest := MaxOrZero(s[1..], f);
      assert forall i :: 1 <= i < |s| ==> s[i] == s[1..][i - 1];
      if f(s[0]) > rest then f(s[0]) else rest
  }

  // ---------------------------------------------------------------------------
  // Stable sort by a numeric key (`Array.prototype.sort` with a subtracting
  // comparator, which is stable since ES2019)
  // ---------------------------------------------------------------------------

  /** Non-decreasing in `key`. */
  predicate SortedBy<T>(s: seq<T>, key: T -> real) {
    forall i, j :: 0 <= i < j < |s| ==> key(s[i]) <= key(s[j])
  }

  /** Inserts `x` into an ascending sequence in front of the first element whose
      key is not smaller, so earlier elements stay ahead of equal later ones. */
  function Insert<T>(x: T, s: seq<T>, key: T -> real): (r: seq<T>)
    requires SortedBy(s, key)
    ensures SortedBy(r, key)
    ensures multiset(r) == multiset(s) + multiset{x}
    ensures |r| == |s| + 1
  {
    if |s| == 0 then [x]
    else if key(x) <= key(s[0]) then
      SortedCons(x, s, key);
      [x] + s
    else
      var rest := Insert(x, s[1..], key);
      assert s == [s[0]] + s[1..];
      LowerBoundKept(x, s[1..], rest, key, key(s[0]));
      SortedCons(s[0], rest, key);
      [s[0]] + rest
  }

  /** An element no greater than the head of a sorted sequence, or than all
      of it, can go in front. */
  lemma SortedCons<T>(h: T, s: seq<T>, key: T -> real)
    requires SortedBy(s, key)
    requires |s| > 0 ==> key(h) <= key(s[0])
    ensures SortedBy([h] + s, key)
  {
    var r := [h] + s;
    forall i, j | 0 <= i < j < |r| ensures key(r[i]) <= key(r[j]) {
      if i == 0 {
        assert r[j] == s[j - 1];
      } else {
        assert r[i] == s[i - 1] && r[j] == s[j - 1];
      }
    }
  }

  /** A bound below `x` and every element of `s` is below every element of a
      permutation of `s` with `x` added. */
  lemma LowerBoundKept<T>(x: T, s: seq<T>, r: seq<T>, key: T -> real, b: real)
    requires multiset(r) == multiset(s) + multiset{x}
    requires b <= key(x) && forall i :: 0 <= i < |s| ==> b <= key(s[i])
    ensures forall i :: 0 <= i < |r| ==> b <= key(r[i])
  {
    forall i | 0 <= i < |r| ensures b <= key(r[i]) {
      assert r[i] in multiset(r);
      if r[i] != x {
        assert r[i] in multiset(s);
        var k :| 0 <= k < |s| && s[k] == r[i];
      }
    }
  }

  /** `s.sort((a, b) => key(a) - key(b))`: an ascending permutation of `s`. */
  function SortAsc<T>(s: seq<T>, key: T -> real): (r: seq<T>)
    ensures SortedBy(r, key)
    ensures multiset(r) == multiset(s)
    ensures |r| == |s|
  {
    if |s| == 0 then []
    else
      assert s == [s[0]] + s[1..];
      Insert(s[0], SortAsc(s[1..], key), key)
  }

  /** `s.sort((a, b) => key(b) - key(a))`: a non-increasing permutation of `s`. */
  /** The key that orders the other way round. */
  function Negated<T>(key: T -> real): (neg: T -> real)
  {
    x => 0.0 - key(x)
  }

  function SortDesc<T>(s: seq<T>, key: T -> real): (r: seq<T>)
    ensures forall i, j :: 0 <= i < j < |r| ==> key(r[i]) >= key(r[j])
    ensures multiset(r) == multiset(s)
    ensures |r| == |s|
  {
    var r := SortAsc(s, Negated(key));
    assert forall i, j :: 0 <= i < j < |r| ==> 0.0 - key(r[i]) <= 0.0 - key(r[j]);
    r
  }

  /** A permutation has the same elements. */
  lemma PermutationSameElements<T>(a: seq<T>, b: seq<T>)
    requires multiset(a) == multiset(b)
    ensures forall x :: x in a <==> x in b
  {
    forall x ensures x in a <==> x in b {
      assert x in a <==> x in multiset(a);
      assert x in b <==> x in multiset(b);
    }
  }

  /** The elements whose key is `k`. */
  function KeyIs<T>(key: T -> real, k: real): (p: T -> bool)
  {
    x => key(x) == k
  }

  /** Filtering a sequence with a known head. */
  lemma {:induction false} FilterCons<T>(h: T, s: seq<T>, p: T -> bool)
    ensures Filter([h] + s, p) == if p(h) then [h] + Filter(s, p) else Filter(s, p)
  {
    assert ([h] + s)[1..] == s;
  }

  /** The first element a filter keeps is the first element of `s` that passes. */
  lemma {:induction false} FilterFirst<T>(s: seq<T>, p: T -> bool, i: nat)
    requires i < |s| && p(s[i])
    requires forall j :: 0 <= j < i ==> !p(s[j])
    ensures |Filter(s, p)| > 0 && Filter(s, p)[0] == s[i]
  {
    if i > 0 {
      FilterFirst(s[1..], p, i - 1);
    }
  }

  /** Insertion puts `x` in front of the elements with the same key. */
  lemma {:induction false} InsertStable<T>(x: T, s: seq<T>, key: T -> real, k: real)
    requires SortedBy(s, key)
    ensures Filter(Insert(x, s, key), KeyIs(key, k))
         == if key(x) == k then [x] + Filter(s, KeyIs(key, k)) else Filter(s, KeyIs(key, k))
  {
    var p := KeyIs(key, k);
    if |s| == 0 {
      FilterCons(x, [], p);
    } else if key(x) <= key(s[0]) {
      FilterCons(x, s, p);
    } else {
      var rest := Insert(x, s[1..], key);
      InsertStable(x, s[1..], key, k);
      FilterCons(s[0], rest, p);
      assert s == [s[0]] + s[1..];
      FilterCons(s[0], s[1..], p);
    }
  }

  /** The sort is stable: the elements with one key keep their order. */
  lemma {:induction false} SortAscStable<T>(s: seq<T>, key: T -> real, k: real)
    ensures Filter(SortAsc(s, key), KeyIs(key, k)) == Filter(s, KeyIs(key, k))
  {
    if |s| > 0 {
      SortAscStable(s[1..], key, k);
      InsertStable(s[0], SortAsc(s[1..], key), key, k);
      assert s == [s[0]] + s[1..];
      FilterCons(s[0], s[1..], KeyIs(key, k));
    }
  }

  /** The descending sort is stable too. */
  lemma {:induction false} SortDescStable<T>(s: seq<T>, key: T -> real, k: real)
    ensures Filter(SortDesc(s, key), KeyIs(key, k)) == Filter(s, KeyIs(key, k))
  {
    SortDescStableAt(s, key, k, 0.0 - k);
  }

  /** The descending sort is the ascending sort by the negated key, whose
      elements with key `nk` are those with key `k`. */
  lemma {:induction false} SortDescStableAt<T>(s: seq<T>, key: T -> real, k: real, nk: real)
    requires nk == 0.0 - k
    ensures Filter(SortDesc(s, key), KeyIs(key, k)) == Filter(s, KeyIs(key, k))
  {
    var neg := Negated(key);
    var r := SortAsc(s, neg);
    var p, q := KeyIs(neg, nk), KeyIs(key, k);
    calc {
      Filter(SortDesc(s, key), q);
      { assert SortDesc(s, key) == r; }
      Filter(r, q);
      { NegatedKeyIs(r, key, k, nk); }
      Filter(r, p);
      { SortAscStable(s, neg, nk); }
      Filter(s, p);
      { NegatedKeyIs(s, key, k, nk); }
      Filter(s, q);
    }
  }

  /** Filtering by the negated key at `nk`, the negation of `k`, is filtering
      by the key at `k`. */
  lemma {:induction false} NegatedKeyIs<T>(s: seq<T>, key: T -> real, k: real, nk: real)
    requires nk == 0.0 - k
    ensures Filter(s, KeyIs(Negated(key), nk)) == Filter(s, KeyIs(key, k))
  {
    var p, q := KeyIs(Negated(key), nk), KeyIs(key, k);
    forall i | 0 <= i < |s| ensures p(s[i]) == q(s[i]) {
      assert Negated(key)(s[i]) == 0.0 - key(s[i]);
    }
    FilterExtensional(s, p, q);
  }
}
