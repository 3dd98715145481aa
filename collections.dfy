/** Sequence helpers shared by the backends: filtering, de-duplication,
  * flattening, sums, key ordering and the pandas `head` rule. */
module Collections {

  /** `a` occurs in `b` in order, possibly with gaps. */
  predicate Subsequence<T(==)>(a: seq<T>, b: seq<T>)
    decreases |b|
  {
    |a| == 0 || (|b| > 0 && if a[0] == b[0] then Subsequence(a[1..], b[1..]) else Subsequence(a, b[1..]))
  }

  /** No element occurs twice. */
  predicate Distinct<T(==)>(s: seq<T>)
  {
    forall i, j :: 0 <= i < j < |s| ==> s[i] != s[j]
  }

  /** The elements of `s` that satisfy `keep`, in their original order (a boolean mask `df[mask]`). */
  function Filter<T(!new)>(s: seq<T>, keep: T -> bool): (r: seq<T>)
    ensures |r| <= |s|
    ensures forall x :: x in r <==> x in s && keep(x)
  {
    if |s| == 0 then [] else (if keep(s[0]) then [s[0]] else []) + Filter(s[1..], keep)
  }

  lemma {:induction false} FilterIsSubsequence<T(!new)>(s: seq<T>, keep: T -> bool)
    ensures Subsequence(Filter(s, keep), s)
  {
    if |s| > 0 {
      FilterIsSubsequence(s[1..], keep);
      var rest := Filter(s[1..], keep);
      if keep(s[0]) {
        assert ([s[0]] + rest)[1..] == rest;
      } else {
        assert Filter(s, keep) == rest;
        if |rest| > 0 {
          assert keep(rest[0]) by { assert rest[0] in rest; }
          assert rest[0] != s[0];
        }
      }
    }
  }

  /** A mask keeps every copy of a passing element and no copy of any other. */
  lemma {:induction false} FilterMultiplicity<T(!new)>(s: seq<T>, keep: T -> bool)
    ensures forall x :: multiset(Filter(s, keep))[x] == if keep(x) then multiset(s)[x] else 0
  {
    if |s| > 0 {
      FilterMultiplicity(s[1..], keep);
      assert s == [s[0]] + s[1..];
      assert multiset(s) == multiset{s[0]} + multiset(s[1..]);
    }
  }

  /** Filtering keeps everything exactly when every element passes. */
  lemma {:induction false} FilterAll<T(!new)>(s: seq<T>, keep: T -> bool)
    requires forall x :: x in s ==> keep(x)
    ensures Filter(s, keep) == s
  {
    if |s| > 0 {
      FilterAll(s[1..], keep);
    }
  }

  lemma {:induction false} FilterAppend<T(!new)>(a: seq<T>, b: seq<T>, keep: T -> bool)
    ensures Filter(a + b, keep) == Filter(a, keep) + Filter(b, keep)
  {
    if |a| == 0 {
      assert a + b == b;
    } else {
      assert (a + b)[1..] == a[1..] + b;
      FilterAppend(a[1..], b, keep);
    }
  }

  /** Filtering twice is filtering once by the conjunction. */
  lemma {:induction false} FilterFilter<T(!new)>(s: seq<T>, p: T -> bool, q: T -> bool, pq: T -> bool)
    requires forall x :: pq(x) == (p(x) && q(x))
    ensures Filter(Filter(s, p), q) == Filter(s, pq)
  {
    if |s| > 0 {
      FilterFilter(s[1..], p, q, pq);
      var head := if p(s[0]) then [s[0]] else [];
      assert Filter(s, p) == head + Filter(s[1..], p);
      FilterAppend(head, Filter(s[1..], p), q);
      assert Filter(head, q) == if pq(s[0]) then [s[0]] else [] by {
        if p(s[0]) {
          assert head[1..] == [];
        }
      }
    }
  }

  /** Concatenation of the parts in order (`pd.concat(dfs, ignore_index=True)`). */
  function Flatten<T(!new)>(parts: seq<seq<T>>): (r: seq<T>)
    ensures forall x :: x in r <==> exists i :: 0 <= i < |parts| && x in parts[i]
  {
    if |parts| == 0 then [] else
      assert forall i :: 0 <= i < |parts| - 1 ==> parts[..|parts| - 1][i] == parts[i];
      Flatten(parts[..|parts| - 1]) + parts[|parts| - 1]
  }

  lemma FlattenPair<T(!new)>(a: seq<T>, b: seq<T>)
    ensures Flatten([a, b]) == a + b
  {
    assert [a, b][..1] == [a];
    assert [a][..0] == [];
    assert Flatten([a]) == [] + a;
  }

  /** Exact duplicates removed, keeping the first occurrence of each
    * element (`drop_duplicates()`). */
  function Dedup<T(==,!new)>(s: seq<T>): (r: seq<T>)
    ensures |r| <= |s|
    ensures forall x :: x in r <==> x in s
    ensures Distinct(r)
  {
    if |s| == 0 then [] else
      var init := Dedup(s[..|s| - 1]);
      assert forall x :: x in s[..|s| - 1] ==> x in s;
      if s[|s| - 1] in s[..|s| - 1] then init else init + [s[|s| - 1]]
  }

  /** The index of the first occurrence of `x` in `s`. */
  function IndexOf<T(==)>(s: seq<T>, x: T): (i: nat)
    requires x in s
    ensures i < |s| && s[i] == x && x !in s[..i]
  {
    if s[0] == x then 0 else 1 + IndexOf(s[1..], x)
  }

  lemma {:induction false} IndexOfPrefix<T(!new)>(s: seq<T>, k: nat, x: T)
    requires k <= |s| && x in s[..k]
    ensures IndexOf(s, x) == IndexOf(s[..k], x)
  {
    if s[0] != x {
      assert s[1..][..k - 1] == s[..k][1..];
      IndexOfPrefix(s[1..], k - 1, x);
    }
  }

  /** De-duplication keeps first occurrences in order: the rows of `Dedup(s)`
    * appear in the order in which they first occur in `s`. */
  lemma {:induction false} DedupKeepsFirstOccurrenceOrder<T(!new)>(s: seq<T>, i: nat, j: nat)
    requires i < j < |Dedup(s)|
    ensures IndexOf(s, Dedup(s)[i]) < IndexOf(s, Dedup(s)[j])
  {
    var n := |s| - 1;
    var init := Dedup(s[..n]);
    var x, y := Dedup(s)[i], Dedup(s)[j];
    if s[n] in s[..n] {
      IndexOfPrefix(s, n, x);
      IndexOfPrefix(s, n, y);
      DedupKeepsFirstOccurrenceOrder(s[..n], i, j);
    } else if j < |init| {
      assert x == init[i] && y == init[j];
      IndexOfPrefix(s, n, x);
      IndexOfPrefix(s, n, y);
      DedupKeepsFirstOccurrenceOrder(s[..n], i, j);
    } else {
      assert y == s[n] && x == init[i];
      IndexOfPrefix(s, n, x);
      assert s[..n] == s[..|s|][..n];
      assert IndexOf(s, y) == n by {
        assert y !in s[..n];
      }
    }
  }

  /** A sequence without duplicates is left as it is. */
  lemma {:induction false} DedupOfDistinct<T(!new)>(s: seq<T>)
    requires Distinct(s)
    ensures Dedup(s) == s
  {
    if |s| > 0 {
      var n := |s| - 1;
      assert Distinct(s[..n]);
      DedupOfDistinct(s[..n]);
      assert s[n] !in s[..n];
      assert s[..n] + [s[n]] == s;
    }
  }

  /** Appending rows that are all already present changes nothing. */
  lemma {:induction false} DedupAbsorbs<T(!new)>(a: seq<T>, b: seq<T>)
    requires forall x :: x in b ==> x in a
    ensures Dedup(a + b) == Dedup(a)
  {
    if |b| == 0 {
      assert a + b == a;
    } else {
      var n := |b| - 1;
      assert (a + b)[..|a + b| - 1] == a + b[..n];
      assert (a + b)[|a + b| - 1] == b[n];
      assert b[n] in a;
      DedupAbsorbs(a, b[..n]);
    }
  }

  /** A distinct sequence holds each of its elements exactly once. */
  lemma {:induction false} DistinctMultiplicity<T(!new)>(s: seq<T>, x: T)
    requires Distinct(s)
    ensures multiset(s)[x] == if x in s then 1 else 0
  {
    if |s| > 0 {
      var n := |s| - 1;
      assert Distinct(s[..n]);
      DistinctMultiplicity(s[..n], x);
      assert s == s[..n] + [s[n]];
      assert multiset(s) == multiset(s[..n]) + multiset{s[n]};
      assert s[n] !in s[..n];
    }
  }

  /** A sequence with no elements is empty. */
  lemma NoElementsEmpty<T>(s: seq<T>)
    ensures (forall x :: x !in s) ==> s == []
  {
    if |s| > 0 {
      assert s[0] in s;
    }
  }

  /** A distinct sequence whose elements all equal `v` has at most one element. */
  lemma {:induction false} DistinctConstant<T(!new)>(s: seq<T>, v: T)
    requires Distinct(s)
    requires forall x :: x in s ==> x == v
    ensures |s| <= 1
  {
    ConstantMultiplicity(s, v);
    DistinctMultiplicity(s, v);
  }

  lemma {:induction false} ConstantMultiplicity<T(!new)>(s: seq<T>, v: T)
    requires forall x :: x in s ==> x == v
    ensures multiset(s)[v] == |s|
  {
    if |s| > 0 {
      var n := |s| - 1;
      assert s == s[..n] + [s[n]];
      assert forall x :: x in s[..n] ==> x in s;
      ConstantMultiplicity(s[..n], v);
      assert s[n] in s;
      assert multiset(s) == multiset(s[..n]) + multiset{s[n]};
    }
  }

  /** Sequences with the same multiset have the same length and members. */
  lemma SameMultisetSameElements<T>(a: seq<T>, b: seq<T>)
    requires multiset(a) == multiset(b)
    ensures |a| == |b|
    ensures forall x :: x in a <==> x in b
  {
    assert |a| == |multiset(a)|;
    forall x ensures x in a <==> x in b {
      assert x in a <==> x in multiset(a);
      assert x in b <==> x in multiset(b);
    }
  }

  /** Two distinct sequences with the same elements are permutations of each other. */
  lemma SameElementsSameMultiset<T(!new)>(a: seq<T>, b: seq<T>)
    requires Distinct(a) && Distinct(b)
    requires forall x :: x in a <==> x in b
    ensures multiset(a) == multiset(b)
  {
    forall x
      ensures multiset(a)[x] == multiset(b)[x]
    {
      DistinctMultiplicity(a, x);
      DistinctMultiplicity(b, x);
    }
  }

  /** Sum of integers. */
  function SumInt(s: seq<int>): int
  {
    if |s| == 0 then 0 else s[0] + SumInt(s[1..])
  }

  /** Sum of reals. */
  function SumReal(s: seq<real>): real
  {
    if |s| == 0 then 0.0 else s[0] + SumReal(s[1..])
  }

  function Min(a: int, b: int): int { if a <= b then a else b }
  function Max(a: int, b: int): int { if a >= b then a else b }

  /** `DataFrame.head(n)`: the first `n` rows; a negative `n` keeps all
    * but the last `-n` rows. */
  function Head<T>(s: seq<T>, n: int): (r: seq<T>)
    ensures n >= 0 ==> |r| == Min(n, |s|)
    ensures n < 0 ==> |r| == Max(|s| + n, 0)
    ensures r == s[..|r|]
  {
    if n >= 0 then (if n < |s| then s[..n] else s)
    else if |s| + n > 0 then s[..|s| + n] else []
  }

  // ---------------------------------------------------------------------
  // Ordering of group keys

  /** `lt` is a strict total order. */
  ghost predicate StrictTotalOrder<K(!new)>(lt: (K, K) -> bool)
  {
    && (forall a :: !lt(a, a))
    && (forall a, b, c :: lt(a, b) && lt(b, c) ==> lt(a, c))
    && (forall a, b :: a != b ==> lt(a, b) || lt(b, a))
  }

  /** Every earlier element is below every later one. */
  ghost predicate StrictlySorted<K>(s: seq<K>, lt: (K, K) -> bool)
  {
    forall i, j :: 0 <= i < j < |s| ==> lt(s[i], s[j])
  }

  /** `s` with `k` inserted at its place, unless it is already there. */
  function InsertSorted<K(==)>(s: seq<K>, k: K, lt: (K, K) -> bool): seq<K>
  {
    if |s| == 0 then [k]
    else if s[0] == k then s
    else if lt(k, s[0]) then [k] + s
    else [s[0]] + InsertSorted(s[1..], k, lt)
  }

  lemma {:induction false} InsertSortedCorrect<K(!new)>(s: seq<K>, k: K, lt: (K, K) -> bool)
    requires StrictTotalOrder(lt) && StrictlySorted(s, lt)
    ensures StrictlySorted(InsertSorted(s, k, lt), lt)
    ensures forall x :: x in InsertSorted(s, k, lt) <==> x in s || x == k
  {
    if |s| > 0 && s[0] != k && !lt(k, s[0]) {
      assert StrictlySorted(s[1..], lt);
      InsertSortedCorrect(s[1..], k, lt);
      var t := InsertSorted(s[1..], k, lt);
      assert lt(s[0], k);
      forall x | x in t ensures lt(s[0], x) {
        if x != k {
          assert x in s[1..];
        }
      }
      var r := [s[0]] + t;
      forall i, j | 0 <= i < j < |r| ensures lt(r[i], r[j]) {
        if i > 0 {
          assert r[i] == t[i - 1] && r[j] == t[j - 1];
        } else {
          assert r[j] in t;
        }
      }
    }
  }

  /** The distinct elements of `keys`, in ascending `lt` order (the group
    * keys of a pandas `groupby`, which sorts them). */
  function SortedKeys<K(==)>(keys: seq<K>, lt: (K, K) -> bool): seq<K>
  {
    if |keys| == 0 then [] else InsertSorted(SortedKeys(keys[..|keys| - 1], lt), keys[|keys| - 1], lt)
  }

  lemma {:induction false} SortedKeysCorrect<K(!new)>(keys: seq<K>, lt: (K, K) -> bool)
    requires StrictTotalOrder(lt)
    ensures StrictlySorted(SortedKeys(keys, lt), lt)
    ensures Distinct(SortedKeys(keys, lt))
    ensures forall x :: x in SortedKeys(keys, lt) <==> x in keys
  {
    if |keys| > 0 {
      var n := |keys| - 1;
      SortedKeysCorrect(keys[..n], lt);
      InsertSortedCorrect(SortedKeys(keys[..n], lt), keys[n], lt);
      assert keys == keys[..n] + [keys[n]];
    }
  }

  /** Code-point lexicographic order on strings (Python's `<` on `str`). */
  predicate StrLt(a: string, b: string)
  {
    if |a| == 0 then |b| > 0
    else if |b| == 0 then false
    else if a[0] != b[0] then a[0] < b[0]
    else StrLt(a[1..], b[1..])
  }

  lemma {:induction false} StrLtIrreflexive(a: string)
    ensures !StrLt(a, a)
  {
    if |a| > 0 {
      StrLtIrreflexive(a[1..]);
    }
  }

  lemma {:induction false} StrLtTransitive(a: string, b: string, c: string)
    requires StrLt(a, b) && StrLt(b, c)
    ensures StrLt(a, c)
  {
    if |a| > 0 && |b| > 0 && |c| > 0 && a[0] == b[0] && b[0] == c[0] {
      StrLtTransitive(a[1..], b[1..], c[1..]);
    }
  }

  lemma {:induction false} StrLtTotal(a: string, b: string)
    requires a != b
    ensures StrLt(a, b) || StrLt(b, a)
  {
    if |a| > 0 && |b| > 0 && a[0] == b[0] {
      assert a == [a[0]] + a[1..] && b == [b[0]] + b[1..];
      StrLtTotal(a[1..], b[1..]);
    }
  }

  lemma StrLtIsStrictTotalOrder()
    ensures StrictTotalOrder(StrLt)
  {
    forall a ensures !StrLt(a, a) { StrLtIrreflexive(a); }
    forall a, b, c | StrLt(a, b) && StrLt(b, c) ensures StrLt(a, c) { StrLtTransitive(a, b, c); }
    forall a, b | a != b ensures StrLt(a, b) || StrLt(b, a) { StrLtTotal(a, b); }
  }

  /** Lexicographic order on pairs of strings (a two-column `groupby` key). */
  predicate PairLt(a: (string, string), b: (string, string))
  {
    StrLt(a.0, b.0) || (a.0 == b.0 && StrLt(a.1, b.1))
  }

  lemma PairLtIsStrictTotalOrder()
    ensures StrictTotalOrder(PairLt)
  {
    StrLtIsStrictTotalOrder();
  }

  // ---------------------------------------------------------------------
  // Sorting by a count, largest first

  /** No later element has a larger count than an earlier one. */
  ghost predicate NonIncreasing<T>(s: seq<T>, count: T -> int)
  {
    forall i, j :: 0 <= i < j < |s| ==> count(s[i]) >= count(s[j])
  }

  /** `x` placed before the first element whose count is not larger. */
  function InsertByCount<T>(x: T, s: seq<T>, count: T -> int): seq<T>
  {
    if |s| == 0 then [x]
    else if count(s[0]) <= count(x) then [x] + s
    else [s[0]] + InsertByCount(x, s[1..], count)
  }

  /** A stable sort by `count`, descending (`sort_values("count", ascending=False)`,
    * with ties kept in input order). */
  function SortByCountDesc<T>(s: seq<T>, count: T -> int): seq<T>
  {
    if |s| == 0 then [] else InsertByCount(s[0], SortByCountDesc(s[1..], count), count)
  }

  lemma {:induction false} InsertByCountElements<T(!new)>(x: T, s: seq<T>, count: T -> int)
    ensures multiset(InsertByCount(x, s, count)) == multiset(s) + multiset{x}
  {
    if |s| > 0 && count(s[0]) > count(x) {
      InsertByCountElements(x, s[1..], count);
      assert s == [s[0]] + s[1..];
    }
  }

  /** An element no smaller than anything in a sorted sequence may go in front of it. */
  lemma ConsNonIncreasing<T>(h: T, t: seq<T>, count: T -> int)
    requires NonIncreasing(t, count)
    requires forall i :: 0 <= i < |t| ==> count(h) >= count(t[i])
    ensures NonIncreasing([h] + t, count)
  {
    var r := [h] + t;
    forall i, j | 0 <= i < j < |r| ensures count(r[i]) >= count(r[j]) {
      assert r[j] == t[j - 1];
      if i > 0 {
        assert r[i] == t[i - 1];
      }
    }
  }

  lemma {:induction false} InsertByCountCorrect<T(!new)>(x: T, s: seq<T>, count: T -> int)
    requires NonIncreasing(s, count)
    ensures NonIncreasing(InsertByCount(x, s, count), count)
    ensures multiset(InsertByCount(x, s, count)) == multiset(s) + multiset{x}
  {
    InsertByCountElements(x, s, count);
    if |s| > 0 && count(s[0]) > count(x) {
      var t := InsertByCount(x, s[1..], count);
      assert NonIncreasing(s[1..], count);
      InsertByCountCorrect(x, s[1..], count);
      forall i | 0 <= i < |t| ensures count(s[0]) >= count(t[i]) {
        var y := t[i];
        assert y in multiset(t);
        if y != x {
          assert y in multiset(s[1..]);
          var k :| 0 <= k < |s[1..]| && s[1..][k] == y;
          assert s[k + 1] == y;
        }
      }
      ConsNonIncreasing(s[0], t, count);
    } else if |s| > 0 {
      forall i | 0 <= i < |s| ensures count(x) >= count(s[i]) {
        assert i == 0 || count(s[0]) >= count(s[i]);
      }
      ConsNonIncreasing(x, s, count);
    }
  }

  lemma {:induction false} SortByCountDescCorrect<T(!new)>(s: seq<T>, count: T -> int)
    ensures NonIncreasing(SortByCountDesc(s, count), count)
    ensures multiset(SortByCountDesc(s, count)) == multiset(s)
  {
    if |s| > 0 {
      SortByCountDescCorrect(s[1..], count);
      InsertByCountCorrect(s[0], SortByCountDesc(s[1..], count), count);
      assert s == [s[0]] + s[1..];
    }
  }

  /** A prefix of a non-increasing sequence: nothing left out counts more
    * than anything kept. */
  lemma PrefixKeepsLargest<T>(ranked: seq<T>, top: seq<T>, count: T -> int)
    requires NonIncreasing(ranked, count)
    requires |top| <= |ranked| && top == ranked[..|top|]
    ensures forall g, t :: g in ranked && g !in top && t in top ==> count(g) <= count(t)
  {
    forall g, t | g in ranked && g !in top && t in top ensures count(g) <= count(t) {
      var k :| 0 <= k < |ranked| && ranked[k] == g;
      var j :| 0 <= j < |top| && top[j] == t;
      assert k >= |top|;
      assert ranked[j] == t;
    }
  }
}
