/**
 * Sequence operations the source performs with Array methods: `filter`,
 * counting with `filter(...).length`, `reduce` sums, `sort` by a numeric key
 * followed by `slice(0, k)`, and tallying keys in first-seen order into an
 * object.
 */
module Seqs {
  import opened Numeric

  /** `a` is `b` with some elements removed, the rest in their original order. */
  predicate IsSubsequence<T(==)>(a: seq<T>, b: seq<T>)
    decreases |b|
  {
    |a| == 0 || (|b| > 0 && ((a[0] == b[0] && IsSubsequence(a[1..], b[1..])) || IsSubsequence(a, b[1..])))
  }

  /** Every sequence is a subsequence of itself. */
  lemma {:induction false} SubsequenceRefl<T>(a: seq<T>)
    ensures IsSubsequence(a, a)
  {
    if |a| > 0 {
      SubsequenceRefl(a[1..]);
    }
  }

  /** Dropping elements from the end of a subsequence leaves a subsequence. */
  lemma {:induction false} SubsequencePrefix<T>(a: seq<T>, b: seq<T>, k: nat)
    requires IsSubsequence(a, b) && k <= |a|
    ensures IsSubsequence(a[..k], b)
    decreases |b|
  {
    if k > 0 {
      if a[0] == b[0] && IsSubsequence(a[1..], b[1..]) {
        SubsequencePrefix(a[1..], b[1..], k - 1);
        assert a[..k][1..] == a[1..][..k - 1];
      } else {
        SubsequencePrefix(a, b[1..], k);
      }
    }
  }

  /** Filtering keeps a sequence whose every element passes unchanged. */
  lemma {:induction false} FilterAllPass<T(!new)>(s: seq<T>, p: T -> bool)
    requires forall i :: 0 <= i < |s| ==> p(s[i])
    ensures Filter(s, p) == s
  {
    if |s| > 0 {
      FilterAllPass(s[1..], p);
      assert [s[0]] + s[1..] == s;
    }
  }

  function Map<T, U>(s: seq<T>, f: T -> U): (r: seq<U>)
    ensures |r| == |s|
    ensures forall i :: 0 <= i < |s| ==> r[i] == f(s[i])
  {
    if |s| == 0 then [] else [f(s[0])] + Map(s[1..], f)
  }

  /** `s.filter(p)`: exactly the elements satisfying `p`, in their original order. */
  function Filter<T(==,!new)>(s: seq<T>, p: T -> bool): (r: seq<T>)
    ensures |r| <= |s|
    ensures forall i :: 0 <= i < |r| ==> p(r[i])
    ensures forall x :: x in r <==> x in s && p(x)
    ensures IsSubsequence(r, s)
  {
    if |s| == 0 then []
    else
      var rest := Filter(s[1..], p);
      if p(s[0]) then
        assert ([s[0]] + rest)[1..] == rest;
        [s[0]] + rest
      else rest
  }

  /** `s.filter(p).length`. */
  function Count<T>(s: seq<T>, p: T -> bool): (n: nat)
    ensures n <= |s|
  {
    if |s| == 0 then 0 else (if p(s[0]) then 1 else 0) + Count(s[1..], p)
  }

  lemma {:induction false} FilterLength<T(!new)>(s: seq<T>, p: T -> bool)
    ensures |Filter(s, p)| == Count(s, p)
  {
    if |s| > 0 {
      FilterLength(s[1..], p);
    }
  }

  /** No element passes, so the count is zero. */
  lemma {:induction false} NoneCounted<T>(s: seq<T>, p: T -> bool)
    requires forall x :: x in s ==> !p(x)
    ensures Count(s, p) == 0
  {
    if |s| > 0 {
      NoneCounted(s[1..], p);
    }
  }

  /** An element and its negation split a sequence: `Count(p) + Count(!p) == |s|`. */
  lemma {:induction false} CountComplement<T>(s: seq<T>, p: T -> bool, q: T -> bool)
    requires forall x :: q(x) <==> !p(x)
    ensures Count(s, p) + Count(s, q) == |s|
  {
    if |s| > 0 {
      CountComplement(s[1..], p, q);
    }
  }

  /** Counting over the union of two disjoint predicates adds their counts. */
  lemma {:induction false} CountDisjoint<T>(s: seq<T>, p: T -> bool, q: T -> bool, r: T -> bool)
    requires forall x :: r(x) <==> p(x) || q(x)
    requires forall x :: !(p(x) && q(x))
    ensures Count(s, r) == Count(s, p) + Count(s, q)
  {
    if |s| > 0 {
      CountDisjoint(s[1..], p, q, r);
    }
  }

  /** Counting over a pointwise-weaker predicate never gives more. */
  lemma {:induction false} CountMonotone<T>(s: seq<T>, p: T -> bool, q: T -> bool)
    requires forall x :: p(x) ==> q(x)
    ensures Count(s, p) <= Count(s, q)
  {
    if |s| > 0 {
      CountMonotone(s[1..], p, q);
    }
  }

  /** Counting one more element at the end: what a left-to-right `forEach` does. */
  lemma {:induction false} CountSnoc<T>(s: seq<T>, x: T, p: T -> bool)
    ensures Count(s + [x], p) == Count(s, p) + (if p(x) then 1 else 0)
  {
    if |s| > 0 {
      assert (s + [x])[1..] == s[1..] + [x];
      CountSnoc(s[1..], x, p);
    }
  }

  /** `s.reduce((acc, x) => acc + f(x), 0)`. */
  function SumBy<T>(s: seq<T>, f: T -> real): real {
    if |s| == 0 then 0.0 else f(s[0]) + SumBy(s[1..], f)
  }

  lemma {:induction false} SumByBounds<T>(s: seq<T>, f: T -> real, lo: real, hi: real)
    requires forall x :: x in s ==> lo <= f(x) <= hi
    ensures |s| as real * lo <= SumBy(s, f) <= |s| as real * hi
  {
    if |s| > 0 {
      SumByBounds(s[1..], f, lo, hi);
    }
  }

  /** The arithmetic mean of `f` over `s`, or 0 for an empty sequence (the source's guarded `sum / length`). */
  function MeanBy<T>(s: seq<T>, f: T -> real): (m: real)
    ensures |s| == 0 ==> m == 0.0
    ensures |s| > 0 ==> m * (|s| as real) == SumBy(s, f)
  {
    if |s| == 0 then 0.0 else SumBy(s, f) / (|s| as real)
  }

  /** A mean lies between any bounds that hold for every element. */
  lemma MeanBounds<T>(s: seq<T>, f: T -> real, lo: real, hi: real)
    requires |s| > 0
    requires forall x :: x in s ==> lo <= f(x) <= hi
    ensures lo <= MeanBy(s, f) <= hi
  {
    var n := |s| as real;
    var m := MeanBy(s, f);
    SumByBounds(s, f, lo, hi);
    assert lo * n <= m * n <= hi * n;
    ScaleLess(m, lo, n);
    ScaleLess(hi, m, n);
  }

  /** Filtering by `p` and then by `q` is filtering once by both. */
  lemma {:induction false} FilterFuse<T(!new)>(s: seq<T>, p: T -> bool, q: T -> bool, both: T -> bool)
    requires forall x :: both(x) <==> p(x) && q(x)
    ensures Filter(Filter(s, p), q) == Filter(s, both)
  {
    if |s| > 0 {
      FilterFuse(s[1..], p, q, both);
      var rest := Filter(s[1..], p);
      if p(s[0]) {
        assert ([s[0]] + rest)[1..] == rest;
      }
    }
  }

  /** Filtering twice by the same predicate is filtering once. */
  lemma {:induction false} FilterIdempotent<T(!new)>(s: seq<T>, p: T -> bool)
    ensures Filter(Filter(s, p), p) == Filter(s, p)
  {
    if |s| > 0 {
      FilterIdempotent(s[1..], p);
      var rest := Filter(s[1..], p);
      if p(s[0]) {
        assert ([s[0]] + rest)[1..] == rest;
      }
    }
  }

  /** Keys never increase along `s`. */
  predicate NonIncreasing<T>(s: seq<T>, key: T -> real) {
    forall i, j :: 0 <= i < j < |s| ==> key(s[i]) >= key(s[j])
  }

  /** Prepending a key no smaller than every key of a non-increasing sequence keeps it non-increasing. */
  lemma ConsNonIncreasing<T>(h: T, t: seq<T>, key: T -> real)
    requires NonIncreasing(t, key)
    requires forall i :: 0 <= i < |t| ==> key(t[i]) <= key(h)
    ensures NonIncreasing([h] + t, key)
  {
    var r := [h] + t;
    forall i, j | 0 <= i < j < |r|
      ensures key(r[i]) >= key(r[j])
    {
      assert r[j] == t[j - 1];
      if i > 0 {
        assert r[i] == t[i - 1];
      }
    }
  }

  /** Places `x` in front of the first element whose key is not larger, so equal keys keep their order. */
  function InsertDesc<T(==)>(x: T, s: seq<T>, key: T -> real): (r: seq<T>)
    ensures |r| == |s| + 1
    ensures multiset(r) == multiset(s) + multiset{x}
  {
    if |s| == 0 || key(s[0]) <= key(x) then [x] + s
    else
      assert s == [s[0]] + s[1..];
      [s[0]] + InsertDesc(x, s[1..], key)
  }

  /** Inserting into a non-increasing sequence keeps it non-increasing. */
  lemma {:induction false} InsertDescSorted<T>(x: T, s: seq<T>, key: T -> real)
    requires NonIncreasing(s, key)
    ensures forall i :: 0 <= i < |s| + 1 ==> InsertDesc(x, s, key)[i] == x || InsertDesc(x, s, key)[i] in s
    ensures NonIncreasing(InsertDesc(x, s, key), key)
  {
    if |s| == 0 || key(s[0]) <= key(x) {
      ConsNonIncreasing(x, s, key);
    } else {
      var rest := InsertDesc(x, s[1..], key);
      InsertDescSorted(x, s[1..], key);
      assert InsertDesc(x, s, key) == [s[0]] + rest;
      forall i | 0 <= i < |rest|
        ensures key(rest[i]) <= key(s[0])
      {
        if rest[i] != x {
          var j :| 0 <= j < |s[1..]| && s[1..][j] == rest[i];
          assert s[j + 1] == rest[i];
        }
      }
      ConsNonIncreasing(s[0], rest, key);
    }
  }

  /** `s.sort((a, b) => key(b) - key(a))`: a stable sort into non-increasing key order. */
  function SortDesc<T(==)>(s: seq<T>, key: T -> real): (r: seq<T>)
    ensures |r| == |s|
    ensures multiset(r) == multiset(s)
    ensures NonIncreasing(r, key)
  {
    if |s| == 0 then []
    else
      assert s == [s[0]] + s[1..];
      InsertDescSorted(s[0], SortDesc(s[1..], key), key);
      InsertDesc(s[0], SortDesc(s[1..], key), key)
  }

  /** In a non-increasing sequence, nothing after position `m` has a larger key than anything before it. */
  lemma SplitOrdered<T>(sorted: seq<T>, key: T -> real, m: nat)
    requires NonIncreasing(sorted, key)
    requires m <= |sorted|
    ensures forall x, y :: x in multiset(sorted[m..]) && y in sorted[..m] ==> key(x) <= key(y)
  {
    forall x, y | x in multiset(sorted[m..]) && y in sorted[..m]
      ensures key(x) <= key(y)
    {
      var j :| 0 <= j < |sorted[m..]| && sorted[m..][j] == x;
      var i :| 0 <= i < m && sorted[..m][i] == y;
      assert sorted[m + j] == x;
      assert sorted[i] == y;
    }
  }

  /** `s.sort(byKeyDesc).slice(0, k)`. */
  function TopK<T(==)>(s: seq<T>, key: T -> real, k: nat): (r: seq<T>)
    ensures |r| == if k < |s| then k else |s|
  {
    SortDesc(s, key)[..if k < |s| then k else |s|]
  }

  /**
   * The top `k` are in non-increasing key order, are drawn from `s`, and none
   * of them has a smaller key than any element left out.
   */
  lemma TopKSpec<T>(s: seq<T>, key: T -> real, k: nat)
    ensures NonIncreasing(TopK(s, key, k), key)
    ensures multiset(TopK(s, key, k)) <= multiset(s)
    ensures forall x, y :: x in multiset(s) - multiset(TopK(s, key, k)) && y in TopK(s, key, k) ==> key(x) <= key(y)
  {
    var sorted := SortDesc(s, key);
    var m := if k < |s| then k else |s|;
    assert sorted == sorted[..m] + sorted[m..];
    assert multiset(s) - multiset(sorted[..m]) == multiset(sorted[m..]);
    SplitOrdered(sorted, key, m);
  }

  /** `s.length`-many occurrences of `k` in `keys`, counted from the front. */
  function Occurrences<K(==)>(keys: seq<K>, k: K): nat {
    if |keys| == 0 then 0
    else Occurrences(keys[..|keys| - 1], k) + (if keys[|keys| - 1] == k then 1 else 0)
  }

  /** Each key appears at most once in the tally. */
  predicate DistinctKeys<K(==)>(t: seq<(K, nat)>) {
    forall i, j :: 0 <= i < j < |t| ==> t[i].0 != t[j].0
  }

  /** The count the tally holds for `k`, 0 when `k` is absent. */
  function Lookup<K(==)>(t: seq<(K, nat)>, k: K): nat {
    if |t| == 0 then 0 else if t[0].0 == k then t[0].1 else Lookup(t[1..], k)
  }

  lemma {:induction false} LookupAt<K>(t: seq<(K, nat)>, i: nat)
    requires DistinctKeys(t)
    requires i < |t|
    ensures Lookup(t, t[i].0) == t[i].1
  {
    if i > 0 {
      assert t[0].0 != t[i].0;
      LookupAt(t[1..], i - 1);
    }
  }

  /** `counts[k] = (counts[k] || 0) + 1` on a record that keeps its keys in insertion order. */
  function Bump<K(==)>(t: seq<(K, nat)>, k: K): (r: seq<(K, nat)>)
    ensures |r| <= |t| + 1
  {
    if |t| == 0 then [(k, 1)]
    else if t[0].0 == k then [(k, t[0].1 + 1)] + t[1..]
    else [t[0]] + Bump(t[1..], k)
  }

  /** Bumping `k` adds one to its count, leaves every other count alone, and introduces no key but `k`. */
  lemma {:induction false} BumpSpec<K>(t: seq<(K, nat)>, k: K)
    requires DistinctKeys(t)
    ensures DistinctKeys(Bump(t, k))
    ensures Lookup(Bump(t, k), k) == Lookup(t, k) + 1
    ensures forall k' :: k' != k ==> Lookup(Bump(t, k), k') == Lookup(t, k')
    ensures forall e :: e in Bump(t, k) ==> e.0 == k || e in t
    ensures forall e :: e in Bump(t, k) ==> e.1 >= 1 || e in t
  {
    if |t| > 0 && t[0].0 != k {
      BumpSpec(t[1..], k);
      var r := Bump(t, k);
      assert r == [t[0]] + Bump(t[1..], k);
      forall i, j | 0 <= i < j < |r|
        ensures r[i].0 != r[j].0
      {
        if i == 0 {
          assert r[j] in Bump(t[1..], k);
          if r[j].0 != k {
            var j' :| 0 <= j' < |t[1..]| && t[1..][j'] == r[j];
            assert t[j' + 1] == r[j];
          }
        }
      }
    }
  }

  /** The total of a tally's counts. */
  function SumCounts<K>(t: seq<(K, nat)>): nat {
    if |t| == 0 then 0 else t[0].1 + SumCounts(t[1..])
  }

  /** Bumping a key adds exactly one to the total. */
  lemma {:induction false} BumpSum<K>(t: seq<(K, nat)>, k: K)
    ensures SumCounts(Bump(t, k)) == SumCounts(t) + 1
  {
    if |t| > 0 {
      if t[0].0 == k {
        assert ([(k, t[0].1 + 1)] + t[1..])[1..] == t[1..];
      } else {
        BumpSum(t[1..], k);
        assert ([t[0]] + Bump(t[1..], k))[1..] == Bump(t[1..], k);
      }
    }
  }

  /** Counts per key, keys in order of first occurrence: the `forEach` that fills a `Record<string, number>`. */
  function Tally<K(==)>(keys: seq<K>): (t: seq<(K, nat)>)
    ensures |t| <= |keys|
  {
    if |keys| == 0 then [] else Bump(Tally(keys[..|keys| - 1]), keys[|keys| - 1])
  }

  /** The tally has one entry per distinct key, holding the key's number of occurrences. */
  lemma {:induction false} TallySpec<K>(keys: seq<K>)
    ensures DistinctKeys(Tally(keys))
    ensures forall k :: Lookup(Tally(keys), k) == Occurrences(keys, k)
    ensures forall e :: e in Tally(keys) ==> e.0 in keys && e.1 >= 1
  {
    if |keys| > 0 {
      var init := keys[..|keys| - 1];
      TallySpec(init);
      BumpSpec(Tally(init), keys[|keys| - 1]);
      forall e | e in Tally(keys)
        ensures e.0 in keys
      {
        if e.0 != keys[|keys| - 1] {
          assert e.0 in init;
        }
      }
    }
  }

  /** Every tally entry holds the exact number of occurrences of its key. */
  lemma TallyEntry<K>(keys: seq<K>, e: (K, nat))
    requires e in Tally(keys)
    ensures e.1 == Occurrences(keys, e.0)
    ensures e.1 >= 1
  {
    TallySpec(keys);
    var t := Tally(keys);
    var i :| 0 <= i < |t| && t[i] == e;
    LookupAt(t, i);
  }

  /** A key that occurs has a positive count. */
  lemma {:induction false} OccurrencesPositive<K>(keys: seq<K>, x: K)
    requires x in keys
    ensures Occurrences(keys, x) >= 1
  {
    if keys[|keys| - 1] != x {
      assert x in keys[..|keys| - 1];
      OccurrencesPositive(keys[..|keys| - 1], x);
    }
  }

  /** A key with a positive count has its entry in the tally. */
  lemma {:induction false} LookupIn<K>(t: seq<(K, nat)>, k: K)
    requires Lookup(t, k) >= 1
    ensures (k, Lookup(t, k)) in t
  {
    if t[0].0 != k {
      LookupIn(t[1..], k);
    }
  }

  /** The count of a tally entry, as a sort key. */
  function EntryCount<K>(e: (K, nat)): real {
    e.1 as real
  }

  /** The key `x` heads some entry of `t`. */
  predicate Listed<K(==)>(t: seq<(K, nat)>, x: K) {
    exists i :: 0 <= i < |t| && t[i].0 == x
  }

  /**
   * The `k` most frequent keys: at most `k` entries, counts non-increasing,
   * each count the exact number of occurrences of its key, and every key left
   * out occurring no more often than any key kept.
   */
  lemma TopTally<K>(keys: seq<K>, k: nat)
    ensures |TopK(Tally(keys), EntryCount, k)| <= k
    ensures NonIncreasing(TopK(Tally(keys), EntryCount, k), EntryCount)
    ensures forall e :: e in TopK(Tally(keys), EntryCount, k) ==> e.1 == Occurrences(keys, e.0) && e.1 >= 1
    ensures forall x, e ::
              (x in keys && !Listed(TopK(Tally(keys), EntryCount, k), x) && e in TopK(Tally(keys), EntryCount, k))
              ==> Occurrences(keys, x) <= e.1
  {
    var t := Tally(keys);
    var top := TopK(t, EntryCount, k);
    TopKSpec(t, EntryCount, k);
    TallySpec(keys);
    forall e | e in top
      ensures e.1 == Occurrences(keys, e.0) && e.1 >= 1
    {
      assert e in multiset(top);
      TallyEntry(keys, e);
    }
    forall x, e | x in keys && !Listed(top, x) && e in top
      ensures Occurrences(keys, x) <= e.1
    {
      OccurrencesPositive(keys, x);
      LookupIn(t, x);
      var entry := (x, Lookup(t, x));
      assert entry !in top;
      assert entry in multiset(t) - multiset(top);
    }
  }

  /** In a sequence with distinct keys no element occurs twice. */
  lemma {:induction false} DistinctKeysOnce<K>(t: seq<(K, nat)>)
    requires DistinctKeys(t)
    ensures forall x :: multiset(t)[x] <= 1
  {
    if |t| > 0 {
      DistinctKeysOnce(t[1..]);
      assert t == [t[0]] + t[1..];
      forall i | 0 <= i < |t[1..]|
        ensures t[1..][i] != t[0]
      {
        assert t[i + 1].0 != t[0].0;
      }
      assert t[0] !in t[1..];
    }
  }

  /** An element at two positions occurs at least twice. */
  lemma TwoPositions<T>(a: seq<T>, i: nat, j: nat)
    requires i < j < |a|
    ensures a[i] == a[j] ==> multiset(a)[a[i]] >= 2
  {
    assert a == a[..i] + [a[i]] + a[i + 1..j] + [a[j]] + a[j + 1..];
  }

  /** Part of a sequence with distinct keys has distinct keys. */
  lemma SubMultisetDistinct<K>(a: seq<(K, nat)>, t: seq<(K, nat)>)
    requires DistinctKeys(t)
    requires multiset(a) <= multiset(t)
    ensures DistinctKeys(a)
  {
    DistinctKeysOnce(t);
    forall i, j | 0 <= i < j < |a|
      ensures a[i].0 != a[j].0
    {
      TwoPositions(a, i, j);
      assert multiset(a)[a[i]] <= 1;
      assert a[i] != a[j];
      assert a[i] in multiset(t) && a[j] in multiset(t);
      var p :| 0 <= p < |t| && t[p] == a[i];
      var q :| 0 <= q < |t| && t[q] == a[j];
      assert p != q;
    }
  }

  /**
   * The `k` most frequent keys with their counts, most frequent first:
   * `Object.entries(counts).sort(byCountDesc).slice(0, k)`. No key is listed
   * twice, and a list shorter than `k` lists every key that occurs.
   */
  function TopKeys<K(==)>(keys: seq<K>, k: nat): (r: seq<(K, nat)>)
    ensures |r| <= k && |r| <= |keys|
    ensures DistinctKeys(r)
    ensures |r| < k ==> forall x :: x in keys ==> Listed(r, x)
    ensures NonIncreasing(r, EntryCount)
    ensures forall e :: e in r ==> e.0 in keys && e.1 == Occurrences(keys, e.0)
    ensures forall x, e :: (x in keys && !Listed(r, x) && e in r) ==> Occurrences(keys, x) <= e.1
  {
    TopTally(keys, k);
    TallySpec(keys);
    var t := Tally(keys);
    var r := TopK(t, EntryCount, k);
    TopKSpec(t, EntryCount, k);
    assert forall e :: e in r ==> e in multiset(t);
    SubMultisetDistinct(r, t);
    ShortTopListsAll(keys, k);
    r
  }

  /** Fewer than `k` of the most frequent keys means the whole tally, so every key is listed. */
  lemma ShortTopListsAll<K>(keys: seq<K>, k: nat)
    ensures |TopK(Tally(keys), EntryCount, k)| < k ==> forall x :: x in keys ==> Listed(TopK(Tally(keys), EntryCount, k), x)
  {
    var t := Tally(keys);
    var r := TopK(t, EntryCount, k);
    if |r| < k {
      assert r == SortDesc(t, EntryCount);
      AllListed(keys, r);
    }
  }

  /** The whole sorted tally lists every key that occurs. */
  lemma AllListed<K>(keys: seq<K>, r: seq<(K, nat)>)
    requires multiset(r) == multiset(Tally(keys))
    ensures forall x :: x in keys ==> Listed(r, x)
  {
    TallySpec(keys);
    forall x | x in keys
      ensures Listed(r, x)
    {
      OccurrencesPositive(keys, x);
      LookupIn(Tally(keys), x);
      var entry := (x, Lookup(Tally(keys), x));
      assert entry in multiset(r);
      var i :| 0 <= i < |r| && r[i] == entry;
    }
  }

  /** A tally accounts for every key exactly once: its counts add up to the number of keys. */
  lemma {:induction false} TallySum<K>(keys: seq<K>)
    ensures SumCounts(Tally(keys)) == |keys|
  {
    if |keys| > 0 {
      TallySum(keys[..|keys| - 1]);
      BumpSum(Tally(keys[..|keys| - 1]), keys[|keys| - 1]);
    }
  }
}
