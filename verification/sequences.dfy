/** Sequence vocabulary shared by the campaign runner and the analytics:
    fixed-size slicing, concatenation, sums, grouping by a key and a sort
    on a numeric key. */
module Sequences {

  function Min(a: int, b: int): int {
    if a <= b then a else b
  }

  lemma AppendAssociates<T>(a: seq<T>, b: seq<T>, c: seq<T>)
    ensures a + (b + c) == (a + b) + c
  {
  }

  lemma AppendEmpty<T>(a: seq<T>)
    ensures a + [] == a && [] + a == a
  {
  }

  lemma AppendKeepsPrefix<T>(a: seq<T>, b: seq<T>)
    ensures forall j :: 0 <= j < |a| ==> (a + b)[j] == a[j]
  {
  }

  /** `s.slice(i)` for a start that may lie past the end. */
  function Drop<T>(s: seq<T>, i: nat): seq<T> {
    if i <= |s| then s[i..] else []
  }

  /** The consecutive slices of length `n` (the last one possibly shorter)
      that `for (i = 0; i < s.length; i += n) s.slice(i, i + n)` visits. */
  function Chunks<T>(s: seq<T>, n: nat): (cs: seq<seq<T>>)
    requires n > 0
    ensures forall k :: 0 <= k < |cs| ==> 0 < |cs[k]| <= n
    ensures forall k :: 0 <= k < |cs| - 1 ==> |cs[k]| == n
    ensures s == [] <==> cs == []
    decreases |s|
  {
    if |s| <= n then (if s == [] then [] else [s]) else [s[..n]] + Chunks(s[n..], n)
  }

  /** The first slice is `s.slice(0, n)` and the rest are the slices of what
      follows it. */
  lemma ChunksStep<T>(s: seq<T>, n: nat)
    requires n > 0 && s != []
    ensures Chunks(s, n) == [s[..Min(n, |s|)]] + Chunks(Drop(s, n), n)
  {
    if |s| <= n {
      assert s[..|s|] == s;
      assert Drop(s, n) == [];
    }
  }

  /** The slices of `s` from position `i` on: the one starting at `i`,
      then the slices from `i + n` on. */
  lemma ChunksFrom<T>(s: seq<T>, n: nat, i: nat)
    requires n > 0 && i < |s|
    ensures Chunks(Drop(s, i), n) == [s[i..Min(i + n, |s|)]] + Chunks(Drop(s, i + n), n)
  {
    var rest := Drop(s, i);
    ChunksStep(rest, n);
    assert Drop(rest, n) == Drop(s, i + n);
    assert rest[..Min(n, |rest|)] == s[i..Min(i + n, |s|)];
  }

  /** The concatenation of a sequence of sequences. */
  function Flatten<T>(ss: seq<seq<T>>): seq<T> {
    if ss == [] then [] else ss[0] + Flatten(ss[1..])
  }

  lemma {:induction false} FlattenAppend<T>(a: seq<seq<T>>, b: seq<seq<T>>)
    ensures Flatten(a + b) == Flatten(a) + Flatten(b)
  {
    if a == [] {
      assert a + b == b;
    } else {
      assert (a + b)[0] == a[0];
      assert (a + b)[1..] == a[1..] + b;
      FlattenAppend(a[1..], b);
    }
  }

  /** Slicing drops nothing and duplicates nothing: the slices put back
      together are the input. */
  lemma {:induction false} FlattenChunks<T>(s: seq<T>, n: nat)
    requires n > 0
    ensures Flatten(Chunks(s, n)) == s
    decreases |s|
  {
    if |s| > n {
      FlattenChunks(s[n..], n);
      assert s == s[..n] + s[n..];
    }
  }

  /** There are ceil(|s| / n) slices: the fewest slices of length `n` that
      hold all of `s`. */
  lemma {:induction false} ChunkCount<T>(s: seq<T>, n: nat)
    requires n > 0
    ensures (|Chunks(s, n)| - 1) * n < |s| <= |Chunks(s, n)| * n
    decreases |s|
  {
    if |s| > n {
      var c := |Chunks(s[n..], n)|;
      ChunkCount(s[n..], n);
      assert |Chunks(s, n)| == c + 1;
      assert (c + 1) * n == c * n + n;
    }
  }

  /** Every element of the input lies in some slice, and every element of a
      slice comes from the input. */
  lemma ChunkMembership<T>(s: seq<T>, n: nat, x: T)
    requires n > 0
    ensures x in s <==> exists k :: 0 <= k < |Chunks(s, n)| && x in Chunks(s, n)[k]
  {
    FlattenChunks(s, n);
    FlattenMembership(Chunks(s, n), x);
  }

  lemma {:induction false} FlattenMembership<T>(ss: seq<seq<T>>, x: T)
    ensures x in Flatten(ss) <==> exists k :: 0 <= k < |ss| && x in ss[k]
  {
    if ss != [] {
      FlattenMembership(ss[1..], x);
      if x in Flatten(ss[1..]) {
        var k :| 0 <= k < |ss[1..]| && x in ss[1..][k];
        assert x in ss[k + 1];
      }
      if exists k :: 0 <= k < |ss| && x in ss[k] {
        var k :| 0 <= k < |ss| && x in ss[k];
        if k > 0 {
          assert x in ss[1..][k - 1];
        }
      }
    }
  }

  /** The sum of `f` over `s`, last element added last. */
  function Sum<T>(s: seq<T>, f: T -> int): int {
    if s == [] then 0 else Sum(s[..|s| - 1], f) + f(s[|s| - 1])
  }

  lemma {:induction false} SumAppend<T>(a: seq<T>, b: seq<T>, f: T -> int)
    ensures Sum(a + b, f) == Sum(a, f) + Sum(b, f)
    decreases |b|
  {
    if b == [] {
      assert a + b == a;
    } else {
      assert (a + b)[|a + b| - 1] == b[|b| - 1];
      assert (a + b)[..|a + b| - 1] == a + b[..|b| - 1];
      SumAppend(a, b[..|b| - 1], f);
    }
  }

  /** A sum does not depend on the order of the summands. */
  lemma {:induction false} SumPermutation<T>(s: seq<T>, t: seq<T>, f: T -> int)
    requires multiset(s) == multiset(t)
    ensures Sum(s, f) == Sum(t, f)
    decreases |s|
  {
    if s != [] {
      var n := |s| - 1;
      var x, rest := s[n], s[..n];
      assert s == rest + [x];
      assert multiset(s) == multiset(rest) + multiset{x};
      assert x in multiset(t);
      var j :| 0 <= j < |t| && t[j] == x;
      RemoveOne(t, j, f);
      var others := t[..j] + t[j + 1..];
      assert multiset(rest) == multiset(others);
      SumPermutation(rest, others, f);
    }
  }

  /** Taking out the element at `j` takes it out of the multiset and its
      term out of the sum. */
  lemma RemoveOne<T>(t: seq<T>, j: nat, f: T -> int)
    requires j < |t|
    ensures multiset(t[..j] + t[j + 1..]) == multiset(t) - multiset{t[j]}
    ensures Sum(t, f) == Sum(t[..j] + t[j + 1..], f) + f(t[j])
  {
    SplitAt(t, j);
    RemoveOneSum(t[..j], t[j], t[j + 1..], f);
  }

  lemma SplitAt<T>(t: seq<T>, j: nat)
    requires j < |t|
    ensures t == t[..j] + [t[j]] + t[j + 1..]
  {
    assert t[..j + 1] == t[..j] + [t[j]];
    assert t == t[..j + 1] + t[j + 1..];
  }

  lemma RemoveOneSum<T>(before: seq<T>, x: T, after: seq<T>, f: T -> int)
    ensures Sum(before + [x] + after, f) == Sum(before + after, f) + f(x)
  {
    SumAppend(before + [x], after, f);
    SumAppend(before, [x], f);
    SumAppend(before, after, f);
    assert Sum([x], f) == f(x) by {
      assert [x][..0] == [];
    }
  }

  /** The elements of `s` whose key is `k`, in their original order: one
      group of a GROUP BY. */
  function Group<T, K(==)>(s: seq<T>, key: T -> K, k: K): (g: seq<T>)
    ensures |g| <= |s|
    ensures forall x :: x in g ==> x in s && key(x) == k
  {
    if s == [] then []
    else Group(s[..|s| - 1], key, k) + (if key(s[|s| - 1]) == k then [s[|s| - 1]] else [])
  }

  lemma {:induction false} GroupHasWitness<T, K>(s: seq<T>, key: T -> K, x: T)
    requires x in s
    ensures x in Group(s, key, key(x))
  {
    if s[|s| - 1] != x {
      assert x in s[..|s| - 1];
      GroupHasWitness(s[..|s| - 1], key, x);
    }
  }

  predicate Distinct<K(==)>(ks: seq<K>) {
    forall i, j :: 0 <= i < j < |ks| ==> ks[i] != ks[j]
  }

  /** The distinct keys of `s`, in order of first appearance. */
  function Keys<T, K(==)>(s: seq<T>, key: T -> K): (ks: seq<K>)
    ensures Distinct(ks)
    ensures forall x :: x in s ==> key(x) in ks
    ensures forall k :: k in ks ==> exists x :: x in s && key(x) == k
  {
    if s == [] then []
    else
      var ks := Keys(s[..|s| - 1], key);
      var k := key(s[|s| - 1]);
      assert forall x :: x in s ==> x in s[..|s| - 1] || x == s[|s| - 1];
      if k in ks then ks else ks + [k]
  }

  /** The sum of `f` over every group whose key is listed in `ks`. */
  function GroupedSum<T, K(==)>(s: seq<T>, key: T -> K, ks: seq<K>, f: T -> int): int {
    if ks == [] then 0
    else GroupedSum(s, key, ks[..|ks| - 1], f) + Sum(Group(s, key, ks[|ks| - 1]), f)
  }

  lemma {:induction false} GroupedSumLast<T, K>(s: seq<T>, key: T -> K, ks: seq<K>, f: T -> int)
    requires s != [] && Distinct(ks)
    ensures GroupedSum(s, key, ks, f)
         == GroupedSum(s[..|s| - 1], key, ks, f) + (if key(s[|s| - 1]) in ks then f(s[|s| - 1]) else 0)
  {
    if ks != [] {
      var init := ks[..|ks| - 1];
      GroupedSumLast(s, key, init, f);
      var x, k := s[|s| - 1], ks[|ks| - 1];
      SumAppend(Group(s[..|s| - 1], key, k), if key(x) == k then [x] else [], f);
      assert key(x) in ks <==> key(x) in init || key(x) == k;
      assert key(x) == k ==> key(x) !in init;
    }
  }

  /** Grouping partitions: when the listed keys are distinct and cover every
      element, the group sums add up to the sum over all elements. */
  lemma {:induction false} GroupedSumIsSum<T, K>(s: seq<T>, key: T -> K, ks: seq<K>, f: T -> int)
    requires Distinct(ks)
    requires forall x :: x in s ==> key(x) in ks
    ensures GroupedSum(s, key, ks, f) == Sum(s, f)
    decreases |s|
  {
    if s == [] {
      GroupedSumOfEmpty(s, key, ks, f);
    } else {
      GroupedSumLast(s, key, ks, f);
      GroupedSumIsSum(s[..|s| - 1], key, ks, f);
    }
  }

  lemma {:induction false} GroupedSumOfEmpty<T, K>(s: seq<T>, key: T -> K, ks: seq<K>, f: T -> int)
    requires s == []
    ensures GroupedSum(s, key, ks, f) == 0
  {
    if ks != [] {
      GroupedSumOfEmpty(s, key, ks[..|ks| - 1], f);
    }
  }

  /** Every listed key has a non-empty group. */
  lemma KeysHaveGroups<T, K>(s: seq<T>, key: T -> K)
    ensures forall k :: k in Keys(s, key) ==> Group(s, key, k) != []
  {
    forall k | k in Keys(s, key)
      ensures Group(s, key, k) != []
    {
      var x :| x in s && key(x) == k;
      GroupHasWitness(s, key, x);
    }
  }

  /** There are keys exactly when there are elements. */
  lemma KeysOfEmpty<T, K>(s: seq<T>, key: T -> K)
    ensures Keys(s, key) == [] <==> s == []
  {
    if s != [] {
      assert s[0] in s;
    }
  }

  /** Two sequences that are permutations of each other have the same
      length and the same elements. */
  lemma SameElements<T>(r: seq<T>, s: seq<T>)
    requires multiset(r) == multiset(s)
    ensures |r| == |s|
    ensures forall x :: x in r <==> x in s
  {
    assert |r| == |multiset(r)| == |multiset(s)| == |s|;
    forall x
      ensures x in r <==> x in s
    {
      assert x in r <==> x in multiset(r);
      assert x in s <==> x in multiset(s);
    }
  }

  /** Rows built one per listed key, each carrying its group's sum, add up
      to the grouped sum. */
  lemma {:induction false} GroupRowsSum<T, K, R>(rows: seq<R>, field: R -> int, s: seq<T>, key: T -> K,
                                                ks: seq<K>, f: T -> int)
    requires |rows| == |ks|
    requires forall i :: 0 <= i < |ks| ==> field(rows[i]) == Sum(Group(s, key, ks[i]), f)
    ensures Sum(rows, field) == GroupedSum(s, key, ks, f)
    decreases |ks|
  {
    if ks != [] {
      var n := |ks| - 1;
      var earlier, earlierKeys := rows[..n], ks[..n];
      assert forall i :: 0 <= i < n ==> earlier[i] == rows[i] && earlierKeys[i] == ks[i];
      GroupRowsSum(earlier, field, s, key, earlierKeys, f);
      assert Sum(rows, field) == Sum(earlier, field) + field(rows[n]);
      assert GroupedSum(s, key, ks, f) == GroupedSum(s, key, earlierKeys, f) + Sum(Group(s, key, ks[n]), f);
    }
  }

  /** A sum of ones counts the elements. */
  lemma {:induction false} SumConstOne<T>(s: seq<T>, f: T -> int)
    requires forall x :: x in s ==> f(x) == 1
    ensures Sum(s, f) == |s|
  {
    if s != [] {
      assert s[|s| - 1] in s;
      assert forall x :: x in s[..|s| - 1] ==> x in s;
      SumConstOne(s[..|s| - 1], f);
    }
  }

  /** The elements of `s` that satisfy `p`, in order: a WHERE clause. */
  function Filter<T(!new)>(s: seq<T>, p: T -> bool): (r: seq<T>)
    ensures forall x :: multiset(r)[x] == if p(x) then multiset(s)[x] else 0
  {
    if s == [] then []
    else
      var init, last := s[..|s| - 1], s[|s| - 1];
      assert s == init + [last];
      Filter(init, p) + (if p(last) then [last] else [])
  }

  /** Sums are monotone in the summand. */
  lemma {:induction false} SumMonotone<T>(s: seq<T>, f: T -> int, g: T -> int)
    requires forall x :: x in s ==> f(x) <= g(x)
    ensures Sum(s, f) <= Sum(s, g)
  {
    if s != [] {
      assert s[|s| - 1] in s;
      assert forall x :: x in s[..|s| - 1] ==> x in s;
      SumMonotone(s[..|s| - 1], f, g);
    }
  }

  /** A sum of terms between 0 and 1 is between 0 and the length. */
  lemma {:induction false} SumOfIndicators<T>(s: seq<T>, f: T -> int)
    requires forall x :: x in s ==> 0 <= f(x) <= 1
    ensures 0 <= Sum(s, f) <= |s|
  {
    if s != [] {
      assert s[|s| - 1] in s;
      assert forall x :: x in s[..|s| - 1] ==> x in s;
      SumOfIndicators(s[..|s| - 1], f);
    }
  }

  /** The sum of `f` over `s` in exact arithmetic. */
  function RealSum<T>(s: seq<T>, f: T -> real): real {
    if s == [] then 0.0 else RealSum(s[..|s| - 1], f) + f(s[|s| - 1])
  }

  /** A sum of `n` terms each at least `lo` is at least `n * lo`. */
  lemma {:induction false} RealSumAtLeast<T>(s: seq<T>, f: T -> real, lo: real)
    requires forall x :: x in s ==> lo <= f(x)
    ensures (|s| as real) * lo <= RealSum(s, f)
  {
    if s != [] {
      var n := |s| - 1;
      assert s[n] in s;
      assert forall x :: x in s[..n] ==> x in s;
      RealSumAtLeast(s[..n], f, lo);
      var m, last := n as real, f(s[n]);
      assert RealSum(s, f) == RealSum(s[..n], f) + last;
      assert |s[..n]| as real == m && lo <= last;
      assert |s| as real == m + 1.0;
      calc {
        (|s| as real) * lo;
        (m + 1.0) * lo;
        { ScaleNext(m, lo); }
        m * lo + lo;
      <=
        RealSum(s[..n], f) + last;
      }
    }
  }

  /** A sum of `n` terms each at most `hi` is at most `n * hi`. */
  lemma {:induction false} RealSumAtMost<T>(s: seq<T>, f: T -> real, hi: real)
    requires forall x :: x in s ==> f(x) <= hi
    ensures RealSum(s, f) <= (|s| as real) * hi
  {
    if s != [] {
      var n := |s| - 1;
      assert s[n] in s;
      assert forall x :: x in s[..n] ==> x in s;
      RealSumAtMost(s[..n], f, hi);
      var m, last := n as real, f(s[n]);
      assert RealSum(s, f) == RealSum(s[..n], f) + last;
      assert |s[..n]| as real == m && last <= hi;
      assert |s| as real == m + 1.0;
      calc {
        RealSum(s[..n], f) + last;
      <=
        m * hi + hi;
        { ScaleNext(m, hi); }
        (m + 1.0) * hi;
        (|s| as real) * hi;
      }
    }
  }

  lemma ScaleNext(m: real, x: real)
    ensures (m + 1.0) * x == m * x + x
  {
  }

  /** Exact sums are monotone in the summand. */
  lemma {:induction false} RealSumMonotone<T>(s: seq<T>, f: T -> real, g: T -> real)
    requires forall x :: x in s ==> f(x) <= g(x)
    ensures RealSum(s, f) <= RealSum(s, g)
  {
    if s != [] {
      assert s[|s| - 1] in s;
      assert forall x :: x in s[..|s| - 1] ==> x in s;
      RealSumMonotone(s[..|s| - 1], f, g);
    }
  }

  /** The mean of terms that all lie in `[lo, hi]` lies in `[lo, hi]`. */
  lemma RealMeanWithin<T>(s: seq<T>, f: T -> real, lo: real, hi: real)
    requires s != [] && forall x :: x in s ==> lo <= f(x) <= hi
    ensures lo <= RealSum(s, f) / (|s| as real) <= hi
  {
    var n, total := |s| as real, RealSum(s, f);
    RealSumAtLeast(s, f, lo);
    RealSumAtMost(s, f, hi);
    MeanBetween(total, n, lo, hi);
  }

  lemma MeanBetween(total: real, n: real, lo: real, hi: real)
    requires n > 0.0 && n * lo <= total <= n * hi
    ensures lo <= total / n <= hi
  {
    assert (total / n) * n == total;
  }

  /** The least value of `f` over a non-empty `s`. */
  function MinOf<T>(s: seq<T>, f: T -> int): (m: int)
    requires s != []
    ensures forall x :: x in s ==> m <= f(x)
    ensures exists x :: x in s && f(x) == m
  {
    if |s| == 1 then f(s[0])
    else
      var init := s[..|s| - 1];
      assert forall x :: x in s ==> x in init || x == s[|s| - 1];
      var m := MinOf(init, f);
      if f(s[|s| - 1]) < m then f(s[|s| - 1]) else m
  }

  /** The greatest value of `f` over a non-empty `s`. */
  function MaxOf<T>(s: seq<T>, f: T -> int): (m: int)
    requires s != []
    ensures forall x :: x in s ==> f(x) <= m
    ensures exists x :: x in s && f(x) == m
  {
    if |s| == 1 then f(s[0])
    else
      var init := s[..|s| - 1];
      assert forall x :: x in s ==> x in init || x == s[|s| - 1];
      var m := MaxOf(init, f);
      if f(s[|s| - 1]) > m then f(s[|s| - 1]) else m
  }

  predicate SortedBy<T>(s: seq<T>, key: T -> real) {
    forall i, j :: 0 <= i < j < |s| ==> key(s[i]) <= key(s[j])
  }

  /** `x` put before the first element of `s` whose key is not smaller. */
  function InsertBy<T>(x: T, s: seq<T>, key: T -> real): seq<T> {
    if s == [] || key(x) <= key(s[0]) then [x] + s
    else [s[0]] + InsertBy(x, s[1..], key)
  }

  lemma {:induction false} InsertBySorted<T>(x: T, s: seq<T>, key: T -> real)
    requires SortedBy(s, key)
    ensures SortedBy(InsertBy(x, s, key), key)
    ensures multiset(InsertBy(x, s, key)) == multiset(s) + multiset{x}
  {
    if s == [] || key(x) <= key(s[0]) {
      SortedCons(x, s, key);
    } else {
      var tail := InsertBy(x, s[1..], key);
      SortedTail(s, key);
      InsertBySorted(x, s[1..], key);
      assert s == [s[0]] + s[1..];
      forall i | 0 <= i < |tail|
        ensures key(s[0]) <= key(tail[i])
      {
        assert tail[i] in multiset(tail);
        if tail[i] != x {
          assert tail[i] in s[1..];
        }
      }
      SortedCons(s[0], tail, key);
    }
  }

  lemma SortedTail<T>(s: seq<T>, key: T -> real)
    requires SortedBy(s, key) && s != []
    ensures SortedBy(s[1..], key)
    ensures forall i :: 0 <= i < |s[1..]| ==> key(s[0]) <= key(s[1..][i])
  {
    forall i, j | 0 <= i < j < |s[1..]|
      ensures key(s[1..][i]) <= key(s[1..][j])
    {
      assert s[1..][i] == s[i + 1] && s[1..][j] == s[j + 1];
    }
  }

  lemma SortedCons<T>(y: T, s: seq<T>, key: T -> real)
    requires SortedBy(s, key)
    requires forall i :: 0 <= i < |s| ==> key(y) <= key(s[i])
    ensures SortedBy([y] + s, key)
  {
    forall i, j | 0 <= i < j < |[y] + s|
      ensures key(([y] + s)[i]) <= key(([y] + s)[j])
    {
      assert ([y] + s)[j] == s[j - 1];
      if i > 0 {
        assert ([y] + s)[i] == s[i - 1];
      }
    }
  }

  /** An ORDER BY on `key`, ascending: a sorted permutation of `s`. */
  function SortBy<T>(s: seq<T>, key: T -> real): (r: seq<T>)
    ensures SortedBy(r, key)
    ensures multiset(r) == multiset(s)
  {
    if s == [] then []
    else
      assert s == [s[0]] + s[1..];
      InsertBySorted(s[0], SortBy(s[1..], key), key);
      InsertBy(s[0], SortBy(s[1..], key), key)
  }
}
