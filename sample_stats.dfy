/** Aggregates over a sequence of samples, as Python's `sum`, `min`, `max`, `sorted` and
    `statistics.mean` compute them over exact reals, and the nearest-rank percentile
    `sorted(xs)[int(len(xs) * p)]` used by both the controller and the profiler. */
module SampleStats {

  /** Sum of the samples. */
  function Sum(s: seq<real>): real
  {
    if s == [] then 0.0 else s[0] + Sum(s[1..])
  }

  /** Sum agrees with Python's left-to-right accumulation: the sum of all but the last
      sample, plus the last. */
  lemma {:induction false} SumLeftToRight(s: seq<real>)
    requires s != []
    ensures Sum(s) == Sum(s[..|s| - 1]) + s[|s| - 1]
    decreases |s|
  {
    if |s| > 1 {
      SumLeftToRight(s[1..]);
      assert s[1..][..|s| - 2] == s[..|s| - 1][1..];
    }
  }

  /** Smallest sample. */
  function Min(s: seq<real>): (r: real)
    requires |s| > 0
    ensures r in s
    ensures forall i :: 0 <= i < |s| ==> r <= s[i]
  {
    if |s| == 1 then s[0]
    else
      var m := Min(s[1..]);
      if s[0] <= m then s[0] else m
  }

  /** Largest sample. */
  function Max(s: seq<real>): (r: real)
    requires |s| > 0
    ensures r in s
    ensures forall i :: 0 <= i < |s| ==> s[i] <= r
  {
    if |s| == 1 then s[0]
    else
      var m := Max(s[1..]);
      if s[0] >= m then s[0] else m
  }

  /** A sum of values that all lie in [lo, hi] lies between |s| * lo and |s| * hi. */
  lemma {:induction false} SumBounds(s: seq<real>, lo: real, hi: real)
    requires forall i :: 0 <= i < |s| ==> lo <= s[i] <= hi
    ensures (|s| as real) * lo <= Sum(s) <= (|s| as real) * hi
  {
    if s != [] {
      SumBounds(s[1..], lo, hi);
    }
  }

  /** Arithmetic mean (`sum(xs) / len(xs)`, `statistics.mean(xs)`), which lies between
      the smallest and the largest sample. */
  function Mean(s: seq<real>): (r: real)
    requires |s| > 0
    ensures Min(s) <= r <= Max(s)
  {
    MeanBounds(s, Min(s), Max(s));
    Sum(s) / (|s| as real)
  }

  /** The mean of values that all lie in [lo, hi] lies in [lo, hi]. */
  lemma MeanBounds(s: seq<real>, lo: real, hi: real)
    requires |s| > 0
    requires forall i :: 0 <= i < |s| ==> lo <= s[i] <= hi
    ensures lo <= Sum(s) / (|s| as real) <= hi
  {
    SumBounds(s, lo, hi);
    QuotientBounds(Sum(s), |s| as real, lo, hi);
  }

  /** Dividing by a positive count preserves bounds scaled by that count. */
  lemma QuotientBounds(total: real, n: real, lo: real, hi: real)
    requires n > 0.0
    requires n * lo <= total <= n * hi
    ensures lo <= total / n <= hi
  {
    var m := total / n;
    assert total == m * n;
    assert (m - lo) * n >= 0.0;
    assert (hi - m) * n >= 0.0;
  }

  /** True when the samples are in ascending order. */
  ghost predicate Sorted(s: seq<real>)
  {
    forall i, j :: 0 <= i < j < |s| ==> s[i] <= s[j]
  }

  /** Prefixing an ascending sequence with a value no larger than its elements keeps it
      ascending. */
  lemma ConsSorted(y: real, t: seq<real>)
    requires Sorted(t)
    requires forall k :: 0 <= k < |t| ==> y <= t[k]
    ensures Sorted([y] + t)
  {
  }

  /** Inserts x into an ascending sequence, keeping it ascending. */
  function Insert(x: real, s: seq<real>): (r: seq<real>)
    requires Sorted(s)
    ensures Sorted(r)
    ensures multiset(r) == multiset(s) + multiset{x}
    ensures |r| == |s| + 1
  {
    if s == [] then [x]
    else if x <= s[0] then [x] + s
    else
      var t := Insert(x, s[1..]);
      assert s == [s[0]] + s[1..];
      InsertAboveHead(x, s, t);
      ConsSorted(s[0], t);
      [s[0]] + t
  }

  /** When x is above the head of an ascending s, every element of the insertion of x into
      the tail of s is at least the head. */
  lemma InsertAboveHead(x: real, s: seq<real>, t: seq<real>)
    requires Sorted(s) && |s| > 0 && s[0] < x
    requires multiset(t) == multiset(s[1..]) + multiset{x}
    ensures forall k :: 0 <= k < |t| ==> s[0] <= t[k]
  {
    forall k | 0 <= k < |t| ensures s[0] <= t[k] {
      assert t[k] in multiset(t);
      if t[k] != x {
        assert t[k] in multiset(s[1..]);
        var j :| 0 <= j < |s[1..]| && s[1..][j] == t[k];
        assert s[j + 1] == t[k];
      }
    }
  }

  /** The samples in ascending order: Python's `sorted(xs)`. */
  function SortAscending(s: seq<real>): (r: seq<real>)
    ensures Sorted(r)
    ensures multiset(r) == multiset(s)
    ensures |r| == |s|
  {
    if s == [] then []
    else
      assert s == [s[0]] + s[1..];
      Insert(s[0], SortAscending(s[1..]))
  }

  /** The first element of an ascending sequence is below each of its elements. */
  lemma HeadIsLeast(a: seq<real>, x: real)
    requires Sorted(a)
    requires x in multiset(a)
    ensures a[0] <= x
  {
    var j :| 0 <= j < |a| && a[j] == x;
  }

  /** Removing equal heads from two permutations of each other leaves permutations. */
  lemma TailsArePermutations(a: seq<real>, b: seq<real>)
    requires |a| > 0 && |b| > 0 && a[0] == b[0]
    requires multiset(a) == multiset(b)
    ensures multiset(a[1..]) == multiset(b[1..])
  {
    assert a == [a[0]] + a[1..] && b == [b[0]] + b[1..];
    calc {
      multiset(a[1..]);
      multiset(a) - multiset{a[0]};
      multiset(b) - multiset{b[0]};
      multiset(b[1..]);
    }
  }

  /** There is only one ascending arrangement of a multiset of samples, so any sorting
      algorithm (Python's Timsort included) yields SortAscending's result. */
  lemma {:induction false} SortedPermutationUnique(a: seq<real>, b: seq<real>)
    requires Sorted(a) && Sorted(b)
    requires multiset(a) == multiset(b)
    ensures a == b
    decreases |a|
  {
    assert |a| == |multiset(a)| == |multiset(b)| == |b|;
    if a != [] {
      assert a[0] in multiset(a) && b[0] in multiset(b);
      HeadIsLeast(a, b[0]);
      HeadIsLeast(b, a[0]);
      TailsArePermutations(a, b);
      SortedPermutationUnique(a[1..], b[1..]);
      assert a == [a[0]] + a[1..] && b == [b[0]] + b[1..];
    }
  }

  /** A sequence that is already ascending is its own sorted form. */
  lemma SortAscendingOfSorted(s: seq<real>)
    requires Sorted(s)
    ensures SortAscending(s) == s
  {
    SortedPermutationUnique(SortAscending(s), s);
  }

  /** The last element of an ascending permutation of the samples is the largest one. */
  lemma LastOfPermutationIsMax(t: seq<real>, s: seq<real>)
    requires |s| > 0
    requires Sorted(t)
    requires multiset(t) == multiset(s)
    ensures |t| == |s| && t[|t| - 1] == Max(s)
  {
    assert |t| == |multiset(t)| == |multiset(s)| == |s|;
    var last := t[|t| - 1];
    assert last in multiset(t);
    assert last <= Max(s);
    assert Max(s) in multiset(s);
    var j :| 0 <= j < |t| && t[j] == Max(s);
  }

  /** The last element of the sorted samples is the largest one. */
  lemma SortedLastIsMax(s: seq<real>)
    requires |s| > 0
    ensures SortAscending(s)[|s| - 1] == Max(s)
  {
    LastOfPermutationIsMax(SortAscending(s), s);
  }

  /** The nearest-rank index `int(n * pct / 100)` for a percentile pct in [0, 100). It is a
      valid index of an n-element list and is the floor of n * pct / 100. */
  function RankIndex(n: nat, pct: nat): (k: nat)
    requires n > 0
    requires pct < 100
    ensures k < n
    ensures 100 * k <= n * pct < 100 * (k + 1)
  {
    (n * pct) / 100
  }

  /** For at most 100 samples, the 99th-percentile rank is the last index. */
  lemma {:induction false} RankIndex99OfSmallWindow(n: nat)
    requires 0 < n <= 100
    ensures RankIndex(n, 99) == n - 1
  {
    var k := RankIndex(n, 99);
    assert 100 * k <= n * 99 < 100 * (k + 1);
    assert n * 99 == 100 * (n - 1) + (100 - n);
  }

  /** The rank index does not decrease as the percentile grows. */
  lemma {:induction false} RankIndexMonotone(n: nat, p: nat, q: nat)
    requires n > 0
    requires p <= q < 100
    ensures RankIndex(n, p) <= RankIndex(n, q)
  {
    var kp, kq := RankIndex(n, p), RankIndex(n, q);
    assert 100 * kp <= n * p && n * q < 100 * (kq + 1);
    ScaleMonotone(n, p, q);
  }

  /** Scaling by a count preserves the order of two percentages. */
  lemma ScaleMonotone(n: nat, p: nat, q: nat)
    requires p <= q
    ensures n * p <= n * q
  {
    assert n * q == n * p + n * (q - p);
  }

  /** Nearest-rank percentile: `sorted(xs)[int(len(xs) * pct / 100)]`. It is one of the
      samples, so it lies between the smallest and the largest. */
  function Percentile(s: seq<real>, pct: nat): (r: real)
    requires |s| > 0
    requires pct < 100
    ensures r in multiset(s)
    ensures Min(s) <= r <= Max(s)
  {
    var t := SortAscending(s);
    var r := t[RankIndex(|s|, pct)];
    assert r in multiset(t);
    var i :| 0 <= i < |s| && s[i] == r;
    r
  }

  /** A higher percentile is never below a lower one on the same samples. */
  lemma PercentileMonotone(s: seq<real>, p: nat, q: nat)
    requires |s| > 0
    requires p <= q < 100
    ensures Percentile(s, p) <= Percentile(s, q)
  {
    RankIndexMonotone(|s|, p, q);
  }

  /** For at most 100 samples the 99th percentile is the largest sample. */
  lemma Percentile99OfSmallWindow(s: seq<real>)
    requires 0 < |s| <= 100
    ensures Percentile(s, 99) == Max(s)
  {
    RankIndex99OfSmallWindow(|s|);
    SortedLastIsMax(s);
    assert Percentile(s, 99) == SortAscending(s)[|s| - 1];
  }
}
