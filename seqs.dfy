/** Sequence operations the backend relies on: numpy's `[::k]`, `min`/`max`, and `list(set(xs))`. */
module Seqs {

  /** Number of elements `[::k]` keeps from a sequence of length `n`. */
  function StrideLen(n: nat, k: nat): nat
    requires k >= 1
    decreases n
  {
    if n == 0 then 0 else if n <= k then 1 else 1 + StrideLen(n - k, k)
  }

  /** `s[::k]`: every `k`-th element, starting with the first. */
  function Stride<T>(s: seq<T>, k: nat): (r: seq<T>)
    requires k >= 1
    ensures |r| == StrideLen(|s|, k)
    ensures |s| > 0 ==> r[0] == s[0]
    decreases |s|
  {
    if |s| == 0 then []
    else if |s| <= k then [s[0]]
    else [s[0]] + Stride(s[k..], k)
  }

  /** Element `i` of `s[::k]` is element `i * k` of `s`. */
  lemma {:induction false} StrideAt<T>(s: seq<T>, k: nat, i: nat)
    requires k >= 1 && i < |Stride(s, k)|
    ensures i * k < |s| && Stride(s, k)[i] == s[i * k]
    decreases |s|
  {
    if i > 0 {
      StrideAt(s[k..], k, i - 1);
      MulPred(i, k);
    }
  }

  /** StrideAt for every index at once. */
  lemma StrideAtAll<T>(s: seq<T>, k: nat)
    requires k >= 1
    ensures forall i :: 0 <= i < |Stride(s, k)| ==> i * k < |s| && Stride(s, k)[i] == s[i * k]
  {
    forall i | 0 <= i < |Stride(s, k)|
      ensures i * k < |s| && Stride(s, k)[i] == s[i * k]
    {
      StrideAt(s, k, i);
    }
  }

  lemma MulPred(i: int, k: int)
    ensures (i - 1) * k + k == i * k
  {}

  /** `[::k]` keeps ceil(n / k) elements: the fewest whose `k`-spaced run covers the sequence. */
  lemma {:induction false} StrideLenIsCeiling(n: nat, k: nat)
    requires k >= 1
    ensures n == 0 ==> StrideLen(n, k) == 0
    ensures n > 0 ==> (StrideLen(n, k) - 1) * k < n <= StrideLen(n, k) * k
    decreases n
  {
    if n > k {
      StrideLenIsCeiling(n - k, k);
      MulPred(StrideLen(n, k), k);
      MulPred(StrideLen(n - k, k), k);
    }
  }

  predicate NoDuplicates<T(==)>(s: seq<T>) {
    forall i, j :: 0 <= i < j < |s| ==> s[i] != s[j]
  }

  /**
   * `list(set(s))`: the same elements without repetitions. Python leaves the order unspecified;
   * this model keeps first occurrences in order.
   */
  function Dedup<T(==,!new)>(s: seq<T>): (r: seq<T>)
    ensures forall x :: x in r <==> x in s
    ensures NoDuplicates(r)
  {
    DedupFrom(s, {})
  }

  function DedupFrom<T(==,!new)>(s: seq<T>, seen: set<T>): (r: seq<T>)
    ensures forall x :: x in r <==> x in s && x !in seen
    ensures NoDuplicates(r)
    decreases |s|
  {
    if |s| == 0 then []
    else if s[0] in seen then DedupFrom(s[1..], seen)
    else [s[0]] + DedupFrom(s[1..], seen + {s[0]})
  }

  /** Largest element (numpy `max` on a non-empty coordinate array). */
  function SeqMax(s: seq<real>): (m: real)
    requires |s| > 0
    ensures m in s && forall x <- s :: x <= m
    decreases |s|
  {
    if |s| == 1 then s[0]
    else
      var m := SeqMax(s[1..]);
      assert forall x <- s :: x == s[0] || x in s[1..];
      if s[0] >= m then s[0] else m
  }

  /** Smallest element (numpy `min` on a non-empty coordinate array). */
  function SeqMin(s: seq<real>): (m: real)
    requires |s| > 0
    ensures m in s && forall x <- s :: m <= x
    decreases |s|
  {
    if |s| == 1 then s[0]
    else
      var m := SeqMin(s[1..]);
      assert forall x <- s :: x == s[0] || x in s[1..];
      if s[0] <= m then s[0] else m
  }

  /** The elements of `s` that satisfy `keep`, in their original order. */
  function Filter<T(!new)>(s: seq<T>, keep: T -> bool): (r: seq<T>)
    ensures |r| <= |s|
    ensures forall x :: x in r <==> x in s && keep(x)
    ensures |s| == 1 ==> r == (if keep(s[0]) then s else [])
    decreases |s|
  {
    if |s| == 0 then []
    else if keep(s[0]) then [s[0]] + Filter(s[1..], keep)
    else Filter(s[1..], keep)
  }

  /**
   * Filtering distributes over concatenation. With the one-element case this fixes the result
   * completely: the kept elements, each as often as it occurs, in their original order.
   */
  lemma {:induction false} FilterAppend<T(!new)>(a: seq<T>, b: seq<T>, keep: T -> bool)
    ensures Filter(a + b, keep) == Filter(a, keep) + Filter(b, keep)
    decreases |a|
  {
    if |a| > 0 {
      assert (a + b)[1..] == a[1..] + b;
      FilterAppend(a[1..], b, keep);
    } else {
      assert a + b == b;
    }
  }

  function Sum(s: seq<real>): real
    decreases |s|
  {
    if |s| == 0 then 0.0 else s[0] + Sum(s[1..])
  }

  /** A sum of `n` terms lying in [lo, hi] lies in [n * lo, n * hi]. */
  lemma SumBounds(s: seq<real>, lo: real, hi: real)
    requires forall x <- s :: lo <= x <= hi
    ensures (|s| as real) * lo <= Sum(s) <= (|s| as real) * hi
  {
    SumBetweenRepeats(s, lo, hi);
    RepeatIsScaling(|s|, lo);
    RepeatIsScaling(|s|, hi);
  }

  /** `x` added to itself `n` times. */
  function RepeatAdd(n: nat, x: real): real {
    if n == 0 then 0.0 else x + RepeatAdd(n - 1, x)
  }

  lemma {:induction false} SumBetweenRepeats(s: seq<real>, lo: real, hi: real)
    requires forall x <- s :: lo <= x <= hi
    ensures RepeatAdd(|s|, lo) <= Sum(s) <= RepeatAdd(|s|, hi)
    decreases |s|
  {
    if |s| > 0 {
      assert forall x <- s[1..] :: x in s;
      assert s[0] in s;
      SumBetweenRepeats(s[1..], lo, hi);
    }
  }

  lemma {:induction false} RepeatIsScaling(n: nat, x: real)
    ensures RepeatAdd(n, x) == (n as real) * x
  {
    if n > 0 {
      RepeatIsScaling(n - 1, x);
      AddOneTerm((n - 1) as real, x);
    }
  }

  lemma AddOneTerm(k: real, x: real)
    ensures (k + 1.0) * x == k * x + x
  {
  }

  /** `total / n` for a positive count. */
  function Average(total: real, n: nat): real
    requires n > 0
  {
    total / (n as real)
  }

  /** numpy `mean` of a non-empty sequence. */
  function Mean(s: seq<real>): (m: real)
    requires |s| > 0
    ensures SeqMin(s) <= m <= SeqMax(s)
  {
    AverageBetween(s, SeqMin(s), SeqMax(s));
    Average(Sum(s), |s|)
  }

  lemma AverageBetween(s: seq<real>, lo: real, hi: real)
    requires |s| > 0
    requires forall x <- s :: lo <= x <= hi
    ensures lo <= Average(Sum(s), |s|) <= hi
  {
    SumBounds(s, lo, hi);
    AverageBounds(Sum(s), |s|, lo, hi);
  }

  lemma AverageBounds(total: real, n: nat, lo: real, hi: real)
    requires n > 0 && (n as real) * lo <= total <= (n as real) * hi
    ensures lo <= Average(total, n) <= hi
  {
    DivideBounds(total, n as real, lo, hi);
  }

  /** `m` is the arithmetic mean of `s`: `|s|` copies of it add up to the sum of `s`. */
  predicate IsAverageOf(m: real, s: seq<real>) {
    m * (|s| as real) == Sum(s)
  }

  /** The mean is the arithmetic mean of the values. */
  lemma MeanIsAverage(s: seq<real>)
    requires |s| > 0
    ensures IsAverageOf(Mean(s), s)
  {
    ScaleAverage(s, Mean(s));
  }

  lemma ScaleAverage(s: seq<real>, m: real)
    requires |s| > 0 && m == Average(Sum(s), |s|)
    ensures IsAverageOf(m, s)
  {
    AverageTimes(Sum(s), |s|);
  }

  lemma AverageTimes(total: real, n: nat)
    requires n > 0
    ensures Average(total, n) * (n as real) == total
  {}

  lemma DivideBounds(total: real, n: real, lo: real, hi: real)
    requires n > 0.0 && n * lo <= total <= n * hi
    ensures lo <= total / n <= hi
  {
    assert total / n * n == total;
  }
}
