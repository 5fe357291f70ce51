/** The mergeable latency histogram (include/latency_histogram.h, include/bandle.h) and the
    order statistic its quantile approximates. */
module Histogram {
  import opened Types
  import opened Buckets

  // ---------------------------------------------------- counts and samples

  /** How many samples fall into a bucket. */
  function CountAt(samples: seq<nat>, i: nat): nat {
    if samples == [] then 0
    else CountAt(samples[..|samples| - 1], i) + if IndexFor(samples[|samples| - 1]) == i then 1 else 0
  }

  /** How many fall into buckets before i. */
  function CountBefore(samples: seq<nat>, i: nat): nat {
    if samples == [] then 0
    else CountBefore(samples[..|samples| - 1], i) + if IndexFor(samples[|samples| - 1]) < i then 1 else 0
  }

  function CountLess(samples: seq<nat>, x: nat): nat {
    if samples == [] then 0
    else CountLess(samples[..|samples| - 1], x) + if samples[|samples| - 1] < x then 1 else 0
  }

  /** The counters recording these samples leaves. */
  function Counted(samples: seq<nat>): (c: seq<nat>)
    ensures |c| == 1024
  {
    seq(1024, i requires 0 <= i < 1024 => CountAt(samples, i))
  }

  function Sum(c: seq<nat>): nat {
    if c == [] then 0 else Sum(c[..|c| - 1]) + c[|c| - 1]
  }

  function Added(c: seq<nat>, i: int, k: nat): (r: seq<nat>)
    ensures |r| == |c|
  {
    if 0 <= i < |c| then c[i := c[i] + k] else c
  }

  function Merged(a: seq<nat>, b: seq<nat>): seq<nat>
    requires |a| == |b|
  {
    seq(|a|, i requires 0 <= i < |a| => a[i] + b[i])
  }

  predicate Samples(samples: seq<nat>) {
    forall i :: 0 <= i < |samples| ==> samples[i] <= MAX_U64
  }

  lemma {:induction false} RecordCounts(samples: seq<nat>, v: nat)
    requires v <= MAX_U64
    ensures Added(Counted(samples), IndexFor(v), 1) == Counted(samples + [v])
  {
    IndexInRange(v);
    assert (samples + [v])[..|samples|] == samples;
    hide IndexFor;
  }

  lemma {:induction false} CountAtConcat(a: seq<nat>, b: seq<nat>, i: nat)
    ensures CountAt(a + b, i) == CountAt(a, i) + CountAt(b, i)
    decreases |b|
  {
    hide IndexFor;
    if b == [] {
      assert a + b == a;
    } else {
      assert (a + b)[..|a + b| - 1] == a + b[..|b| - 1];
      CountAtConcat(a, b[..|b| - 1], i);
    }
  }

  /** Merging two histograms is recording all their samples in one. */
  lemma {:induction false} MergeCounts(a: seq<nat>, b: seq<nat>)
    ensures Merged(Counted(a), Counted(b)) == Counted(a + b)
  {
    hide CountAt;
    forall i | 0 <= i < 1024 ensures Merged(Counted(a), Counted(b))[i] == Counted(a + b)[i] {
      CountAtConcat(a, b, i);
    }
  }

  /** The order in which samples arrive does not matter. */
  lemma {:induction false} CountAtMultiset(a: seq<nat>, b: seq<nat>, i: nat)
    requires multiset(a) == multiset(b)
    ensures CountAt(a, i) == CountAt(b, i)
    decreases |a|
  {
    hide IndexFor;
    if a == [] {
      assert |multiset(a)| == 0 && b == [];
    } else {
      var k, x := |a| - 1, a[|a| - 1];
      assert a == a[..k] + [x];
      assert x in multiset(b);
      var j :| 0 <= j < |b| && b[j] == x;
      assert b == b[..j] + [x] + b[j + 1..];
      assert multiset(b[..j] + b[j + 1..]) == multiset(b) - multiset{x} == multiset(a[..k]);
      CountAtMultiset(a[..k], b[..j] + b[j + 1..], i);
      CountAtConcat(b[..j], b[j + 1..], i);
      CountAtConcat(b[..j] + [x], b[j + 1..], i);
      CountAtConcat(b[..j], [x], i);
      CountAtConcat(a[..k], [x], i);
    }
  }

  // -------------------------------------------------------- running sums

  lemma {:induction false} CountBeforeStep(samples: seq<nat>, i: nat)
    ensures CountBefore(samples, i + 1) == CountBefore(samples, i) + CountAt(samples, i)
  {
    hide IndexFor;
    if samples != [] {
      CountBeforeStep(samples[..|samples| - 1], i);
    }
  }

  lemma {:induction false} NoneBefore(samples: seq<nat>)
    ensures CountBefore(samples, 0) == 0
  {
    hide IndexFor;
    if samples != [] {
      NoneBefore(samples[..|samples| - 1]);
    }
  }

  lemma {:induction false} PrefixSum(samples: seq<nat>, i: nat)
    requires i <= 1024
    ensures Sum(Counted(samples)[..i]) == CountBefore(samples, i)
  {
    hide CountBefore, CountAt;
    if i == 0 {
      NoneBefore(samples);
    } else {
      PrefixSum(samples, i - 1);
      CountBeforeStep(samples, i - 1);
      assert Counted(samples)[..i][..i - 1] == Counted(samples)[..i - 1];
    }
  }

  lemma {:induction false} AllBefore(samples: seq<nat>)
    requires Samples(samples)
    ensures CountBefore(samples, 1024) == |samples|
  {
    hide IndexFor;
    if samples != [] {
      IndexInRange(samples[|samples| - 1]);
      AllBefore(samples[..|samples| - 1]);
    }
  }

  /** The total kept beside the counters is their sum. */
  lemma {:induction false} TotalIsSum(samples: seq<nat>)
    requires Samples(samples)
    ensures Sum(Counted(samples)) == |samples|
  {
    PrefixSum(samples, 1024);
    AllBefore(samples);
    assert Counted(samples)[..1024] == Counted(samples);
    hide CountBefore, Sum, Counted;
  }

  // -------------------------------------------------------------- quantile

  /** x is the rank-th smallest sample. */
  predicate HasRank(samples: seq<nat>, rank: nat, x: nat) {
    x in samples && CountLess(samples, x) < rank <= CountLess(samples, x + 1)
  }

  /** Buckets before that of x hold only smaller samples, buckets up to it all not larger. */
  lemma {:induction false} BucketRank(samples: seq<nat>, x: nat)
    requires Samples(samples) && x <= MAX_U64
    ensures CountBefore(samples, IndexFor(x)) <= CountLess(samples, x)
    ensures CountLess(samples, x + 1) <= CountBefore(samples, IndexFor(x) + 1)
  {
    hide IndexFor;
    if samples != [] {
      var v := samples[|samples| - 1];
      BucketRank(samples[..|samples| - 1], x);
      if v <= x {
        IndexMonotone(v, x);
      } else {
        IndexMonotone(x, v);
      }
    }
  }

  lemma {:induction false} SumMono(c: seq<nat>, i: nat, j: nat)
    requires i <= j <= |c|
    ensures Sum(c[..i]) <= Sum(c[..j])
    decreases j
  {
    if i < j {
      SumMono(c, i, j - 1);
      assert c[..j][..j - 1] == c[..j - 1];
    }
  }

  /** The bucket where the running sum first reaches the target. */
  predicate Reaches(c: seq<nat>, target: nat, i: nat) {
    i < |c| && Sum(c[..i]) < target <= Sum(c[..i + 1])
  }

  lemma {:induction false} ReachesOnce(c: seq<nat>, target: nat, i: nat, j: nat)
    requires Reaches(c, target, i) && Reaches(c, target, j)
    ensures i == j
  {
    hide Sum;
    if i < j {
      SumMono(c, i + 1, j);
    } else if j < i {
      SumMono(c, j + 1, i);
    }
  }

  /** The scan finds the bucket of the exact order statistic. */
  lemma {:induction false} RankBucket(samples: seq<nat>, rank: nat, x: nat)
    requires Samples(samples) && HasRank(samples, rank, x)
    ensures x <= MAX_U64 && Reaches(Counted(samples), rank, IndexFor(x))
  {
    hide IndexFor, CountBefore, CountLess, Sum, Counted;
    BucketRank(samples, x);
    IndexInRange(x);
    PrefixSum(samples, IndexFor(x));
    PrefixSum(samples, IndexFor(x) + 1);
  }

  lemma {:induction false} CountLessBounds(samples: seq<nat>, x: nat)
    requires Samples(samples)
    ensures CountLess(samples, 0) == 0 && CountLess(samples, MAX_U64 + 1) == |samples|
  {
    if samples != [] {
      CountLessBounds(samples[..|samples| - 1], x);
    }
  }

  lemma {:induction false} AbsentNotCounted(samples: seq<nat>, x: nat)
    requires x !in samples
    ensures CountLess(samples, x + 1) == CountLess(samples, x)
  {
    if samples != [] {
      AbsentNotCounted(samples[..|samples| - 1], x);
    }
  }

  /** Every rank from 1 to the number of samples is taken by some sample. */
  lemma {:induction false} RankExists(samples: seq<nat>, rank: nat, bound: nat) returns (x: nat)
    requires Samples(samples) && 1 <= rank <= CountLess(samples, bound)
    ensures HasRank(samples, rank, x)
    decreases bound
  {
    hide CountLess;
    CountLessBounds(samples, 0);
    if rank <= CountLess(samples, bound - 1) {
      x := RankExists(samples, rank, bound - 1);
    } else {
      x := bound - 1;
      if x !in samples {
        AbsentNotCounted(samples, x);
      }
    }
  }

  lemma {:induction false} CountLessConcat(a: seq<nat>, b: seq<nat>, x: nat)
    ensures CountLess(a + b, x) == CountLess(a, x) + CountLess(b, x)
    decreases |b|
  {
    if b == [] {
      assert a + b == a;
    } else {
      assert (a + b)[..|a + b| - 1] == a + b[..|b| - 1];
      CountLessConcat(a, b[..|b| - 1], x);
    }
  }

  lemma {:induction false} CountLessMultiset(a: seq<nat>, b: seq<nat>, x: nat)
    requires multiset(a) == multiset(b)
    ensures CountLess(a, x) == CountLess(b, x)
    decreases |a|
  {
    if a == [] {
      assert |multiset(a)| == 0 && b == [];
    } else {
      var k, y := |a| - 1, a[|a| - 1];
      assert a == a[..k] + [y];
      assert y in multiset(b);
      var j :| 0 <= j < |b| && b[j] == y;
      assert b == b[..j] + [y] + b[j + 1..];
      assert multiset(b[..j] + b[j + 1..]) == multiset(b) - multiset{y} == multiset(a[..k]);
      CountLessMultiset(a[..k], b[..j] + b[j + 1..], x);
      CountLessConcat(b[..j], b[j + 1..], x);
      CountLessConcat(b[..j] + [y], b[j + 1..], x);
      CountLessConcat(b[..j], [y], x);
      CountLessConcat(a[..k], [y], x);
    }
  }

  predicate Sorted(s: seq<nat>) {
    forall i, j :: 0 <= i < j < |s| ==> s[i] <= s[j]
  }

  lemma {:induction false} CountAllOrNone(s: seq<nat>, x: nat)
    ensures (forall i :: 0 <= i < |s| ==> s[i] < x) ==> CountLess(s, x) == |s|
    ensures (forall i :: 0 <= i < |s| ==> s[i] >= x) ==> CountLess(s, x) == 0
    ensures CountLess(s, x) <= |s|
  {
    if s != [] {
      CountAllOrNone(s[..|s| - 1], x);
    }
  }

  lemma {:induction false} SortedBelow(sorted: seq<nat>, k: nat)
    requires Sorted(sorted) && k < |sorted|
    ensures CountLess(sorted, sorted[k]) <= k
  {
    hide CountLess;
    var low, high, x := sorted[..k], sorted[k..], sorted[k];
    forall i | 0 <= i < |high| ensures high[i] >= x {
      assert i > 0 ==> sorted[k] <= sorted[k + i];
    }
    hide Sorted;
    assert sorted == low + high;
    CountLessConcat(low, high, x);
    CountAllOrNone(low, x);
    CountAllOrNone(high, x);
  }

  lemma {:induction false} SortedUpTo(sorted: seq<nat>, k: nat)
    requires Sorted(sorted) && k < |sorted|
    ensures k + 1 <= CountLess(sorted, sorted[k] + 1)
  {
    hide CountLess;
    var low, high, x := sorted[..k + 1], sorted[k + 1..], sorted[k];
    forall i | 0 <= i < |low| ensures low[i] < x + 1 {
      assert i < k ==> sorted[i] <= sorted[k];
    }
    hide Sorted;
    assert sorted == low + high;
    CountLessConcat(low, high, x + 1);
    CountAllOrNone(low, x + 1);
  }

  /** The rank-th smallest sample is the one at that place when the samples are sorted. */
  lemma {:induction false} RankIsPlace(samples: seq<nat>, sorted: seq<nat>, rank: nat)
    requires multiset(samples) == multiset(sorted) && Sorted(sorted) && 1 <= rank <= |sorted|
    ensures HasRank(samples, rank, sorted[rank - 1])
  {
    var x := sorted[rank - 1];
    assert x in multiset(sorted) && x in multiset(samples);
    hide CountLess, Sorted;
    CountLessMultiset(samples, sorted, x);
    CountLessMultiset(samples, sorted, x + 1);
    SortedBelow(sorted, rank - 1);
    SortedUpTo(sorted, rank - 1);
  }

  /** Quantile accuracy: whatever samples were recorded and whatever rank is asked for,
      the answer is the representative of the bucket of the rank-th smallest sample x; it
      does not exceed x and misses it by at most a sixteenth, unless x is 1. */
  lemma {:induction false} QuantileAccuracy(samples: seq<nat>, rank: nat, x: nat, i: nat)
    requires Samples(samples) && HasRank(samples, rank, x) && Reaches(Counted(samples), rank, i)
    ensures i == IndexFor(x) && BucketLower(i) <= x
    ensures 16 * (x - BucketLower(i)) <= x <==> x != 1
  {
    hide IndexFor, BucketLower, HasRank, Counted, Reaches;
    RankBucket(samples, rank, x);
    ReachesOnce(Counted(samples), rank, i, IndexFor(x));
    LowerAccuracy(x);
  }

  /** v answers for x, the rank-th smallest sample. */
  predicate Answers(samples: seq<nat>, rank: nat, x: nat, v: nat) {
    HasRank(samples, rank, x) && v == BucketLower(IndexFor(x)) && v <= x && (16 * (x - v) <= x <==> x != 1)
  }

  lemma {:induction false} RankAnswered(samples: seq<nat>, rank: nat, i: nat) returns (x: nat)
    requires Samples(samples) && 1 <= rank <= |samples| && Reaches(Counted(samples), rank, i)
    ensures Answers(samples, rank, x, BucketLower(i))
  {
    hide IndexFor, BucketLower, HasRank, Counted, Reaches, CountLess;
    CountLessBounds(samples, 0);
    x := RankExists(samples, rank, MAX_U64 + 1);
    QuantileAccuracy(samples, rank, x, i);
  }

  class LatencyHistogram {
    const counts: array<nat>
    var total: nat

    ghost predicate Valid()
      reads this, counts
    {
      counts.Length == 1024 && total == Sum(counts[..])
    }

    /** The histogram of exactly these samples. */
    ghost predicate Records(samples: seq<nat>)
      reads this, counts
    {
      Valid() && counts[..] == Counted(samples) && total == |samples| && Samples(samples)
    }

    constructor ()
      ensures Valid() && fresh(counts) && Records([])
    {
      counts := new nat[1024](_ => 0);
      total := 0;
      new;
      assert counts[..] == Counted([]);
      TotalIsSum([]);
    }

    method Record(v: nat, ghost samples: seq<nat>)
      requires Records(samples) && v <= MAX_U64
      modifies this, counts
      ensures Records(samples + [v])
    {
      IndexInRange(v);
      RecordCounts(samples, v);
      ghost var was := counts[..];
      var i := IndexFor(v);
      hide IndexFor, Counted;
      counts[i] := counts[i] + 1;
      total := total + 1;
      assert counts[..] == Added(was, i, 1);
      TotalIsSum(samples + [v]);
    }

    method AddBucket(idx: int, cnt: nat)
      requires Valid()
      modifies this, counts
      ensures Valid() && counts[..] == Added(old(counts[..]), idx, cnt)
      ensures total == old(total) + if 0 <= idx < 1024 then cnt else 0
    {
      ghost var was := counts[..];
      if cnt == 0 || idx < 0 || idx >= 1024 {
        return;
      }
      counts[idx] := counts[idx] + cnt;
      total := total + cnt;
      assert counts[..] == Added(was, idx, cnt);
      SumAdded(was, idx, cnt);
    }

    /** The other histogram may be this one. */
    method Merge(other: LatencyHistogram, ghost mine: seq<nat>, ghost theirs: seq<nat>)
      requires Records(mine) && other.Records(theirs) && (other == this || other.counts != counts)
      modifies this, counts
      ensures Records(mine + theirs) && (other != this ==> other.Records(theirs))
    {
      hide Counted, Sum;
      ghost var was, others := counts[..], other.counts[..];
      total := total + other.total;
      for i := 0 to 1024
        invariant total == |mine| + |theirs|
        invariant other != this ==> other.counts[..] == others && other.total == old(other.total)
        invariant forall k :: 0 <= k < i ==> counts[k] == was[k] + others[k]
        invariant forall k :: i <= k < 1024 ==> counts[k] == was[k] && other.counts[k] == others[k]
      {
        counts[i] := counts[i] + other.counts[i];
      }
      assert counts[..] == Merged(was, others);
      MergeCounts(mine, theirs);
      TotalIsSum(mine + theirs);
    }

    /** `quantile_value` with its rank already computed; 0 asks for rank 1. On a histogram
        of some samples it answers for one of that rank. */
    method Quantile(rank: nat, ghost samples: seq<nat>) returns (v: nat, ghost at: nat, ghost x: nat)
      requires Valid()
      ensures total == 0 ==> v == 0
      ensures total > 0 ==> v == BucketLower(at) && at < 1024
      ensures 1 <= rank <= total ==> Reaches(counts[..], rank, at)
      ensures 0 == rank < total ==> Reaches(counts[..], 1, at)
      ensures total > 0 && rank > total ==> at == 1023
      ensures Records(samples) && 1 <= rank <= total ==> Answers(samples, rank, x, v)
    {
      v, at := ScanFor(rank);
      x := 0;
      hide BucketLower, Reaches, Answers, Counted, Sum;
      if Records(samples) && 1 <= rank <= total {
        x := RankAnswered(samples, rank, at);
      }
    }

    /** The scan loop. */
    method ScanFor(rank: nat) returns (v: nat, ghost at: nat)
      requires Valid()
      ensures total == 0 ==> v == 0
      ensures total > 0 ==> v == BucketLower(at) && at < 1024
      ensures 1 <= rank <= total ==> Reaches(counts[..], rank, at)
      ensures 0 == rank < total ==> Reaches(counts[..], 1, at)
      ensures total > 0 && rank > total ==> at == 1023
    {
      at := 1023;
      if total == 0 {
        return 0, at;
      }
      var target := if rank == 0 then 1 else rank;
      var cum := 0;
      hide BucketLower;
      for i := 0 to 1024
        invariant cum == Sum(counts[..i]) && cum < target
      {
        cum := cum + counts[i];
        assert counts[..i + 1][..i] == counts[..i];
        if cum >= target {
          SumMono(counts[..], i + 1, 1024);
          assert counts[..][..i] == counts[..i] && counts[..][..i + 1] == counts[..i + 1] &&
                 counts[..][..1024] == counts[..];
          return BucketLower(i), i;
        }
      }
      assert counts[..1024] == counts[..];
      return BucketLower(1023), 1023;
    }

    /** `AtomicHistogram::snapshot`: non-zero counters are copied bucket by bucket. */
    method Snapshot() returns (h: LatencyHistogram)
      requires Valid()
      ensures fresh(h) && h.Valid() && h.counts[..] == counts[..] && h.total == total
    {
      h := new LatencyHistogram();
      for i := 0 to 1024
        invariant fresh(h) && fresh(h.counts) && h.Valid()
        invariant forall k :: 0 <= k < i ==> h.counts[k] == counts[k]
        invariant forall k :: i <= k < 1024 ==> h.counts[k] == 0
      {
        var c := counts[i];
        if c != 0 {
          h.AddBucket(i, c);
        }
      }
      assert h.counts[..] == counts[..];
    }
  }

  lemma {:induction false} SumAdded(c: seq<nat>, i: nat, k: nat)
    requires i < |c|
    ensures Sum(c[i := c[i] + k]) == Sum(c) + k
  {
    var n := |c| - 1;
    var d := c[i := c[i] + k];
    if i == n {
      assert d[..n] == c[..n];
    } else {
      assert d[..n] == c[..n][i := c[i] + k];
      SumAdded(c[..n], i, k);
    }
  }
}
