/** Bucketed summaries of commit latency and group fill, and their approximate percentiles. */
module Histograms {
  import opened Common

  const LATENCY_BOUNDS: seq<U64> := [10, 50, 100, 250, 500, 1000, 2000, 5000, 10000, 25000, 50000, 100000, U64_MAX]
  const FILL_BOUNDS: seq<U64> := [1, 2, 4, 8, 16, 32, 64, 128, U64_MAX]

  ghost predicate ValidBounds(bounds: seq<U64>) {
    && bounds != [] && bounds[|bounds| - 1] == U64_MAX
    && forall i, j :: 0 <= i < j < |bounds| ==> bounds[i] < bounds[j]
  }

  lemma SourceBoundsValid()
    ensures ValidBounds(LATENCY_BOUNDS) && ValidBounds(FILL_BOUNDS)
  {
  }

  // ---- counting -------------------------------------------------------------------------

  ghost function CountAtMost(samples: seq<U64>, x: int): nat {
    if samples == [] then 0 else
      CountAtMost(samples[..|samples| - 1], x) + if samples[|samples| - 1] <= x then 1 else 0
  }

  lemma CountPush(samples: seq<U64>, s: U64, x: int)
    ensures CountAtMost(samples + [s], x) == CountAtMost(samples, x) + if s <= x then 1 else 0
  {
    assert (samples + [s])[..|samples|] == samples;
  }

  lemma {:induction false} CountMonotone(samples: seq<U64>, x: int, y: int)
    requires x <= y
    ensures CountAtMost(samples, x) <= CountAtMost(samples, y) <= |samples|
    ensures y >= U64_MAX ==> CountAtMost(samples, y) == |samples|
  {
    if samples != [] { CountMonotone(samples[..|samples| - 1], x, y); }
  }

  function Sum(xs: seq<nat>): nat {
    if xs == [] then 0 else Sum(xs[..|xs| - 1]) + xs[|xs| - 1]
  }

  lemma SumPush(xs: seq<nat>, n: nat)
    requires n < |xs|
    ensures Sum(xs[..n + 1]) == Sum(xs[..n]) + xs[n]
  {
    assert xs[..n + 1][..n] == xs[..n];
  }

  /** The `rank`-th smallest of the recorded samples. */
  ghost predicate IsRankth(samples: seq<U64>, rank: nat, v: U64) {
    v in samples && CountAtMost(samples, v - 1) < rank <= CountAtMost(samples, v)
  }

  // ---- the histogram ------------------------------------------------------------------------

  function AtLeastOne(x: nat): nat { if x < 1 then 1 else x }

  function Clamp(percentile: nat): nat { if percentile < 100 then percentile else 100 }

  /** Rank of a percentile; the product is computed in 64 bits. */
  function Rank(count: U64, percentile: nat): nat {
    AtLeastOne((count * Clamp(percentile) + 99) % TWO_64 / 100)
  }

  function CeilingRank(count: U64, percentile: nat): nat {
    AtLeastOne((count * Clamp(percentile) + 99) / 100)
  }

  lemma WrappedQuotient(x: nat)
    ensures x < TWO_64 ==> x % TWO_64 == x
    ensures x >= TWO_64 ==> x % TWO_64 / 100 < x / 100
  {
    if x >= TWO_64 {
      var q, r := x / TWO_64, x % TWO_64;
      assert x == q * TWO_64 + r && q >= 1;
      assert r + 100 <= x;
    }
  }

  lemma Scale(count: nat, clamped: nat)
    requires clamped <= 100
    ensures 0 <= count * clamped <= count * 100
  {
  }

  /** The rank is the exact ceiling exactly as long as the product fits in 64 bits. */
  lemma RankIsExact(count: U64, percentile: nat)
    ensures Rank(count, percentile) == CeilingRank(count, percentile) <==> count * Clamp(percentile) + 99 < TWO_64
    ensures count > 0 ==> 1 <= Rank(count, percentile) <= CeilingRank(count, percentile) <= count
  {
    var product := count * Clamp(percentile);
    Scale(count, Clamp(percentile));
    WrappedQuotient(product + 99);
  }

  /** Bucket `n` and those before it hold exactly the samples up to its bound. */
  ghost predicate Bucketed(bounds: seq<U64>, buckets: seq<nat>, samples: seq<U64>) {
    && |buckets| == |bounds|
    && forall n :: 0 <= n < |bounds| ==> Sum(buckets[..n + 1]) == CountAtMost(samples, bounds[n])
  }

  ghost predicate IsMaximum(samples: seq<U64>, max: U64) {
    (forall s :: s in samples ==> s <= max) && (samples != [] ==> max in samples) && (samples == [] ==> max == 0)
  }

  lemma {:induction false} SumBump(xs: seq<nat>, i: nat, n: nat)
    requires i < |xs| && n <= |xs|
    ensures Sum(xs[i := xs[i] + 1][..n]) == Sum(xs[..n]) + if i < n then 1 else 0
  {
    if n > 0 {
      SumBump(xs, i, n - 1);
      SumPush(xs, n - 1);
      SumPush(xs[i := xs[i] + 1], n - 1);
    }
  }

  lemma BucketedRecord(bounds: seq<U64>, buckets: seq<nat>, samples: seq<U64>, s: U64, i: nat)
    requires ValidBounds(bounds) && Bucketed(bounds, buckets, samples)
    requires i < |bounds| && s <= bounds[i] && (i > 0 ==> s > bounds[i - 1])
    ensures Bucketed(bounds, buckets[i := buckets[i] + 1], samples + [s])
  {
    forall n | 0 <= n < |bounds|
      ensures Sum(buckets[i := buckets[i] + 1][..n + 1]) == CountAtMost(samples + [s], bounds[n])
    {
      SumBump(buckets, i, n + 1);
      CountPush(samples, s, bounds[n]);
    }
  }

  lemma MaximumRecord(samples: seq<U64>, max: U64, s: U64)
    requires IsMaximum(samples, max)
    ensures IsMaximum(samples + [s], if max < s then s else max)
  {
    assert (samples + [s])[|samples|] == s;
  }

  lemma {:induction false} SumZeros(xs: seq<nat>)
    requires forall i :: 0 <= i < |xs| ==> xs[i] == 0
    ensures Sum(xs) == 0
  {
    if xs != [] { SumZeros(xs[..|xs| - 1]); }
  }

  lemma BucketedEmpty(bounds: seq<U64>, buckets: seq<nat>)
    requires |buckets| == |bounds| && forall i :: 0 <= i < |buckets| ==> buckets[i] == 0
    ensures Bucketed(bounds, buckets, [])
  {
    forall n | 0 <= n < |bounds| ensures Sum(buckets[..n + 1]) == CountAtMost([], bounds[n]) {
      SumZeros(buckets[..n + 1]);
    }
  }

  class Histogram {
    const bounds: seq<U64>
    const buckets: array<nat>
    var count: nat
    var max: U64
    ghost var samples: seq<U64>

    constructor (bounds: seq<U64>)
      requires ValidBounds(bounds)
      ensures Valid() && samples == [] && this.bounds == bounds && fresh(buckets)
    {
      this.bounds := bounds;
      buckets := new nat[|bounds|](_ => 0);
      count, max, samples := 0, 0, [];
      new;
      BucketedEmpty(bounds, buckets[..]);
    }

    constructor Latency()
      ensures Valid() && samples == [] && bounds == LATENCY_BOUNDS && fresh(buckets)
    {
      bounds := LATENCY_BOUNDS;
      buckets := new nat[|LATENCY_BOUNDS|](_ => 0);
      count, max, samples := 0, 0, [];
      new;
      SourceBoundsValid();
      BucketedEmpty(bounds, buckets[..]);
    }

    ghost predicate Valid()
      reads this, buckets
    {
      && ValidBounds(bounds) && Bucketed(bounds, buckets[..], samples)
      && count == |samples| && IsMaximum(samples, max)
    }

    /** The first bucket whose bound is not below the sample. */
    method BucketFor(s: U64) returns (i: nat)
      requires ValidBounds(bounds)
      ensures i < |bounds| && s <= bounds[i] && (i > 0 ==> bounds[i - 1] < s)
    {
      i := 0;
      while s > bounds[i]
        invariant 0 <= i < |bounds| && (i > 0 ==> s > bounds[i - 1])
      {
        i := i + 1;
      }
    }

    method Record(s: U64)
      requires Valid()
      modifies this, buckets
      ensures Valid() && samples == old(samples) + [s] && count == old(count) + 1
    {
      ghost var before := buckets[..];
      var i := BucketFor(s);
      BucketedRecord(bounds, before, samples, s, i);
      MaximumRecord(samples, max, s);
      buckets[i] := buckets[i] + 1;
      assert buckets[..] == before[i := before[i] + 1];
      count, samples := count + 1, samples + [s];
      max := if max < s then s else max;
    }

    /** The reported value is the bound of the first bucket that reaches the rank, or the maximum in the last bucket. */
    method ApproximatePercentile(percentile: nat) returns (r: U64)
      requires Valid() && count < TWO_64
      ensures count == 0 ==> r == 0
      ensures count != 0 ==> Reports(bounds, samples, max, Rank(count, percentile), r)
    {
      if count == 0 { return 0; }
      var rank := Rank(count, percentile);
      RankIsExact(count, percentile);
      CountMonotone(samples, 0, U64_MAX);
      var cumulative, i := 0, 0;
      while i < buckets.Length
        invariant 0 <= i <= buckets.Length && cumulative == Sum(buckets[..][..i]) && cumulative < rank
      {
        SumPush(buckets[..], i);
        cumulative := cumulative + buckets[i];
        if cumulative >= rank {
          assert i > 0 ==> CountAtMost(samples, bounds[i - 1]) == Sum(buckets[..][..i - 1 + 1]);
          return if i + 1 == buckets.Length then max else bounds[i];
        }
        i := i + 1;
      }
      assert false;
    }
  }

  ghost predicate ReachedAt(bounds: seq<U64>, samples: seq<U64>, rank: nat, i: nat) {
    i < |bounds| && CountAtMost(samples, bounds[i]) >= rank && (i > 0 ==> CountAtMost(samples, bounds[i - 1]) < rank)
  }

  ghost predicate Reports(bounds: seq<U64>, samples: seq<U64>, max: U64, rank: nat, r: U64) {
    exists i :: 0 <= i < |bounds| && ReachedAt(bounds, samples, rank, i)
                && r == if i + 1 == |bounds| then max else bounds[i]
  }

  /** All buckets together hold every sample. */
  lemma BucketsSumToCount(bounds: seq<U64>, buckets: seq<nat>, samples: seq<U64>)
    requires ValidBounds(bounds) && Bucketed(bounds, buckets, samples)
    ensures Sum(buckets) == |samples|
  {
    assert buckets[..|bounds| - 1 + 1] == buckets;
    CountMonotone(samples, 0, U64_MAX);
  }

  /** Some sample has every rank. */
  lemma {:induction false} RankthExists(samples: seq<U64>, rank: nat, bound: int) returns (v: U64)
    requires 1 <= rank <= CountAtMost(samples, bound)
    ensures v <= bound && IsRankth(samples, rank, v)
    decreases bound
  {
    var hit := Counted(samples, bound);
    var below: int := hit as int - 1;
    if CountAtMost(samples, below) >= rank {
      v := RankthExists(samples, rank, below);
    } else {
      v := hit;
    }
  }

  /** The largest sample up to a bound that some sample reaches. */
  lemma {:induction false} Counted(samples: seq<U64>, bound: int) returns (v: U64)
    requires CountAtMost(samples, bound) >= 1
    ensures v in samples && v <= bound && CountAtMost(samples, v) == CountAtMost(samples, bound)
  {
    var front, last := samples[..|samples| - 1], samples[|samples| - 1];
    if CountAtMost(front, bound) == 0 {
      v := last;
      CountMonotone(front, last, bound);
    } else {
      var w := Counted(front, bound);
      v := if w < last <= bound then last else w;
      CountMonotone(front, w, bound);
      if v == last { CountMonotone(front, w, last); CountMonotone(front, last, bound); }
    }
  }

  /**
   The approximation is never below the true rank-th smallest sample, and no smaller bucket
   bound would do: the previous bound is already below that sample.
   */
  lemma PercentileNeverBelow(bounds: seq<U64>, samples: seq<U64>, max: U64, rank: nat, r: U64, v: U64)
    requires ValidBounds(bounds) && IsMaximum(samples, max) && IsRankth(samples, rank, v)
    requires Reports(bounds, samples, max, rank, r)
    ensures v <= r
    ensures forall i :: 0 <= i < |bounds| && bounds[i] < r ==> bounds[i] < v
  {
    var i :| 0 <= i < |bounds| && ReachedAt(bounds, samples, rank, i)
             && r == if i + 1 == |bounds| then max else bounds[i];
    if i + 1 < |bounds| && bounds[i] < v { CountMonotone(samples, bounds[i], v - 1); }
    forall k | 0 <= k < |bounds| && bounds[k] < r ensures bounds[k] < v {
      if bounds[k] >= v {
        CountMonotone(samples, v, bounds[k]);
        if k < i { CountMonotone(samples, bounds[k], bounds[i - 1]); }
      }
    }
  }

  /** The group-fill bucket is the least bound at or above the request count. */
  function GroupFillBucket(requests: U64): (i: nat)
    ensures i < |FILL_BOUNDS| && requests <= FILL_BOUNDS[i] && (i > 0 ==> FILL_BOUNDS[i - 1] < requests)
  {
    if requests <= 1 then 0 else if requests <= 2 then 1 else if requests <= 4 then 2 else if requests <= 8 then 3
    else if requests <= 16 then 4 else if requests <= 32 then 5 else if requests <= 64 then 6
    else if requests <= 128 then 7 else 8
  }
}
