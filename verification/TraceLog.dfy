/**
 * The run time statistics of the normalised query trace log
 * (mysqlnd_qc_update_normalized_query_trace_log_entry), in 64-bit arithmetic.
 */
module TraceLog {
  const U64: nat := 0x1_0000_0000_0000_0000

  type uint64 = n: nat | n < U64

  datatype Stats = Stats(occurences: uint64, minRunTime: uint64, maxRunTime: uint64, avgRunTime: uint64, eligible: bool)

  const NO_STATS := Stats(0, 0, 0, 0, false)

  function Wrap(n: nat): uint64 {
    n % U64
  }

  function NextCount(n: uint64): (r: uint64)
    ensures r == if n == U64 - 1 then 0 else n + 1
  {
    Wrap(n + 1)
  }

  function NewAverage(average: uint64, n: uint64, sample: uint64): uint64
    requires n > 0
  {
    Quotient(Wrap(Wrap(average * (n - 1)) + sample), n)
  }

  function Quotient(total: uint64, n: nat): (q: uint64)
    requires n > 0
    ensures q * n <= total < q * n + n
  {
    DivisionBounds(total, n);
    total / n
  }

  lemma MulMono(a: nat, b: nat, n: nat)
    requires a <= b
    ensures a * n <= b * n
  {
  }

  lemma DivisionBounds(total: nat, n: nat)
    requires n > 0
    ensures total / n * n <= total < total / n * n + n && 0 <= total / n <= total
  {
    assert total == total / n * n + total % n;
    MulMono(1, n, total / n);
  }

  /** A minimum of zero counts as no minimum yet. With a counter that wraps to zero there is no new average. */
  function Updated(s: Stats, sample: uint64): (r: Stats)
    ensures s.occurences < U64 - 1 ==> r.occurences == s.occurences + 1
  {
    var (low, high) := if s.minRunTime == 0 then (sample, sample) else (s.minRunTime, s.maxRunTime);
    var n := NextCount(s.occurences);
    Stats(n,
          if sample <= high && sample < low then sample else low,
          if sample > high then sample else high,
          if n == 0 then s.avgRunTime else NewAverage(s.avgRunTime, n, sample),
          n != 0 || s.eligible)
  }

  class Entry {
    var occurences: uint64
    var minRunTime: uint64
    var maxRunTime: uint64
    var avgRunTime: uint64
    var eligibleForCaching: bool

    ghost function Contents(): Stats
      reads this
    {
      Stats(occurences, minRunTime, maxRunTime, avgRunTime, eligibleForCaching)
    }

    constructor ()
      ensures Contents() == NO_STATS
    {
      occurences, minRunTime, maxRunTime, avgRunTime, eligibleForCaching := 0, 0, 0, 0, false;
    }

    /** `trap`: the counter of occurences wraps, and the process dies in a division by zero. */
    method Update(collect: bool, runTime: uint64) returns (trap: bool)
      modifies this
      ensures trap <==> collect && old(occurences) == U64 - 1
      ensures Contents() == if collect then Updated(old(Contents()), runTime) else old(Contents())
    {
      trap := false;
      if !collect {
        return;
      }
      occurences := NextCount(occurences);
      if minRunTime == 0 {
        minRunTime := runTime;
        maxRunTime := runTime;
      }
      if runTime > maxRunTime {
        maxRunTime := runTime;
      } else if runTime < minRunTime {
        minRunTime := runTime;
      }
      if occurences == 0 {
        return true;
      }
      avgRunTime := NewAverage(avgRunTime, occurences, runTime);
      eligibleForCaching := true;
    }
  }

  // ---- runs of samples ----

  function After(samples: seq<uint64>): (s: Stats)
    requires |samples| < U64
    ensures s.occurences == |samples|
  {
    if samples == [] then NO_STATS else Updated(After(samples[..|samples| - 1]), samples[|samples| - 1])
  }

  function Sum(samples: seq<nat>): nat {
    if samples == [] then 0 else Sum(samples[..|samples| - 1]) + samples[|samples| - 1]
  }

  /** An entry is eligible for caching from its first sample on. */
  lemma {:induction false} EligibleIffSampled(samples: seq<uint64>)
    requires |samples| < U64
    ensures After(samples).eligible <==> samples != []
  {
    if samples != [] {
      EligibleIffSampled(samples[..|samples| - 1]);
    }
  }

  /** No update overflows: the old average times the old count, plus the sample. */
  predicate Fits(samples: seq<uint64>)
    requires |samples| < U64
  {
    samples == [] ||
    var last := |samples| - 1;
    Fits(samples[..last]) && After(samples[..last]).avgRunTime * last + samples[last] < U64
  }

  predicate IsMin(m: nat, samples: seq<nat>) {
    m in samples && forall i :: 0 <= i < |samples| ==> m <= samples[i]
  }

  predicate IsMax(m: nat, samples: seq<nat>) {
    m in samples && forall i :: 0 <= i < |samples| ==> samples[i] <= m
  }

  // ---- minimum and maximum ----

  /** The samples since the latest zero that another sample followed. */
  function Recent(samples: seq<nat>): seq<nat> {
    if samples == [] then []
    else
      var before := samples[..|samples| - 1];
      (if before == [] || before[|before| - 1] == 0 then [] else Recent(before)) + [samples[|samples| - 1]]
  }

  lemma LatestExtremes(samples: seq<uint64>)
    requires 0 < |samples| < U64
    ensures
      var s, s', x := After(samples[..|samples| - 1]), After(samples), samples[|samples| - 1];
      if s.minRunTime == 0 then s'.minRunTime == x && s'.maxRunTime == x
      else && s'.maxRunTime == (if x > s.maxRunTime then x else s.maxRunTime)
           && (s.minRunTime <= s.maxRunTime ==> s'.minRunTime == if x < s.minRunTime then x else s.minRunTime)
  {
  }

  /** Minimum and maximum are those of the recent samples only: a zero makes the entry forget. */
  lemma {:induction false} ExtremesOfRecent(samples: seq<uint64>)
    requires 0 < |samples| < U64
    ensures IsMin(After(samples).minRunTime, Recent(samples)) && IsMax(After(samples).maxRunTime, Recent(samples))
    ensures After(samples).minRunTime == 0 <==> samples[|samples| - 1] == 0
    decreases |samples|
  {
    LatestExtremes(samples);
    var last := |samples| - 1;
    if last > 0 {
      var before := samples[..last];
      ExtremesOfRecent(before);
      if before[last - 1] != 0 {
        ExtremesAppend(After(before).minRunTime, After(before).maxRunTime, Recent(before), samples[last]);
      }
    }
  }

  lemma ExtremesAppend(low: nat, high: nat, samples: seq<nat>, x: nat)
    requires IsMin(low, samples) && IsMax(high, samples)
    ensures IsMin(if x < low then x else low, samples + [x]) && IsMax(if x > high then x else high, samples + [x])
    ensures low <= high
  {
    var s := samples + [x];
    assert s[|samples|] == x;
    forall m | m in samples ensures m in s {}
  }

  lemma {:induction false} RecentIsAll(samples: seq<nat>)
    requires forall i :: 0 <= i < |samples| - 1 ==> samples[i] != 0
    ensures Recent(samples) == samples
    decreases |samples|
  {
    if samples != [] {
      RecentIsAll(samples[..|samples| - 1]);
    }
  }

  /** If no sample but perhaps the last is zero, the extremes are those of all samples. */
  lemma ExtremesAreExact(samples: seq<uint64>)
    requires 0 < |samples| < U64 && forall i :: 0 <= i < |samples| - 1 ==> samples[i] != 0
    ensures IsMin(After(samples).minRunTime, samples) && IsMax(After(samples).maxRunTime, samples)
  {
    RecentIsAll(samples);
    ExtremesOfRecent(samples);
  }

  /** The minimum is exact if and only if no sample was zero or the last one is. */
  lemma MinimumIsExactIff(samples: seq<uint64>)
    requires 0 < |samples| < U64
    ensures IsMin(After(samples).minRunTime, samples) <==> (0 !in samples || samples[|samples| - 1] == 0)
  {
    ExtremesOfRecent(samples);
    if 0 !in samples {
      ExtremesAreExact(samples);
    }
  }

  // ---- the mean ----

  /** Without overflow, the division drops less than n. */
  lemma AverageIs(average: uint64, n: uint64, sample: uint64, product: nat)
    requires n > 0 && product == average * (n - 1) && product + sample < U64
    ensures NewAverage(average, n, sample) * n <= product + sample <= NewAverage(average, n, sample) * n + (n - 1)
  {
    assert Wrap(product) == product && Wrap(product + sample) == product + sample;
  }

  lemma Triangle(n: int)
    ensures (n - 1) * (n - 2) + 2 * (n - 1) == n * (n - 1)
  {
  }

  lemma LatestAverage(samples: seq<uint64>)
    requires 0 < |samples| < U64
    ensures After(samples).avgRunTime ==
            NewAverage(After(samples[..|samples| - 1]).avgRunTime, |samples|, samples[|samples| - 1])
  {
  }

  /**
   * The running mean never exceeds the true one, and what it loses in all is at most n(n - 1) / 2:
   * each of the n divisions drops less than its divisor.
   */
  lemma {:induction false} MeanIsBounded(samples: seq<uint64>)
    requires |samples| < U64 && Fits(samples)
    ensures 0 <= 2 * (Sum(samples) - After(samples).avgRunTime * |samples|) <= |samples| * (|samples| - 1)
    decreases |samples|
  {
    if samples != [] {
      var n := |samples|;
      var before := samples[..n - 1];
      MeanIsBounded(before);
      LatestAverage(samples);
      NextError(n, Sum(before), After(before).avgRunTime, samples[n - 1]);
    }
  }

  lemma NextError(n: nat, sum: nat, average: uint64, x: uint64)
    requires 0 < n < U64 && average * (n - 1) + x < U64
    requires 0 <= 2 * (sum - average * (n - 1)) <= (n - 1) * (n - 2)
    ensures 0 <= 2 * (sum + x - NewAverage(average, n, x) * n) <= n * (n - 1)
  {
    MulMono(0, average, n - 1);
    var product := average * (n - 1);
    AverageIs(average, n, x, product);
    Triangle(n);
    ErrorGrows(n, sum, x, product, NewAverage(average, n, x) * n, (n - 1) * (n - 2));
  }

  /** It is enough that the sum of the samples fits. */
  lemma {:induction false} SumFits(samples: seq<uint64>)
    requires |samples| < U64 && Sum(samples) < U64
    ensures Fits(samples)
    decreases |samples|
  {
    if samples != [] {
      SumFits(samples[..|samples| - 1]);
      MeanIsBounded(samples[..|samples| - 1]);
    }
  }

  lemma ErrorGrows(n: nat, sum: nat, x: nat, product: nat, product': nat, bound: nat)
    requires 0 <= 2 * (sum - product) <= bound && product' <= product + x <= product' + (n - 1)
    ensures 0 <= 2 * (sum + x - product') <= bound + 2 * (n - 1)
  {
  }

  /** The mean lies between the least and the greatest sample. */
  lemma {:induction false} MeanIsBetween(samples: seq<uint64>, low: nat, high: nat)
    requires 0 < |samples| < U64 && Fits(samples)
    requires forall i :: 0 <= i < |samples| ==> low <= samples[i] <= high
    ensures low <= After(samples).avgRunTime <= high
    decreases |samples|
  {
    var n := |samples|;
    var before := samples[..n - 1];
    if n > 1 {
      MeanIsBetween(before, low, high);
    }
    LatestAverage(samples);
    NextBetween(n, After(before).avgRunTime, samples[n - 1], low, high);
  }

  lemma NextBetween(n: nat, average: uint64, x: uint64, low: nat, high: nat)
    requires 0 < n < U64 && average * (n - 1) + x < U64
    requires low <= x <= high && (n > 1 ==> low <= average <= high)
    ensures low <= NewAverage(average, n, x) <= high
  {
    AverageIs(average, n, x, average * (n - 1));
    if n > 1 {
      MulMono(low, average, n - 1);
      MulMono(average, high, n - 1);
    }
    DivisionBetween(average * (n - 1) + x, n, low, high, NewAverage(average, n, x));
  }

  lemma DivisionBetween(total: nat, n: nat, low: nat, high: nat, q: nat)
    requires n > 0 && low * (n - 1) + low <= total <= high * (n - 1) + high
    requires q * n <= total <= q * n + (n - 1)
    ensures low <= q <= high
  {
    if q < low {
      MulMono(q + 1, low, n);
    } else if q > high {
      MulMono(high + 1, q, n);
    }
  }

  /** The samples 1, 2, ..., n. */
  function Ramp(n: nat): (samples: seq<nat>)
    ensures |samples| == n && forall i :: 0 <= i < n ==> samples[i] == i + 1
  {
    if n == 0 then [] else Ramp(n - 1) + [n]
  }

  lemma AverageOfRamp(n: nat)
    requires n > 0 && n + (n - 1) < U64
    ensures NewAverage(if n == 1 then 0 else 1, n, n) == 1
  {
    var average: uint64 := if n == 1 then 0 else 1;
    assert average * (n - 1) == n - 1;
    AverageIs(average, n, n, n - 1);
    var q := NewAverage(average, n, n);
    if q > 1 {
      MulMono(2, q, n);
    }
  }

  lemma RampStepFits(n: nat, average: nat)
    requires n > 0 && n + (n - 1) < U64 && average == if n == 1 then 0 else 1
    ensures average * (n - 1) + n < U64
  {
  }

  lemma FitsStep(samples: seq<uint64>)
    requires 0 < |samples| < U64 && Fits(samples[..|samples| - 1])
    requires After(samples[..|samples| - 1]).avgRunTime * (|samples| - 1) + samples[|samples| - 1] < U64
    ensures Fits(samples)
  {
  }

  lemma {:induction false} RampMean(n: nat)
    requires n + (n - 1) < U64
    ensures Fits(Ramp(n)) && After(Ramp(n)).avgRunTime == if n == 0 then 0 else 1
  {
    if n > 0 {
      assert Ramp(n)[..n - 1] == Ramp(n - 1) && Ramp(n)[n - 1] == n;
      RampMean(n - 1);
      RampStepFits(n, After(Ramp(n - 1)).avgRunTime);
      FitsStep(Ramp(n));
      LatestAverage(Ramp(n));
      AverageOfRamp(n);
    }
  }

  lemma {:induction false} RampSum(n: nat)
    ensures 2 * Sum(Ramp(n)) == n * (n + 1)
  {
    if n > 0 {
      assert Ramp(n)[..n - 1] == Ramp(n - 1) && Ramp(n)[n - 1] == n;
      RampSum(n - 1);
    }
  }

  lemma RampError(n: nat)
    ensures 2 * (Sum(Ramp(n)) - n) == n * (n - 1)
  {
    RampSum(n);
  }

  /** The bound is reached, at any length: on the samples 1, 2, ..., n nothing overflows and the mean stays at 1. */
  lemma RampReachesTheBound(n: nat)
    requires 0 < n && n + (n - 1) < U64
    ensures Fits(Ramp(n)) && After(Ramp(n)).avgRunTime == 1 && 2 * (Sum(Ramp(n)) - n) == n * (n - 1)
  {
    RampMean(n);
    RampError(n);
  }
}
