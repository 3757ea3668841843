/**
 The live probability histogram of the PAWScoin tracker.

 Each refresh draws a large batch of skewed values, sorts every value into
 one of six fixed ranges by a chain of `<=` thresholds, and reports each
 range's share of the batch as a percentage. The batch itself is an input
 (the random source is not modelled); percentages are exact reals.
 */
module Histogram {

  datatype Option<T> = None | Some(value: T)

  const BinCount: nat := 6

  /** Size of the batch drawn on every refresh. */
  const SampleCount: nat := 100000

  /** Inclusive upper bounds of bins 0..4; bin 5 takes everything above 90. */
  const Thresholds: seq<int> := [15, 45, 68, 85, 90]

  /** The displayed range labels "0–15", "16–45", ..., "91–99" as bounds. */
  const LabelLow: seq<int> := [0, 16, 46, 69, 86, 91]
  const LabelHigh: seq<int> := [15, 45, 68, 85, 90, 99]

  /** `v` belongs to bin `b`: above the previous threshold (if any) and at
      most the bin's own threshold (if any). */
  predicate InRange(v: int, b: nat) {
    && b < BinCount
    && (b == 0 || Thresholds[b - 1] < v)
    && (b == BinCount - 1 || v <= Thresholds[b])
  }

  /** The `if v <= 15 ... elif ... else` chain: every integer lands in
      exactly one of the six bins. */
  function Bin(v: int): (b: nat)
    ensures b < BinCount
    ensures forall c: nat :: InRange(v, c) <==> c == b
  {
    if v <= 15 then 0
    else if v <= 45 then 1
    else if v <= 68 then 2
    else if v <= 85 then 3
    else if v <= 90 then 4
    else 5
  }

  /** Larger values never fall into a lower bin. */
  lemma BinMonotone(v: int, w: int)
    requires v <= w
    ensures Bin(v) <= Bin(w)
  {}

  /** On prices in [0, 99] the bins are exactly the displayed label ranges. */
  lemma BinMatchesLabels(v: int, b: nat)
    requires 0 <= v <= 99 && b < BinCount
    ensures Bin(v) == b <==> LabelLow[b] <= v <= LabelHigh[b]
  {}

  function Sum(c: seq<nat>): nat {
    if |c| == 0 then 0 else c[0] + Sum(c[1..])
  }

  /** A single count never exceeds the total. */
  lemma {:induction false} CountAtMostSum(c: seq<nat>, i: nat)
    requires i < |c|
    ensures c[i] <= Sum(c)
  {
    if i > 0 {
      CountAtMostSum(c[1..], i - 1);
    }
  }

  /** Adding one to a single count adds one to the total. */
  lemma {:induction false} SumIncrement(c: seq<nat>, b: nat)
    requires b < |c|
    ensures Sum(c[b := c[b] + 1]) == Sum(c) + 1
  {
    if b == 0 {
      assert c[b := c[b] + 1][1..] == c[1..];
    } else {
      SumIncrement(c[1..], b - 1);
      assert c[b := c[b] + 1][1..] == c[1..][b - 1 := c[b] + 1];
    }
  }

  /** `bins[b] += 1`: exactly one count goes up by one, the others are kept,
      and the total grows by one. */
  function Increment(bins: seq<nat>, b: nat): (r: seq<nat>)
    requires b < |bins|
    ensures |r| == |bins|
    ensures r[b] == bins[b] + 1
    ensures forall j :: 0 <= j < |bins| && j != b ==> r[j] == bins[j]
    ensures Sum(r) == Sum(bins) + 1
  {
    SumIncrement(bins, b);
    bins[b := bins[b] + 1]
  }

  function Zeros(n: nat): (z: seq<nat>)
    ensures |z| == n && Sum(z) == 0
    ensures forall j :: 0 <= j < n ==> z[j] == 0
  {
    if n == 0 then [] else [0] + Zeros(n - 1)
  }

  /** The counting loop as a left fold: six counts whose total is the number
      of samples. */
  function CountBins(samples: seq<int>): (bins: seq<nat>)
    ensures |bins| == BinCount
    ensures Sum(bins) == |samples|
    decreases |samples|
  {
    if |samples| == 0 then Zeros(BinCount)
    else Increment(CountBins(samples[..|samples| - 1]), Bin(samples[|samples| - 1]))
  }

  /** One more sample raises the count of its own bin by one and leaves the
      other five counts unchanged. */
  lemma CountBinsStep(samples: seq<int>, v: int)
    ensures CountBins(samples + [v])[Bin(v)] == CountBins(samples)[Bin(v)] + 1
    ensures forall j :: 0 <= j < BinCount && j != Bin(v) ==>
              CountBins(samples + [v])[j] == CountBins(samples)[j]
  {}

  /** Reference count: how many samples lie in the range of bin `b`,
      scanning from the front. */
  function Tally(samples: seq<int>, b: nat): nat {
    if |samples| == 0 then 0
    else (if InRange(samples[0], b) then 1 else 0) + Tally(samples[1..], b)
  }

  lemma {:induction false} TallyAppend(s: seq<int>, v: int, b: nat)
    ensures Tally(s + [v], b) == Tally(s, b) + (if InRange(v, b) then 1 else 0)
  {
    if |s| > 0 {
      assert (s + [v])[1..] == s[1..] + [v];
      TallyAppend(s[1..], v, b);
    }
  }

  /** Each count of the fold is the number of samples in that bin's range. */
  lemma {:induction false} CountBinsIsTally(samples: seq<int>, b: nat)
    requires b < BinCount
    ensures CountBins(samples)[b] == Tally(samples, b)
    decreases |samples|
  {
    if |samples| > 0 {
      var init, v := samples[..|samples| - 1], samples[|samples| - 1];
      assert samples == init + [v];
      CountBinsIsTally(init, b);
      TallyAppend(init, v, b);
    }
  }

  /** The loop of `update_live_probability_chart` over the batch, with the
      threshold chain written out as in the program. */
  method Tabulate(samples: seq<int>) returns (bins: seq<nat>)
    ensures |bins| == BinCount && Sum(bins) == |samples|
    ensures forall b :: 0 <= b < BinCount ==> bins[b] == Tally(samples, b)
  {
    bins := [0, 0, 0, 0, 0, 0];
    for i := 0 to |samples|
      invariant bins == CountBins(samples[..i])
    {
      var v := samples[i];
      if v <= 15 {
        bins := bins[0 := bins[0] + 1];
      } else if v <= 45 {
        bins := bins[1 := bins[1] + 1];
      } else if v <= 68 {
        bins := bins[2 := bins[2] + 1];
      } else if v <= 85 {
        bins := bins[3 := bins[3] + 1];
      } else if v <= 90 {
        bins := bins[4 := bins[4] + 1];
      } else {
        bins := bins[5 := bins[5] + 1];
      }
      assert samples[..i + 1][..i] == samples[..i];
    }
    assert samples[..|samples|] == samples;
    forall b | 0 <= b < BinCount
      ensures bins[b] == Tally(samples, b)
    {
      CountBinsIsTally(samples, b);
    }
  }

  /** `(b / total) * 100` for every count, in exact arithmetic. */
  function Percent(counts: seq<nat>, total: nat): (r: seq<real>)
    requires total > 0
    ensures |r| == |counts|
  {
    if |counts| == 0 then []
    else [(counts[0] as real / total as real) * 100.0] + Percent(counts[1..], total)
  }

  function RealSum(xs: seq<real>): real {
    if |xs| == 0 then 0.0 else xs[0] + RealSum(xs[1..])
  }

  lemma DivideAdd(a: real, s: real, t: real)
    requires t > 0.0
    ensures (a / t) * 100.0 + (s / t) * 100.0 == ((a + s) / t) * 100.0
  {
    var q, p := a / t, s / t;
    assert q * t == a && p * t == s;
    assert (q + p) * t == a + s;
    assert (a + s) / t == q + p;
  }

  lemma SelfRatio(t: real)
    requires 0.0 < t
    ensures (t / t) * 100.0 == 100.0
  {}

  lemma RatioAtMostOne(a: real, t: real)
    requires 0.0 <= a <= t && 0.0 < t
    ensures 0.0 <= a / t <= 1.0
  {
    assert a / t * t == a;
  }

  lemma {:induction false} PercentSum(counts: seq<nat>, total: nat)
    requires total > 0
    ensures RealSum(Percent(counts, total)) == (Sum(counts) as real / total as real) * 100.0
  {
    if |counts| > 0 {
      PercentSum(counts[1..], total);
      DivideAdd(counts[0] as real, Sum(counts[1..]) as real, total as real);
    }
  }

  lemma {:induction false} PercentElement(counts: seq<nat>, total: nat, i: nat)
    requires total > 0 && i < |counts|
    ensures Percent(counts, total)[i] == (counts[i] as real / total as real) * 100.0
  {
    if i > 0 {
      PercentElement(counts[1..], total, i - 1);
    }
  }

  /** The shares of the six bins (the program always builds exactly six
      counts): undefined (Python raises a division by
      zero) when there are no samples; otherwise each share is the count's
      fraction of the total in percent, between 0 and 100, and they add up
      to exactly 100. */
  function Shares(bins: seq<nat>): (r: Option<seq<real>>)
    requires |bins| == BinCount
    ensures r.None? <==> Sum(bins) == 0
    ensures r.Some? ==> |r.value| == |bins|
    ensures r.Some? ==> RealSum(r.value) == 100.0
    ensures r.Some? ==> forall i :: 0 <= i < |bins| ==>
              r.value[i] == (bins[i] as real / Sum(bins) as real) * 100.0 &&
              0.0 <= r.value[i] <= 100.0
  {
    var total := Sum(bins);
    if total == 0 then None
    else
      PercentSum(bins, total);
      SelfRatio(total as real);
      assert forall i :: 0 <= i < |bins| ==>
        Percent(bins, total)[i] == (bins[i] as real / total as real) * 100.0 &&
        0.0 <= Percent(bins, total)[i] <= 100.0
      by {
        forall i | 0 <= i < |bins|
          ensures Percent(bins, total)[i] == (bins[i] as real / total as real) * 100.0
          ensures 0.0 <= Percent(bins, total)[i] <= 100.0
        {
          PercentElement(bins, total, i);
          CountAtMostSum(bins, i);
          RatioAtMostOne(bins[i] as real, total as real);
        }
      }
      Some(Percent(bins, total))
  }

  /** One refresh of the probability chart from a batch of skewed values:
      the shares exist exactly when the batch is non-empty, so the batch of
      100000 draws never divides by zero. */
  function LiveProbabilities(samples: seq<int>): (r: Option<seq<real>>)
    ensures r.Some? <==> |samples| > 0
    ensures |samples| == SampleCount ==> r.Some?
    ensures r.Some? ==> |r.value| == BinCount && RealSum(r.value) == 100.0
    ensures r.Some? ==> forall b :: 0 <= b < BinCount ==>
              r.value[b] == (Tally(samples, b) as real / |samples| as real) * 100.0
  {
    var bins := CountBins(samples);
    forall b | 0 <= b < BinCount
      ensures bins[b] == Tally(samples, b)
    {
      CountBinsIsTally(samples, b);
    }
    Shares(bins)
  }
}
