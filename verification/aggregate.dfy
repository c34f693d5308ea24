/** Aggregation of the billing service's time buckets.

    Both operations reduce the bucket list from left to right, truncating each
    bucket's amount to whole cents before adding it. The cost total is returned
    as summed; the three forecast totals are truncated once more after summing.
 */
module Aggregate {
  import opened Money

  /** The exact sum of the amounts, without any truncation. */
  function Sum(xs: seq<real>): real {
    if |xs| == 0 then 0.0 else Sum(xs[..|xs| - 1]) + xs[|xs| - 1]
  }

  /** The cost reduce: starting from 0, add each bucket's truncated amount in order. */
  function CostTotal(amounts: seq<real>): (t: real)
    ensures WholeCents(t)
    ensures t <= Sum(amounts)
    ensures |amounts| > 0 ==> Sum(amounts) - t < 0.01 * |amounts| as real
    ensures |amounts| == 0 ==> t == 0.0
  {
    if |amounts| == 0 then 0.0
    else
      var prefix := CostTotal(amounts[..|amounts| - 1]);
      WholeCentsAdd(prefix, Normalize(amounts[|amounts| - 1]));
      prefix + Normalize(amounts[|amounts| - 1])
  }

  /** The bucket list can be split anywhere: the total is the sum of the parts' totals. */
  lemma {:induction false} CostTotalAppend(a: seq<real>, b: seq<real>)
    ensures CostTotal(a + b) == CostTotal(a) + CostTotal(b)
    decreases |b|
  {
    if |b| > 0 {
      var b' := b[..|b| - 1];
      assert (a + b)[..|a + b| - 1] == a + b';
      assert (a + b)[|a + b| - 1] == b[|b| - 1];
      CostTotalAppend(a, b');
    } else {
      assert a + b == a;
    }
  }

  /** Raising any bucket's amount never lowers the total. */
  lemma {:induction false} CostTotalMonotone(a: seq<real>, b: seq<real>)
    requires |a| == |b|
    requires forall i :: 0 <= i < |a| ==> a[i] <= b[i]
    ensures CostTotal(a) <= CostTotal(b)
    decreases |a|
  {
    if |a| > 0 {
      var n := |a| - 1;
      CostTotalMonotone(a[..n], b[..n]);
      NormalizeMonotone(a[n], b[n]);
    }
  }

  /** The cost total is already whole cents, so a final truncation would not change it. */
  lemma CostTotalIsFinal(amounts: seq<real>)
    ensures Normalize(CostTotal(amounts)) == CostTotal(amounts)
  {
    NormalizeFixesWholeCents(CostTotal(amounts));
  }

  // ---------------------------------------------------------------------------
  // Forecast

  /** One forecast bucket: mean value and the bounds of the prediction interval. */
  datatype ForecastBucket = ForecastBucket(mean: real, lower: real, upper: real)

  datatype ForecastTotals = ForecastTotals(mean: real, lowerBound: real, upperBound: real)

  function Means(bs: seq<ForecastBucket>): seq<real> {
    seq(|bs|, i requires 0 <= i < |bs| => bs[i].mean)
  }

  function Lowers(bs: seq<ForecastBucket>): seq<real> {
    seq(|bs|, i requires 0 <= i < |bs| => bs[i].lower)
  }

  function Uppers(bs: seq<ForecastBucket>): seq<real> {
    seq(|bs|, i requires 0 <= i < |bs| => bs[i].upper)
  }

  /** The forecast reduce: one accumulator per field, each bucket's values truncated and added. */
  function Accumulate(bs: seq<ForecastBucket>): (acc: ForecastTotals)
    ensures acc.mean == CostTotal(Means(bs))
    ensures acc.lowerBound == CostTotal(Lowers(bs))
    ensures acc.upperBound == CostTotal(Uppers(bs))
  {
    if |bs| == 0 then ForecastTotals(0.0, 0.0, 0.0)
    else
      var n := |bs| - 1;
      var acc := Accumulate(bs[..n]);
      var b := bs[n];
      assert Means(bs)[..n] == Means(bs[..n]);
      assert Lowers(bs)[..n] == Lowers(bs[..n]);
      assert Uppers(bs)[..n] == Uppers(bs[..n]);
      ForecastTotals(acc.mean + Normalize(b.mean),
                     acc.lowerBound + Normalize(b.lower),
                     acc.upperBound + Normalize(b.upper))
  }

  /** Every bucket's interval holds its mean. */
  predicate Ordered(bs: seq<ForecastBucket>) {
    forall i :: 0 <= i < |bs| ==> bs[i].lower <= bs[i].mean <= bs[i].upper
  }

  /** The forecast result: the accumulated totals, each truncated again. */
  function ForecastSummary(bs: seq<ForecastBucket>): (r: ForecastTotals)
    ensures WholeCents(r.mean) && WholeCents(r.lowerBound) && WholeCents(r.upperBound)
    ensures |bs| == 0 ==> r == ForecastTotals(0.0, 0.0, 0.0)
    ensures Ordered(bs) ==> r.lowerBound <= r.mean <= r.upperBound
  {
    var acc := Accumulate(bs);
    AccumulateOrdered(bs);
    NormalizeFixesWholeCents(0.0);
    ForecastTotals(Normalize(acc.mean), Normalize(acc.lowerBound), Normalize(acc.upperBound))
  }

  /** Summing truncated values, and truncating the sums, keeps the order of the buckets' bounds. */
  lemma AccumulateOrdered(bs: seq<ForecastBucket>)
    ensures var acc := Accumulate(bs);
      Ordered(bs) ==>
        && acc.lowerBound <= acc.mean <= acc.upperBound
        && Normalize(acc.lowerBound) <= Normalize(acc.mean) <= Normalize(acc.upperBound)
  {
    if Ordered(bs) {
      var acc := Accumulate(bs);
      CostTotalMonotone(Lowers(bs), Means(bs));
      CostTotalMonotone(Means(bs), Uppers(bs));
      NormalizeMonotone(acc.lowerBound, acc.mean);
      NormalizeMonotone(acc.mean, acc.upperBound);
    }
  }

  /** In exact arithmetic the second truncation changes nothing: each forecast field is
      the same per-bucket truncated sum that the cost operation computes. */
  lemma ForecastSummaryIsCostTotals(bs: seq<ForecastBucket>)
    ensures ForecastSummary(bs)
         == ForecastTotals(CostTotal(Means(bs)), CostTotal(Lowers(bs)), CostTotal(Uppers(bs)))
  {
    CostTotalIsFinal(Means(bs));
    CostTotalIsFinal(Lowers(bs));
    CostTotalIsFinal(Uppers(bs));
  }

  /** Each forecast field is within one cent per bucket below the exact sum. */
  lemma ForecastSummaryBounds(bs: seq<ForecastBucket>)
    requires |bs| > 0
    ensures var r := ForecastSummary(bs);
      && r.mean <= Sum(Means(bs)) && Sum(Means(bs)) - r.mean < 0.01 * |bs| as real
      && r.lowerBound <= Sum(Lowers(bs)) && Sum(Lowers(bs)) - r.lowerBound < 0.01 * |bs| as real
      && r.upperBound <= Sum(Uppers(bs)) && Sum(Uppers(bs)) - r.upperBound < 0.01 * |bs| as real
  {
    ForecastSummaryIsCostTotals(bs);
  }
}
