/** Bandwidth estimation over the caller's throughput history (kbps samples,
    oldest first): the moving-average and harmonic-mean estimators, the
    least-squares trend detector and the sample variance. Single-precision
    rounding is not modelled: every quantity is a `real`. */
module BandwidthEstimator {

  import opened RealFacts

  /** Weight of the newest sample in the moving average. */
  const Alpha: real := 0.3
  /** Fraction of the moving average reported as usable bandwidth. */
  const SafetyMargin: real := 0.8
  /** Normalised slope beyond which the trend is rising (or, negated, falling). */
  const TrendThreshold: real := 0.1

  /** Every sample lies in [lo, hi]. */
  predicate Within(h: seq<real>, lo: real, hi: real)
  {
    forall i :: 0 <= i < |h| ==> lo <= h[i] <= hi
  }

  /** Every sample equals the first. */
  predicate Constant(h: seq<real>)
  {
    forall i :: 0 <= i < |h| ==> h[i] == h[0]
  }

  // ---------------------------------------------------------------------------
  // Moving average (predict_bandwidth)
  // ---------------------------------------------------------------------------

  /** Moving average seeded with the first sample: each later sample x moves the
      estimate e to Alpha * x + (1 - Alpha) * e. */
  function Ewma(h: seq<real>): real
    requires |h| >= 1
  {
    if |h| == 1 then h[0]
    else Alpha * h[|h| - 1] + (1.0 - Alpha) * Ewma(h[..|h| - 1])
  }

  /** What predict_bandwidth reports: 0 for an empty history, otherwise
      SafetyMargin times the moving average. */
  function PredictedBandwidth(h: seq<real>): real
  {
    if |h| == 0 then 0.0 else SafetyMargin * Ewma(h)
  }

  method PredictBandwidth(history: seq<real>) returns (bw: real)
    ensures bw == PredictedBandwidth(history)
  {
    if |history| < 1 {
      return 0.0;
    }
    var ewma := history[0];
    var i := 1;
    while i < |history|
      invariant 1 <= i <= |history|
      invariant ewma == Ewma(history[..i])
    {
      assert history[..i + 1][..i] == history[..i];
      ewma := Alpha * history[i] + (1.0 - Alpha) * ewma;
      i := i + 1;
    }
    assert history[..i] == history;
    bw := ewma * SafetyMargin;
  }

  /** The moving average never leaves the range of the samples. */
  lemma {:induction false} EwmaWithin(h: seq<real>, lo: real, hi: real)
    requires |h| >= 1 && Within(h, lo, hi)
    ensures lo <= Ewma(h) <= hi
  {
    if |h| > 1 {
      EwmaWithin(h[..|h| - 1], lo, hi);
    }
  }

  /** A history of samples in [lo, hi] yields a prediction in [0.8 lo, 0.8 hi];
      in particular a constant history v yields exactly 0.8 v, whatever its length. */
  lemma PredictedBandwidthWithin(h: seq<real>, lo: real, hi: real)
    requires |h| >= 1 && Within(h, lo, hi)
    ensures SafetyMargin * lo <= PredictedBandwidth(h) <= SafetyMargin * hi
  {
    EwmaWithin(h, lo, hi);
  }

  lemma PredictedBandwidthOfConstant(h: seq<real>)
    requires |h| >= 1 && Constant(h)
    ensures PredictedBandwidth(h) == 0.8 * h[0]
  {
    PredictedBandwidthWithin(h, h[0], h[0]);
  }

  /** Positive samples give a positive moving average. */
  lemma {:induction false} EwmaPositive(h: seq<real>)
    requires |h| >= 1 && forall i :: 0 <= i < |h| ==> h[i] > 0.0
    ensures Ewma(h) > 0.0
  {
    if |h| > 1 {
      EwmaPositive(h[..|h| - 1]);
    }
  }

  /** With non-negative samples the prediction is non-negative, and it is 0 for
      a non-empty history only if some sample is not positive. */
  lemma PredictedBandwidthSign(h: seq<real>)
    requires forall i :: 0 <= i < |h| ==> h[i] >= 0.0
    ensures PredictedBandwidth(h) >= 0.0
    ensures (forall i :: 0 <= i < |h| ==> h[i] > 0.0) ==> (PredictedBandwidth(h) > 0.0 <==> |h| >= 1)
  {
    if |h| >= 1 {
      MaxIsUpperBound(h);
      EwmaWithin(h, 0.0, Max(h));
      if forall i :: 0 <= i < |h| ==> h[i] > 0.0 {
        EwmaPositive(h);
      }
    }
  }

  /** The largest sample (helper for bounds). */
  function Max(h: seq<real>): real
    requires |h| >= 1
  {
    if |h| == 1 then h[0]
    else var m := Max(h[..|h| - 1]); if h[|h| - 1] > m then h[|h| - 1] else m
  }

  lemma {:induction false} MaxIsUpperBound(h: seq<real>)
    requires |h| >= 1
    ensures forall i :: 0 <= i < |h| ==> h[i] <= Max(h)
  {
    if |h| > 1 {
      MaxIsUpperBound(h[..|h| - 1]);
      assert forall i :: 0 <= i < |h| - 1 ==> h[..|h| - 1][i] == h[i];
    }
  }

  // ---------------------------------------------------------------------------
  // Harmonic mean (predict_bandwidth_harmonic)
  // ---------------------------------------------------------------------------

  /** Number of strictly positive samples. */
  function PositiveCount(h: seq<real>): (c: nat)
    ensures c <= |h|
  {
    if |h| == 0 then 0
    else PositiveCount(h[..|h| - 1]) + (if h[|h| - 1] > 0.0 then 1 else 0)
  }

  /** Sum of the reciprocals of the strictly positive samples; it is positive
      exactly when some sample is. */
  function ReciprocalSum(h: seq<real>): (s: real)
    ensures s >= 0.0
    ensures s > 0.0 <==> PositiveCount(h) > 0
  {
    if |h| == 0 then 0.0
    else ReciprocalSum(h[..|h| - 1]) + (if h[|h| - 1] > 0.0 then 1.0 / h[|h| - 1] else 0.0)
  }

  /** What predict_bandwidth_harmonic reports: the harmonic mean of the positive
      samples, with no safety margin, or 0 when there is none. */
  function HarmonicBandwidth(h: seq<real>): real
  {
    if PositiveCount(h) == 0 then 0.0 else PositiveCount(h) as real / ReciprocalSum(h)
  }

  method PredictBandwidthHarmonic(history: seq<real>) returns (bw: real)
    ensures bw == HarmonicBandwidth(history)
  {
    if |history| < 1 {
      return 0.0;
    }
    var sumReciprocal := 0.0;
    var validCount := 0;
    for i := 0 to |history|
      invariant sumReciprocal == ReciprocalSum(history[..i])
      invariant validCount == PositiveCount(history[..i])
    {
      assert history[..i + 1][..i] == history[..i];
      if history[i] > 0.0 {
        sumReciprocal := sumReciprocal + 1.0 / history[i];
        validCount := validCount + 1;
      }
    }
    assert history[..|history|] == history;
    if validCount == 0 {
      return 0.0;
    }
    bw := validCount as real / sumReciprocal;
  }

  lemma {:induction false} ReciprocalSumBounds(h: seq<real>, lo: real, hi: real)
    requires 0.0 < lo
    requires forall i :: 0 <= i < |h| && h[i] > 0.0 ==> lo <= h[i] <= hi
    ensures CountBounds(lo, hi, ReciprocalSum(h), PositiveCount(h) as real)
  {
    if |h| > 0 {
      var init, x := h[..|h| - 1], h[|h| - 1];
      assert forall i :: 0 <= i < |init| ==> init[i] == h[i];
      ReciprocalSumBounds(init, lo, hi);
      var s, c := ReciprocalSum(init), PositiveCount(init) as real;
      if x > 0.0 {
        BoundsStep(lo, hi, s, c, x, ReciprocalSum(h), PositiveCount(h) as real);
      } else {
        assert ReciprocalSum(h) == s;
        assert PositiveCount(h) as real == c;
      }
    }
  }

  /** The harmonic mean lies between the smallest and the largest positive sample;
      non-positive samples take no part. */
  lemma HarmonicWithin(h: seq<real>, lo: real, hi: real)
    requires 0.0 < lo
    requires forall i :: 0 <= i < |h| && h[i] > 0.0 ==> lo <= h[i] <= hi
    requires PositiveCount(h) > 0
    ensures lo <= HarmonicBandwidth(h) <= hi
  {
    ReciprocalSumBounds(h, lo, hi);
    var c, s := PositiveCount(h) as real, ReciprocalSum(h);
    assert HarmonicBandwidth(h) == c / s;
    QuotientBounds(c, s, lo, hi);
  }

  /** c lies between lo * s and hi * s. */
  predicate CountBounds(lo: real, hi: real, s: real, c: real)
  {
    lo * s <= c <= hi * s
  }

  /** Adding one sample x in [lo, hi] to the count c and 1 / x to the sum s
      keeps c within [lo * s, hi * s]. */
  lemma BoundsStep(lo: real, hi: real, s: real, c: real, x: real, s': real, c': real)
    requires 0.0 < lo <= x <= hi && CountBounds(lo, hi, s, c)
    requires s' == s + 1.0 / x && c' == c + 1.0
    ensures CountBounds(lo, hi, s', c')
  {
    var r := 1.0 / x;
    assert r * x == 1.0;
    assert lo * r <= x * r;
    assert x * r <= hi * r;
    assert lo * (s + r) == lo * s + lo * r;
    assert hi * (s + r) == hi * s + hi * r;
  }

  lemma QuotientBounds(c: real, s: real, lo: real, hi: real)
    requires s > 0.0 && CountBounds(lo, hi, s, c)
    ensures lo <= c / s <= hi
  {
    var q := c / s;
    assert q * s == c;
  }

  /** A constant positive history has harmonic mean equal to that value. */
  lemma HarmonicOfConstant(h: seq<real>)
    requires |h| >= 1 && Constant(h) && h[0] > 0.0
    ensures HarmonicBandwidth(h) == h[0]
  {
    assert PositiveCount(h) >= 1 by {
      assert h[|h| - 1] > 0.0;
    }
    HarmonicWithin(h, h[0], h[0]);
  }

  /** Appending a non-positive sample leaves the harmonic estimate unchanged. */
  lemma HarmonicSkipsNonPositive(h: seq<real>, x: real)
    requires x <= 0.0
    ensures HarmonicBandwidth(h + [x]) == HarmonicBandwidth(h)
  {
    assert (h + [x])[..|h|] == h;
  }

  // ---------------------------------------------------------------------------
  // Least-squares trend (detect_bandwidth_trend)
  // ---------------------------------------------------------------------------

  /** Sum of the sample indices 0 .. n-1 (the source's sum_x). */
  function SumIndex(n: nat): real
  {
    if n == 0 then 0.0 else SumIndex(n - 1) + (n - 1) as real
  }

  /** Sum of the squared sample indices (sum_xx). */
  function SumIndexSquares(n: nat): real
  {
    if n == 0 then 0.0 else SumIndexSquares(n - 1) + (n - 1) as real * (n - 1) as real
  }

  /** Sum of the samples (sum_y). */
  function SumSamples(h: seq<real>): real
  {
    if |h| == 0 then 0.0 else SumSamples(h[..|h| - 1]) + h[|h| - 1]
  }

  /** Sum of index times sample (sum_xy). */
  function SumWeighted(h: seq<real>): real
  {
    if |h| == 0 then 0.0 else SumWeighted(h[..|h| - 1]) + (|h| - 1) as real * h[|h| - 1]
  }

  lemma {:induction false} SumIndexClosedForm(n: nat)
    ensures 2.0 * SumIndex(n) == n as real * (n as real - 1.0)
    ensures 6.0 * SumIndexSquares(n) == (n as real - 1.0) * n as real * (2.0 * n as real - 1.0)
  {
    if n > 0 {
      SumIndexClosedForm(n - 1);
    }
  }

  /** n * sum_xx - sum_x^2, the denominator of the least-squares slope. */
  function Spread(n: real, sx: real, sxx: real): real
  {
    n * sxx - sx * sx
  }

  /** The least-squares slope formed from the running sums of n points. */
  function SlopeFromSums(n: real, sx: real, sy: real, sxy: real, sxx: real): real
    requires Spread(n, sx, sxx) != 0.0
  {
    (n * sxy - sx * sy) / Spread(n, sx, sxx)
  }

  /** The slope denominator for the indices 0 .. n-1. */
  function IndexSpread(n: nat): real
  {
    Spread(n as real, SumIndex(n), SumIndexSquares(n))
  }

  /** The slope denominator equals n^2 (n^2 - 1) / 12, so it is positive for two
      or more samples and the slope is always defined. */
  lemma IndexSpreadClosedForm(n: nat)
    ensures 12.0 * IndexSpread(n) == n as real * n as real * (n as real * n as real - 1.0)
    ensures n >= 2 ==> IndexSpread(n) > 0.0
  {
    SumIndexClosedForm(n);
    var x := n as real;
    var sx, sxx := SumIndex(n), SumIndexSquares(n);
    SpreadFromSums(x, sx, sxx, 2.0 * sx, 6.0 * sxx);
    SpreadPolynomial(x);
    if n >= 2 {
      assert x * x >= 4.0;
      assert x * x * (x * x - 1.0) > 0.0;
    }
  }

  /** 12 * Spread written with the doubled index sum and the sextupled
      square sum. */
  lemma SpreadFromSums(x: real, sx: real, sxx: real, s2: real, s6: real)
    requires s2 == 2.0 * sx && s6 == 6.0 * sxx
    ensures 12.0 * Spread(x, sx, sxx) == 2.0 * x * s6 - 3.0 * s2 * s2
  {
    var a, b := x * sxx, sx * sx;
    assert Spread(x, sx, sxx) == a - b;
    assert 2.0 * x * s6 == 12.0 * a;
    assert s2 * s2 == 4.0 * b;
  }

  lemma SpreadPolynomial(x: real)
    ensures 2.0 * x * ((x - 1.0) * x * (2.0 * x - 1.0)) - 3.0 * (x * (x - 1.0)) * (x * (x - 1.0))
            == x * x * (x * x - 1.0)
  {
  }

  /** Least-squares slope of sample value against sample index. */
  function Slope(h: seq<real>): real
    requires |h| >= 2
  {
    IndexSpreadClosedForm(|h|);
    SlopeFromSums(|h| as real, SumIndex(|h|), SumSamples(h), SumWeighted(h), SumIndexSquares(|h|))
  }

  /** The trend label of a normalised slope: 1 rising, -1 falling, 0 stable. */
  function Classify(normSlope: real): (t: int)
    ensures t == 1 <==> normSlope > TrendThreshold
    ensures t == -1 <==> normSlope < -TrendThreshold
    ensures t == 0 <==> -TrendThreshold <= normSlope <= TrendThreshold
  {
    if normSlope > TrendThreshold then 1
    else if normSlope < -TrendThreshold then -1
    else 0
  }

  function Sign(x: real): int
  {
    if x > 0.0 then 1 else if x < 0.0 then -1 else 0
  }

  /** What detect_bandwidth_trend reports. With fewer than three samples the
      trend is stable. The slope is normalised by the mean sample; when the mean
      is exactly 0 the single-precision quotient is +inf, -inf or NaN, so the
      label is the sign of the slope. */
  function TrendOf(h: seq<real>): (t: int)
    ensures -1 <= t <= 1
    ensures |h| < 3 ==> t == 0
  {
    if |h| < 3 then 0 else TrendLabel(Slope(h), SumSamples(h) / |h| as real)
  }

  /** The label for a slope normalised by the mean sample avg. */
  function TrendLabel(slope: real, avg: real): int
  {
    if avg == 0.0 then Sign(slope) else Classify(slope / avg)
  }

  method DetectBandwidthTrend(history: seq<real>) returns (t: int)
    ensures t == TrendOf(history)
  {
    if |history| < 3 {
      return 0;
    }
    var sumX, sumY, sumXY, sumXX := 0.0, 0.0, 0.0, 0.0;
    for i := 0 to |history|
      invariant sumX == SumIndex(i) && sumXX == SumIndexSquares(i)
      invariant sumY == SumSamples(history[..i]) && sumXY == SumWeighted(history[..i])
    {
      assert history[..i + 1][..i] == history[..i];
      sumX := sumX + i as real;
      sumY := sumY + history[i];
      sumXY := sumXY + i as real * history[i];
      sumXX := sumXX + i as real * i as real;
    }
    assert history[..|history|] == history;
    IndexSpreadClosedForm(|history|);
    var n := |history| as real;
    var slope := SlopeFromSums(n, sumX, sumY, sumXY, sumXX);
    var avg := sumY / n;
    if avg == 0.0 {
      t := Sign(slope);
    } else {
      t := Classify(slope / avg);
    }
  }

  /** A history lying exactly on the line a + b * i. */
  predicate OnLine(h: seq<real>, a: real, b: real)
  {
    forall i :: 0 <= i < |h| ==> h[i] == a + b * i as real
  }

  lemma {:induction false} LineSums(h: seq<real>, a: real, b: real)
    requires OnLine(h, a, b)
    ensures LineSumsHold(|h| as real, a, b, SumIndex(|h|), SumIndexSquares(|h|), SumSamples(h), SumWeighted(h))
  {
    if |h| > 0 {
      var n := |h|;
      var k := (n - 1) as real;
      var init := h[..n - 1];
      assert OnLine(init, a, b) by {
        assert forall i :: 0 <= i < |init| ==> init[i] == h[i];
      }
      LineSums(init, a, b);
      var x := h[n - 1];
      assert x == a + b * k;
      assert |init| as real == k;
      var si, sii := SumIndex(n - 1), SumIndexSquares(n - 1);
      assert SumIndex(n) == si + k;
      assert SumIndexSquares(n) == sii + k * k;
      assert SumSamples(h) == SumSamples(init) + x;
      assert SumWeighted(h) == SumWeighted(init) + k * x;
      LineStep(a, b, k, si, sii, SumSamples(init), SumWeighted(init), x,
               |h| as real, SumIndex(n), SumIndexSquares(n), SumSamples(h), SumWeighted(h));
    }
  }

  /** The running sums of n points on the line a + b * i, in terms of the index
      sums sx and sxx: sum_y = n a + b sx and sum_xy = a sx + b sxx. */
  predicate LineSumsHold(n: real, a: real, b: real, sx: real, sxx: real, sy: real, sxy: real)
  {
    sy == n * a + b * sx && sxy == a * sx + b * sxx
  }

  /** The least-squares slope of a history on the line a + b * i is b. */
  lemma SlopeOfLine(h: seq<real>, a: real, b: real)
    requires |h| >= 2 && OnLine(h, a, b)
    ensures Slope(h) == b
  {
    LineSums(h, a, b);
    IndexSpreadClosedForm(|h|);
    SlopeOfLineSums(|h| as real, SumIndex(|h|), SumIndexSquares(|h|), a, b, SumSamples(h), SumWeighted(h));
  }

  lemma SlopeOfLineSums(n: real, sx: real, sxx: real, a: real, b: real, sy: real, sxy: real)
    requires Spread(n, sx, sxx) != 0.0
    requires LineSumsHold(n, a, b, sx, sxx, sy, sxy)
    ensures SlopeFromSums(n, sx, sy, sxy, sxx) == b
  {
    LineNumerator(n, sx, sxx, a, b);
    CancelFactor(b, Spread(n, sx, sxx));
  }

  /** A constant history is stable. */
  lemma TrendOfConstant(h: seq<real>)
    requires Constant(h)
    ensures TrendOf(h) == 0
  {
    if |h| >= 3 {
      assert OnLine(h, h[0], 0.0);
      SlopeOfLine(h, h[0], 0.0);
    }
  }

  /** The ramp 1, 2, 3, 4, 5 is rising and its reverse is falling. */
  lemma TrendOfRamps()
    ensures TrendOf([1.0, 2.0, 3.0, 4.0, 5.0]) == 1
    ensures TrendOf([5.0, 4.0, 3.0, 2.0, 1.0]) == -1
  {
    var up, down := [1.0, 2.0, 3.0, 4.0, 5.0], [5.0, 4.0, 3.0, 2.0, 1.0];
    SumIndexClosedForm(5);
    assert OnLine(up, 1.0, 1.0);
    SlopeOfLine(up, 1.0, 1.0);
    LineSums(up, 1.0, 1.0);
    assert SumSamples(up) / 5.0 == 3.0;
    assert OnLine(down, 5.0, -1.0);
    SlopeOfLine(down, 5.0, -1.0);
    LineSums(down, 5.0, -1.0);
    assert SumSamples(down) / 5.0 == 3.0;
  }

  /** Every sample multiplied by c. */
  function Scaled(h: seq<real>, c: real): (r: seq<real>)
    ensures |r| == |h| && forall i :: 0 <= i < |h| ==> r[i] == c * h[i]
  {
    seq(|h|, i requires 0 <= i < |h| => c * h[i])
  }

  lemma {:induction false} ScaledSamples(h: seq<real>, g: seq<real>, c: real)
    requires |g| == |h| && forall i :: 0 <= i < |h| ==> g[i] == c * h[i]
    ensures SumSamples(g) == c * SumSamples(h)
  {
    if |h| > 0 {
      var n := |h|;
      var hi, gi := h[..n - 1], g[..n - 1];
      ScaledSamples(hi, gi, c);
      SumStep(c, 1.0, h[n - 1], SumSamples(hi), SumSamples(gi), SumSamples(h), SumSamples(g));
    }
  }

  lemma {:induction false} ScaledWeighted(h: seq<real>, g: seq<real>, c: real)
    requires |g| == |h| && forall i :: 0 <= i < |h| ==> g[i] == c * h[i]
    ensures SumWeighted(g) == c * SumWeighted(h)
  {
    if |h| > 0 {
      var n := |h|;
      var hi, gi := h[..n - 1], g[..n - 1];
      ScaledWeighted(hi, gi, c);
      SumStep(c, (n - 1) as real, h[n - 1], SumWeighted(hi), SumWeighted(gi), SumWeighted(h), SumWeighted(g));
    }
  }

  /** The trend is unit-free: scaling every sample by a positive factor (kbps to
      Mbps, say) does not change it. */
  lemma TrendScaleInvariant(h: seq<real>, c: real)
    requires c > 0.0
    ensures TrendOf(Scaled(h, c)) == TrendOf(h)
  {
    if |h| >= 3 {
      var g := Scaled(h, c);
      ScaledSlopeOf(h, g, c);
      ScaledSamples(h, g, c);
      ScaledRatio(SumSamples(g), SumSamples(h), c, |g| as real);
      ScaledLabel(c, Slope(h), SumSamples(h) / |h| as real, Slope(g), SumSamples(g) / |g| as real);
    }
  }

  /** Scaling the samples scales the slope. */
  lemma ScaledSlopeOf(h: seq<real>, g: seq<real>, c: real)
    requires |h| >= 2 && |g| == |h| && forall i :: 0 <= i < |h| ==> g[i] == c * h[i]
    ensures Slope(g) == c * Slope(h)
  {
    ScaledSamples(h, g, c);
    ScaledWeighted(h, g, c);
    IndexSpreadClosedForm(|h|);
    var n, sx, sxx := |h| as real, SumIndex(|h|), SumIndexSquares(|h|);
    ScaledSlope(c, n, sx, SumSamples(h), SumWeighted(h), sxx);
  }

  lemma ScaledRatio(a: real, b: real, c: real, n: real)
    requires a == c * b && n != 0.0
    ensures a / n == c * (b / n)
  {
    ScaleQuotient(c, b, n);
  }

  // ---------------------------------------------------------------------------
  // Sample variance (calculate_bandwidth_variance)
  // ---------------------------------------------------------------------------

  /** Sum of squared deviations of the samples from m. */
  function SquaredDeviations(h: seq<real>, m: real): (r: real)
    ensures r >= 0.0
  {
    if |h| == 0 then 0.0
    else
      var d := h[|h| - 1] - m;
      SquareFacts(d);
      SquaredDeviations(h[..|h| - 1], m) + Square(d)
  }

  function Square(d: real): real
  {
    d * d
  }

  /** A square is non-negative, and positive unless its root is 0. */
  lemma SquareFacts(d: real)
    ensures Square(d) >= 0.0
    ensures d != 0.0 ==> Square(d) > 0.0
  {
    if d > 0.0 {
      ProductPositive(d, d, Square(d));
    } else if d < 0.0 {
      ProductPositive(-d, -d, Square(d));
    }
  }


  function Mean(h: seq<real>): real
    requires |h| >= 1
  {
    SumSamples(h) / |h| as real
  }

  /** What calculate_bandwidth_variance reports: the sample variance with an
      N - 1 denominator, or 0 for fewer than two samples. */
  function Variance(h: seq<real>): (v: real)
    ensures v >= 0.0
  {
    if |h| < 2 then 0.0 else SquaredDeviations(h, Mean(h)) / (|h| - 1) as real
  }

  method BandwidthVariance(history: seq<real>) returns (v: real)
    ensures v == Variance(history)
  {
    if |history| < 2 {
      return 0.0;
    }
    var mean := 0.0;
    for i := 0 to |history|
      invariant mean == SumSamples(history[..i])
    {
      assert history[..i + 1][..i] == history[..i];
      mean := mean + history[i];
    }
    assert history[..|history|] == history;
    mean := mean / |history| as real;
    assert mean == Mean(history);
    var variance := 0.0;
    for i := 0 to |history|
      invariant variance == SquaredDeviations(history[..i], mean)
    {
      assert history[..i + 1][..i] == history[..i];
      var diff := history[i] - mean;
      variance := variance + Square(diff);
    }
    assert history[..|history|] == history;
    v := variance / (|history| - 1) as real;
  }

  lemma {:induction false} SumOfConstant(h: seq<real>, x: real)
    requires forall i :: 0 <= i < |h| ==> h[i] == x
    ensures SumSamples(h) == |h| as real * x
  {
    if |h| > 0 {
      SumOfConstant(h[..|h| - 1], x);
    }
  }

  lemma {:induction false} SquaredDeviationsZero(h: seq<real>, m: real)
    ensures SquaredDeviations(h, m) == 0.0 <==> forall i :: 0 <= i < |h| ==> h[i] == m
  {
    if |h| > 0 {
      var init, x := h[..|h| - 1], h[|h| - 1];
      var d := x - m;
      SquaredDeviationsZero(init, m);
      SquareFacts(d);
      var rest := SquaredDeviations(init, m);
      assert SquaredDeviations(h, m) == rest + Square(d);
      assert forall i :: 0 <= i < |init| ==> init[i] == h[i];
      if SquaredDeviations(h, m) == 0.0 {
        assert d == 0.0 && rest == 0.0;
      } else if rest == 0.0 {
        assert d != 0.0;
        assert h[|h| - 1] != m;
      } else {
        var j :| 0 <= j < |init| && init[j] != m;
        assert h[j] != m;
      }
    }
  }

  /** The variance is 0 exactly when there are fewer than two samples or all
      samples are equal. */
  lemma VarianceZeroIffConstant(h: seq<real>)
    ensures Variance(h) == 0.0 <==> |h| < 2 || Constant(h)
  {
    if |h| >= 2 {
      var m := Mean(h);
      SquaredDeviationsZero(h, m);
      if Constant(h) {
        SumOfConstant(h, h[0]);
        assert m == h[0];
      }
    }
  }

  // ---------------------------------------------------------------------------
  // Real-arithmetic steps used by the proofs above
  // ---------------------------------------------------------------------------

  lemma LineStep(a: real, b: real, k: real, si: real, sii: real, s: real, w: real, x: real,
                 n': real, si': real, sii': real, s': real, w': real)
    requires LineSumsHold(k, a, b, si, sii, s, w) && x == a + b * k
    requires n' == k + 1.0 && si' == si + k && sii' == sii + k * k && s' == s + x && w' == w + k * x
    ensures LineSumsHold(n', a, b, si', sii', s', w')
  {
  }

  lemma LineNumerator(n: real, sx: real, sxx: real, a: real, b: real)
    ensures n * (a * sx + b * sxx) - sx * (n * a + b * sx) == b * (n * sxx - sx * sx)
  {
  }

  lemma CancelFactor(b: real, d: real)
    requires d != 0.0
    ensures (b * d) / d == b
  {
  }

  /** Adding the term k * x to a sum s and k * (c * x) to its scaled copy g
      keeps g == c * s. */
  lemma SumStep(c: real, k: real, x: real, s: real, g: real, s': real, g': real)
    requires g == c * s && s' == s + k * x && g' == g + k * (c * x)
    ensures g' == c * s'
  {
  }

  lemma ScaleNumerator(c: real, n: real, sx: real, s: real, w: real)
    ensures n * (c * w) - sx * (c * s) == c * (n * w - sx * s)
  {
  }

  lemma ScaledSlope(c: real, n: real, sx: real, s: real, w: real, sxx: real)
    requires Spread(n, sx, sxx) != 0.0
    ensures SlopeFromSums(n, sx, c * s, c * w, sxx) == c * SlopeFromSums(n, sx, s, w, sxx)
  {
    ScaleNumerator(c, n, sx, s, w);
    ScaleQuotient(c, n * w - sx * s, Spread(n, sx, sxx));
  }

  lemma ScaleQuotient(c: real, x: real, y: real)
    requires y != 0.0
    ensures (c * x) / y == c * (x / y)
  {
  }

  /** Scaling slope and mean by the same positive factor keeps the label. */
  lemma ScaledLabel(c: real, slope: real, avg: real, slope': real, avg': real)
    requires c > 0.0 && slope' == c * slope && avg' == c * avg
    ensures TrendLabel(slope', avg') == TrendLabel(slope, avg)
  {
    if avg == 0.0 {
      assert c * avg == 0.0;
      assert c * slope > 0.0 <==> slope > 0.0;
      assert c * slope < 0.0 <==> slope < 0.0;
    } else {
      assert c * avg != 0.0;
      assert (c * slope) / (c * avg) == slope / avg;
    }
  }
}
