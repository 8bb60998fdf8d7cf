/** The engine's combined recommendation (get_comprehensive_recommendation):
    a trend-adjusted bandwidth prediction, a confidence derived from the
    spread of the samples, the QoE-maximising rendition, its rebuffer risk
    and its QoE score. */
module Recommendation {

  import opened RealFacts
  import opened Ladder
  import opened BandwidthEstimator
  import opened BufferModel
  import opened Qoe
  import opened QoeMaximizer
  import opened QualitySelection

  /** Factor applied to the prediction when the bandwidth is falling. */
  const FallingFactor: real := 0.85
  /** Factor applied to the prediction when the bandwidth is rising. */
  const RisingFactor: real := 1.1

  /** The four values the engine writes into its result buffer. */
  datatype Advice = Advice(quality: int, confidence: real, risk: real, qoe: real)

  /** The moving-average prediction, lowered when the trend is falling and
      raised when it is rising. */
  function AdjustedBandwidth(history: seq<real>): real
  {
    var predicted := PredictedBandwidth(history);
    var trend := TrendOf(history);
    if trend == -1 then predicted * FallingFactor
    else if trend == 1 then predicted * RisingFactor
    else predicted
  }

  /** Confidence 1 - min(deviation / bandwidth, 1). With a zero bandwidth the
      IEEE quotient is +inf or NaN, and fminf turns both into 1, so the
      confidence is 0. */
  function Confidence(deviation: real, bandwidth: real): (c: real)
    requires deviation >= 0.0
    ensures bandwidth >= 0.0 ==> 0.0 <= c <= 1.0
    ensures bandwidth < 0.0 ==> c >= 1.0
    ensures bandwidth > 0.0 ==> (c == 1.0 <==> deviation == 0.0)
    ensures bandwidth > 0.0 ==> (c == 0.0 <==> deviation >= bandwidth)
    ensures bandwidth == 0.0 ==> c == 0.0
  {
    if bandwidth == 0.0 then 0.0
    else
      var ratio := deviation / bandwidth;
      RatioFacts(deviation, bandwidth, ratio);
      1.0 - (if ratio < 1.0 then ratio else 1.0)
  }

  /** The result for rendition `quality`: its rebuffer risk and QoE score at
      the adjusted bandwidth, with the confidence. */
  function Assemble(ladder: seq<int>, bandwidth: real, quality: int, buffer: real, segment: real, current: int,
                    deviation: real): (a: Advice)
    requires ValidLadder(ladder) && 0 <= quality < |ladder| && (bandwidth != 0.0 || segment != 0.0)
    requires deviation >= 0.0
    ensures a.quality == quality
    ensures 0.0 <= a.risk <= 1.0 && 0.0 <= a.qoe <= 1.0
    ensures a.qoe == LevelQoe(ladder, quality, buffer, segment, bandwidth, current)
  {
    assert ladder[0] <= ladder[quality];
    var risk := DownloadRisk(buffer, ladder[quality], segment, bandwidth);
    Advice(quality, Confidence(deviation, bandwidth), risk,
           EstimateQoe(|ladder|, quality, risk, SwitchPenalty(quality, current)))
  }

  /** What the engine's sample spread needs: `deviation` is the square root
      of the sample variance (sqrtf is supplied by the caller). */
  predicate IsDeviation(history: seq<real>, deviation: real)
  {
    deviation >= 0.0 && Square(deviation) == Variance(history)
  }

  /** get_comprehensive_recommendation as written: the rendition is the
      QoE-maximising one at the adjusted bandwidth. */
  function Recommend(ladder: seq<int>, history: seq<real>, buffer: real, segment: real, current: int,
                     maxQuality: int, deviation: real): (a: Advice)
    requires ValidLadder(ladder) && IsDeviation(history, deviation)
    requires segment != 0.0 || AdjustedBandwidth(history) != 0.0
    ensures 0 <= a.quality < |ladder| && (a.quality == 0 || a.quality <= ActualMax(ladder, maxQuality))
  {
    var bw := AdjustedBandwidth(history);
    Assemble(ladder, bw, QoeMaximizingLevel(ladder, bw, buffer, segment, current, maxQuality),
             buffer, segment, current, deviation)
  }

  /** The rendition choice with the guard the engine is missing: when even
      the lowest rendition is certain to rebuffer, take the lowest. */
  function SafeLevel(ladder: seq<int>, bandwidth: real, buffer: real, segment: real, current: int,
                     maxQuality: int): (q: int)
    requires ValidLadder(ladder) && (bandwidth != 0.0 || segment != 0.0)
    ensures 0 <= q < |ladder| && (q == 0 || q <= ActualMax(ladder, maxQuality))
  {
    if DownloadRisk(buffer, ladder[0], segment, bandwidth) == 1.0 then 0
    else QoeMaximizingLevel(ladder, bandwidth, buffer, segment, current, maxQuality)
  }

  /** The recommendation with SafeLevel in place of the plain maximiser. */
  function RecommendCorrected(ladder: seq<int>, history: seq<real>, buffer: real, segment: real, current: int,
                              maxQuality: int, deviation: real): (a: Advice)
    requires ValidLadder(ladder) && IsDeviation(history, deviation)
    requires segment != 0.0 || AdjustedBandwidth(history) != 0.0
    ensures 0 <= a.quality < |ladder| && (a.quality == 0 || a.quality <= ActualMax(ladder, maxQuality))
  {
    var bw := AdjustedBandwidth(history);
    Assemble(ladder, bw, SafeLevel(ladder, bw, buffer, segment, current, maxQuality),
             buffer, segment, current, deviation)
  }

  method GetComprehensiveRecommendation(ladder: seq<int>, history: seq<real>, buffer: real, segment: real,
                                        current: int, maxQuality: int, deviation: real) returns (a: Advice)
    requires ValidLadder(ladder) && IsDeviation(history, deviation)
    requires segment != 0.0 || AdjustedBandwidth(history) != 0.0
    ensures a == Recommend(ladder, history, buffer, segment, current, maxQuality, deviation)
  {
    var predicted := PredictBandwidth(history);
    var variance := BandwidthVariance(history);
    var trend := DetectBandwidthTrend(history);
    if trend == -1 {
      predicted := predicted * FallingFactor;
    }
    if trend == 1 {
      predicted := predicted * RisingFactor;
    }
    var confidence := Confidence(deviation, predicted);
    var quality := SelectQualityMaximizeQoe(ladder, predicted, buffer, segment, current, maxQuality);
    assert ladder[0] <= ladder[quality];
    var risk := DownloadRisk(buffer, ladder[quality], segment, predicted);
    var qoe := EstimateQoe(|ladder|, quality, risk, if quality != current then 1.0 else 0.0);
    a := Advice(quality, confidence, risk, qoe);
  }

  // ---------------------------------------------------------------------------
  // Properties
  // ---------------------------------------------------------------------------

  /** The reported QoE is the best score among the allowed renditions, and
      the risk and the score lie in [0, 1]. */
  lemma RecommendIsBest(ladder: seq<int>, history: seq<real>, buffer: real, segment: real, current: int,
                        maxQuality: int, deviation: real, j: int)
    requires ValidLadder(ladder) && IsDeviation(history, deviation)
    requires segment != 0.0 || AdjustedBandwidth(history) != 0.0
    requires 0 <= j <= ActualMax(ladder, maxQuality)
    ensures var a := Recommend(ladder, history, buffer, segment, current, maxQuality, deviation);
            && 0.0 <= a.risk <= 1.0 && 0.0 <= a.qoe <= 1.0
            && LevelQoe(ladder, j, buffer, segment, AdjustedBandwidth(history), current) <= a.qoe
  {
    var bw := AdjustedBandwidth(history);
    QoeMaximizingLevelIsOptimal(ladder, bw, buffer, segment, current, maxQuality, j);
  }

  /** A steady positive bandwidth is predicted at the safety margin with full
      confidence. */
  lemma RecommendOfSteadyBandwidth(ladder: seq<int>, history: seq<real>, buffer: real, segment: real,
                                   current: int, maxQuality: int, deviation: real)
    requires ValidLadder(ladder) && IsDeviation(history, deviation)
    requires |history| >= 1 && Constant(history) && history[0] > 0.0
    ensures AdjustedBandwidth(history) == SafetyMargin * history[0]
    ensures Recommend(ladder, history, buffer, segment, current, maxQuality, deviation).confidence == 1.0
  {
    TrendOfConstant(history);
    PredictedBandwidthOfConstant(history);
    VarianceZeroIffConstant(history);
    SquareFacts(deviation);
  }

  /** When the lowest rendition is certain to rebuffer, so is every
      rendition: the download rate only grows with the bitrate. */
  lemma {:induction false} LowestCertainMeansAllCertain(ladder: seq<int>, bandwidth: real, buffer: real,
                                                        segment: real, q: int)
    requires ValidLadder(ladder) && (bandwidth != 0.0 || segment != 0.0) && 0 <= q < |ladder|
    requires DownloadRisk(buffer, ladder[0], segment, bandwidth) == 1.0
    ensures DownloadRisk(buffer, ladder[q], segment, bandwidth) == 1.0
  {
    assert ladder[0] <= ladder[q];
    if buffer > 0.0 && bandwidth != 0.0 {
      var b0, bq := ladder[0] as real, ladder[q] as real;
      var d0, dq := b0 * segment / bandwidth, bq * segment / bandwidth;
      RiskOfPositiveBandwidthLink(buffer, ladder[0], segment, bandwidth, d0);
      RiskOfPositiveBandwidthLink(buffer, ladder[q], segment, bandwidth, dq);
      SlowerRenditionOutpaced(b0, bq, segment, bandwidth, d0, dq);
    }
  }

  /** The corrected choice agrees with the engine whenever the lowest
      rendition has some chance of playing without a rebuffer, and takes the
      lowest rendition exactly when every rendition is certain to rebuffer. */
  lemma SafeLevelIsIntended(ladder: seq<int>, bandwidth: real, buffer: real, segment: real, current: int,
                            maxQuality: int)
    requires ValidLadder(ladder) && (bandwidth != 0.0 || segment != 0.0)
    ensures DownloadRisk(buffer, ladder[0], segment, bandwidth) < 1.0 ==>
              SafeLevel(ladder, bandwidth, buffer, segment, current, maxQuality)
              == QoeMaximizingLevel(ladder, bandwidth, buffer, segment, current, maxQuality)
    ensures (forall q :: 0 <= q < |ladder| ==> DownloadRisk(buffer, ladder[q], segment, bandwidth) == 1.0) <==>
              DownloadRisk(buffer, ladder[0], segment, bandwidth) == 1.0
    ensures DownloadRisk(buffer, ladder[0], segment, bandwidth) == 1.0 ==>
              SafeLevel(ladder, bandwidth, buffer, segment, current, maxQuality) == 0
  {
    if DownloadRisk(buffer, ladder[0], segment, bandwidth) == 1.0 {
      forall q | 0 <= q < |ladder|
        ensures DownloadRisk(buffer, ladder[q], segment, bandwidth) == 1.0
      {
        LowestCertainMeansAllCertain(ladder, bandwidth, buffer, segment, q);
      }
    }
  }

  /** With 300 kbps measured three times, 10 s of buffer, 4 s segments, the
      current rendition 480p and the cap 1080p, the engine recommends 1080p,
      where the buffer-based selector at the same predicted bandwidth drops
      to 240p; the corrected recommendation is 240p. */
  lemma SlowLinkRecommendsTop()
    ensures IsDeviation([300.0, 300.0, 300.0], 0.0)
    ensures AdjustedBandwidth([300.0, 300.0, 300.0]) == 240.0
    ensures Recommend(ReferenceLadder, [300.0, 300.0, 300.0], 10.0, 4.0, 2, 4, 0.0).quality == 4
    ensures RecommendCorrected(ReferenceLadder, [300.0, 300.0, 300.0], 10.0, 4.0, 2, 4, 0.0).quality == 0
    ensures QualityLevel(ReferenceLadder, 240.0, 10.0, 2, 4) == 0
  {
    SlowLinkHistory();
    SlowLinkMaximizer();
    SlowLinkSelector();
  }

  lemma SlowLinkHistory()
    ensures ValidLadder(ReferenceLadder)
    ensures IsDeviation([300.0, 300.0, 300.0], 0.0)
    ensures AdjustedBandwidth([300.0, 300.0, 300.0]) == 240.0
  {
    var h := [300.0, 300.0, 300.0];
    ReferenceLadderIsValid();
    assert Constant(h);
    VarianceZeroIffConstant(h);
    assert Square(0.0) == 0.0;
    RecommendOfSteadyBandwidth(ReferenceLadder, h, 10.0, 4.0, 2, 4, 0.0);
  }

  lemma SlowLinkSelector()
    ensures ValidLadder(ReferenceLadder)
    ensures QualityLevel(ReferenceLadder, 240.0, 10.0, 2, 4) == 0
  {
    ReferenceLadderIsValid();
  }

  /** At 240 kbps with 10 s of buffer and 4 s segments every rendition of
      the reference ladder is certain to rebuffer, and from 480p with the cap
      1080p the maximiser picks 1080p. */
  lemma SlowLinkMaximizer()
    ensures ValidLadder(ReferenceLadder)
    ensures DownloadRisk(10.0, ReferenceLadder[0], 4.0, 240.0) == 1.0
    ensures QoeMaximizingLevel(ReferenceLadder, 240.0, 10.0, 4.0, 2, 4) == 4
  {
    ReferenceLadderIsValid();
    RiskOfPositiveBandwidthLink(10.0, ReferenceLadder[0], 4.0, 240.0, 400.0 * 4.0 / 240.0);
    forall q | 0 <= q < |ReferenceLadder|
      ensures DownloadRisk(10.0, ReferenceLadder[q], 4.0, 240.0) == 1.0
    {
      LowestCertainMeansAllCertain(ReferenceLadder, 240.0, 10.0, 4.0, q);
    }
    var scores := seq(5, q requires 0 <= q < 5 => LevelQoe(ReferenceLadder, q, 10.0, 4.0, 240.0, 2));
    assert scores[0] == 0.0 && scores[1] == 0.0 && scores[2] == 0.0 && scores[3] == 0.0;
    assert scores[4] == 0.2;
  }

  // ---------------------------------------------------------------------------
  // Real-arithmetic steps
  // ---------------------------------------------------------------------------

  lemma RatioFacts(x: real, d: real, q: real)
    requires x >= 0.0 && d != 0.0 && q == x / d
    ensures d > 0.0 ==> q >= 0.0 && (q < 1.0 <==> x < d) && (q == 0.0 <==> x == 0.0)
  {
    if d > 0.0 {
      if x < d {
        QuotientBelowOne(x, d, q);
      } else {
        assert q * d == x;
      }
      QuotientTimesDivisor(x, d, q);
    }
  }

  /** (b * segment / bandwidth) / segment is b / bandwidth. */
  lemma RateIsBitrateOverBandwidth(b: real, segment: real, bandwidth: real, d: real, rate: real)
    requires segment != 0.0 && bandwidth != 0.0 && d == b * segment / bandwidth && rate == d / segment
    ensures rate * bandwidth == b
  {
    assert d * bandwidth == b * segment;
    assert rate * segment == d;
    assert (rate * bandwidth) * segment == b * segment;
  }

  lemma RiskOfPositiveBandwidthLink(buffer: real, bitrate: int, segment: real, bandwidth: real, d: real)
    requires bitrate > 0 && bandwidth != 0.0 && d == bitrate as real * segment / bandwidth
    ensures DownloadRisk(buffer, bitrate, segment, bandwidth) == RebufferProbability(buffer, d, segment)
  {
  }

  /** If one segment of bitrate b0 downloads no faster than it plays, neither
      does one of a higher bitrate bq. */
  lemma SlowerRenditionOutpaced(b0: real, bq: real, segment: real, bandwidth: real, d0: real, dq: real)
    requires 0.0 < b0 <= bq && bandwidth != 0.0
    requires d0 == b0 * segment / bandwidth && dq == bq * segment / bandwidth
    requires d0 > 0.0 && Outpaced(d0, segment)
    ensures dq > 0.0 && Outpaced(dq, segment)
  {
    if segment != 0.0 {
      RateIsBitrateOverBandwidth(b0, segment, bandwidth, d0, d0 / segment);
      RateIsBitrateOverBandwidth(bq, segment, bandwidth, dq, dq / segment);
      QuotientAtLeastOneMonotone(b0, bq, bandwidth, d0 / segment, dq / segment);
      DownloadTimeSign(b0, bq, segment, bandwidth, d0, dq);
    }
  }

  lemma QuotientAtLeastOneMonotone(b0: real, bq: real, bandwidth: real, r0: real, rq: real)
    requires 0.0 < b0 <= bq && r0 * bandwidth == b0 && rq * bandwidth == bq && r0 >= 1.0
    ensures rq >= 1.0
  {
    assert (rq - r0) * bandwidth == bq - b0;
  }

  lemma DownloadTimeSign(b0: real, bq: real, segment: real, bandwidth: real, d0: real, dq: real)
    requires 0.0 < b0 <= bq && bandwidth != 0.0 && d0 == b0 * segment / bandwidth && dq == bq * segment / bandwidth
    requires d0 > 0.0
    ensures dq > 0.0
  {
    assert d0 * bandwidth == b0 * segment;
    assert dq * bandwidth == bq * segment;
  }
}
