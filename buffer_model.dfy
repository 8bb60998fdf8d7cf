/** Buffer-health score and rebuffer-probability curve of the adaptive-bitrate
    engine (calculate_buffer_health, calculate_rebuffer_probability). Times are
    in seconds; every quantity is a `real`. */
module BufferModel {

  import opened RealFacts

  /** The buffer the engine aims to hold, in segments. */
  const TargetSegments: real := 5.0
  /** Runway below which a rebuffer is judged nearly certain. */
  const ShortRunway: real := 5.0
  /** Runway above which a rebuffer is judged impossible. */
  const SafeRunway: real := 30.0
  /** Probability reported for a runway shorter than ShortRunway. */
  const ShortRunwayProbability: real := 0.9

  // ---------------------------------------------------------------------------
  // Buffer health (calculate_buffer_health)
  // ---------------------------------------------------------------------------

  /** Health score of a buffer of `buffer` seconds: 0 when there is no buffer or
      the segment duration is not positive, 1 from five segments up, and the
      fraction of five segments in between. */
  function BufferHealth(buffer: real, segment: real): (r: real)
    ensures 0.0 <= r <= 1.0
    ensures r == 0.0 <==> segment <= 0.0 || buffer <= 0.0
    ensures r == 1.0 <==> segment > 0.0 && buffer >= TargetSegments * segment
  {
    if segment <= 0.0 then 0.0
    else if buffer <= 0.0 then 0.0
    else if buffer >= segment * 5.0 then 1.0
    else
      var q := buffer / (segment * 5.0);
      QuotientBelowOne(buffer, segment * 5.0, q);
      QuotientTimesDivisor(buffer, segment * 5.0, q);
      q
  }

  /** Below the target the score is linear: it is the buffer measured in units
      of five segments. */
  lemma BufferHealthLinear(buffer: real, segment: real)
    requires segment > 0.0 && 0.0 <= buffer <= TargetSegments * segment
    ensures BufferHealth(buffer, segment) * (TargetSegments * segment) == buffer
  {
    var t := TargetSegments * segment;
    if 0.0 < buffer < t {
      QuotientTimesDivisor(buffer, segment * 5.0, buffer / (segment * 5.0));
    }
  }

  /** More buffer never lowers the score. */
  lemma BufferHealthMonotone(b1: real, b2: real, segment: real)
    requires b1 <= b2
    ensures BufferHealth(b1, segment) <= BufferHealth(b2, segment)
  {
    if segment > 0.0 && 0.0 < b1 && b2 < segment * 5.0 {
      var t := segment * 5.0;
      QuotientMonotone(b1, b2, t, b1 / t, b2 / t);
    }
  }

  // ---------------------------------------------------------------------------
  // Rebuffer probability (calculate_rebuffer_probability)
  // ---------------------------------------------------------------------------

  /** Downloads cannot keep up with playback: a segment takes at least its own
      duration to fetch. A zero segment duration makes the rate +inf in IEEE
      arithmetic, which also counts. */
  predicate Outpaced(downloadTime: real, segment: real)
  {
    segment == 0.0 || downloadTime / segment >= 1.0
  }

  /** The engine's estimate of the playback time left before the buffer runs
      dry, given the download rate (download time over segment duration). */
  function Runway(buffer: real, rate: real): real
    requires rate < 1.0
  {
    buffer / (1.0 - rate)
  }

  /** Probability assigned to a runway: 0.9 below 5 s, 0 above 30 s, and
      1 - runway / 30 in between. */
  function RunwayProbability(runway: real): (p: real)
    ensures 0.0 <= p <= ShortRunwayProbability
  {
    if runway > SafeRunway then 0.0
    else if runway < ShortRunway then ShortRunwayProbability
    else 1.0 - runway / SafeRunway
  }

  /** A longer runway never raises the probability. */
  lemma RunwayProbabilityAntitone(r1: real, r2: real)
    requires r1 <= r2
    ensures RunwayProbability(r2) <= RunwayProbability(r1)
  {
  }

  /** What calculate_rebuffer_probability reports. */
  function RebufferProbability(buffer: real, downloadTime: real, segment: real): (p: real)
    ensures 0.0 <= p <= 1.0
    ensures p == 1.0 <==> buffer <= 0.0 || (downloadTime > 0.0 && Outpaced(downloadTime, segment))
  {
    if buffer <= 0.0 then 1.0
    else if downloadTime <= 0.0 then 0.0
    else if segment == 0.0 then 1.0
    else
      var rate := downloadTime / segment;
      if rate >= 1.0 then 1.0 else RunwayProbability(Runway(buffer, rate))
  }

  /** With a buffer and an instant (or no) download there is no risk; with a
      buffer and a download that keeps up, the risk is the runway's. */
  lemma RebufferProbabilityOfRunway(buffer: real, downloadTime: real, segment: real)
    requires buffer > 0.0
    ensures downloadTime <= 0.0 ==> RebufferProbability(buffer, downloadTime, segment) == 0.0
    ensures downloadTime > 0.0 && !Outpaced(downloadTime, segment) ==>
              RebufferProbability(buffer, downloadTime, segment)
              == RunwayProbability(Runway(buffer, downloadTime / segment))
  {
  }

  /** More buffer never raises the probability of a rebuffer. */
  lemma RebufferProbabilityAntitone(b1: real, b2: real, downloadTime: real, segment: real)
    requires b1 <= b2
    ensures RebufferProbability(b2, downloadTime, segment) <= RebufferProbability(b1, downloadTime, segment)
  {
    if 0.0 < b1 && downloadTime > 0.0 && !Outpaced(downloadTime, segment) {
      var rate := downloadTime / segment;
      QuotientMonotone(b1, b2, 1.0 - rate, Runway(b1, rate), Runway(b2, rate));
      RunwayProbabilityAntitone(Runway(b1, rate), Runway(b2, rate));
    }
  }

  /** The runway formula grows as downloads slow down, so a slower download
      can lower the reported risk: with 20 s of buffer and 6 s segments, a
      1 s download gives 0.2 and a 4.5 s download gives 0. */
  lemma RebufferProbabilityFallsAsDownloadSlows()
    ensures RebufferProbability(20.0, 1.0, 6.0) == 0.2
    ensures RebufferProbability(20.0, 4.5, 6.0) == 0.0
  {
    assert Runway(20.0, 1.0 / 6.0) == 24.0;
    assert Runway(20.0, 4.5 / 6.0) == 80.0;
  }
}
