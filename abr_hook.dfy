/** The player-side adaptive-bitrate controller (useABRController): it keeps a
    bounded window of throughput samples, asks the engine (the compiled
    engine, a JavaScript stand-in, or nothing while it is still loading) for
    a recommendation, and switches the current quality in auto mode. */
module AbrHook {

  import opened Options
  import opened Ladder
  import opened BandwidthEstimator
  import opened BufferModel
  import opened Recommendation
  import opened RealFacts

  /** One row of the controller's rendition table. */
  datatype Rendition = Rendition(level: int, name: string, bitrate: int, height: int)

  /** The controller's rendition table: its top row says 15000 kbps, as the
      transcoder's 4K preset does, while the engine's ladder tops out at
      12000 kbps. */
  const QualityLevels: seq<Rendition> := [
    Rendition(0, "240p", 400, 240),
    Rendition(1, "360p", 800, 360),
    Rendition(2, "480p", 1500, 480),
    Rendition(3, "720p", 3000, 720),
    Rendition(4, "1080p", 6000, 1080),
    Rendition(5, "4K", 15000, 2160)
  ]

  /** The table with its top bitrate aligned to the engine's ladder. */
  const QualityLevelsCorrected: seq<Rendition> := QualityLevels[..5] + [Rendition(5, "4K", 12000, 2160)]

  /** The table lists its rows in level order, and disagrees with the
      engine's ladder on the top rendition only. */
  lemma QualityLevelsDisagreeWithEngine()
    ensures |QualityLevels| == |ReferenceLadder|
    ensures forall i :: 0 <= i < |QualityLevels| ==> QualityLevels[i].level == i
    ensures forall i :: 0 <= i < 5 ==> QualityLevels[i].bitrate == ReferenceLadder[i]
    ensures QualityLevels[5].bitrate == 15000 && ReferenceLadder[5] == 12000
  {
  }

  /** The corrected table lists every engine rendition in ladder order, with
      the engine's bitrate. */
  lemma QualityLevelsCorrectedMatchEngine()
    ensures |QualityLevelsCorrected| == |ReferenceLadder|
    ensures forall i :: 0 <= i < |QualityLevelsCorrected| ==>
              QualityLevelsCorrected[i].level == i && QualityLevelsCorrected[i].bitrate == ReferenceLadder[i]
  {
    assert QualityLevelsCorrected == [
      Rendition(0, "240p", 400, 240), Rendition(1, "360p", 800, 360), Rendition(2, "480p", 1500, 480),
      Rendition(3, "720p", 3000, 720), Rendition(4, "1080p", 6000, 1080), Rendition(5, "4K", 12000, 2160)];
  }

  datatype Trend = Increasing | Stable | Decreasing

  /** The state the controller exposes to the player. */
  datatype AbrState = AbrState(
    currentQuality: int,
    recommendedQuality: int,
    bandwidth: real,
    bufferHealth: real,
    rebufferRisk: real,
    estimatedQoe: real,
    trend: Trend,
    isAutoMode: bool)

  const InitialState: AbrState := AbrState(2, 2, 0.0, 1.0, 0.0, 0.8, Stable, true)

  /** Which engine answers: none yet, the compiled engine, or the JavaScript
      stand-in installed when the compiled engine cannot be fetched. */
  datatype Engine = Unloaded | Native | Fallback

  /** Bandwidth reported while the history is empty, and by the stand-in. */
  const DefaultBandwidth: real := 3000.0
  /** Samples the engine needs before the controller asks it. */
  const MinSamples: int := 3

  function Max0(n: int): nat
  {
    if n < 0 then 0 else n
  }

  /** The newest min(|s|, k) entries of s, in order. */
  function Newest<T>(s: seq<T>, k: nat): (r: seq<T>)
    ensures |r| == if |s| < k then |s| else k
    ensures forall i :: 0 <= i < |r| ==> r[i] == s[|s| - |r| + i]
  {
    if |s| < k then s else s[|s| - k..]
  }

  // ---------------------------------------------------------------------------
  // Sample window (recordBandwidth)
  // ---------------------------------------------------------------------------

  /** The window after recording x: append, then drop the oldest sample once
      the window is longer than `size`. On a window within bounds this keeps
      exactly the newest `size` samples. */
  function Recorded(history: seq<real>, x: real, size: int): (r: seq<real>)
    ensures |history| <= Max0(size) ==> r == Newest(history + [x], Max0(size))
  {
    var pushed := history + [x];
    if |pushed| > size then pushed[1..] else pushed
  }

  /** The window after recording xs in order, starting from `history`. */
  function RecordAll(history: seq<real>, xs: seq<real>, size: int): seq<real>
  {
    if |xs| == 0 then history
    else Recorded(RecordAll(history, xs[..|xs| - 1], size), xs[|xs| - 1], size)
  }

  /** From an empty window, any run of recordings leaves the newest `size`
      samples in arrival order. */
  lemma {:induction false} RecordAllKeepsNewest(xs: seq<real>, size: int)
    ensures RecordAll([], xs, size) == Newest(xs, Max0(size))
  {
    if |xs| > 0 {
      var init, x, k := xs[..|xs| - 1], xs[|xs| - 1], Max0(size);
      assert init + [x] == xs;
      RecordAllKeepsNewest(init, size);
      var w := RecordAll([], init, size);
      assert RecordAll([], xs, size) == Recorded(w, x, size) == Newest(w + [x], k);
      NewestStep(init, x, k);
    }
  }

  /** Keeping the newest k, then appending and keeping the newest k again,
      keeps the newest k of the whole. */
  lemma NewestStep(init: seq<real>, x: real, k: nat)
    ensures Newest(Newest(init, k) + [x], k) == Newest(init + [x], k)
  {
    var r, t := Newest(Newest(init, k) + [x], k), Newest(init + [x], k);
    assert |r| == |t|;
    forall i | 0 <= i < |r|
      ensures r[i] == t[i]
    {
    }
  }

  // ---------------------------------------------------------------------------
  // Prediction, trend label, measurements
  // ---------------------------------------------------------------------------

  /** What predictBandwidth returns: 3000 for an empty history, the
      stand-in's constant 3000 once the stand-in is installed, and otherwise
      the moving-average prediction (computed by the compiled engine, or in
      JavaScript while no engine is loaded). */
  function HookPrediction(history: seq<real>, engine: Engine): real
  {
    if |history| == 0 || engine == Fallback then DefaultBandwidth
    else PredictedBandwidth(history)
  }

  /** Outside the stand-in, a non-empty history is predicted within the
      safety margin of its sample range; an empty history and the stand-in
      give the default 3000 kbps. */
  lemma HookPredictionWithin(history: seq<real>, engine: Engine, lo: real, hi: real)
    requires Within(history, lo, hi)
    ensures |history| >= 1 && engine != Fallback ==>
              SafetyMargin * lo <= HookPrediction(history, engine) <= SafetyMargin * hi
    ensures |history| == 0 || engine == Fallback ==> HookPrediction(history, engine) == DefaultBandwidth
  {
    if |history| >= 1 {
      PredictedBandwidthWithin(history, lo, hi);
    }
  }

  /** The label for the engine's trend code. */
  function TrendName(t: int): (r: Trend)
    ensures r == Increasing <==> t == 1
    ensures r == Decreasing <==> t == -1
    ensures r == Stable <==> t != 1 && t != -1
  {
    if t == 1 then Increasing else if t == -1 then Decreasing else Stable
  }

  /** The throughput sample of a download, in kbps, when both the byte count
      and the download time are given, the byte count is not 0 and the time
      is positive. */
  function Measured(bytes: Option<real>, seconds: Option<real>): (r: Option<real>)
    ensures r.Some? <==> bytes.Some? && bytes.value != 0.0 && seconds.Some? && seconds.value > 0.0
    ensures r.Some? ==> r.value * seconds.value == bytes.value * 8.0 / 1000.0
  {
    if bytes.Some? && bytes.value != 0.0 && seconds.Some? && seconds.value > 0.0 then
      var bits := bytes.value * 8.0;
      var perSecond := bits / seconds.value;
      QuotientTimesDivisor(bits, seconds.value, perSecond);
      KbpsFromBitRate(bits, seconds.value, perSecond, perSecond / 1000.0);
      Some(perSecond / 1000.0)
    else None
  }

  lemma KbpsFromBitRate(bits: real, t: real, perSecond: real, kbps: real)
    requires t > 0.0 && perSecond * t == bits && kbps == perSecond / 1000.0
    ensures kbps * t == bits / 1000.0
  {
    assert kbps * 1000.0 == perSecond;
  }

  /** The window after an update: the measured sample recorded, if any. */
  function HistoryAfter(history: seq<real>, bytes: Option<real>, seconds: Option<real>, size: int): seq<real>
  {
    var m := Measured(bytes, seconds);
    if m.Some? then Recorded(history, m.value, size) else history
  }

  // ---------------------------------------------------------------------------
  // Recommendation state (getRecommendation)
  // ---------------------------------------------------------------------------

  /** What the engine needs to answer for `history`: the caller-supplied
      deviation is the square root of the sample variance, and the download
      time is not the IEEE 0 / 0. */
  predicate EngineCanAnswer(history: seq<real>, segment: real, deviation: real)
  {
    IsDeviation(history, deviation) && (segment != 0.0 || AdjustedBandwidth(history) != 0.0)
  }

  /** The state getRecommendation returns. Without an engine, with fewer
      than three samples, or with the stand-in (whose recommendation entry
      point returns address 0) the state is returned unchanged.
      Otherwise the engine's recommendation, as the engine computes it,
      fills in the recommended quality, risk and QoE, the trend is labelled,
      the buffer health is the engine's, and the bandwidth is the
      controller's own prediction. */
  function RecommendedState(s: AbrState, history: seq<real>, engine: Engine, buffer: real, segment: real,
                            maxQuality: int, deviation: real): (r: AbrState)
    requires engine == Native && |history| >= MinSamples ==> EngineCanAnswer(history, segment, deviation)
    ensures r.currentQuality == s.currentQuality && r.isAutoMode == s.isAutoMode
    ensures engine != Native || |history| < MinSamples ==> r == s
    ensures engine == Native && |history| >= MinSamples ==>
              && 0 <= r.recommendedQuality < |ReferenceLadder|
              && (maxQuality >= 0 ==> r.recommendedQuality <= maxQuality)
              && 0.0 <= r.bufferHealth <= 1.0 && 0.0 <= r.rebufferRisk <= 1.0 && 0.0 <= r.estimatedQoe <= 1.0
              && (r.trend == Stable <==> TrendOf(history) == 0)
              && r.bandwidth == PredictedBandwidth(history)
  {
    if engine != Native || |history| < MinSamples then s
    else
      ReferenceLadderIsValid();
      var a := Recommend(ReferenceLadder, history, buffer, segment, s.currentQuality, maxQuality, deviation);
      s.(recommendedQuality := a.quality,
         bandwidth := HookPrediction(history, engine),
         bufferHealth := BufferHealth(buffer, segment),
         rebufferRisk := a.risk,
         estimatedQoe := a.qoe,
         trend := TrendName(TrendOf(history)))
  }

  /** In auto mode the current quality follows the recommendation; nothing
      else changes. */
  function AutoApplied(s: AbrState): (r: AbrState)
    ensures r.currentQuality == (if s.isAutoMode then s.recommendedQuality else s.currentQuality)
    ensures r.(currentQuality := s.currentQuality) == s
  {
    if s.isAutoMode && s.recommendedQuality != s.currentQuality then s.(currentQuality := s.recommendedQuality)
    else s
  }

  /** setQuality's clamp: max(0, min(quality, maxQuality)). */
  function ClampQuality(quality: int, maxQuality: int): (r: int)
    ensures r >= 0
    ensures maxQuality >= 0 ==> r <= maxQuality
    ensures 0 <= quality <= maxQuality ==> r == quality
    ensures quality < 0 || maxQuality < 0 ==> r == 0
    ensures 0 <= maxQuality < quality ==> r == maxQuality
  {
    var capped := if quality < maxQuality then quality else maxQuality;
    if capped > 0 then capped else 0
  }

  // ---------------------------------------------------------------------------
  // Quality table queries (getQualityInfo, getAvailableQualities)
  // ---------------------------------------------------------------------------

  /** The table row for `level`, or the 480p row for a level outside it. */
  function QualityInfo(level: int): Rendition
  {
    if 0 <= level < |QualityLevels| then QualityLevels[level] else QualityLevels[2]
  }

  /** The row QualityInfo returns describes the requested level when the
      table has it, and level 2 otherwise; its bitrate is the engine's below
      the top level and 15000 kbps at the top. */
  lemma QualityInfoLevel(level: int)
    ensures var known := if 0 <= level < |ReferenceLadder| then level else 2;
            && QualityInfo(level).level == known
            && (known < 5 ==> QualityInfo(level).bitrate == ReferenceLadder[known])
            && (known == 5 ==> QualityInfo(level).bitrate == 15000)
  {
    QualityLevelsDisagreeWithEngine();
  }

  /** The end index JavaScript's slice(0, end) uses on a sequence of length n:
      a negative end counts from the back, and both ends are clamped. */
  function SliceEnd(end: int, n: nat): (r: nat)
    ensures r <= n
  {
    if end < 0 then (if n + end < 0 then 0 else n + end)
    else if end > n then n
    else end
  }

  /** What getAvailableQualities returns: QUALITY_LEVELS.slice(0, maxQuality + 1). */
  function AvailableQualities(maxQuality: int): seq<Rendition>
  {
    QualityLevels[..SliceEnd(maxQuality + 1, |QualityLevels|)]
  }

  /** For a cap of at least -1 the list holds exactly the rows whose level
      is at most the cap, in level order; a cap below -1 makes the slice
      count from the back and lists rows above the cap. */
  lemma AvailableQualitiesAreCapped(maxQuality: int)
    ensures maxQuality >= -1 ==>
              forall i :: 0 <= i < |QualityLevels| ==>
                (QualityLevels[i] in AvailableQualities(maxQuality) <==> QualityLevels[i].level <= maxQuality)
    ensures forall k :: 0 <= k < |AvailableQualities(maxQuality)| ==> AvailableQualities(maxQuality)[k].level == k
    ensures maxQuality >= 5 ==> AvailableQualities(maxQuality)[5].bitrate == 15000
    ensures AvailableQualities(-3) == QualityLevels[..4]
  {
    QualityLevelsDisagreeWithEngine();
    var r := AvailableQualities(maxQuality);
    if maxQuality >= -1 {
      forall i | 0 <= i < |QualityLevels|
        ensures QualityLevels[i] in r <==> QualityLevels[i].level <= maxQuality
      {
        if QualityLevels[i] in r {
          var j :| 0 <= j < |r| && r[j] == QualityLevels[i];
          assert QualityLevels[j].level == j;
        }
      }
    }
  }

  // ---------------------------------------------------------------------------
  // The JavaScript stand-in (createJSFallback)
  // ---------------------------------------------------------------------------

  /** The stand-in's quality choice. */
  function FallbackSelectQuality(bandwidth: real, buffer: real, current: int, maxQuality: int): int
  {
    if buffer < 5.0 then (if current - 1 > 0 then current - 1 else 0)
    else if bandwidth > 6000.0 then Min(maxQuality, 4)
    else if bandwidth > 3000.0 then Min(maxQuality, 3)
    else if bandwidth > 1500.0 then Min(maxQuality, 2)
    else if bandwidth > 800.0 then Min(maxQuality, 1)
    else 0
  }

  function Min(a: int, b: int): int
  {
    if a < b then a else b
  }

  /** Highest of levels 1..k of the table whose bitrate is strictly below
      the bandwidth, or 0. */
  function HighestBelow(bandwidth: real, k: nat): (r: int)
    requires k < |QualityLevels|
    ensures 0 <= r <= k
    ensures r > 0 ==> QualityLevels[r].bitrate as real < bandwidth
    ensures forall j :: r < j <= k && j >= 1 ==> QualityLevels[j].bitrate as real >= bandwidth
  {
    if k == 0 then 0
    else if QualityLevels[k].bitrate as real < bandwidth then k
    else HighestBelow(bandwidth, k - 1)
  }

  /** With a buffer of at least 5 s the stand-in picks the highest of 360p to
      1080p whose table bitrate is below the bandwidth (240p when none is),
      capped at maxQuality: it never picks 4K. With less buffer it steps
      down one level. */
  lemma FallbackSelectQualityRule(bandwidth: real, buffer: real, current: int, maxQuality: int)
    ensures buffer < 5.0 ==> FallbackSelectQuality(bandwidth, buffer, current, maxQuality) == Max0(current - 1)
    ensures buffer >= 5.0 ==>
              FallbackSelectQuality(bandwidth, buffer, current, maxQuality)
              == (if HighestBelow(bandwidth, 4) == 0 then 0 else Min(maxQuality, HighestBelow(bandwidth, 4)))
  {
    assert HighestBelow(bandwidth, 1) == if 800.0 < bandwidth then 1 else 0;
    assert HighestBelow(bandwidth, 2) == if 1500.0 < bandwidth then 2 else HighestBelow(bandwidth, 1);
    assert HighestBelow(bandwidth, 3) == if 3000.0 < bandwidth then 3 else HighestBelow(bandwidth, 2);
    assert HighestBelow(bandwidth, 4) == if 6000.0 < bandwidth then 4 else HighestBelow(bandwidth, 3);
  }

  /** The stand-in's buffer health, min(buffer / (5 * segment), 1). */
  function FallbackBufferHealth(buffer: real, segment: real): real
    requires segment != 0.0
  {
    var ratio := buffer / (segment * 5.0);
    if ratio < 1.0 then ratio else 1.0
  }

  /** The stand-in's buffer health agrees with the engine's for a positive
      segment duration and a buffer that is not negative; for a negative
      buffer it goes below 0, where the engine reports 0. */
  lemma FallbackBufferHealthAgrees(buffer: real, segment: real)
    requires segment > 0.0
    ensures buffer >= 0.0 ==> FallbackBufferHealth(buffer, segment) == BufferHealth(buffer, segment)
    ensures buffer < 0.0 ==> FallbackBufferHealth(buffer, segment) < 0.0 == BufferHealth(buffer, segment)
  {
    var t := segment * 5.0;
    var q := buffer / t;
    QuotientTimesDivisor(buffer, t, q);
    if buffer >= t {
      assert q >= 1.0 by {
        assert (q - 1.0) * t == buffer - t;
        if q < 1.0 {
          ProductPositive(1.0 - q, t, (1.0 - q) * t);
        }
      }
    } else if buffer < 0.0 {
      assert q < 0.0 by {
        if q >= 0.0 {
          ProductNonNegative(q, t, q * t);
        }
      }
    }
  }

  lemma ProductNonNegative(a: real, b: real, p: real)
    requires a >= 0.0 && b > 0.0 && p == a * b
    ensures p >= 0.0
  {
    if a > 0.0 {
      ProductPositive(a, b, p);
    }
  }

  // ---------------------------------------------------------------------------
  // The controller
  // ---------------------------------------------------------------------------

  class AbrController {
    const maxQuality: int
    const segmentDuration: real
    const historySize: int

    var history: seq<real>
    var state: AbrState
    var engine: Engine

    /** The window never holds more than historySize samples. */
    predicate Valid()
      reads this
    {
      |history| <= Max0(historySize)
    }

    constructor(maxQuality: int, segmentDuration: real, historySize: int)
      ensures this.maxQuality == maxQuality && this.segmentDuration == segmentDuration
      ensures this.historySize == historySize
      ensures history == [] && state == InitialState && engine == Unloaded
      ensures Valid()
    {
      this.maxQuality := maxQuality;
      this.segmentDuration := segmentDuration;
      this.historySize := historySize;
      history := [];
      state := InitialState;
      engine := Unloaded;
    }

    /** loadWasm: the first call installs the compiled engine when it can be
        fetched and the stand-in otherwise; later calls do nothing. */
    method LoadEngine(available: bool)
      modifies this
      ensures old(engine) != Unloaded ==> engine == old(engine)
      ensures old(engine) == Unloaded ==> engine == (if available then Native else Fallback)
      ensures history == old(history) && state == old(state)
    {
      if engine != Unloaded {
        return;
      }
      if available {
        engine := Native;
      } else {
        engine := Fallback;
      }
    }

    /** recordBandwidth. */
    method RecordBandwidth(x: real)
      requires Valid()
      modifies this
      ensures Valid()
      ensures history == Recorded(old(history), x, historySize)
      ensures state == old(state) && engine == old(engine)
    {
      history := history + [x];
      if |history| > historySize {
        history := history[1..];
      }
    }

    /** predictBandwidth, with the JavaScript moving average run while no
        engine is loaded. */
    method PredictBandwidth() returns (bw: real)
      ensures bw == HookPrediction(history, engine)
    {
      if |history| == 0 {
        return DefaultBandwidth;
      }
      if engine == Unloaded {
        var ewma := history[0];
        var i := 1;
        while i < |history|
          invariant 1 <= i <= |history|
          invariant ewma == Ewma(history[..i])
        {
          assert history[..i + 1][..i] == history[..i];
          ewma := 0.3 * history[i] + (1.0 - 0.3) * ewma;
          i := i + 1;
        }
        assert history[..i] == history;
        return ewma * 0.8;
      }
      if engine == Fallback {
        return DefaultBandwidth;
      }
      bw := BandwidthEstimator.PredictBandwidth(history);
    }

    /** getRecommendation: computes the next state without changing anything. */
    method GetRecommendation(buffer: real, deviation: real) returns (s: AbrState)
      requires engine == Native && |history| >= MinSamples ==> EngineCanAnswer(history, segmentDuration, deviation)
      ensures s == RecommendedState(state, history, engine, buffer, segmentDuration, maxQuality, deviation)
    {
      if engine == Unloaded || |history| < MinSamples {
        return state;
      }
      if engine == Fallback {
        return state;
      }
      ReferenceLadderIsValid();
      var a := GetComprehensiveRecommendation(ReferenceLadder, history, buffer, segmentDuration, state.currentQuality,
                                              maxQuality, deviation);
      var trend := DetectBandwidthTrend(history);
      var health := BufferHealth(buffer, segmentDuration);
      var bw := PredictBandwidth();
      s := state.(recommendedQuality := a.quality, bandwidth := bw, bufferHealth := health,
                  rebufferRisk := a.risk, estimatedQoe := a.qoe, trend := TrendName(trend));
    }

    /** setQuality: clamps the level; a manual choice (auto == false) turns
        auto mode off. */
    method SetQuality(quality: int, auto: bool)
      modifies this
      ensures state == old(state).(currentQuality := ClampQuality(quality, maxQuality),
                                   isAutoMode := auto && old(state).isAutoMode)
      ensures history == old(history) && engine == old(engine)
    {
      var clamped := if quality < maxQuality then quality else maxQuality;
      clamped := if clamped > 0 then clamped else 0;
      state := state.(currentQuality := clamped, isAutoMode := if auto then state.isAutoMode else false);
    }

    /** toggleAutoMode. */
    method ToggleAutoMode()
      modifies this
      ensures state == old(state).(isAutoMode := !old(state).isAutoMode)
      ensures history == old(history) && engine == old(engine)
    {
      state := state.(isAutoMode := !state.isAutoMode);
    }

    /** update: records the download's throughput when it was measured, takes
        the new recommendation, and in auto mode applies it. Returns the
        recommendation state before the auto switch. */
    method Update(buffer: real, bytes: Option<real>, seconds: Option<real>, deviation: real)
      returns (next: AbrState)
      requires Valid()
      requires engine == Native && |HistoryAfter(history, bytes, seconds, historySize)| >= MinSamples ==>
                 EngineCanAnswer(HistoryAfter(history, bytes, seconds, historySize), segmentDuration, deviation)
      modifies this
      ensures Valid() && engine == old(engine)
      ensures history == HistoryAfter(old(history), bytes, seconds, historySize)
      ensures next == RecommendedState(old(state), history, engine, buffer, segmentDuration, maxQuality, deviation)
      ensures state == AutoApplied(next)
    {
      var sample := Measured(bytes, seconds);
      if sample.Some? {
        RecordBandwidth(sample.value);
      }
      next := GetRecommendation(buffer, deviation);
      state := next;
      if next.isAutoMode && next.recommendedQuality != next.currentQuality {
        state := state.(currentQuality := next.recommendedQuality);
      }
    }
  }

  /** Both the current and the recommended quality lie in [0, maxQuality]. */
  predicate Capped(s: AbrState, maxQuality: int)
  {
    0 <= s.currentQuality <= maxQuality && 0 <= s.recommendedQuality <= maxQuality
  }

  /** An update keeps the state capped: the engine only recommends allowed
      levels, and auto mode only copies the recommendation. The initial
      state is capped exactly when maxQuality is at least 2. */
  lemma UpdateKeepsCapped(s: AbrState, history: seq<real>, engine: Engine, buffer: real, segment: real,
                          maxQuality: int, deviation: real)
    requires engine == Native && |history| >= MinSamples ==> EngineCanAnswer(history, segment, deviation)
    requires Capped(s, maxQuality)
    ensures var next := RecommendedState(s, history, engine, buffer, segment, maxQuality, deviation);
            Capped(next, maxQuality) && Capped(AutoApplied(next), maxQuality)
    ensures Capped(InitialState, maxQuality) <==> maxQuality >= 2
  {
  }

  /** On a slow link (history [300, 300, 300], buffer 10 s, segment 4 s,
      level 2, cap 4) the hook takes the engine's level 4 as its
      recommendation and, in auto mode, switches to it. */
  lemma SlowLinkHookSwitchesToTop()
    ensures EngineCanAnswer([300.0, 300.0, 300.0], 4.0, 0.0)
    ensures var next := RecommendedState(InitialState, [300.0, 300.0, 300.0], Native, 10.0, 4.0, 4, 0.0);
            next.recommendedQuality == 4 && AutoApplied(next).currentQuality == 4
  {
    SlowLinkRecommendsTop();
  }
}
