/** Buffer-based quality selection (select_quality_level) and its
    oscillation-damping wrapper (select_quality_stable). Bandwidth is in kbps,
    the buffer in seconds; quality levels index the ladder. */
module QualitySelection {

  import opened Ladder

  /** Below this buffer the lowest rendition is chosen outright. */
  const CriticalBuffer: real := 2.0
  /** Below this buffer the selection only steps down. */
  const LowBuffer: real := 5.0
  /** Above this buffer the selection may step up. */
  const HighBuffer: real := 30.0
  /** Share of the bandwidth a rendition may use. */
  const Headroom: real := 0.9
  /** How far the bandwidth must exceed the next rendition's bitrate before a
      medium buffer steps up. */
  const StepUpFactor: real := 1.2
  /** Length of the window of past levels inspected for oscillation. */
  const SwitchWindow: int := 5
  /** Switches in the window from which one-step changes are suppressed. */
  const SwitchLimit: int := 3

  /** A rendition fits when its bitrate is within the headroom of the bandwidth. */
  predicate Fits(ladder: seq<int>, i: int, bandwidth: real)
    requires 0 <= i < |ladder|
  {
    ladder[i] as real <= bandwidth * Headroom
  }

  /** The highest of the first k levels that fits, or 0 when none does. */
  function HighestFitting(ladder: seq<int>, bandwidth: real, k: int): (r: int)
    requires 0 <= k <= |ladder|
    ensures 0 <= r && (r < k || r == 0)
    ensures 0 < r ==> Fits(ladder, r, bandwidth)
    ensures forall j :: r < j < k ==> !Fits(ladder, j, bandwidth)
  {
    if k == 0 then 0
    else if Fits(ladder, k - 1, bandwidth) then k - 1
    else HighestFitting(ladder, bandwidth, k - 1)
  }

  /** On an increasing ladder every level up to the highest fitting one fits
      too (level 0 only when something fits at all). */
  lemma {:induction false} FittingIsDownwardClosed(ladder: seq<int>, bandwidth: real, k: int, j: int)
    requires ValidLadder(ladder) && 0 <= k <= |ladder|
    requires 0 <= j <= HighestFitting(ladder, bandwidth, k) && 0 < HighestFitting(ladder, bandwidth, k)
    ensures Fits(ladder, j, bandwidth)
  {
    var r := HighestFitting(ladder, bandwidth, k);
    assert ladder[j] <= ladder[r];
  }

  /** The scan of select_quality_level over levels 0..actualMax. */
  method BandwidthQuality(ladder: seq<int>, bandwidth: real, actualMax: int) returns (q: int)
    requires actualMax < |ladder|
    ensures q == HighestFitting(ladder, bandwidth, if actualMax < 0 then 0 else actualMax + 1)
  {
    q := 0;
    var i := 0;
    while i <= actualMax
      invariant 0 <= i <= if actualMax < 0 then 0 else actualMax + 1
      invariant q == HighestFitting(ladder, bandwidth, i)
    {
      if ladder[i] as real <= bandwidth * Headroom {
        q := i;
      }
      i := i + 1;
    }
  }

  /** The level select_quality_level chooses. */
  function QualityLevel(ladder: seq<int>, bandwidth: real, buffer: real, current: int, maxQuality: int): (r: int)
    requires ValidLadder(ladder) && current >= -1
    ensures r >= 0 || r == ActualMax(ladder, maxQuality)
    ensures r <= ActualMax(ladder, maxQuality) || r == 0
  {
    if bandwidth <= 0.0 || buffer < CriticalBuffer then 0
    else
      var top := ActualMax(ladder, maxQuality);
      var fit := HighestFitting(ladder, bandwidth, if top < 0 then 0 else top + 1);
      var target :=
        if buffer < LowBuffer then
          var down := if current > 0 then current - 1 else 0;
          if down < fit then down else fit
        else if buffer > HighBuffer then
          var up := if current < top then current + 1 else current;
          if up <= fit then up else fit
        else if fit > current && bandwidth > ladder[current + 1] as real * StepUpFactor then current + 1
        else if fit < current then fit
        else current;
      var raised := if target < 0 then 0 else target;
      if raised > top then top else raised
  }

  method SelectQualityLevel(ladder: seq<int>, bandwidth: real, buffer: real, current: int, maxQuality: int)
    returns (quality: int)
    requires ValidLadder(ladder) && current >= -1
    ensures quality == QualityLevel(ladder, bandwidth, buffer, current, maxQuality)
  {
    if bandwidth <= 0.0 {
      return 0;
    }
    var target := current;
    var top := if maxQuality < |ladder| then maxQuality else |ladder| - 1;
    if buffer < CriticalBuffer {
      return 0;
    }
    var fit := BandwidthQuality(ladder, bandwidth, top);
    if buffer < LowBuffer {
      target := if current > 0 then current - 1 else 0;
      target := if target < fit then target else fit;
    } else if buffer > HighBuffer {
      target := if current < top then current + 1 else current;
      target := if target <= fit then target else fit;
    } else {
      if fit > current && bandwidth > ladder[current + 1] as real * StepUpFactor {
        target := current + 1;
      } else if fit < current {
        target := fit;
      } else {
        target := current;
      }
    }
    if target < 0 {
      target := 0;
    }
    if target > top {
      target := top;
    }
    quality := target;
  }

  /** With a non-negative cap the choice lies in [0, ActualMax]; no bandwidth
      or a critical buffer gives level 0. */
  lemma QualityLevelBounds(ladder: seq<int>, bandwidth: real, buffer: real, current: int, maxQuality: int)
    requires ValidLadder(ladder) && current >= -1
    ensures maxQuality >= 0 ==>
              0 <= QualityLevel(ladder, bandwidth, buffer, current, maxQuality) <= ActualMax(ladder, maxQuality)
    ensures bandwidth <= 0.0 || buffer < CriticalBuffer ==>
              QualityLevel(ladder, bandwidth, buffer, current, maxQuality) == 0
  {
  }

  /** The choice never needs more than the headroom of the bandwidth, except
      for level 0 which is always allowed. */
  lemma QualityLevelFits(ladder: seq<int>, bandwidth: real, buffer: real, current: int, maxQuality: int)
    requires ValidLadder(ladder) && current >= -1
    requires QualityLevel(ladder, bandwidth, buffer, current, maxQuality) > 0
    ensures Fits(ladder, QualityLevel(ladder, bandwidth, buffer, current, maxQuality), bandwidth)
  {
    var top := ActualMax(ladder, maxQuality);
    var k := if top < 0 then 0 else top + 1;
    FittingIsDownwardClosed(ladder, bandwidth, k, QualityLevel(ladder, bandwidth, buffer, current, maxQuality));
  }

  /** One call climbs at most one level; a buffer below LowBuffer never
      climbs at all. */
  lemma QualityLevelStepsUpByOne(ladder: seq<int>, bandwidth: real, buffer: real, current: int, maxQuality: int)
    requires ValidLadder(ladder) && current >= -1
    ensures QualityLevel(ladder, bandwidth, buffer, current, maxQuality) <= current + 1
    ensures buffer < LowBuffer && current >= 1 ==>
              QualityLevel(ladder, bandwidth, buffer, current, maxQuality) < current
  {
  }

  /** With a medium buffer and a current level that still fits and is allowed,
      the selection never steps down. */
  lemma QualityLevelHoldsWhenSustainable(ladder: seq<int>, bandwidth: real, buffer: real, current: int, maxQuality: int)
    requires ValidLadder(ladder) && 0 <= current <= ActualMax(ladder, maxQuality)
    requires bandwidth > 0.0 && LowBuffer <= buffer <= HighBuffer && Fits(ladder, current, bandwidth)
    ensures QualityLevel(ladder, bandwidth, buffer, current, maxQuality) >= current
  {
    var top := ActualMax(ladder, maxQuality);
    var fit := HighestFitting(ladder, bandwidth, top + 1);
    assert current <= fit;
  }

  // ---------------------------------------------------------------------------
  // Oscillation damping (select_quality_stable)
  // ---------------------------------------------------------------------------

  /** How many of the levels in s differ from `level`. */
  function CountDiffering(s: seq<int>, level: int): (n: nat)
    ensures n <= |s|
  {
    if |s| == 0 then 0
    else CountDiffering(s[..|s| - 1], level) + (if s[|s| - 1] != level then 1 else 0)
  }

  /** Recent switches: over the last SwitchWindow entries of the history, or
      none when the history is shorter than the window. */
  function RecentSwitches(history: seq<int>, level: int): (n: nat)
    ensures n <= SwitchWindow
  {
    if |history| < SwitchWindow then 0
    else CountDiffering(history[|history| - SwitchWindow..], level)
  }

  /** The level select_quality_stable chooses. */
  function StableQuality(ladder: seq<int>, bandwidth: real, buffer: real, current: int, maxQuality: int,
                         history: seq<int>): int
    requires ValidLadder(ladder) && current >= -1
  {
    var recommended := QualityLevel(ladder, bandwidth, buffer, current, maxQuality);
    if RecentSwitches(history, current) >= SwitchLimit
       && (recommended - current == 1 || current - recommended == 1)
    then current
    else recommended
  }

  method SelectQualityStable(ladder: seq<int>, bandwidth: real, buffer: real, current: int, maxQuality: int,
                             history: seq<int>) returns (quality: int)
    requires ValidLadder(ladder) && current >= -1
    ensures quality == StableQuality(ladder, bandwidth, buffer, current, maxQuality, history)
  {
    var recommended := SelectQualityLevel(ladder, bandwidth, buffer, current, maxQuality);
    var recent := 0;
    var n := |history|;
    if n > 0 {
      var i := n - SwitchWindow;
      while i < n && i >= 0
        invariant n < SwitchWindow ==> i == n - SwitchWindow && recent == 0
        invariant n >= SwitchWindow ==>
                    n - SwitchWindow <= i <= n && recent == CountDiffering(history[n - SwitchWindow..i], current)
        decreases n - i
      {
        assert history[n - SwitchWindow..i + 1][..i - (n - SwitchWindow)] == history[n - SwitchWindow..i];
        if history[i] != current {
          recent := recent + 1;
        }
        i := i + 1;
      }
      assert n >= SwitchWindow ==> history[n - SwitchWindow..i] == history[n - SwitchWindow..];
    }
    var delta := recommended - current;
    if recent >= SwitchLimit {
      if delta == 1 || delta == -1 {
        return current;
      }
    }
    quality := recommended;
  }

  /** The damped choice is the plain choice or the current level; it keeps
      the current level only in place of a one-step change after at least
      SwitchLimit recent switches, and a short history never damps. */
  lemma StableQualityChoice(ladder: seq<int>, bandwidth: real, buffer: real, current: int, maxQuality: int,
                            history: seq<int>)
    requires ValidLadder(ladder) && current >= -1
    ensures var r := QualityLevel(ladder, bandwidth, buffer, current, maxQuality);
            var s := StableQuality(ladder, bandwidth, buffer, current, maxQuality, history);
            && (s == r || s == current)
            && (s != r <==> RecentSwitches(history, current) >= SwitchLimit && (r == current + 1 || r == current - 1))
            && (|history| < SwitchWindow ==> s == r)
  {
  }

  /** No level in s differs from `level` exactly when the count is 0, and
      every level differs exactly when the count is |s|. */
  lemma {:induction false} CountDifferingExtremes(s: seq<int>, level: int)
    ensures CountDiffering(s, level) == 0 <==> forall i :: 0 <= i < |s| ==> s[i] == level
    ensures CountDiffering(s, level) == |s| <==> forall i :: 0 <= i < |s| ==> s[i] != level
  {
    if |s| > 0 {
      var init := s[..|s| - 1];
      CountDifferingExtremes(init, level);
      assert forall i :: 0 <= i < |init| ==> init[i] == s[i];
    }
  }

  /** A settled history (the last SwitchWindow levels all equal the current
      one) never damps a change, and one whose last SwitchWindow levels all
      differ from the current one always damps a one-step change. */
  lemma RecentSwitchesOfSettledAndUnsettled(history: seq<int>, level: int)
    requires |history| >= SwitchWindow
    ensures (forall i :: |history| - SwitchWindow <= i < |history| ==> history[i] == level)
            ==> RecentSwitches(history, level) == 0
    ensures (forall i :: |history| - SwitchWindow <= i < |history| ==> history[i] != level)
            ==> RecentSwitches(history, level) == SwitchWindow
  {
    var w := history[|history| - SwitchWindow..];
    CountDifferingExtremes(w, level);
    assert forall i :: 0 <= i < |w| ==> w[i] == history[|history| - SwitchWindow + i];
  }
}
