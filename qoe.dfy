/** Quality-of-experience score of one rendition (estimate_qoe): the
    rendition's position on the ladder, less a rebuffer cost and a switch cost,
    clamped to [0, 1]. */
module Qoe {

  import opened RealFacts

  /** Cost of a certain rebuffer. */
  const RebufferWeight: real := 0.5
  /** Cost of a quality switch. */
  const SwitchWeight: real := 0.1

  /** x clamped to [0, 1] (fmaxf(0, fminf(1, x))). */
  function Clamp01(x: real): (r: real)
    ensures 0.0 <= r <= 1.0
    ensures 0.0 <= x <= 1.0 ==> r == x
    ensures x < 0.0 ==> r == 0.0
    ensures x > 1.0 ==> r == 1.0
  {
    if x > 1.0 then 1.0 else if x < 0.0 then 0.0 else x
  }

  /** Clamping keeps order. */
  lemma Clamp01Monotone(x: real, y: real)
    requires x <= y
    ensures Clamp01(x) <= Clamp01(y)
  {
  }

  /** Position of `level` on a ladder of `levels` renditions: 0 at the
      bottom, 1 at the top. */
  function LevelScore(levels: int, level: int): real
    requires levels >= 2
  {
    level as real / (levels - 1) as real
  }

  /** Score of playing `level` out of `levels` renditions with rebuffer
      probability `risk` and switch penalty `penalty`; 0 for a level outside
      the ladder. */
  function EstimateQoe(levels: int, level: int, risk: real, penalty: real): (r: real)
    requires levels >= 2
    ensures 0.0 <= r <= 1.0
    ensures level < 0 || level >= levels ==> r == 0.0
  {
    if level < 0 || level >= levels then 0.0
    else Clamp01(LevelScore(levels, level) - risk * RebufferWeight - penalty * SwitchWeight)
  }

  /** With the same risk and penalty a higher rendition never scores lower. */
  lemma QoeMonotoneInLevel(levels: int, l1: int, l2: int, risk: real, penalty: real)
    requires levels >= 2 && 0 <= l1 <= l2 < levels
    ensures EstimateQoe(levels, l1, risk, penalty) <= EstimateQoe(levels, l2, risk, penalty)
  {
    var d := (levels - 1) as real;
    QuotientMonotone(l1 as real, l2 as real, d, LevelScore(levels, l1), LevelScore(levels, l2));
    Clamp01Monotone(LevelScore(levels, l1) - risk * RebufferWeight - penalty * SwitchWeight,
                    LevelScore(levels, l2) - risk * RebufferWeight - penalty * SwitchWeight);
  }

  /** A higher rebuffer risk or a higher switch penalty never raises the score. */
  lemma QoeAntitoneInCosts(levels: int, level: int, r1: real, r2: real, p1: real, p2: real)
    requires levels >= 2 && r1 <= r2 && p1 <= p2
    ensures EstimateQoe(levels, level, r2, p2) <= EstimateQoe(levels, level, r1, p1)
  {
    if 0 <= level < levels {
      var s := LevelScore(levels, level);
      Clamp01Monotone(s - r2 * RebufferWeight - p2 * SwitchWeight, s - r1 * RebufferWeight - p1 * SwitchWeight);
    }
  }

  /** The top rendition with no risk and no switch scores 1; the bottom
      rendition never scores above 0 when its costs are not negative. */
  lemma QoeExtremes(levels: int, risk: real, penalty: real)
    requires levels >= 2
    ensures EstimateQoe(levels, levels - 1, 0.0, 0.0) == 1.0
    ensures risk >= 0.0 && penalty >= 0.0 ==> EstimateQoe(levels, 0, risk, penalty) == 0.0
  {
    QuotientTimesDivisor((levels - 1) as real, (levels - 1) as real, LevelScore(levels, levels - 1));
  }
}
