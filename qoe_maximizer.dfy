/** QoE-maximising selection (select_quality_maximize_qoe): every allowed
    rendition is scored with estimate_qoe, using the rebuffer probability of
    downloading one segment of it at the given bandwidth, and the first
    rendition with the highest score wins. */
module QoeMaximizer {

  import opened Ladder
  import opened BufferModel
  import opened Qoe

  /** Rebuffer probability of fetching one segment of `bitrate` kbps at
      `bandwidth` kbps. The engine computes the download time as
      bitrate * segment / bandwidth in IEEE arithmetic: a zero bandwidth makes
      it +inf for a positive segment duration (a certain rebuffer unless
      there is no buffer to lose) and -inf for a negative one (no risk). Both
      zero is a NaN, which the model excludes. */
  function DownloadRisk(buffer: real, bitrate: int, segment: real, bandwidth: real): (p: real)
    requires bitrate > 0 && (bandwidth != 0.0 || segment != 0.0)
    ensures 0.0 <= p <= 1.0
  {
    if bandwidth == 0.0 then
      if buffer <= 0.0 || segment > 0.0 then 1.0 else 0.0
    else RebufferProbability(buffer, bitrate as real * segment / bandwidth, segment)
  }

  /** Switch penalty of moving to q from `current`. */
  function SwitchPenalty(q: int, current: int): real
  {
    if q != current then 1.0 else 0.0
  }

  /** Score of rendition q. */
  function LevelQoe(ladder: seq<int>, q: int, buffer: real, segment: real, bandwidth: real, current: int): real
    requires ValidLadder(ladder) && 0 <= q < |ladder| && (bandwidth != 0.0 || segment != 0.0)
  {
    assert ladder[0] <= ladder[q];
    EstimateQoe(|ladder|, q, DownloadRisk(buffer, ladder[q], segment, bandwidth), SwitchPenalty(q, current))
  }

  /** The first of renditions 0..k-1 with the highest score. */
  function BestLevel(ladder: seq<int>, k: int, buffer: real, segment: real, bandwidth: real, current: int): (b: int)
    requires ValidLadder(ladder) && 1 <= k <= |ladder| && (bandwidth != 0.0 || segment != 0.0)
    ensures 0 <= b < k
    ensures forall j :: 0 <= j < k ==>
              LevelQoe(ladder, j, buffer, segment, bandwidth, current) <= LevelQoe(ladder, b, buffer, segment, bandwidth, current)
    ensures forall j :: 0 <= j < b ==>
              LevelQoe(ladder, j, buffer, segment, bandwidth, current) < LevelQoe(ladder, b, buffer, segment, bandwidth, current)
  {
    if k == 1 then 0
    else
      var b := BestLevel(ladder, k - 1, buffer, segment, bandwidth, current);
      if LevelQoe(ladder, k - 1, buffer, segment, bandwidth, current) > LevelQoe(ladder, b, buffer, segment, bandwidth, current)
      then k - 1
      else b
  }

  /** What select_quality_maximize_qoe returns: the best allowed rendition,
      or 0 when no rendition is allowed. */
  function QoeMaximizingLevel(ladder: seq<int>, bandwidth: real, buffer: real, segment: real, current: int,
                              maxQuality: int): (q: int)
    requires ValidLadder(ladder) && (bandwidth != 0.0 || segment != 0.0)
    ensures 0 <= q < |ladder|
    ensures q == 0 || q <= ActualMax(ladder, maxQuality)
  {
    var top := ActualMax(ladder, maxQuality);
    if top < 0 then 0 else BestLevel(ladder, top + 1, buffer, segment, bandwidth, current)
  }

  method SelectQualityMaximizeQoe(ladder: seq<int>, bandwidth: real, buffer: real, segment: real, current: int,
                                  maxQuality: int) returns (best: int)
    requires ValidLadder(ladder) && (bandwidth != 0.0 || segment != 0.0)
    ensures best == QoeMaximizingLevel(ladder, bandwidth, buffer, segment, current, maxQuality)
  {
    best := 0;
    var bestQoe := -1.0;
    var top := if maxQuality < |ladder| then maxQuality else |ladder| - 1;
    var q := 0;
    while q <= top
      invariant 0 <= q <= if top < 0 then 0 else top + 1
      invariant q == 0 ==> best == 0 && bestQoe == -1.0
      invariant q > 0 ==> best == BestLevel(ladder, q, buffer, segment, bandwidth, current)
                          && bestQoe == LevelQoe(ladder, best, buffer, segment, bandwidth, current)
    {
      assert ladder[0] <= ladder[q];
      var risk := DownloadRisk(buffer, ladder[q], segment, bandwidth);
      var penalty := if q != current then 1.0 else 0.0;
      var qoe := EstimateQoe(|ladder|, q, risk, penalty);
      assert qoe == LevelQoe(ladder, q, buffer, segment, bandwidth, current);
      ghost var next := BestLevel(ladder, q + 1, buffer, segment, bandwidth, current);
      if qoe > bestQoe {
        bestQoe := qoe;
        best := q;
      }
      assert best == next;
      q := q + 1;
    }
  }

  /** The chosen rendition scores at least as well as every allowed one, and
      strictly better than every allowed lower one. */
  lemma QoeMaximizingLevelIsOptimal(ladder: seq<int>, bandwidth: real, buffer: real, segment: real, current: int,
                                    maxQuality: int, j: int)
    requires ValidLadder(ladder) && (bandwidth != 0.0 || segment != 0.0)
    requires 0 <= j <= ActualMax(ladder, maxQuality)
    ensures var q := QoeMaximizingLevel(ladder, bandwidth, buffer, segment, current, maxQuality);
            && LevelQoe(ladder, j, buffer, segment, bandwidth, current) <= LevelQoe(ladder, q, buffer, segment, bandwidth, current)
            && (j < q ==> LevelQoe(ladder, j, buffer, segment, bandwidth, current) < LevelQoe(ladder, q, buffer, segment, bandwidth, current))
  {
  }

  /** An empty buffer, or no bandwidth with a positive segment duration,
      makes every rendition certain to rebuffer, so the rebuffer cost no
      longer tells renditions apart. */
  lemma CertainRebufferEverywhere(ladder: seq<int>, bandwidth: real, buffer: real, segment: real, q: int)
    requires ValidLadder(ladder) && (bandwidth != 0.0 || segment != 0.0)
    requires buffer <= 0.0 || (bandwidth == 0.0 && segment > 0.0)
    requires 0 <= q < |ladder|
    ensures DownloadRisk(buffer, ladder[q], segment, bandwidth) == 1.0
  {
    assert ladder[0] <= ladder[q];
  }
}
