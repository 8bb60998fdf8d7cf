/** The rendition ladder of the adaptive-bitrate engine: quality index i is
    streamed at ladder[i] kbps. The engine takes the ladder as a parameter;
    the table compiled into the engine is ReferenceLadder. */
module Ladder {

  /** Bitrates in kbps of the six renditions 240p, 360p, 480p, 720p, 1080p and 4K. */
  const ReferenceLadder: seq<int> := [400, 800, 1500, 3000, 6000, 12000]

  /** A usable ladder: at least two renditions (the QoE score divides by the
      number of levels minus one), positive bitrates, strictly increasing. */
  predicate ValidLadder(ladder: seq<int>)
  {
    && |ladder| >= 2
    && ladder[0] > 0
    && forall i, j :: 0 <= i < j < |ladder| ==> ladder[i] < ladder[j]
  }

  lemma ReferenceLadderIsValid()
    ensures ValidLadder(ReferenceLadder)
  {
  }

  /** The highest index a selection may return: maxQuality, capped at the top of the ladder. */
  function ActualMax(ladder: seq<int>, maxQuality: int): (r: int)
    requires |ladder| >= 1
    ensures r <= |ladder| - 1 && r <= maxQuality
    ensures r == maxQuality || r == |ladder| - 1
  {
    if maxQuality < |ladder| then maxQuality else |ladder| - 1
  }
}
