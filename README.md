# Video platform core: adaptive bitrate, hash matching, playlists and media paths

This project is a Dafny model of the decision logic of a video-sharing
platform, with proofs about it.

**The adaptive-bitrate (ABR) engine.** This is the main core. It is a set of
functions compiled to WebAssembly. The player asks them which rendition of
the ladder 400 / 800 / 1500 / 3000 / 6000 / 12000 kbps to fetch next. Its
parts are:

- bandwidth estimators: an exponentially weighted moving average (EWMA), a
  harmonic mean, a least-squares trend and the sample variance;
- a quality selector driven by the buffer level, with four regimes;
- a guard against oscillating between adjacent renditions;
- buffer-health and rebuffer-probability curves;
- a clamped quality-of-experience (QoE) score and the level that maximises it;
- an aggregator that composes all of these into one recommendation:
  quality, confidence, risk and QoE.

**The React hook that drives the engine.** It keeps a bounded window of
throughput samples. It falls back to a JavaScript engine when the
WebAssembly module cannot load. It clamps manual quality choices and applies
recommendations in auto mode.

**The secondary cores:**

- the comparison side of the perceptual video hashes: Hamming distance,
  similarity of hash runs, duplicate search, similar-video listing,
  fingerprint sampling and scene search;
- the playlist queue store: load, clear, move, next/previous, and shuffle
  and unshuffle that keep the current video;
- the playlist player's next and previous buttons with their repeat modes,
  and its swap-loop shuffle;
- the controller's two media-path normalisers and the front end's asset-URL
  builder;
- the WebVTT timestamp formatter and the sprite-sheet grid and cue
  arithmetic of the thumbnail generator.

**Modelling choices.**

- Floating-point numbers are modelled as `real`.
- The engine's fixed ladder is a parameter `ladder`, constrained by
  `Ladder.ValidLadder` (positive and strictly increasing).
  `Ladder.ReferenceLadder` is the source's own table.
- Where the source updates state in place, the model is a class with
  `modifies` clauses:
  - the hook is `AbrHook.AbrController`;
  - the queue store is `PlaylistQueue.QueueStore`;
  - the player is `PlaylistPlayer.Player`.
- Each method is proved against a specification function. The properties
  the source promises are proved as lemmas about that function.
- Randomness becomes a parameter:
  - each shuffle result is constrained to be a permutation;
  - each Fisher-Yates pick must lie in its range.
- The medium-buffer step-up rule reads the bitrate of current_quality + 1
  only after checking that the affordable level is above current_quality
  (processing/cpp/abr_controller.cpp:150), and the affordable level is at
  most the top index, so the read stays inside the ladder. That it does is
  part of the proof that `QualitySelection.QualityLevel` is well formed.
- The hook model computes what the hook computes: its own rendition table
  (15000 kbps at 4K) and the engine's recommendation as written. The
  corrections of Findings 1 and 2 are stated beside them, not used by them.

## Model

| member | source | states |
|---|---|---|
| Ladder.ReferenceLadderIsValid | processing/cpp/abr_controller.cpp:20-21 | The engine's rendition table is positive and strictly increasing, which the selectors rely on |
| Ladder.ActualMax | processing/cpp/abr_controller.cpp:118 | The effective top level is max_quality when it is below the ladder length and the last index otherwise |
| BandwidthEstimator.PredictBandwidth | processing/cpp/abr_controller.cpp:39-52 | The EWMA loop (alpha 0.3, seeded with the first sample, times the 0.8 margin) computes PredictedBandwidth, which is 0 for an empty history |
| BandwidthEstimator.EwmaWithin | processing/cpp/abr_controller.cpp:45-48 | The EWMA of samples within [lo, hi] stays within [lo, hi] |
| BandwidthEstimator.PredictedBandwidthWithin | processing/cpp/abr_controller.cpp:39-52 | The prediction of samples within [lo, hi] lies within [0.8 lo, 0.8 hi] |
| BandwidthEstimator.PredictedBandwidthOfConstant | processing/cpp/abr_controller.cpp:39-52 | A constant history v predicts exactly 0.8 v |
| BandwidthEstimator.EwmaPositive | processing/cpp/abr_controller.cpp:45-48 | The EWMA of positive samples is positive |
| BandwidthEstimator.PredictedBandwidthSign | processing/cpp/abr_controller.cpp:39-52 | The prediction of non-negative samples is non-negative; for positive samples it is positive iff the history is non-empty |
| BandwidthEstimator.ReciprocalSum | processing/cpp/abr_controller.cpp:63-69 | The sum of reciprocals over positive samples is positive iff at least one sample is positive |
| BandwidthEstimator.PredictBandwidthHarmonic | processing/cpp/abr_controller.cpp:58-73 | The loop that skips non-positive samples computes HarmonicBandwidth: 0 without positive samples, else count over the reciprocal sum |
| BandwidthEstimator.HarmonicWithin | processing/cpp/abr_controller.cpp:58-73 | The harmonic mean of positive samples within [lo, hi] lies within [lo, hi], with no margin applied |
| BandwidthEstimator.HarmonicOfConstant | processing/cpp/abr_controller.cpp:58-73 | A constant positive history v gives exactly v |
| BandwidthEstimator.HarmonicSkipsNonPositive | processing/cpp/abr_controller.cpp:65 | Appending a non-positive sample leaves the harmonic estimate unchanged |
| BandwidthEstimator.SumIndexClosedForm | processing/cpp/abr_controller.cpp:86-91 | The index sums have the closed forms n(n-1)/2 and (n-1)n(2n-1)/6 |
| BandwidthEstimator.IndexSpreadClosedForm | processing/cpp/abr_controller.cpp:94 | The slope denominator n sum(x^2) - (sum x)^2 equals n^2(n^2-1)/12, positive from two samples on, so the slope never divides by zero |
| BandwidthEstimator.Classify | processing/cpp/abr_controller.cpp:100-102 | The label is 1 iff the normalised slope exceeds 0.1, -1 iff it is below -0.1, and 0 iff it lies in between |
| BandwidthEstimator.TrendOf | processing/cpp/abr_controller.cpp:80-103 | The trend is -1, 0 or 1, and 0 for fewer than three samples |
| BandwidthEstimator.DetectBandwidthTrend | processing/cpp/abr_controller.cpp:80-103 | The accumulation loop computes TrendOf of the history |
| BandwidthEstimator.LineSums | processing/cpp/abr_controller.cpp:86-91 | The loop's sums over samples on a line a + b i satisfy the line's normal equations |
| BandwidthEstimator.SlopeOfLine | processing/cpp/abr_controller.cpp:94 | The least-squares slope of samples on a line a + b i is exactly b |
| BandwidthEstimator.SlopeOfLineSums | processing/cpp/abr_controller.cpp:94 | The slope formula recovers b from sums that satisfy the normal equations |
| BandwidthEstimator.TrendOfConstant | processing/cpp/abr_controller.cpp:80-103 | A constant history is stable (trend 0) |
| BandwidthEstimator.TrendOfRamps | processing/cpp/abr_controller.cpp:80-103 | The rising ramp 1..5 is increasing and the falling ramp 5..1 is decreasing |
| BandwidthEstimator.TrendScaleInvariant | processing/cpp/abr_controller.cpp:94-102 | Multiplying every sample by a positive factor leaves the trend unchanged, because the slope is normalised by the mean |
| BandwidthEstimator.ScaledSlopeOf | processing/cpp/abr_controller.cpp:94 | Scaling the samples by c scales the slope by c |
| BandwidthEstimator.ScaledSamples | processing/cpp/abr_controller.cpp:88 | Scaling the samples by c scales their sum by c |
| BandwidthEstimator.ScaledWeighted | processing/cpp/abr_controller.cpp:89 | Scaling the samples by c scales their index-weighted sum by c |
| BandwidthEstimator.ScaledLabel | processing/cpp/abr_controller.cpp:95-102 | Scaling both slope and mean by the same positive factor keeps the label |
| BandwidthEstimator.Variance | processing/cpp/abr_controller.cpp:305-319 | The sample variance is non-negative |
| BandwidthEstimator.BandwidthVariance | processing/cpp/abr_controller.cpp:305-319 | The two loops compute Variance: 0 below two samples, else squared deviations from the mean over n - 1 |
| BandwidthEstimator.SquaredDeviationsZero | processing/cpp/abr_controller.cpp:312-316 | The squared deviations vanish iff every sample equals the mean |
| BandwidthEstimator.VarianceZeroIffConstant | processing/cpp/abr_controller.cpp:305-319 | The variance is 0 iff the history has fewer than two samples or is constant |
| BandwidthEstimator.SumOfConstant | processing/cpp/abr_controller.cpp:309-311 | The sum of n copies of x is n x |
| BandwidthEstimator.MaxIsUpperBound | processing/cpp/abr_controller.cpp:45-48 | Max bounds every sample (used to state the EWMA's range) |
| BufferModel.BufferHealth | processing/cpp/abr_controller.cpp:202-214 | Health lies in [0, 1]; it is 0 iff the segment or the buffer is non-positive, and 1 iff the buffer holds five segments or more |
| BufferModel.BufferHealthLinear | processing/cpp/abr_controller.cpp:213 | Below the five-segment target, health times the target equals the buffer |
| BufferModel.BufferHealthMonotone | processing/cpp/abr_controller.cpp:202-214 | More buffer never lowers health |
| BufferModel.RunwayProbability | processing/cpp/abr_controller.cpp:234-238 | The runway curve lies in [0, 0.9] |
| BufferModel.RunwayProbabilityAntitone | processing/cpp/abr_controller.cpp:234-238 | A longer runway never raises the probability |
| BufferModel.RebufferProbability | processing/cpp/abr_controller.cpp:220-239 | The probability lies in [0, 1]; it is 1 iff the buffer is empty or a positive download takes at least a segment's duration |
| BufferModel.RebufferProbabilityOfRunway | processing/cpp/abr_controller.cpp:220-239 | With a buffer, no download time gives 0; otherwise, if the download keeps pace, the runway buffer / (1 - rate) decides |
| BufferModel.RebufferProbabilityAntitone | processing/cpp/abr_controller.cpp:220-239 | More buffer never raises the rebuffer probability |
| BufferModel.RebufferProbabilityFallsAsDownloadSlows | processing/cpp/abr_controller.cpp:229-238 | With 20 s of 6 s segments, a 1 s download scores 0.2 but a slower 4.5 s download scores 0 |
| Qoe.Clamp01 | processing/cpp/abr_controller.cpp:262 | The clamp lands in [0, 1] and is the identity inside it |
| Qoe.Clamp01Monotone | processing/cpp/abr_controller.cpp:262 | The clamp is monotone |
| Qoe.EstimateQoe | processing/cpp/abr_controller.cpp:249-263 | The score lies in [0, 1] and is 0 for a level outside the ladder |
| Qoe.QoeMonotoneInLevel | processing/cpp/abr_controller.cpp:249-263 | At equal risk and penalty, a higher level never scores lower |
| Qoe.QoeAntitoneInCosts | processing/cpp/abr_controller.cpp:249-263 | Higher rebuffer risk or switch penalty never raises the score |
| Qoe.QoeExtremes | processing/cpp/abr_controller.cpp:249-263 | The top level without costs scores 1; level 0 with non-negative costs scores 0 |
| QualitySelection.HighestFitting | processing/cpp/abr_controller.cpp:131-136 | The scan finds the highest level whose bitrate is at most 0.9 times the bandwidth, or 0 |
| QualitySelection.FittingIsDownwardClosed | processing/cpp/abr_controller.cpp:131-136 | On an increasing ladder every level below the affordable one also fits |
| QualitySelection.BandwidthQuality | processing/cpp/abr_controller.cpp:131-136 | The loop computes HighestFitting over levels 0..actual_max |
| QualitySelection.QualityLevel | processing/cpp/abr_controller.cpp:114-164 | The result is non-negative or the effective top, and at most the effective top or 0 |
| QualitySelection.SelectQualityLevel | processing/cpp/abr_controller.cpp:114-164 | The method computes QualityLevel |
| QualitySelection.QualityLevelBounds | processing/cpp/abr_controller.cpp:114-164 | For max_quality >= 0 the level lies in [0, min(max_quality, 5)]; it is 0 whenever bandwidth <= 0 or buffer < 2 s |
| QualitySelection.QualityLevelFits | processing/cpp/abr_controller.cpp:126-161 | A positive result is affordable at the bandwidth |
| QualitySelection.QualityLevelStepsUpByOne | processing/cpp/abr_controller.cpp:139-157 | The selector never rises more than one level, and with less than 5 s of buffer it drops below a positive current level |
| QualitySelection.QualityLevelHoldsWhenSustainable | processing/cpp/abr_controller.cpp:147-157 | In the medium regime, an affordable current level is never dropped |
| QualitySelection.CountDiffering | processing/cpp/abr_controller.cpp:177-180 | At most every entry is counted |
| QualitySelection.RecentSwitches | processing/cpp/abr_controller.cpp:176-181 | At most five switches are counted |
| QualitySelection.SelectQualityStable | processing/cpp/abr_controller.cpp:170-192 | The method computes StableQuality |
| QualitySelection.StableQualityChoice | processing/cpp/abr_controller.cpp:170-192 | The result is the base level or current. It differs from the base iff at least 3 of the last 5 entries differ from current and the base is one step away. Histories shorter than 5 never suppress |
| QualitySelection.CountDifferingExtremes | processing/cpp/abr_controller.cpp:177-180 | The count is 0 iff every entry equals the level, and the full length iff none does |
| QualitySelection.RecentSwitchesOfSettledAndUnsettled | processing/cpp/abr_controller.cpp:176-181 | A settled window counts 0 switches and a fully unsettled one counts 5 |
| QoeMaximizer.DownloadRisk | processing/cpp/abr_controller.cpp:276-280 | The per-level rebuffer risk from the download time bitrate x segment / bandwidth lies in [0, 1] |
| QoeMaximizer.BestLevel | processing/cpp/abr_controller.cpp:275-292 | The running best is a maximum of the QoE over the scanned levels and the first one among ties |
| QoeMaximizer.QoeMaximizingLevel | processing/cpp/abr_controller.cpp:269-295 | The result is a ladder level, and it is 0 or within the effective top |
| QoeMaximizer.SelectQualityMaximizeQoe | processing/cpp/abr_controller.cpp:269-295 | The argmax loop computes QoeMaximizingLevel |
| QoeMaximizer.QoeMaximizingLevelIsOptimal | processing/cpp/abr_controller.cpp:269-295 | No level up to the effective top scores more, and every lower level scores strictly less |
| QoeMaximizer.CertainRebufferEverywhere | processing/cpp/abr_controller.cpp:220-230 | An empty buffer or zero bandwidth makes every level certain to rebuffer |
| Recommendation.Confidence | processing/cpp/abr_controller.cpp:342 | Confidence lies in [0, 1] for non-negative bandwidth; for positive bandwidth it is 1 iff the deviation is 0, and 0 iff the deviation reaches the bandwidth |
| Recommendation.Assemble | processing/cpp/abr_controller.cpp:345-358 | The risk and QoE reported are those of the chosen quality, both in [0, 1] |
| Recommendation.Recommend | processing/cpp/abr_controller.cpp:326-361 | The recommended quality is a ladder level, 0 or within the effective top |
| Recommendation.GetComprehensiveRecommendation | processing/cpp/abr_controller.cpp:326-361 | The method computes Recommend from the trend-adjusted EWMA |
| Recommendation.RecommendIsBest | processing/cpp/abr_controller.cpp:345-353 | The reported QoE is at least that of any allowed level at the adjusted bandwidth |
| Recommendation.RecommendOfSteadyBandwidth | processing/cpp/abr_controller.cpp:333-342 | A steady history leaves the 0.8 v prediction unadjusted and yields confidence 1 |
| Recommendation.LowestCertainMeansAllCertain | processing/cpp/abr_controller.cpp:220-230 | If level 0 is certain to rebuffer, so is every level |
| Recommendation.SlowLinkRecommendsTop | processing/cpp/abr_controller.cpp:326-361 | As written, history [300, 300, 300] with buffer 10 and segment 4 recommends level 4; the corrected aggregator gives 0 |
| Recommendation.SlowLinkHistory | processing/cpp/abr_controller.cpp:337-338 | The slow-link history is stable with adjusted bandwidth 240 |
| Recommendation.SlowLinkSelector | processing/cpp/abr_controller.cpp:114-164 | The buffer-regime selector picks level 0 at 240 kbps |
| Recommendation.SlowLinkMaximizer | processing/cpp/abr_controller.cpp:269-295 | At 240 kbps level 0 is certain to rebuffer and the maximiser picks level 4 |
| Recommendation.SafeLevel | processing/cpp/abr_controller.cpp:345-346 | The corrected choice is a ladder level, 0 or within the effective top |
| Recommendation.SafeLevelIsIntended | processing/cpp/abr_controller.cpp:345-346 | The corrected choice equals the maximiser unless level 0 is certain to rebuffer (iff every level is), and then it is 0 |
| Recommendation.RecommendCorrected | processing/cpp/abr_controller.cpp:326-361 | The corrected recommendation is a ladder level within the cap |
| Recommendation.RiskOfPositiveBandwidthLink | processing/cpp/abr_controller.cpp:276-280 | With non-zero bandwidth, the per-level risk is the rebuffer curve at the level's download time |
| Recommendation.SlowerRenditionOutpaced | processing/cpp/abr_controller.cpp:226-230 | If a cheaper rendition's download cannot keep pace, no dearer one can |
| AbrHook.QualityLevelsDisagreeWithEngine | frontend/src/hooks/useABRController.ts:11-18 | The hook's table lists level i at position i and agrees with the engine on five rungs, but lists 15000 kbps where the engine has 12000 |
| AbrHook.QualityLevelsCorrectedMatchEngine | frontend/src/hooks/useABRController.ts:11-18 | A table aligned to the engine lists level i with the engine's bitrate for i |
| AbrHook.Newest | frontend/src/hooks/useABRController.ts:96-99 | The window holds the last k samples in arrival order |
| AbrHook.Recorded | frontend/src/hooks/useABRController.ts:94-102 | Recording into a full window keeps the newest historySize samples, including the new one |
| AbrHook.RecordAllKeepsNewest | frontend/src/hooks/useABRController.ts:94-102 | Recording any sequence from empty leaves exactly its newest historySize samples, in order |
| AbrHook.HookPredictionWithin | frontend/src/hooks/useABRController.ts:105-133 | An empty history gives 3000 kbps. Otherwise, before the engine loads and with the compiled engine, the prediction of samples in [lo, hi] lies in [0.8 lo, 0.8 hi]; the JavaScript fallback engine always answers 3000 |
| AbrHook.TrendName | frontend/src/hooks/useABRController.ts:192-197 | 1 maps to increasing, -1 to decreasing, anything else to stable |
| AbrHook.Measured | frontend/src/hooks/useABRController.ts:247-250 | A sample is recorded iff both measurements are given, bytes are non-zero and the time is positive; it is bytes x 8 / time / 1000 kbps |
| AbrHook.RecommendedState | frontend/src/hooks/useABRController.ts:136-220 | Without the native engine or with fewer than 3 samples the state is unchanged; otherwise the engine's recommendation as written gives a quality that is 0 or within the cap, all scores are in [0, 1], the trend name matches and the bandwidth is the EWMA prediction |
| AbrHook.AutoApplied | frontend/src/hooks/useABRController.ts:257-262 | In auto mode the current quality becomes the recommended one; nothing else changes |
| AbrHook.ClampQuality | frontend/src/hooks/useABRController.ts:224 | The level is clamped into [0, maxQuality] and kept when already inside |
| AbrHook.QualityInfoLevel | frontend/src/hooks/useABRController.ts:270-272 | A known level gives the rendition of that level, an unknown one the rendition of level 2; the bitrate is the engine's below level 5 and 15000 kbps at level 5 |
| AbrHook.AvailableQualitiesAreCapped | frontend/src/hooks/useABRController.ts:275-277 | For maxQuality >= -1 a rendition of the hook's table is offered iff its level is at most maxQuality; the list is in level order, offers 4K at 15000 kbps once maxQuality >= 5, and a negative end counts from the back |
| AbrHook.HighestBelow | frontend/src/hooks/useABRController.ts:316-320 | The fallback's scan finds the highest rung of 1..4 strictly below the bandwidth |
| AbrHook.FallbackSelectQualityRule | frontend/src/hooks/useABRController.ts:309-322 | The fallback steps down to max(0, current - 1) below 5 s of buffer, and otherwise takes the scan's rung capped by maxQuality |
| AbrHook.FallbackBufferHealthAgrees | frontend/src/hooks/useABRController.ts:323-325 | The fallback's buffer health equals the engine's for a non-negative buffer, and is negative where the engine says 0 |
| AbrHook.UpdateKeepsCapped | frontend/src/hooks/useABRController.ts:244-267 | Recommending with the engine as written and auto-applying keep both qualities within the cap; the initial state (2, 2) is within it iff maxQuality >= 2 |
| AbrHook.SlowLinkHookSwitchesToTop | frontend/src/hooks/useABRController.ts:136-267 | On the slow link of Finding 1 the hook recommends level 4 and, in auto mode, switches to it |
| AbrHook.AbrController.constructor | frontend/src/hooks/useABRController.ts:39-59 | The hook starts with an empty window, the initial state and no engine |
| AbrHook.AbrController.LoadEngine | frontend/src/hooks/useABRController.ts:64-91 | The first load installs the native engine or the fallback, and later loads change nothing |
| AbrHook.AbrController.RecordBandwidth | frontend/src/hooks/useABRController.ts:94-102 | The window becomes Recorded(old window, x) and stays within historySize |
| AbrHook.AbrController.PredictBandwidth | frontend/src/hooks/useABRController.ts:105-133 | The method returns HookPrediction of the window for the loaded engine |
| AbrHook.AbrController.GetRecommendation | frontend/src/hooks/useABRController.ts:136-220 | The method returns RecommendedState of the current state, taking the recommendation from the engine's method |
| AbrHook.AbrController.SetQuality | frontend/src/hooks/useABRController.ts:223-233 | The current quality becomes the clamped level, and auto mode stays on only when asked and already on |
| AbrHook.AbrController.ToggleAutoMode | frontend/src/hooks/useABRController.ts:236-241 | Auto mode flips and nothing else changes |
| AbrHook.AbrController.Update | frontend/src/hooks/useABRController.ts:244-267 | The window records the measured sample if any, the returned state is the recommendation, and the stored state is that recommendation auto-applied |
| VideoHash.PopCountZero | processing/cpp/video_hash.cpp:211-215 | A word has no set bits iff it is zero |
| VideoHash.PopCountBound | processing/cpp/video_hash.cpp:211-215 | A word of k significant bits has at most k set bits |
| VideoHash.HammingFacts | processing/cpp/video_hash.cpp:207-218 | The distance lies in [0, 64], is symmetric, and is 0 iff the hashes are equal |
| VideoHash.CalculateHammingDistance | processing/cpp/video_hash.cpp:207-218 | The bit loop counts the set bits of the XOR |
| VideoHash.TotalDistance | processing/cpp/video_hash.cpp:229-231 | The summed distance of n hash pairs is at most 64 n |
| VideoHash.TotalDistanceZero | processing/cpp/video_hash.cpp:229-231 | The summed distance is 0 iff the two runs are equal |
| VideoHash.TotalDistanceSymmetric | processing/cpp/video_hash.cpp:229-231 | The summed distance does not depend on argument order |
| VideoHash.Similarity | processing/cpp/video_hash.cpp:223-238 | Similarity lies in [0, 1] |
| VideoHash.SimilarityFacts | processing/cpp/video_hash.cpp:223-238 | For count >= 1 the similarity is 1 iff the runs are equal, and it is symmetric |
| VideoHash.CompareVideoHashes | processing/cpp/video_hash.cpp:223-238 | The method computes Similarity: 0 for count < 1, else 1 - distance / (64 count) |
| VideoHash.FirstDuplicate | processing/cpp/video_hash.cpp:250-259 | The scan returns -1 or an entry that reaches the threshold, and every earlier entry falls short |
| VideoHash.DetectDuplicateContent | processing/cpp/video_hash.cpp:244-262 | The method computes DuplicateIndex: -1 for hash_count < 1, else the first entry whose similarity over min(hash_count, per-entry) hashes reaches the threshold |
| VideoHash.StoredEntryIsFound | processing/cpp/video_hash.cpp:244-262 | If the query is stored at entry e, the search reports an entry at or before e |
| VideoHash.SimilarFrom | processing/cpp/video_hash.cpp:277-293 | The list never exceeds the room left in the result buffer |
| VideoHash.SimilarFromSound | processing/cpp/video_hash.cpp:277-293 | Listed entries are strictly increasing, scanned ones, and each carries its similarity, which reaches the minimum |
| VideoHash.PrependKeepsSound | processing/cpp/video_hash.cpp:283-290 | Adding a qualifying earlier entry keeps the list sound |
| VideoHash.SimilarFromIsComplete | processing/cpp/video_hash.cpp:277-293 | A qualifying entry is listed while the buffer has room; one left out finds the buffer full of entries before it |
| VideoHash.Layout | processing/cpp/video_hash.cpp:285-295 | The buffer holds the count at 0 and each (index, similarity) pair at 1 + 2k and 2 + 2k |
| VideoHash.SimilarVideos | processing/cpp/video_hash.cpp:268-296 | No result iff hash_count < 1 or max_results < 0 (the allocation fails); otherwise at most 1 + 2 max_results floats |
| VideoHash.FindSimilarVideos | processing/cpp/video_hash.cpp:268-296 | The method computes SimilarVideos: none for hash_count < 1 or a failed allocation, else the laid-out list |
| VideoHash.FingerprintLength | processing/cpp/video_hash.cpp:329-332 | The length is the ceiling of frames / interval |
| VideoHash.ComputeVideoFingerprint | processing/cpp/video_hash.cpp:306-324 | None for fewer than one frame; otherwise a fresh buffer of the fingerprint length whose k-th hash is that of frame k x interval |
| VideoHash.SampledFillsFingerprint | processing/cpp/video_hash.cpp:316-319 | The sampling loop stops exactly when the fingerprint is full |
| VideoHash.FirstScene | processing/cpp/video_hash.cpp:347-357 | The scan returns -1 or an offset within range that reaches the threshold, and every earlier offset falls short |
| VideoHash.FindMatchingScene | processing/cpp/video_hash.cpp:342-360 | The method computes MatchingScene with match length min(min_match, query_length) |
| VideoHash.MatchingSceneFacts | processing/cpp/video_hash.cpp:342-360 | A target shorter than the match length gives -1, and an exact occurrence at o is found at or before o |
| PlaylistQueue.Without | frontend/src/store/playlistQueueStore.ts:62 | Filtering out one position removes exactly that entry |
| PlaylistQueue.WithoutId | frontend/src/store/playlistQueueStore.ts:130 | Filtering by id drops every entry with the current id and keeps every other entry as often as the queue has it |
| PlaylistQueue.FindIndex | frontend/src/store/playlistQueueStore.ts:122 | findIndex gives the first position with the id, or -1 |
| PlaylistQueue.CurrentVideo | frontend/src/store/playlistQueueStore.ts:140-143 | There is a current video iff the index is inside the queue |
| PlaylistQueue.LoadedPlaysStartVideo | frontend/src/store/playlistQueueStore.ts:56-76 | Loading keeps the playlist as originalQueue and holds exactly its entries. With shuffle the start video plays first at position 0; without it the queue is the playlist and the position is startIndex |
| PlaylistQueue.WithIndex | frontend/src/store/playlistQueueStore.ts:89-94 | An index inside the queue becomes current and selects that video; any other index changes nothing; nothing but the index ever changes |
| PlaylistQueue.StepsFollowHasNextAndHasPrevious | frontend/src/store/playlistQueueStore.ts:96-114 | nextVideo moves forward iff hasNext and returns the new current video, else null with no change; previousVideo likewise with hasPrevious |
| PlaylistQueue.NextThenPreviousRestores | frontend/src/store/playlistQueueStore.ts:96-114 | A move forward then back, or back then forward, restores the state and the video |
| PlaylistQueue.ToggledKeepsCurrentVideo | frontend/src/store/playlistQueueStore.ts:116-138 | Shuffling keeps the playing video at position 0; unshuffling restores the playlist order and keeps the video, found by id |
| PlaylistQueue.ShuffledQueueHoldsPlaylist | frontend/src/store/playlistQueueStore.ts:128-136 | With distinct ids and the current video in the playlist, the queue after shuffling on is a permutation of the playlist |
| PlaylistQueue.ShuffleThenUnshuffleRestores | frontend/src/store/playlistQueueStore.ts:116-138 | With unique ids, shuffle then unshuffle gives back the original state |
| PlaylistQueue.QueueStore.constructor | frontend/src/store/playlistQueueStore.ts:49-54 | The store starts empty |
| PlaylistQueue.QueueStore.SetPlaylistQueue | frontend/src/store/playlistQueueStore.ts:56-76 | The store's state becomes Loaded |
| PlaylistQueue.QueueStore.ClearQueue | frontend/src/store/playlistQueueStore.ts:78-87 | The state is reset to the empty queue |
| PlaylistQueue.QueueStore.SetCurrentIndex | frontend/src/store/playlistQueueStore.ts:89-94 | The state becomes WithIndex |
| PlaylistQueue.QueueStore.NextVideo | frontend/src/store/playlistQueueStore.ts:96-104 | The state and the returned video are Advanced |
| PlaylistQueue.QueueStore.PreviousVideo | frontend/src/store/playlistQueueStore.ts:106-114 | The state and the returned video are Retreated |
| PlaylistQueue.QueueStore.ToggleShuffle | frontend/src/store/playlistQueueStore.ts:116-138 | The state becomes Toggled |
| PlaylistPlayer.NextRepeat | frontend/src/components/playllist/PlaylistPlayer.tsx:176-181 | The mode always changes, and none goes to one |
| PlaylistPlayer.RepeatCycles | frontend/src/components/playllist/PlaylistPlayer.tsx:176-181 | Three presses return to the start, and the cycle is one-to-one |
| PlaylistPlayer.Range | frontend/src/components/playllist/PlaylistPlayer.tsx:104-105 | The unshuffled order is 0..n-1 |
| PlaylistPlayer.OrderFacts | frontend/src/components/playllist/PlaylistPlayer.tsx:101-106 | A play order has n distinct entries in 0..n-1 |
| PlaylistPlayer.IndexOf | frontend/src/components/playllist/PlaylistPlayer.tsx:108-111 | indexOf gives the first position holding x, or -1 iff x is absent |
| PlaylistPlayer.EmptyPlaylistThrows | frontend/src/components/playllist/PlaylistPlayer.tsx:113-155 | On a loaded empty playlist, next in repeat-all mode and previous in repeat-one or repeat-all mode read a missing video |
| PlaylistPlayer.StaleIndexThrows | frontend/src/components/playllist/PlaylistPlayer.tsx:72-88 | After a reload to a playlist too short for the current index, repeat-one next and previous both throw, while in the other modes next starts the order afresh |
| PlaylistPlayer.ReloadedShorterPlaylistThrows | frontend/src/components/playllist/PlaylistPlayer.tsx:113-133 | A three-video playlist at its last video in repeat-one mode, reloaded with two videos, throws on next |
| PlaylistPlayer.PressNeverThrows | frontend/src/components/playllist/PlaylistPlayer.tsx:113-155 | For every consistent state the corrected press never fails, selects only indices that name a video, and agrees with the source wherever the source does not throw |
| PlaylistPlayer.PreviousUndoesNext | frontend/src/components/playllist/PlaylistPlayer.tsx:113-155 | Outside repeat-one and before the end, next goes to the next entry of the order and previous comes back |
| PlaylistPlayer.NextAtEnd | frontend/src/components/playllist/PlaylistPlayer.tsx:113-133 | At the end of the order, next stays without repeat, wraps to the first entry in repeat-all mode and replays in repeat-one mode |
| PlaylistPlayer.SwappedKeepsEntries | frontend/src/components/playllist/PlaylistPlayer.tsx:166-169 | The swap loop keeps the multiset of entries |
| PlaylistPlayer.SwapKeepsMultiset | frontend/src/components/playllist/PlaylistPlayer.tsx:168 | One swap keeps the multiset of entries |
| PlaylistPlayer.ShuffledOrder | frontend/src/components/playllist/PlaylistPlayer.tsx:161-170 | The shuffled order is a permutation of 0..n-1 |
| PlaylistPlayer.ActionsStayConsistent | frontend/src/components/playllist/PlaylistPlayer.tsx:83-181 | Loading, next, previous, repeat and shuffle keep the shuffled order a permutation of the playlist's positions |
| PlaylistPlayer.Player.constructor | frontend/src/components/playllist/PlaylistPlayer.tsx:51-56 | The player starts with no playlist, index 0, no shuffle and no repeat |
| PlaylistPlayer.Player.Loaded | frontend/src/components/playllist/PlaylistPlayer.tsx:80-88 | Loading stores the playlist and resets the shuffled order to 0..n-1 |
| PlaylistPlayer.Player.PlayNext | frontend/src/components/playllist/PlaylistPlayer.tsx:113-133 | The move is the source's next press, and the state follows it |
| PlaylistPlayer.Player.PlayPrevious | frontend/src/components/playllist/PlaylistPlayer.tsx:135-155 | The move is the source's previous press, and the state follows it |
| PlaylistPlayer.Player.ToggleRepeat | frontend/src/components/playllist/PlaylistPlayer.tsx:176-181 | The repeat mode advances one step in the cycle |
| PlaylistPlayer.Player.ToggleShuffle | frontend/src/components/playllist/PlaylistPlayer.tsx:157-174 | The state becomes ShuffleToggled for the given picks |
| PlaylistPlayer.RangeArray | frontend/src/components/playllist/PlaylistPlayer.tsx:161-164 | The fresh array holds 0..n-1 |
| PlaylistPlayer.SwappedStep | frontend/src/components/playllist/PlaylistPlayer.tsx:166-169 | One iteration of the swap loop peels one step off Swapped |
| PlaylistPlayer.SwapDown | frontend/src/components/playllist/PlaylistPlayer.tsx:166-169 | The in-place loop leaves the array as Swapped of its old contents |
| Strings.WithSlashes | BACKEND/src/controllers/video.controllers.js:25 | Each backslash becomes a slash and every other character stays |
| Strings.WithSlashesFacts | BACKEND/src/controllers/video.controllers.js:25 | No backslash is left, and text without one is unchanged |
| Strings.LastAtOrBefore | BACKEND/src/controllers/video.controllers.js:29 | The search finds the last marker at or before k, or -1 |
| Strings.LastIndexOf | BACKEND/src/controllers/video.controllers.js:29 | lastIndexOf gives the last position of the marker, or -1 |
| Strings.NothingAfterLast | BACKEND/src/controllers/video.controllers.js:29 | Text cut after the last marker holds no marker |
| PublicPaths.PublicUrlPath | BACKEND/src/controllers/video.controllers.js:23-39 | Empty stays empty, and any other result holds no backslash |
| PublicPaths.UrlOfNormalized | BACKEND/src/controllers/video.controllers.js:27-38 | The URL path keeps a text free of backslashes free of them |
| PublicPaths.PublicDbPath | BACKEND/src/controllers/video.controllers.js:41-53 | Empty stays empty, and any other result holds no backslash |
| PublicPaths.DbOfNormalized | BACKEND/src/controllers/video.controllers.js:44-52 | The database path of a non-empty text is non-empty and free of backslashes |
| PublicPaths.DbPathAddsPublicPrefix | BACKEND/src/controllers/video.controllers.js:45-52 | Under a public directory the database form is "public/" plus the URL path; elsewhere it is the normalised input |
| PublicPaths.MarkerThenRest | BACKEND/src/controllers/video.controllers.js:50 | Text from a marker on is "public/" then the rest |
| PublicPaths.NotHttp | BACKEND/src/controllers/video.controllers.js:45 | A database path beginning with "p" is no URL |
| PublicPaths.UrlPathOutsidePublic | BACKEND/src/controllers/video.controllers.js:36-38 | Outside every public directory, an absolute path gives "" and a relative path is kept |
| PublicPaths.UrlPathOfDbPath | BACKEND/src/controllers/video.controllers.js:41-53 | The promised round trip: the URL path of the database form equals the URL path of the input, for every input |
| PublicPaths.NormalizedRoundTrip | BACKEND/src/controllers/video.controllers.js:47-50 | The round trip holds on normalised text |
| PublicPaths.MarkedStaysPublic | BACKEND/src/controllers/video.controllers.js:47-50 | The database form starts with "public/", holds no later marker and is no URL |
| PublicPaths.DbPathIdempotent | BACKEND/src/controllers/video.controllers.js:41-53 | Normalising a database path again changes nothing |
| AssetUrl.WithoutApiPath | frontend/src/lib/placeholder.ts:5 | A trailing "/api/v1" or "/api/v1/" is removed, and a base without one is unchanged |
| AssetUrl.WithoutApiPathUndoesAppend | frontend/src/lib/placeholder.ts:5 | Removing the API path undoes appending it, with or without the slash |
| AssetUrl.BackendOrigin | frontend/src/lib/placeholder.ts:3-11 | The first non-empty of the client base, backend URL and API URL, without its API path, else http://localhost:8000 |
| AssetUrl.ConfiguredOriginIsRecovered | frontend/src/lib/placeholder.ts:3-11 | A base configured as origin + "/api/v1", with or without the slash, yields that origin from whichever setting supplies it |
| AssetUrl.BackendAssetUrl | frontend/src/lib/placeholder.ts:13-21 | An empty path gives "", and an http(s) URL is returned as it is |
| AssetUrl.AssetUrlIsUnderOrigin | frontend/src/lib/placeholder.ts:16-20 | Any other path gives origin + "/" + a rest with no backslash |
| AssetUrl.StoredPathLinksToPublicUrl | frontend/src/lib/placeholder.ts:13-21 | A stored public database path links to the origin followed by the controller's URL path |
| SpriteVtt.DigitChar | BACKEND/src/services/videoProcessing.service.js:166 | A digit value prints as a digit character |
| SpriteVtt.Digits | BACKEND/src/services/videoProcessing.service.js:166 | String(n) is a non-empty run of digits |
| SpriteVtt.DigitsValue | BACKEND/src/services/videoProcessing.service.js:166 | String(n) reads back as n |
| SpriteVtt.DigitsLength | BACKEND/src/services/videoProcessing.service.js:166 | A number below 10^w prints in at most w digits |
| SpriteVtt.ZerosValue | BACKEND/src/services/videoProcessing.service.js:166 | Leading zeros do not change the value read |
| SpriteVtt.PadFacts | BACKEND/src/services/videoProcessing.service.js:166 | padStart keeps the value and gives at least the width, exactly the width when the number fits |
| SpriteVtt.TotalMs | BACKEND/src/services/videoProcessing.service.js:158 | A zero or negative input gives 0 ms |
| SpriteVtt.ClockOf | BACKEND/src/services/videoProcessing.service.js:159-164 | ms < 1000, s < 60 and m < 60, and ((h 60 + m) 60 + s) 1000 + ms is the total |
| SpriteVtt.FormatRoundTrip | BACKEND/src/services/videoProcessing.service.js:157-168 | The output is a WebVTT timestamp (W3C WebVTT, section 4.1) that reads back as the rounded milliseconds |
| SpriteVtt.FormatWidth | BACKEND/src/services/videoProcessing.service.js:157-168 | Below 100 hours the output is exactly HH:MM:SS.mmm, 12 characters |
| SpriteVtt.SettingsOf | BACKEND/src/services/videoProcessing.service.js:176-179 | The interval is at least 1, tiles are at least 16, at least one thumbnail is kept, and the defaults 10 and 100 apply |
| SpriteVtt.ThumbnailCount | BACKEND/src/services/videoProcessing.service.js:187-189 | The count lies in [1, maxThumbnails], and every frame time it asks for is within the duration |
| SpriteVtt.FloorTimesInterval | BACKEND/src/services/videoProcessing.service.js:188 | floor(d / interval) frames fit within the duration |
| SpriteVtt.CeilSqrt | BACKEND/src/services/videoProcessing.service.js:191 | columns is the ceiling of the square root of count |
| SpriteVtt.GridOf | BACKEND/src/services/videoProcessing.service.js:191-192 | The grid has at least one column and one row |
| SpriteVtt.GridFits | BACKEND/src/services/videoProcessing.service.js:191-192 | columns x rows holds every thumbnail, with no empty row, and rows <= columns |
| SpriteVtt.CeilingDivision | BACKEND/src/services/videoProcessing.service.js:192 | rows is the ceiling of count / columns |
| SpriteVtt.CueTimes | BACKEND/src/services/videoProcessing.service.js:224-227 | Cue i starts at i x interval, ends after it and at most one interval later, and within the duration when it starts inside it |
| SpriteVtt.CueTileInSheet | BACKEND/src/services/videoProcessing.service.js:229-232 | Every cue's tile lies inside the sprite sheet |
| SpriteVtt.CueTileInRow | BACKEND/src/services/videoProcessing.service.js:229-232 | A tile in a row of the grid lies inside the sheet |
| SpriteVtt.TileInSheet | BACKEND/src/services/videoProcessing.service.js:229-230 | The tile's column and row lie inside the grid |
| SpriteVtt.CuesAreContiguous | BACKEND/src/services/videoProcessing.service.js:224-227 | Before the duration runs out, each cue ends where the next begins |
| SpriteVtt.BuildCues | BACKEND/src/services/videoProcessing.service.js:223-237 | The loop builds count cues, the i-th being CueAt(i) |
| SpriteVtt.GenerateSpriteSheetAndVtt | BACKEND/src/services/videoProcessing.service.js:176-237 | Settings, count, grid and cues are those defined above, for the duration clamped at 0 |

## Left out

- Floating point: every `float`, `number` and `Math` result is an exact `real`. Single-precision rounding, NaN and infinity are not modelled. Where the source divides by zero, the model takes the IEEE outcome case by case: a zero bandwidth makes the download time infinite, so the risk is 1; the trend with a zero mean follows the sign of the slope; a 0/0 is excluded by a precondition.
- QoeMaximizer.DownloadRisk, QoeMaximizer.SelectQualityMaximizeQoe and Recommendation.Recommend require that bandwidth and segment duration are not both 0, because the download time would then be 0/0 (NaN).
- QualitySelection.SelectQualityLevel requires current_quality >= -1, because for a smaller value the medium-buffer branch reads the bitrate table before its start (undefined behaviour in C).
- Qoe.EstimateQoe takes the number of levels as a parameter of at least 2; the source's constant is 6.
- Recommendation.Recommend: the square root of the variance is the parameter `deviation`, constrained by `IsDeviation` (non-negative, squaring to the variance). `sqrtf` is a library routine.
- The malloc'd four-float result of get_comprehensive_recommendation is the `Advice` datatype. Its malloc-failure path, and wasm_malloc/wasm_free, are memory glue and are not modelled.
- Null array arguments are not modelled. Arrays are sequences, and the lengths the C code trusts are preconditions (`RunsExist`, `DatabaseFits`).
- VideoHash.FindSimilarVideos takes every negative max_results to make the allocation fail: (1 + 2 max_results) floats wraps to a size near the top of the 32-bit address space (2^32 - 4 bytes for -1). The few negative values whose wrapped size is small (-2^29 asks for 4 bytes) and the int overflow of max_results * 2 below -2^30 are not modelled.
- VideoHash.ComputeVideoFingerprint and VideoHash.FingerprintLength require sample_interval >= 1, because the source divides by it and its loop would not advance. The frame hashes are given as a parameter: compute_phash, the DCT and the resize are image numerics.
- The hook's WebAssembly loading, fetch, the typed-array copies into the module's heap and console logging are I/O. The loaded engine is the `Engine` value.
- AbrHook.HookPrediction: with the JavaScript fallback engine and more than 256 samples, the typed-array view over the fallback's 1 KiB heap throws a RangeError; the model returns 3000 there.
- The engine's float result is rounded with Math.round. The model's quality is already an integer, so the rounding is left out.
- React closure staleness, re-rendering and effects are not modelled: the player's currentVideoId effect and the hook's useCallback dependencies. The state after a thrown TypeError is not modelled either.
- The fallback engine's `_select_quality_level` and `_calculate_buffer_health` are modelled (AbrHook.FallbackSelectQuality, AbrHook.HighestBelow, AbrHook.FallbackSelectQualityRule, AbrHook.FallbackBufferHealth) but are unreachable from the hook: nothing calls the first, and the second runs only after a recommendation, which the fallback's `_get_comprehensive_recommendation` (always 0) cuts short. AbrHook.FallbackBufferHealth also requires a non-zero segment duration, where the stand-in would give Math.min of an infinity, or NaN for 0 / 0.
- PlaylistQueue.Loaded and PlaylistQueue.QueueStore.SetPlaylistQueue require 0 <= startIndex < |videos| when shuffling. Out of range, the source puts `undefined` at the front of the queue, and the model has no such video.
- PlaylistQueue.Advanced returns no video where nextVideo would return `undefined` for a negative index. The model does not tell `undefined` from `null`.
- The persistence of the queue store to browser storage is I/O.
- Randomness is a parameter: the queue's shuffle is any permutation of the other videos, and the player's Fisher-Yates picks are any values in range.
- Non-string inputs to the path normalisers are not modelled: Dafny strings are always strings. JavaScript's falsy test is modelled as the empty string.
- The cue text (the sprite file name and the `#xywh` fragment) is not modelled, and neither is the printing of x and y as numbers. The WebVTT file assembly, ffmpeg and file writes are I/O.
- SpriteVtt.TotalMs takes a number: a missing or non-numeric `seconds`, which `Number(seconds || 0)` turns into 0 or NaN, is not modelled.
- SpriteVtt.SettingsOf takes maxThumbnails as an integer. A fractional option value is not modelled.
- SpriteVtt.CeilSqrt: Math.sqrt is taken as exact, so the column count is the exact integer ceiling of the square root.

## Findings

| source | as written | input that shows it | evidently intended | confidence | as-written member | corrected member |
|---|---|---|---|---|---|---|
| processing/cpp/abr_controller.cpp:345-353 | The aggregator takes the QoE argmax even when level 0 is certain to rebuffer. Then every level's risk is 1, and the clamped score favours the top allowed level | history [300, 300, 300] kbps, buffer 10 s, segment 4 s, current 2, max 4: recommends level 4 (6000 kbps) on a 240 kbps link, while the buffer-regime selector picks 0 | Fall back to level 0 when even level 0 cannot download in time | high, not executed | Recommendation.SlowLinkRecommendsTop | Recommendation.SafeLevelIsIntended |
| frontend/src/hooks/useABRController.ts:17 | The hook's table and the engine's ladder (processing/cpp/abr_controller.cpp:20) disagree on the top rendition: 15000 kbps against 12000. The transcoder's 4K preset (serving/videoProcessing.service.js:22-27) uses 15000, so the code does not settle which value is meant | getQualityInfo(5).bitrate is 15000, while the engine scores level 5 at 12000 | The hook and the engine agree on one top bitrate; the corrected member aligns the table to the engine, one of the two ways to do that | medium, not executed | AbrHook.QualityLevelsDisagreeWithEngine | AbrHook.QualityLevelsCorrectedMatchEngine |
| frontend/src/components/playllist/PlaylistPlayer.tsx:113-155 | On a loaded playlist with no videos, the order is empty and the position is -1. Next in repeat-all mode reads order[0], and previous in repeat-one or repeat-all mode reads a missing entry. Then videoDetails[undefined]._id throws. Both buttons are enabled in these cases | empty playlist, repeat "all", press next | Do nothing when the playlist has no videos | medium, not executed | PlaylistPlayer.EmptyPlaylistThrows | PlaylistPlayer.PressNeverThrows |
| frontend/src/components/playllist/PlaylistPlayer.tsx:72-133 | fetchPlaylist resets the order but keeps currentIndex. After a reload to a shorter playlist the index can name no video. In repeat-one mode next and previous select that index, and videoDetails[currentIndex]._id throws. Both buttons stay enabled, because the position is -1, neither the first nor the last | a playlist of three videos playing the third in repeat "one", reloaded with two videos, press next | Replay only a current index that names a video | medium, not executed | PlaylistPlayer.StaleIndexThrows | PlaylistPlayer.PressNeverThrows |
