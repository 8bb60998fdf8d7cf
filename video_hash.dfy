/** Comparison and matching of 64-bit perceptual frame hashes (the comparison
    half of video_hash.cpp): Hamming distance, similarity of hash runs,
    duplicate search, similar-video listing, fingerprint sampling and scene
    search. Hash arrays are sequences; a run of `count` hashes starting at an
    offset stands for an address inside a C array. */
module VideoHash {

  import opened Options

  /** Bits in one hash. */
  const HashBits: int := 64

  // ---------------------------------------------------------------------------
  // Hamming distance (calculate_hamming_distance)
  // ---------------------------------------------------------------------------

  /** Number of set bits of x. */
  function PopCount(x: bv64): nat
    decreases x
  {
    if x == 0 then 0 else (if x & 1 == 1 then 1 else 0) + PopCount(x >> 1)
  }

  /** Only the zero word has no set bit. */
  lemma {:induction false} PopCountZero(x: bv64)
    ensures PopCount(x) == 0 <==> x == 0
  {
    if x != 0 && x & 1 == 0 {
      PopCountZero(x >> 1);
    }
  }

  /** A word whose bits above position k are clear has at most k set bits. */
  lemma {:induction false} PopCountBound(x: bv64, k: bv8)
    requires k <= 64 && x >> k == 0
    ensures PopCount(x) <= k as int
  {
    if x != 0 {
      assert k > 0;
      assert (x >> 1) >> (k - 1) == 0;
      PopCountBound(x >> 1, k - 1);
    }
  }

  function Hamming(a: bv64, b: bv64): nat
  {
    PopCount(a ^ b)
  }

  /** The distance lies in [0, 64], is symmetric, and is 0 exactly for equal
      hashes. */
  lemma HammingFacts(a: bv64, b: bv64)
    ensures Hamming(a, b) <= HashBits
    ensures Hamming(a, b) == Hamming(b, a)
    ensures Hamming(a, b) == 0 <==> a == b
  {
    PopCountBound(a ^ b, 64);
    assert a ^ b == b ^ a;
    PopCountZero(a ^ b);
    assert (a ^ b == 0) == (a == b);
  }

  method CalculateHammingDistance(a: bv64, b: bv64) returns (distance: int)
    ensures distance == Hamming(a, b)
  {
    var x := a ^ b;
    distance := 0;
    while x != 0
      invariant distance + PopCount(x) == PopCount(a ^ b)
      decreases x
    {
      distance := distance + (if x & 1 == 1 then 1 else 0);
      x := x >> 1;
    }
  }

  // ---------------------------------------------------------------------------
  // Similarity of two hash runs (compare_video_hashes)
  // ---------------------------------------------------------------------------

  /** Both runs of n hashes, at offA in a and at offB in b, exist. */
  predicate RunsExist(a: seq<bv64>, offA: int, b: seq<bv64>, offB: int, n: int)
  {
    0 <= offA && 0 <= offB && 0 <= n && offA + n <= |a| && offB + n <= |b|
  }

  /** Sum of the distances between the first n hashes of the two runs. */
  function TotalDistance(a: seq<bv64>, offA: int, b: seq<bv64>, offB: int, n: int): (d: nat)
    requires RunsExist(a, offA, b, offB, n)
    ensures d <= HashBits * n
  {
    if n == 0 then 0
    else
      HammingFacts(a[offA + n - 1], b[offB + n - 1]);
      TotalDistance(a, offA, b, offB, n - 1) + Hamming(a[offA + n - 1], b[offB + n - 1])
  }

  /** The runs agree hash for hash exactly when their total distance is 0. */
  lemma {:induction false} TotalDistanceZero(a: seq<bv64>, offA: int, b: seq<bv64>, offB: int, n: int)
    requires RunsExist(a, offA, b, offB, n)
    ensures TotalDistance(a, offA, b, offB, n) == 0 <==> a[offA..offA + n] == b[offB..offB + n]
  {
    if n > 0 {
      TotalDistanceZero(a, offA, b, offB, n - 1);
      HammingFacts(a[offA + n - 1], b[offB + n - 1]);
      assert a[offA..offA + n] == a[offA..offA + n - 1] + [a[offA + n - 1]];
      assert b[offB..offB + n] == b[offB..offB + n - 1] + [b[offB + n - 1]];
      if a[offA..offA + n] == b[offB..offB + n] {
        assert a[offA..offA + n][n - 1] == b[offB..offB + n][n - 1];
        assert a[offA..offA + n][..n - 1] == b[offB..offB + n][..n - 1];
      }
    }
  }

  /** Swapping the runs does not change the distance. */
  lemma {:induction false} TotalDistanceSymmetric(a: seq<bv64>, offA: int, b: seq<bv64>, offB: int, n: int)
    requires RunsExist(a, offA, b, offB, n)
    ensures TotalDistance(a, offA, b, offB, n) == TotalDistance(b, offB, a, offA, n)
  {
    if n > 0 {
      TotalDistanceSymmetric(a, offA, b, offB, n - 1);
      HammingFacts(a[offA + n - 1], b[offB + n - 1]);
    }
  }

  /** What compare_video_hashes reports for `count` hashes at offA in a and
      offB in b: 0 when count < 1, otherwise 1 minus the total distance over
      the 64 * count bits compared. */
  function Similarity(a: seq<bv64>, offA: int, b: seq<bv64>, offB: int, count: int): (s: real)
    requires count < 1 || RunsExist(a, offA, b, offB, count)
    ensures 0.0 <= s <= 1.0
  {
    if count < 1 then 0.0
    else
      var total := TotalDistance(a, offA, b, offB, count);
      DistanceFraction(total, HashBits * count);
      1.0 - total as real / (HashBits * count) as real
  }

  /** Identical runs are fully similar, and full similarity means identical
      runs; the score does not depend on the order of the arguments. */
  lemma SimilarityFacts(a: seq<bv64>, offA: int, b: seq<bv64>, offB: int, count: int)
    requires count >= 1 && RunsExist(a, offA, b, offB, count)
    ensures Similarity(a, offA, b, offB, count) == 1.0 <==> a[offA..offA + count] == b[offB..offB + count]
    ensures Similarity(a, offA, b, offB, count) == Similarity(b, offB, a, offA, count)
  {
    TotalDistanceZero(a, offA, b, offB, count);
    TotalDistanceSymmetric(a, offA, b, offB, count);
    var total := TotalDistance(a, offA, b, offB, count);
    DistanceFraction(total, HashBits * count);
  }

  /** t / m lies in [0, 1] for 0 <= t <= m, and is 0 only for t = 0. */
  lemma DistanceFraction(t: nat, m: int)
    requires 0 < m && t <= m
    ensures 0.0 <= t as real / m as real <= 1.0
    ensures t as real / m as real == 0.0 <==> t == 0
  {
    var q := t as real / m as real;
    assert q * m as real == t as real;
  }

  method CompareVideoHashes(a: seq<bv64>, offA: int, b: seq<bv64>, offB: int, count: int) returns (s: real)
    requires count < 1 || RunsExist(a, offA, b, offB, count)
    ensures s == Similarity(a, offA, b, offB, count)
  {
    if count < 1 {
      return 0.0;
    }
    var total := 0;
    for i := 0 to count
      invariant total == TotalDistance(a, offA, b, offB, i)
    {
      var d := CalculateHammingDistance(a[offA + i], b[offB + i]);
      total := total + d;
    }
    var maxDistance := (HashBits * count) as real;
    s := 1.0 - total as real / maxDistance;
  }

  // ---------------------------------------------------------------------------
  // Database searches
  // ---------------------------------------------------------------------------

  /** The hashes compare_video_hashes reads exist: the first
      min(count, perEntry) query hashes and, when that is positive, the
      `entries` runs of `perEntry` hashes in the database. A run shorter than
      one hash is never read. */
  predicate DatabaseFits(query: seq<bv64>, count: int, database: seq<bv64>, entries: int, perEntry: int)
  {
    var c := CompareCount(count, perEntry);
    && c <= |query|
    && (c >= 1 && entries > 0 ==> entries * perEntry <= |database|)
  }

  function CompareCount(count: int, perEntry: int): int
  {
    if count < perEntry then count else perEntry
  }

  /** Similarity of the query to database entry e. */
  function EntrySimilarity(query: seq<bv64>, count: int, database: seq<bv64>, entries: int, perEntry: int,
                           e: int): real
    requires DatabaseFits(query, count, database, entries, perEntry) && 0 <= e < entries
  {
    EntryRunExists(query, count, database, entries, perEntry, e);
    Similarity(query, 0, database, e * perEntry, CompareCount(count, perEntry))
  }

  lemma EntryRunExists(query: seq<bv64>, count: int, database: seq<bv64>, entries: int, perEntry: int, e: int)
    requires DatabaseFits(query, count, database, entries, perEntry) && 0 <= e < entries
    ensures var c := CompareCount(count, perEntry);
            c < 1 || RunsExist(query, 0, database, e * perEntry, c)
  {
    if CompareCount(count, perEntry) >= 1 {
      EntryRunFits(entries, perEntry, e, |database|);
    }
  }

  lemma EntryRunFits(entries: int, perEntry: int, e: int, n: int)
    requires 0 <= perEntry && 0 <= e < entries && entries * perEntry <= n
    ensures 0 <= e * perEntry && e * perEntry + perEntry <= n
  {
    assert (e + 1) * perEntry <= entries * perEntry;
  }

  /** The first entry at or after e that is at least `threshold` similar, or -1. */
  function FirstDuplicate(query: seq<bv64>, count: int, database: seq<bv64>, entries: int, perEntry: int,
                          threshold: real, e: nat): (r: int)
    requires DatabaseFits(query, count, database, entries, perEntry)
    ensures r == -1 || (e <= r < entries && EntrySimilarity(query, count, database, entries, perEntry, r) >= threshold)
    ensures forall j :: e <= j < entries && (r == -1 || j < r) ==>
              EntrySimilarity(query, count, database, entries, perEntry, j) < threshold
    decreases entries - e
  {
    if e >= entries then -1
    else if EntrySimilarity(query, count, database, entries, perEntry, e) >= threshold then e
    else FirstDuplicate(query, count, database, entries, perEntry, threshold, e + 1)
  }

  /** What detect_duplicate_content returns: -1 for an empty query, otherwise
      the first entry at least `threshold` similar, or -1. */
  function DuplicateIndex(query: seq<bv64>, count: int, database: seq<bv64>, entries: int, perEntry: int,
                          threshold: real): int
    requires count < 1 || DatabaseFits(query, count, database, entries, perEntry)
  {
    if count < 1 then -1 else FirstDuplicate(query, count, database, entries, perEntry, threshold, 0)
  }

  method DetectDuplicateContent(query: seq<bv64>, count: int, database: seq<bv64>, entries: int, perEntry: int,
                                threshold: real) returns (index: int)
    requires count < 1 || DatabaseFits(query, count, database, entries, perEntry)
    ensures index == DuplicateIndex(query, count, database, entries, perEntry, threshold)
  {
    if count < 1 {
      return -1;
    }
    var compare := CompareCount(count, perEntry);
    var entry := 0;
    while entry < entries
      invariant 0 <= entry
      invariant entries >= 0 ==> entry <= entries
      invariant FirstDuplicate(query, count, database, entries, perEntry, threshold, 0)
                == FirstDuplicate(query, count, database, entries, perEntry, threshold, entry)
    {
      EntryRunExists(query, count, database, entries, perEntry, entry);
      var similarity := CompareVideoHashes(query, 0, database, entry * perEntry, compare);
      if similarity >= threshold {
        return entry;
      }
      entry := entry + 1;
    }
    index := -1;
  }

  /** A query that is stored verbatim at the front of some entry is always
      found, at that entry or an earlier one, whatever threshold up to 1 is
      asked for. */
  lemma StoredEntryIsFound(query: seq<bv64>, count: int, database: seq<bv64>, entries: int, perEntry: int,
                           threshold: real, e: int)
    requires count >= 1 && DatabaseFits(query, count, database, entries, perEntry) && 0 <= e < entries
    requires threshold <= 1.0 && count <= perEntry
    requires StoredAt(query, count, database, entries, perEntry, e)
    ensures 0 <= DuplicateIndex(query, count, database, entries, perEntry, threshold) <= e
  {
    var start := e * perEntry;
    EntryRunFits(entries, perEntry, e, |database|);
    assert CompareCount(count, perEntry) == count;
    assert query[0..0 + count] == query[..count];
    SimilarityFacts(query, 0, database, start, count);
    assert EntrySimilarity(query, count, database, entries, perEntry, e) == 1.0;
  }

  /** Entry e of the database begins with the query's `count` hashes. */
  predicate StoredAt(query: seq<bv64>, count: int, database: seq<bv64>, entries: int, perEntry: int, e: int)
    requires DatabaseFits(query, count, database, entries, perEntry) && 0 <= e < entries && 1 <= count <= perEntry
  {
    EntryRunFits(entries, perEntry, e, |database|);
    database[e * perEntry..e * perEntry + count] == query[..count]
  }

  /** One reported match: an entry index and its similarity. */
  datatype Match = Match(entry: int, similarity: real)

  /** The matches find_similar_videos reports when it scans from entry e
      with room for `room` more results. */
  function SimilarFrom(query: seq<bv64>, count: int, database: seq<bv64>, entries: int, perEntry: int,
                       minSimilarity: real, room: int, e: nat): (r: seq<Match>)
    requires DatabaseFits(query, count, database, entries, perEntry)
    ensures |r| <= if room < 0 then 0 else room
    decreases entries - e
  {
    if e >= entries || room <= 0 then []
    else
      var s := EntrySimilarity(query, count, database, entries, perEntry, e);
      if s >= minSimilarity then
        [Match(e, s)] + SimilarFrom(query, count, database, entries, perEntry, minSimilarity, room - 1, e + 1)
      else SimilarFrom(query, count, database, entries, perEntry, minSimilarity, room, e + 1)
  }

  /** Every match in r is an entry from e on whose similarity reaches the
      bar, reported with that similarity, in increasing entry order. */
  predicate Sound(query: seq<bv64>, count: int, database: seq<bv64>, entries: int, perEntry: int,
                  minSimilarity: real, e: nat, r: seq<Match>)
    requires DatabaseFits(query, count, database, entries, perEntry)
  {
    && (forall k :: 0 <= k < |r| ==>
          && e <= r[k].entry < entries
          && r[k].similarity == EntrySimilarity(query, count, database, entries, perEntry, r[k].entry)
          && r[k].similarity >= minSimilarity)
    && (forall k, l :: 0 <= k < l < |r| ==> r[k].entry < r[l].entry)
  }

  /** The scan reports only qualifying entries, each once, in order. */
  lemma {:induction false} SimilarFromSound(query: seq<bv64>, count: int, database: seq<bv64>, entries: int,
                                            perEntry: int, minSimilarity: real, room: int, e: nat)
    requires DatabaseFits(query, count, database, entries, perEntry)
    ensures Sound(query, count, database, entries, perEntry, minSimilarity, e,
                  SimilarFrom(query, count, database, entries, perEntry, minSimilarity, room, e))
    decreases entries - e
  {
    var r := SimilarFrom(query, count, database, entries, perEntry, minSimilarity, room, e);
    if e < entries && room > 0 {
      var s := EntrySimilarity(query, count, database, entries, perEntry, e);
      if s >= minSimilarity {
        var rest := SimilarFrom(query, count, database, entries, perEntry, minSimilarity, room - 1, e + 1);
        SimilarFromSound(query, count, database, entries, perEntry, minSimilarity, room - 1, e + 1);
        assert r == [Match(e, s)] + rest;
        PrependKeepsSound(query, count, database, entries, perEntry, minSimilarity, e, s, rest);
      } else {
        SimilarFromSound(query, count, database, entries, perEntry, minSimilarity, room, e + 1);
        assert r == SimilarFrom(query, count, database, entries, perEntry, minSimilarity, room, e + 1);
      }
    }
  }

  lemma PrependKeepsSound(query: seq<bv64>, count: int, database: seq<bv64>, entries: int, perEntry: int,
                          minSimilarity: real, e: nat, s: real, rest: seq<Match>)
    requires DatabaseFits(query, count, database, entries, perEntry) && e < entries
    requires s == EntrySimilarity(query, count, database, entries, perEntry, e) && s >= minSimilarity
    requires Sound(query, count, database, entries, perEntry, minSimilarity, e + 1, rest)
    ensures Sound(query, count, database, entries, perEntry, minSimilarity, e, [Match(e, s)] + rest)
  {
    var r := [Match(e, s)] + rest;
    forall k | 1 <= k < |r|
      ensures r[k] == rest[k - 1]
    {
    }
  }

  /** Entry j is among the matches. */
  predicate Lists(matches: seq<Match>, j: int)
  {
    exists k :: 0 <= k < |matches| && matches[k].entry == j
  }

  /** The list holds the first qualifying entries: a qualifying entry is
      listed whenever the list has room to spare, and one left out finds the
      list full of entries before it. */
  lemma {:induction false} SimilarFromIsComplete(query: seq<bv64>, count: int, database: seq<bv64>, entries: int,
                                                 perEntry: int, minSimilarity: real, room: int, e: nat, j: int)
    requires DatabaseFits(query, count, database, entries, perEntry)
    requires e <= j < entries
    requires EntrySimilarity(query, count, database, entries, perEntry, j) >= minSimilarity
    ensures var r := SimilarFrom(query, count, database, entries, perEntry, minSimilarity, room, e);
            |r| < room ==> Lists(r, j)
    ensures var r := SimilarFrom(query, count, database, entries, perEntry, minSimilarity, room, e);
            !Lists(r, j) ==> |r| >= room && forall k :: 0 <= k < |r| ==> r[k].entry < j
    decreases entries - e
  {
    var r := SimilarFrom(query, count, database, entries, perEntry, minSimilarity, room, e);
    var s := EntrySimilarity(query, count, database, entries, perEntry, e);
    if room <= 0 {
      assert r == [];
    } else if j == e {
      assert r[0].entry == j;
    } else if s >= minSimilarity {
      var rest := SimilarFrom(query, count, database, entries, perEntry, minSimilarity, room - 1, e + 1);
      assert r == [Match(e, s)] + rest;
      SimilarFromIsComplete(query, count, database, entries, perEntry, minSimilarity, room - 1, e + 1, j);
      if Lists(rest, j) {
        var k :| 0 <= k < |rest| && rest[k].entry == j;
        assert r[k + 1].entry == j;
      } else {
        forall k | 0 <= k < |r|
          ensures r[k].entry < j
        {
          if k > 0 {
            assert r[k] == rest[k - 1];
          }
        }
      }
    } else {
      SimilarFromIsComplete(query, count, database, entries, perEntry, minSimilarity, room, e + 1, j);
    }
  }

  /** The result buffer of find_similar_videos: the count, then an index and
      a similarity per match. */
  function Layout(matches: seq<Match>): (r: seq<real>)
    ensures |r| == 1 + 2 * |matches| && r[0] == |matches| as real
    ensures forall k :: 0 <= k < |matches| ==>
              r[1 + 2 * k] == matches[k].entry as real && r[2 + 2 * k] == matches[k].similarity
  {
    if |matches| == 0 then [0.0]
    else
      var init := Layout(matches[..|matches| - 1]);
      var last := matches[|matches| - 1];
      [|matches| as real] + init[1..] + [last.entry as real, last.similarity]
  }

  /** What find_similar_videos returns: nothing for an empty query, nothing
      when the result buffer cannot be allocated (a negative max_results
      makes its size negative, which wraps to an unsatisfiable request),
      else the layout of the matches. */
  function SimilarVideos(query: seq<bv64>, count: int, database: seq<bv64>, entries: int, perEntry: int,
                         minSimilarity: real, maxResults: int): (r: Option<seq<real>>)
    requires count < 1 || DatabaseFits(query, count, database, entries, perEntry)
    ensures r.None? <==> count < 1 || maxResults < 0
    ensures r.Some? ==> |r.value| <= 1 + 2 * maxResults
  {
    if count < 1 || maxResults < 0 then None
    else Some(Layout(SimilarFrom(query, count, database, entries, perEntry, minSimilarity, maxResults, 0)))
  }

  method FindSimilarVideos(query: seq<bv64>, count: int, database: seq<bv64>, entries: int, perEntry: int,
                           minSimilarity: real, maxResults: int) returns (result: Option<seq<real>>)
    requires count < 1 || DatabaseFits(query, count, database, entries, perEntry)
    ensures result == SimilarVideos(query, count, database, entries, perEntry, minSimilarity, maxResults)
  {
    if count < 1 || maxResults < 0 {
      return None;
    }
    var compare := CompareCount(count, perEntry);
    var found: seq<Match> := [];
    var entry := 0;
    while entry < entries && |found| < maxResults
      invariant 0 <= entry
      invariant entries >= 0 ==> entry <= entries
      invariant found + SimilarFrom(query, count, database, entries, perEntry, minSimilarity, maxResults - |found|, entry)
                == SimilarFrom(query, count, database, entries, perEntry, minSimilarity, maxResults, 0)
    {
      EntryRunExists(query, count, database, entries, perEntry, entry);
      var similarity := CompareVideoHashes(query, 0, database, entry * perEntry, compare);
      if similarity >= minSimilarity {
        found := found + [Match(entry, similarity)];
      }
      entry := entry + 1;
    }
    assert SimilarFrom(query, count, database, entries, perEntry, minSimilarity, maxResults - |found|, entry) == [];
    assert found + [] == found;
    result := Some(Layout(found));
  }

  // ---------------------------------------------------------------------------
  // Fingerprints (compute_video_fingerprint, get_fingerprint_length)
  // ---------------------------------------------------------------------------

  /** C's int division, which truncates toward zero, for a positive divisor. */
  function TruncDiv(a: int, b: int): int
    requires b > 0
  {
    if a >= 0 then a / b else -((-a) / b)
  }

  /** What get_fingerprint_length returns: (frames + interval - 1) / interval. */
  function FingerprintLength(frames: int, interval: int): (n: int)
    requires interval >= 1
    ensures frames >= 0 ==> n >= 0 && n * interval >= frames && (n - 1) * interval < frames
  {
    TruncDiv(frames + interval - 1, interval)
  }

  /** The fingerprint of `frames` frames whose perceptual hashes are
      frameHashes (hashing itself is not modelled): the hashes of frames 0,
      interval, 2 * interval, ... */
  method ComputeVideoFingerprint(frameHashes: seq<bv64>, frames: int, interval: int) returns (fingerprint: Option<array<bv64>>)
    requires interval >= 1 && frames <= |frameHashes|
    ensures frames < 1 <==> fingerprint.None?
    ensures fingerprint.Some? ==>
              && fresh(fingerprint.value)
              && fingerprint.value.Length == FingerprintLength(frames, interval)
              && forall k :: 0 <= k < fingerprint.value.Length ==>
                   k * interval < frames && fingerprint.value[k] == frameHashes[k * interval]
  {
    if frames < 1 {
      return None;
    }
    var sampled := (frames + interval - 1) / interval;
    var fp := new bv64[sampled];
    var i := 0;
    var index := 0;
    while i < frames && index < sampled
      invariant 0 <= index <= sampled && i == index * interval
      invariant forall k :: 0 <= k < index ==> k * interval < frames && fp[k] == frameHashes[k * interval]
    {
      fp[index] := frameHashes[i];
      index := index + 1;
      i := i + interval;
    }
    SampledFillsFingerprint(frames, interval, index);
    return Some(fp);
  }

  /** The sampling loop stops exactly when every slot is filled. */
  lemma SampledFillsFingerprint(frames: int, interval: int, index: int)
    requires frames >= 1 && interval >= 1 && 0 <= index <= FingerprintLength(frames, interval)
    requires !(index * interval < frames && index < FingerprintLength(frames, interval))
    ensures index == FingerprintLength(frames, interval)
  {
  }

  // ---------------------------------------------------------------------------
  // Scene search (find_matching_scene)
  // ---------------------------------------------------------------------------

  function MatchLength(minMatch: int, queryLength: int): int
  {
    if minMatch < queryLength then minMatch else queryLength
  }

  /** The first offset at or after `offset` and at most targetLength - m at
      which the first m query hashes are at least `threshold` similar to the
      target, or -1. */
  function FirstScene(query: seq<bv64>, target: seq<bv64>, targetLength: int, m: int, threshold: real,
                      offset: nat): (r: int)
    requires m <= |query| && targetLength <= |target|
    ensures r == -1 || (offset <= r <= targetLength - m
                        && (m < 1 || RunsExist(query, 0, target, r, m))
                        && SceneSimilarity(query, target, targetLength, m, r) >= threshold)
    ensures forall o :: offset <= o <= targetLength - m && (r == -1 || o < r) ==>
              SceneSimilarity(query, target, targetLength, m, o) < threshold
    decreases targetLength - m - offset + 1
  {
    if offset > targetLength - m then -1
    else if SceneSimilarity(query, target, targetLength, m, offset) >= threshold then offset
    else FirstScene(query, target, targetLength, m, threshold, offset + 1)
  }

  /** Similarity of the first m query hashes to the target at offset o. */
  function SceneSimilarity(query: seq<bv64>, target: seq<bv64>, targetLength: int, m: int, o: int): real
    requires m <= |query| && targetLength <= |target| && 0 <= o <= targetLength - m
  {
    Similarity(query, 0, target, o, m)
  }

  /** What find_matching_scene returns: -1 for an empty query, otherwise the
      first matching offset with match length min(minMatch, queryLength). */
  function MatchingScene(query: seq<bv64>, queryLength: int, target: seq<bv64>, targetLength: int,
                         minMatch: int, threshold: real): int
    requires queryLength <= |query| && targetLength <= |target|
  {
    if queryLength < 1 then -1
    else FirstScene(query, target, targetLength, MatchLength(minMatch, queryLength), threshold, 0)
  }

  method FindMatchingScene(query: seq<bv64>, queryLength: int, target: seq<bv64>, targetLength: int,
                           minMatch: int, threshold: real) returns (offset: int)
    requires queryLength <= |query| && targetLength <= |target|
    ensures offset == MatchingScene(query, queryLength, target, targetLength, minMatch, threshold)
  {
    if queryLength < 1 {
      return -1;
    }
    var m := MatchLength(minMatch, queryLength);
    var o := 0;
    while o <= targetLength - m
      invariant 0 <= o
      invariant o <= targetLength - m + 1 || targetLength - m < 0
      invariant FirstScene(query, target, targetLength, m, threshold, 0)
                == FirstScene(query, target, targetLength, m, threshold, o)
      decreases targetLength - m - o + 1
    {
      var similarity := CompareVideoHashes(query, 0, target, o, m);
      if similarity >= threshold {
        return o;
      }
      o := o + 1;
    }
    offset := -1;
  }

  /** A target shorter than the match length has no matching scene, and a
      target that contains the query's first m hashes verbatim at offset o
      matches at o or earlier for any threshold up to 1. */
  lemma MatchingSceneFacts(query: seq<bv64>, queryLength: int, target: seq<bv64>, targetLength: int,
                           minMatch: int, threshold: real, o: int)
    requires 1 <= queryLength <= |query| && 0 <= targetLength <= |target|
    ensures targetLength < MatchLength(minMatch, queryLength) ==>
              MatchingScene(query, queryLength, target, targetLength, minMatch, threshold) == -1
    ensures var m := MatchLength(minMatch, queryLength);
            m >= 1 && 0 <= o <= targetLength - m && threshold <= 1.0 && target[o..o + m] == query[..m] ==>
              0 <= MatchingScene(query, queryLength, target, targetLength, minMatch, threshold) <= o
  {
    var m := MatchLength(minMatch, queryLength);
    if m >= 1 && 0 <= o <= targetLength - m && threshold <= 1.0 && target[o..o + m] == query[..m] {
      SimilarityFacts(query, 0, target, o, m);
      assert SceneSimilarity(query, target, targetLength, m, o) == 1.0;
    }
  }
}
