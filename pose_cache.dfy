// The pose-analysis cache (`PoseCacheManager`): three database tables that
// memoise video analyses, sequence-match scores and overlay placements.
//
// Each table is a map from its unique key to its row; the clock `now` is an
// integer number of seconds passed to every operation, and `storeUp` says
// whether the database answers at all (every operation swallows a database
// error and reports a miss, `false` or zero counts). The SHA-256 digest of
// the JSON text of a sequence is the `digest` function the manager is built
// with.
module PoseCache {
  import opened Wrappers
  import opened Text
  import opened Lists
  import PoseVision

  /** A JSON document (the JSONB payload columns). */
  datatype Json =
    | JNull
    | JBool(b: bool)
    | JNumber(n: real)
    | JString(s: string)
    | JArray(items: seq<Json>)
    | JObject(fields: seq<(string, Json)>)

  const Day: int := 86400
  const PoseAnalysisTtlDays: int := 30
  const SequenceMatchTtlDays: int := 7
  const OverlayCacheTtlDays: int := 14

  const CurrentAnalysisVersion: string := "1.0"
  const CurrentAlgorithmVersion: string := "1.0"
  const CurrentCacheVersion: string := "1.0"

  // ------------------------------------------------------------ the rows

  /** `video_pose_analysis`, unique on (video_id, analysis_version). */
  datatype AnalysisKey = AnalysisKey(videoId: string, version: string)
  datatype AnalysisRow = AnalysisRow(
    poseSequences: seq<seq<real>>,
    normalizedPoses: seq<seq<real>>,
    movementAnalysis: Json,
    frameCount: nat,
    confidenceAvg: real,
    processingTimeMs: int,
    fileSizeBytes: int,
    createdAt: int,
    lastAccessed: int)

  /** `pose_sequence_matches`, unique on (sequence_a_hash, sequence_b_hash, algorithm_version). */
  datatype MatchKey = MatchKey(hashA: string, hashB: string, version: string)
  datatype MatchRow = MatchRow(
    similarityScore: real,
    matchConfidence: string,
    computationTimeMs: int,
    createdAt: int,
    accessCount: int,
    lastAccessed: int)

  /** `smart_overlay_cache`, unique on (video_id, overlay_type, overlay_dimensions, cache_version). */
  datatype OverlayKey = OverlayKey(videoId: string, overlayType: string, dimensions: string, version: string)
  datatype OverlayRow = OverlayRow(
    placementSuggestions: Json,
    analysisMetadata: Json,
    confidenceScore: real,
    createdAt: int,
    accessCount: int,
    lastAccessed: int)

  /** What `get_smart_overlay_cache` hands back on a hit. */
  datatype OverlayHit = OverlayHit(placementSuggestions: Json, analysisMetadata: Json, confidenceScore: real)

  /** The per-table deletion counts of `cleanup_expired_cache`. */
  datatype CleanupStats = CleanupStats(poseAnalysis: nat, sequenceMatches: nat, overlayCache: nat)

  // ------------------------------------------------------ pure helpers

  /** `format_dimensions`: "{width}x{height}". */
  function FormatDimensions(width: int, height: int): string
  {
    IntToDecimal(width) + "x" + IntToDecimal(height)
  }

  /** Reads a "WxH" key back: the text before the first "x" and the text after it. */
  function ParseDimensions(s: string): (int, int)
  {
    var i := IndexOf(s, 'x');
    if i < |s| then (ParseInt(s[..i]), ParseInt(s[i + 1..])) else (ParseInt(s), 0)
  }

  /** The dimension key determines the width and the height. */
  lemma DimensionsRoundTrip(width: int, height: int)
    ensures ParseDimensions(FormatDimensions(width, height)) == (width, height)
  {
    var w, h := IntToDecimal(width), IntToDecimal(height);
    DecimalCharacters(width, 'x');
    IndexOfSeparator(w, 'x', h);
    var s := FormatDimensions(width, height);
    assert s == w + ['x'] + h;
    assert s[..|w|] == w;
    assert s[|w| + 1..] == h;
    IntRoundTrip(width);
    IntRoundTrip(height);
  }

  /** So two overlays of different sizes never share a cache key. */
  lemma DimensionsInjective(w1: int, h1: int, w2: int, h2: int)
    requires FormatDimensions(w1, h1) == FormatDimensions(w2, h2)
    ensures w1 == w2 && h1 == h2
  {
    DimensionsRoundTrip(w1, h1);
    DimensionsRoundTrip(w2, h2);
  }

  /** The `match_confidence` label of a similarity score. */
  function ConfidenceLabel(score: real): (level: string)
    ensures level == "high" <==> score > 0.8
    ensures level == "low" <==> score <= 0.5
    ensures level in {"high", "medium", "low"}
  {
    if score > 0.8 then "high" else if score > 0.5 then "medium" else "low"
  }

  /** The inner loop of `_calculate_average_confidence`: every fourth value from index 3 of one
      frame, summed and counted. */
  method SumFrameVisibilities(sequence: seq<real>) returns (total: real, count: nat)
    ensures total == Sum(PoseVision.Visibilities(sequence))
    ensures count == |PoseVision.Visibilities(sequence)|
  {
    PoseVision.VisibilitiesAt(sequence);
    total, count := 0.0, 0;
    var i := 3;
    while i < |sequence|
      invariant 3 <= i && i % 4 == 3
      invariant i - 3 <= |sequence|
      invariant count == (i - 3) / 4
      invariant total == Sum(PoseVision.Visibilities(sequence)[..count])
    {
      assert i == 4 * count + 3;
      assert PoseVision.Visibilities(sequence)[..count + 1] == PoseVision.Visibilities(sequence)[..count] + [sequence[i]];
      SumAppend(PoseVision.Visibilities(sequence)[..count], [sequence[i]]);
      total := total + sequence[i];
      count := count + 1;
      i := i + 4;
    }
    assert PoseVision.Visibilities(sequence)[..count] == PoseVision.Visibilities(sequence);
  }

  /** `_calculate_average_confidence`: the mean visibility over every frame. */
  method CalculateAverageConfidence(poseSequences: seq<seq<real>>) returns (avg: real)
    ensures avg == Mean(PoseVision.AllVisibilities(poseSequences))
  {
    if |poseSequences| == 0 {
      return 0.0;
    }
    var total := 0.0;
    var count := 0;
    var f := 0;
    while f < |poseSequences|
      invariant 0 <= f <= |poseSequences|
      invariant total == Sum(PoseVision.AllVisibilities(poseSequences[..f]))
      invariant count == |PoseVision.AllVisibilities(poseSequences[..f])|
    {
      var frameTotal, frameCount := SumFrameVisibilities(poseSequences[f]);
      SumAppend(PoseVision.AllVisibilities(poseSequences[..f]), PoseVision.Visibilities(poseSequences[f]));
      assert poseSequences[..f + 1][..f] == poseSequences[..f];
      total := total + frameTotal;
      count := count + frameCount;
      f := f + 1;
    }
    assert poseSequences[..f] == poseSequences;
    avg := if count > 0 then total / (count as real) else 0.0;
  }

  /** With visibilities in [0, 1], the stored average confidence is in [0, 1]. */
  lemma AverageConfidenceBounds(poseSequences: seq<seq<real>>)
    requires PoseVision.VisibilitiesInRange(poseSequences)
    ensures 0.0 <= Mean(PoseVision.AllVisibilities(poseSequences)) <= 1.0
  {
    var vs := PoseVision.AllVisibilities(poseSequences);
    if |vs| > 0 {
      PoseVision.AllVisibilitiesInRange(poseSequences);
      MeanBounds(vs, 0.0, 1.0);
    }
  }

  // ------------------------------------------------------------- sweeps

  /** `DELETE ... WHERE last_accessed < cutoff`: the rows accessed at or after the cutoff. */
  function Expire<K, R>(table: map<K, R>, lastAccessed: R -> int, cutoff: int): (r: map<K, R>)
    ensures r.Keys == set k | k in table && lastAccessed(table[k]) >= cutoff
    ensures forall k :: k in r ==> r[k] == table[k]
  {
    map k | k in table && lastAccessed(table[k]) >= cutoff :: table[k]
  }

  /** The rows a sweep deletes. */
  function Expired<K, R>(table: map<K, R>, lastAccessed: R -> int, cutoff: int): (r: set<K>)
    ensures r <= table.Keys
    ensures forall k :: k in table ==> (k in r <==> lastAccessed(table[k]) < cutoff)
  {
    set k | k in table && lastAccessed(table[k]) < cutoff
  }

  /** The kept rows and the deleted rows partition the table, so the reported count is the difference in size. */
  lemma ExpireCount<K, R>(table: map<K, R>, lastAccessed: R -> int, cutoff: int)
    ensures |Expired(table, lastAccessed, cutoff)| == |table| - |Expire(table, lastAccessed, cutoff)|
  {
    var kept := Expire(table, lastAccessed, cutoff).Keys;
    var gone := Expired(table, lastAccessed, cutoff);
    assert table.Keys == kept + gone;
    assert kept * gone == {};
  }

  // ------------------------------------------------------ video analyses

  /** The upsert of `cache_video_pose_analysis`: new payload, `last_accessed` now, `created_at` kept. */
  function UpsertAnalysis(table: map<AnalysisKey, AnalysisRow>, key: AnalysisKey,
                          poseSequences: seq<seq<real>>, normalizedPoses: seq<seq<real>>,
                          movementAnalysis: Json, confidenceAvg: real,
                          processingTimeMs: int, fileSizeBytes: int, now: int): (r: map<AnalysisKey, AnalysisRow>)
    ensures r.Keys == table.Keys + {key}
    ensures forall k :: k in table && k != key ==> r[k] == table[k]
    ensures r[key].poseSequences == poseSequences && r[key].normalizedPoses == normalizedPoses
    ensures r[key].movementAnalysis == movementAnalysis && r[key].frameCount == |poseSequences|
    ensures r[key].lastAccessed == now
    ensures r[key].createdAt == if key in table then table[key].createdAt else now
  {
    var created := if key in table then table[key].createdAt else now;
    table[key := AnalysisRow(poseSequences, normalizedPoses, movementAnalysis, |poseSequences|,
                             confidenceAvg, processingTimeMs, fileSizeBytes, created, now)]
  }

  /** `_update_access_time` on the row that was read. */
  function TouchAnalysis(table: map<AnalysisKey, AnalysisRow>, key: AnalysisKey, now: int): (r: map<AnalysisKey, AnalysisRow>)
    ensures r.Keys == table.Keys
    ensures forall k :: k in table && k != key ==> r[k] == table[k]
    ensures key in table ==> r[key] == table[key].(lastAccessed := now)
  {
    if key in table then table[key := table[key].(lastAccessed := now)] else table
  }

  // ------------------------------------------------------ sequence matches

  /** A row about the two hashes, in either order, of any version. */
  predicate AboutPair(k: MatchKey, hashA: string, hashB: string)
  {
    (k.hashA == hashA && k.hashB == hashB) || (k.hashA == hashB && k.hashB == hashA)
  }

  /** No current row about the pair was created after the row at `k`. */
  predicate NewestAbout(table: map<MatchKey, MatchRow>, k: MatchKey, hashA: string, hashB: string)
    requires k in table
  {
    forall k2 :: k2 in table && k2.version == CurrentAlgorithmVersion && AboutPair(k2, hashA, hashB) ==>
      table[k2].createdAt <= table[k].createdAt
  }

  /** The lookup of `get_sequence_match`: of the current rows for (A, B) and (B, A), the newer. */
  function NewestMatch(table: map<MatchKey, MatchRow>, hashA: string, hashB: string): (r: Option<real>)
    ensures r.None? <==> (MatchKey(hashA, hashB, CurrentAlgorithmVersion) !in table
                          && MatchKey(hashB, hashA, CurrentAlgorithmVersion) !in table)
    ensures r.Some? ==> (exists k :: k in table && k.version == CurrentAlgorithmVersion
                           && AboutPair(k, hashA, hashB) && table[k].similarityScore == r.value
                           && NewestAbout(table, k, hashA, hashB))
  {
    var ab := MatchKey(hashA, hashB, CurrentAlgorithmVersion);
    var ba := MatchKey(hashB, hashA, CurrentAlgorithmVersion);
    assert forall k :: k in table && k.version == CurrentAlgorithmVersion && AboutPair(k, hashA, hashB) ==> k == ab || k == ba;
    if ab in table && ba in table then
      (if table[ba].createdAt > table[ab].createdAt then Some(table[ba].similarityScore)
       else Some(table[ab].similarityScore))
    else if ab in table then Some(table[ab].similarityScore)
    else if ba in table then Some(table[ba].similarityScore)
    else None
  }

  /** `_update_sequence_match_access`: every row about the pair, whatever its version. */
  function TouchMatches(table: map<MatchKey, MatchRow>, hashA: string, hashB: string, now: int): (r: map<MatchKey, MatchRow>)
    ensures r.Keys == table.Keys
    ensures forall k :: k in table && !AboutPair(k, hashA, hashB) ==> r[k] == table[k]
    ensures forall k :: k in table && AboutPair(k, hashA, hashB) ==>
      r[k] == table[k].(accessCount := table[k].accessCount + 1, lastAccessed := now)
  {
    map k | k in table ::
      if AboutPair(k, hashA, hashB)
      then table[k].(accessCount := table[k].accessCount + 1, lastAccessed := now)
      else table[k]
  }

  /** The row written for a fresh pair: access count 1, created and accessed now. */
  function NewMatchRow(score: real, computationTimeMs: int, now: int): MatchRow
  {
    MatchRow(score, ConfidenceLabel(score), computationTimeMs, now, 1, now)
  }

  /** The row after a conflicting write: new score, one more access, `created_at` kept. */
  function RewrittenMatchRow(row: MatchRow, score: real, computationTimeMs: int, now: int): MatchRow
  {
    row.(similarityScore := score, matchConfidence := ConfidenceLabel(score),
         computationTimeMs := computationTimeMs, accessCount := row.accessCount + 1, lastAccessed := now)
  }

  /** The upsert of `cache_sequence_match` as written: the conflict key is the ORDERED pair. */
  function UpsertMatchAsWritten(table: map<MatchKey, MatchRow>, hashA: string, hashB: string,
                                score: real, computationTimeMs: int, now: int): (r: map<MatchKey, MatchRow>)
    ensures r.Keys == table.Keys + {MatchKey(hashA, hashB, CurrentAlgorithmVersion)}
    ensures r[MatchKey(hashA, hashB, CurrentAlgorithmVersion)].similarityScore == score
  {
    var key := MatchKey(hashA, hashB, CurrentAlgorithmVersion);
    if key in table then table[key := RewrittenMatchRow(table[key], score, computationTimeMs, now)]
    else table[key := NewMatchRow(score, computationTimeMs, now)]
  }

  /**
   * As written, caching (A, B) after a newer (B, A) row exists leaves the
   * lookup on the older score: the (A, B) row keeps its first `created_at`,
   * and the (B, A) row created in between is newer.
   */
  lemma StaleMatchAsWritten()
    ensures var t1 := UpsertMatchAsWritten(map[], "a", "b", 0.9, 0, 1);
            var t2 := UpsertMatchAsWritten(t1, "b", "a", 0.2, 0, 2);
            var t3 := UpsertMatchAsWritten(t2, "a", "b", 0.7, 0, 3);
            NewestMatch(t3, "a", "b") == Some(0.2) && NewestMatch(t3, "b", "a") == Some(0.2)
  {
    var t1 := UpsertMatchAsWritten(map[], "a", "b", 0.9, 0, 1);
    var t2 := UpsertMatchAsWritten(t1, "b", "a", 0.2, 0, 2);
    var t3 := UpsertMatchAsWritten(t2, "a", "b", 0.7, 0, 3);
    var ab, ba := MatchKey("a", "b", CurrentAlgorithmVersion), MatchKey("b", "a", CurrentAlgorithmVersion);
    assert ab != ba;
    assert t1[ab].createdAt == 1;
    assert t2[ab] == t1[ab] && t2[ba].createdAt == 2;
    assert t3[ba] == t2[ba] && t3[ab].createdAt == 1;
  }

  /** At most one current row per unordered pair of hashes. */
  ghost predicate OnePerPair(table: map<MatchKey, MatchRow>)
  {
    forall k :: k in table && k.version == CurrentAlgorithmVersion && k.hashA != k.hashB ==>
      MatchKey(k.hashB, k.hashA, k.version) !in table
  }

  /** The upsert with an unordered conflict key: a row for (B, A) is the row for (A, B). */
  function UpsertMatch(table: map<MatchKey, MatchRow>, hashA: string, hashB: string,
                       score: real, computationTimeMs: int, now: int): (r: map<MatchKey, MatchRow>)
  {
    var ab := MatchKey(hashA, hashB, CurrentAlgorithmVersion);
    var ba := MatchKey(hashB, hashA, CurrentAlgorithmVersion);
    if ab in table then table[ab := RewrittenMatchRow(table[ab], score, computationTimeMs, now)]
    else if ba in table then table[ba := RewrittenMatchRow(table[ba], score, computationTimeMs, now)]
    else table[ab := NewMatchRow(score, computationTimeMs, now)]
  }

  /** With the unordered upsert, a cached score is what both lookup orders return next. */
  lemma UpsertMatchThenLookup(table: map<MatchKey, MatchRow>, hashA: string, hashB: string,
                              score: real, computationTimeMs: int, now: int)
    requires OnePerPair(table)
    ensures OnePerPair(UpsertMatch(table, hashA, hashB, score, computationTimeMs, now))
    ensures NewestMatch(UpsertMatch(table, hashA, hashB, score, computationTimeMs, now), hashA, hashB) == Some(score)
    ensures NewestMatch(UpsertMatch(table, hashA, hashB, score, computationTimeMs, now), hashB, hashA) == Some(score)
  {
    var r := UpsertMatch(table, hashA, hashB, score, computationTimeMs, now);
    var ab := MatchKey(hashA, hashB, CurrentAlgorithmVersion);
    var ba := MatchKey(hashB, hashA, CurrentAlgorithmVersion);
    assert r.Keys == table.Keys + (if ab in table || ba !in table then {ab} else {ba});
    if hashA != hashB {
      assert !(ab in r && ba in r);
    }
  }

  /** Counting hits leaves the pair invariant alone. */
  lemma TouchMatchesKeepsOnePerPair(table: map<MatchKey, MatchRow>, hashA: string, hashB: string, now: int)
    requires OnePerPair(table)
    ensures OnePerPair(TouchMatches(table, hashA, hashB, now))
    ensures NewestMatch(TouchMatches(table, hashA, hashB, now), hashA, hashB) == NewestMatch(table, hashA, hashB)
  {
  }

  // ------------------------------------------------------ overlay cache

  /** The upsert of `cache_smart_overlay_placement`: new rows start at access count 0, rewrites keep the count. */
  function UpsertOverlay(table: map<OverlayKey, OverlayRow>, key: OverlayKey, placementSuggestions: Json,
                         analysisMetadata: Json, confidenceScore: real, now: int): (r: map<OverlayKey, OverlayRow>)
    ensures r.Keys == table.Keys + {key}
    ensures forall k :: k in table && k != key ==> r[k] == table[k]
    ensures r[key].placementSuggestions == placementSuggestions && r[key].analysisMetadata == analysisMetadata
    ensures r[key].confidenceScore == confidenceScore && r[key].lastAccessed == now
    ensures r[key].accessCount == if key in table then table[key].accessCount else 0
    ensures r[key].createdAt == if key in table then table[key].createdAt else now
  {
    if key in table then
      table[key := table[key].(placementSuggestions := placementSuggestions, analysisMetadata := analysisMetadata,
                               confidenceScore := confidenceScore, lastAccessed := now)]
    else table[key := OverlayRow(placementSuggestions, analysisMetadata, confidenceScore, now, 0, now)]
  }

  /** `_update_overlay_cache_access`: matches video, type and dimensions, but not the version. */
  function TouchOverlays(table: map<OverlayKey, OverlayRow>, videoId: string, overlayType: string,
                         dimensions: string, now: int): (r: map<OverlayKey, OverlayRow>)
    ensures r.Keys == table.Keys
    ensures forall k :: k in table ==>
      r[k] == if k.videoId == videoId && k.overlayType == overlayType && k.dimensions == dimensions
              then table[k].(accessCount := table[k].accessCount + 1, lastAccessed := now)
              else table[k]
  {
    map k | k in table ::
      if k.videoId == videoId && k.overlayType == overlayType && k.dimensions == dimensions
      then table[k].(accessCount := table[k].accessCount + 1, lastAccessed := now)
      else table[k]
  }

  // --------------------------------------------------------- the manager

  class PoseCacheManager {
    /** SHA-256 over the sorted-key JSON text of a sequence (`generate_sequence_hash`). */
    const digest: seq<seq<real>> -> string

    var analyses: map<AnalysisKey, AnalysisRow>
    var matches: map<MatchKey, MatchRow>
    var overlays: map<OverlayKey, OverlayRow>

    ghost predicate Valid()
      reads this
    {
      OnePerPair(matches)
    }

    constructor(digest: seq<seq<real>> -> string)
      ensures Valid()
      ensures this.digest == digest
      ensures analyses == map[] && matches == map[] && overlays == map[]
    {
      this.digest := digest;
      analyses := map[];
      matches := map[];
      overlays := map[];
    }

    /** `get_video_pose_analysis`: the current-version row, whose `last_accessed` is then refreshed. */
    method GetVideoPoseAnalysis(videoId: string, now: int, storeUp: bool) returns (r: Option<AnalysisRow>)
      modifies this
      ensures var key := AnalysisKey(videoId, CurrentAnalysisVersion);
              r == (if storeUp && key in old(analyses) then Some(old(analyses)[key]) else None)
              && analyses == (if storeUp then TouchAnalysis(old(analyses), key, now) else old(analyses))
      ensures matches == old(matches) && overlays == old(overlays)
    {
      var key := AnalysisKey(videoId, CurrentAnalysisVersion);
      if !storeUp || key !in analyses {
        return None;
      }
      r := Some(analyses[key]);
      analyses := TouchAnalysis(analyses, key, now);
    }

    /** `cache_video_pose_analysis`: frame count and average confidence are derived from the raw frames. */
    method CacheVideoPoseAnalysis(videoId: string, poseSequences: seq<seq<real>>, normalizedPoses: seq<seq<real>>,
                                  movementAnalysis: Json, processingTimeMs: int, fileSizeBytes: int,
                                  now: int, storeUp: bool) returns (ok: bool)
      modifies this
      ensures ok == storeUp
      ensures analyses == if storeUp then
        UpsertAnalysis(old(analyses), AnalysisKey(videoId, CurrentAnalysisVersion), poseSequences, normalizedPoses,
                       movementAnalysis, Mean(PoseVision.AllVisibilities(poseSequences)),
                       processingTimeMs, fileSizeBytes, now)
        else old(analyses)
      ensures matches == old(matches) && overlays == old(overlays)
    {
      var confidenceAvg := CalculateAverageConfidence(poseSequences);
      if !storeUp {
        return false;
      }
      analyses := UpsertAnalysis(analyses, AnalysisKey(videoId, CurrentAnalysisVersion), poseSequences,
                                 normalizedPoses, movementAnalysis, confidenceAvg, processingTimeMs, fileSizeBytes, now);
      ok := true;
    }

    /** `get_sequence_match`: either order of the two hashes; a hit counts an access on every row about the pair. */
    method GetSequenceMatch(sequenceA: seq<seq<real>>, sequenceB: seq<seq<real>>, now: int, storeUp: bool)
      returns (r: Option<real>)
      requires Valid()
      modifies this
      ensures Valid()
      ensures var ha, hb := digest(sequenceA), digest(sequenceB);
              r == (if storeUp then NewestMatch(old(matches), ha, hb) else None)
              && matches == (if r.Some? then TouchMatches(old(matches), ha, hb, now) else old(matches))
      ensures analyses == old(analyses) && overlays == old(overlays)
    {
      var hashA := digest(sequenceA);
      var hashB := digest(sequenceB);
      if !storeUp {
        return None;
      }
      r := NewestMatch(matches, hashA, hashB);
      if r.Some? {
        TouchMatchesKeepsOnePerPair(matches, hashA, hashB, now);
        matches := TouchMatches(matches, hashA, hashB, now);
      }
    }

    /** `cache_sequence_match`, with the conflict key taken as the unordered pair. */
    method CacheSequenceMatch(sequenceA: seq<seq<real>>, sequenceB: seq<seq<real>>, similarityScore: real,
                              computationTimeMs: int, now: int, storeUp: bool) returns (ok: bool)
      requires Valid()
      modifies this
      ensures Valid()
      ensures ok == storeUp
      ensures matches == if storeUp then
        UpsertMatch(old(matches), digest(sequenceA), digest(sequenceB), similarityScore, computationTimeMs, now)
        else old(matches)
      ensures storeUp ==> (NewestMatch(matches, digest(sequenceA), digest(sequenceB)) == Some(similarityScore)
                           && NewestMatch(matches, digest(sequenceB), digest(sequenceA)) == Some(similarityScore))
      ensures analyses == old(analyses) && overlays == old(overlays)
    {
      var hashA := digest(sequenceA);
      var hashB := digest(sequenceB);
      if !storeUp {
        return false;
      }
      UpsertMatchThenLookup(matches, hashA, hashB, similarityScore, computationTimeMs, now);
      matches := UpsertMatch(matches, hashA, hashB, similarityScore, computationTimeMs, now);
      ok := true;
    }

    /** `get_smart_overlay_cache`: the current-version row; the hit is counted on every version of the key. */
    method GetSmartOverlayCache(videoId: string, overlayType: string, width: int, height: int, now: int, storeUp: bool)
      returns (r: Option<OverlayHit>)
      modifies this
      ensures var key := OverlayKey(videoId, overlayType, FormatDimensions(width, height), CurrentCacheVersion);
              r == (if storeUp && key in old(overlays)
                    then Some(OverlayHit(old(overlays)[key].placementSuggestions, old(overlays)[key].analysisMetadata,
                                         old(overlays)[key].confidenceScore))
                    else None)
              && overlays == (if r.Some? then TouchOverlays(old(overlays), videoId, overlayType, key.dimensions, now)
                              else old(overlays))
      ensures analyses == old(analyses) && matches == old(matches)
    {
      var dimensions := FormatDimensions(width, height);
      var key := OverlayKey(videoId, overlayType, dimensions, CurrentCacheVersion);
      if !storeUp || key !in overlays {
        return None;
      }
      var row := overlays[key];
      r := Some(OverlayHit(row.placementSuggestions, row.analysisMetadata, row.confidenceScore));
      overlays := TouchOverlays(overlays, videoId, overlayType, dimensions, now);
    }

    /** `cache_smart_overlay_placement`. */
    method CacheSmartOverlayPlacement(videoId: string, overlayType: string, width: int, height: int,
                                      placementSuggestions: Json, analysisMetadata: Json, confidenceScore: real,
                                      now: int, storeUp: bool) returns (ok: bool)
      modifies this
      ensures ok == storeUp
      ensures overlays == if storeUp then
        UpsertOverlay(old(overlays), OverlayKey(videoId, overlayType, FormatDimensions(width, height), CurrentCacheVersion),
                      placementSuggestions, analysisMetadata, confidenceScore, now)
        else old(overlays)
      ensures analyses == old(analyses) && matches == old(matches)
    {
      if !storeUp {
        return false;
      }
      var key := OverlayKey(videoId, overlayType, FormatDimensions(width, height), CurrentCacheVersion);
      overlays := UpsertOverlay(overlays, key, placementSuggestions, analysisMetadata, confidenceScore, now);
      ok := true;
    }

    /** `cleanup_expired_cache`: each table loses exactly its rows not accessed within its time to live. */
    method CleanupExpiredCache(now: int, storeUp: bool) returns (stats: CleanupStats)
      requires Valid()
      modifies this
      ensures Valid()
      ensures !storeUp ==> (stats == CleanupStats(0, 0, 0)
                            && analyses == old(analyses) && matches == old(matches) && overlays == old(overlays))
      ensures storeUp ==>
        var poseCutoff := now - PoseAnalysisTtlDays * Day;
        var matchCutoff := now - SequenceMatchTtlDays * Day;
        var overlayCutoff := now - OverlayCacheTtlDays * Day;
        analyses == Expire(old(analyses), (r: AnalysisRow) => r.lastAccessed, poseCutoff)
        && matches == Expire(old(matches), (r: MatchRow) => r.lastAccessed, matchCutoff)
        && overlays == Expire(old(overlays), (r: OverlayRow) => r.lastAccessed, overlayCutoff)
        && stats.poseAnalysis == |Expired(old(analyses), (r: AnalysisRow) => r.lastAccessed, poseCutoff)|
        && stats.sequenceMatches == |Expired(old(matches), (r: MatchRow) => r.lastAccessed, matchCutoff)|
        && stats.overlayCache == |Expired(old(overlays), (r: OverlayRow) => r.lastAccessed, overlayCutoff)|
    {
      if !storeUp {
        return CleanupStats(0, 0, 0);
      }
      var poseCutoff := now - PoseAnalysisTtlDays * Day;
      var poseCount := |Expired(analyses, (r: AnalysisRow) => r.lastAccessed, poseCutoff)|;
      analyses := Expire(analyses, (r: AnalysisRow) => r.lastAccessed, poseCutoff);

      var matchCutoff := now - SequenceMatchTtlDays * Day;
      var matchCount := |Expired(matches, (r: MatchRow) => r.lastAccessed, matchCutoff)|;
      matches := Expire(matches, (r: MatchRow) => r.lastAccessed, matchCutoff);

      var overlayCutoff := now - OverlayCacheTtlDays * Day;
      var overlayCount := |Expired(overlays, (r: OverlayRow) => r.lastAccessed, overlayCutoff)|;
      overlays := Expire(overlays, (r: OverlayRow) => r.lastAccessed, overlayCutoff);

      stats := CleanupStats(poseCount, matchCount, overlayCount);
    }
  }
}
