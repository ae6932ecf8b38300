# MagicLens backend core, in Dafny

MagicLens is a backend for augmented-reality video collaborations. Videographers upload videos, and artists claim them. Artists then place overlays (GIFs, images, animations) on the video. The backend renders the composite with FFmpeg.

This project models the deterministic core of that backend and proves properties of it:

- **Pose analysis** (`pose_vision.dfy`). Raw landmark frames are normalised into 22 values centred on the shoulders. Recordings are compared by cosine similarity over a sliding window.
- **Pose cache** (`pose_cache.dfy`). Three tables cache video analyses, sequence-match scores and overlay placements. Each has upsert semantics, access statistics and an expiry sweep.
- **Pose processing queue** (`pose_queue.dfy`). A bounded priority queue of jobs, with these job states: QUEUED, then PROCESSING, then COMPLETED or FAILED; or QUEUED, then CANCELLED. It keeps active and completed tables and statistics, and it classifies movement.
- **Video analysis heuristics** (`video_analysis.dfy`):
  - pose confidence;
  - movement and stability classes;
  - bounding boxes and safe overlay zones;
  - content-tag expansion;
  - the suggestion tables;
  - placement, match confidence and reasoning for recommended assets.
- **Recommendations** (`recommendation.dfy`):
  - user profiles built from collaboration history;
  - personalisation scores and ranking;
  - trending and style-similar assets;
  - the bounded learning profile.
- **Collaboration rooms** (`rooms.dfy`). The real-time room manager tracks members, connections and a capped activity log, and dispatches socket messages.
- **FFmpeg command** (`render_command.dfy`, `json_number.dfy`). The filter graph that scales, fades and stacks each overlay, the argument list around it, and the preparation of the overlay list.
- **Collaboration and render rules** (`collaboration.dfy`, `render_jobs.dfy`). Who may start, update, render, cancel or retry what, and the resulting records.
- **GIF and stock-footage search** (`gif_search.dfy`, `stock_footage.dfy`). How results from the providers are limited, merged, de-duplicated and filtered.
- **Health report** (`health.dfy`). The status of each service and the overall status.

The helper modules `Wrappers`, `Numbers`, `Text` and `Lists` give Python's built-ins their Python meaning:

- `int()` truncation and float `%`;
- `str.lower`, `split` and `join`, and `strip`, which removes every character `str.isspace` accepts, Unicode white space included;
- slices with negative bounds;
- the stable `sorted`.

Floats are modelled as reals. The numbers in an overlay's stored position and timing are kept as JSON gives them, an int or a decimal float (`JsonNumbers`), because the filter graph prints them with Python's `str()`. Clocks, identifier generators, database rows, HTTP answers and queue statistics are parameters.

Objects whose state the services update in place are classes:

- `PoseCacheManager`;
- `PoseProcessingQueue`;
- `RecommendationEngine`;
- `ConnectionManager`;
- the collaboration and render stores, which hold the database tables as maps.

Each method of these classes is specified by pure functions. The lemmas state the properties of those functions.

## Model

| member | source | states |
|---|---|---|
| PoseVision.CoordinatesAt | services/core/computer_vision.py:53-59 | pair k of the extracted coordinates is (frame[4k], frame[4k+1]) and there are (len+2) div 4 pairs, i.e. one per group whose x and y are both present |
| PoseVision.ExtractCoordinatesFromFrame | services/core/computer_vision.py:47-59 | the loop over groups of four yields exactly the specified coordinate pairs, 28 values giving 7 pairs and 8 giving 2 |
| PoseVision.KeyPoints | services/core/computer_vision.py:72-84 | eleven key points: seven given landmarks plus hips and knees derived from the shoulders |
| PoseVision.ShoulderWidth | services/core/computer_vision.py:92-100 | the scale is never zero: a zero shoulder distance is replaced by 1.0 |
| PoseVision.RelativeAt | services/core/computer_vision.py:117-122 | output 2k and 2k+1 are the point's x and y offsets from the shoulder midpoint divided by the width |
| PoseVision.NormalizeFrame | services/core/computer_vision.py:67-124 | fewer than 7 landmarks give []; otherwise exactly 22 values |
| PoseVision.NormalizePoseFrame | services/core/computer_vision.py:103-124 | the loop extending the output point by point produces the normalised frame |
| PoseVision.ValidFrameLength | services/core/computer_vision.py:55-68 | a raw frame normalises to [] exactly when it holds fewer than 26 values |
| PoseVision.OnlySevenLandmarksCount | services/core/computer_vision.py:72-84 | landmarks after the seventh never affect the result |
| PoseVision.ShouldersCentred | services/core/computer_vision.py:86-122 | normalised left and right shoulder x (and y) are opposite, so their sum is exactly 0 |
| PoseVision.DerivedLandmarks | services/core/computer_vision.py:81-122 | outputs 14, 18 equal output 2 and 16, 20 equal output 4; hip y is shoulder y + 0.3/width, knee y hip y + 0.4/width |
| PoseVision.TranslationInvariantFrame | services/core/computer_vision.py:81-122 | moving every landmark by the same (dx, dy) leaves all 22 outputs unchanged |
| PoseVision.CoordinatesOfTranslatedFrame | services/core/computer_vision.py:53-59 | translating a raw frame translates its extracted coordinates |
| PoseVision.NormalizeSequence | services/core/computer_vision.py:137-149 | at most as many frames as given, each of 22 values |
| PoseVision.NormalizeSequenceAppend | services/core/computer_vision.py:139-147 | normalisation goes frame by frame in order: it distributes over concatenation |
| PoseVision.NormalizeSequenceEmpty | services/core/computer_vision.py:139-149 | the result is [] exactly when every frame holds fewer than 26 values (covers empty input) |
| PoseVision.TranslationInvariantSequence | services/core/computer_vision.py:137-149 | translating every frame leaves the normalised sequence unchanged |
| PoseVision.NormalizePoseSequence | services/core/computer_vision.py:137-149 | the loop appending successful frames yields the specified sequence |
| PoseVision.SimilaritySymmetric | services/core/computer_vision.py:162-180 | frame similarity is symmetric in its arguments |
| PoseVision.CauchySchwarz | services/core/computer_vision.py:170-177 | the dot product's square is at most the product of the squared norms, so the cosine lies in [-1, 1] |
| PoseVision.SimilarityBounds | services/core/computer_vision.py:162-180 | with a true square root the similarity, including the 0.0 guard cases, lies in [0, 1] |
| PoseVision.SelfSimilarity | services/core/computer_vision.py:170-180 | a frame with a non-zero value is fully similar (1.0) to itself |
| PoseVision.NormalizedFrameNonZero | services/core/computer_vision.py:81-122 | every normalised frame has a non-zero norm (the hips lie below the shoulders) |
| PoseVision.NormalizedSequenceNonZero | services/core/computer_vision.py:137-149 | every frame of a normalised sequence has a non-zero norm |
| PoseVision.WindowSimilarities | services/core/computer_vision.py:214-221 | the window at offset i compares frame i+j of a with frame j of b, for every j |
| PoseVision.WindowAverages | services/core/computer_vision.py:213-224 | one average per offset 0..len(a)-len(b) |
| PoseVision.RunningMaxIsMaximum | services/core/computer_vision.py:209-225 | the running maximum starting from 0.0 bounds every window average and is 0.0 or one of them |
| PoseVision.WindowAverageBounds | services/core/computer_vision.py:217-224 | each window average lies in [0, 1] |
| PoseVision.SequenceMatchBounds | services/core/computer_vision.py:196-227 | the match score lies in [0, 1], across all early 0.0 returns |
| PoseVision.SequenceMatchUnusableFrames | services/core/computer_vision.py:202-207 | a searched-for recording whose frames all have fewer than 26 values scores 0.0 |
| PoseVision.ExactWindow | services/core/computer_vision.py:213-224 | a window reproducing b frame for frame averages 1.0 |
| PoseVision.EmbeddedSequenceMatchesFully | services/core/computer_vision.py:183-227 | a recording embedded in a longer one is found with score 1.0 |
| PoseVision.SelfMatch | services/core/computer_vision.py:183-238 | a recording that normalises to anything matches itself with score 1.0 |
| PoseVision.TranslationInvariantMatch | services/core/computer_vision.py:196-227 | translating the searched recording does not change the score |
| PoseVision.FindPoseSequenceMatch | services/core/computer_vision.py:196-238 | the method's result is the specified match score |
| PoseVision.BestWindowLoop | services/core/computer_vision.py:209-227 | the outer loop's result is the running maximum of the window averages |
| PoseVision.WindowAverageLoop | services/core/computer_vision.py:216-224 | the inner loop's result is the window's mean similarity |
| PoseVision.AllVisibilitiesInRange | services/core/pose_cache.py:425-441 | visibilities of all frames stay in [0, 1] when the landmarks' do |
| PoseCache.DimensionsRoundTrip | services/core/pose_cache.py:95-98 | the "WxH" key reads back as the width and height it was built from |
| PoseCache.DimensionsInjective | services/core/pose_cache.py:95-98 | two dimension pairs share an overlay key only when they are equal |
| PoseCache.ConfidenceLabel | services/core/pose_cache.py:241-243 | "high" exactly above 0.8, "low" exactly at or below 0.5, "medium" otherwise |
| PoseCache.CalculateAverageConfidence | services/core/pose_cache.py:425-441 | the nested loop returns the mean of the values at indices 3, 7, 11, ... of every frame, 0.0 when there are none |
| PoseCache.SumFrameVisibilities | services/core/pose_cache.py:436-439 | the inner loop sums and counts exactly the values at indices 3, 7, 11, ... of one frame |
| PoseCache.AverageConfidenceBounds | services/core/pose_cache.py:425-441 | with visibilities in [0, 1] the average confidence is in [0, 1] |
| PoseCache.Expire | services/core/pose_cache.py:395-417 | a sweep keeps exactly the rows accessed at or after the cutoff, unchanged |
| PoseCache.Expired | services/core/pose_cache.py:395-417 | the deleted rows are exactly those whose last access is before the cutoff |
| PoseCache.ExpireCount | services/core/pose_cache.py:401-417 | the reported count is the number of rows the sweep removed |
| PoseCache.UpsertAnalysis | services/core/pose_cache.py:136-186 | an upsert on (video, analysis version): payload and frame count = number of frames replaced, last access refreshed, creation time kept, other rows untouched |
| PoseCache.TouchAnalysis | services/core/pose_cache.py:443-453 | a hit refreshes only that row's last access |
| PoseCache.NewestMatch | services/core/pose_cache.py:204-221 | a lookup misses exactly when neither hash order is stored under the current version; a hit returns the score of the newest stored row for the pair (either one when both were created at the same time) |
| PoseCache.TouchMatches | services/core/pose_cache.py:455-469 | a hit bumps the access count and last access of the rows for the pair in either order, whatever their version, and no other row |
| PoseCache.UpsertMatchAsWritten | services/core/pose_cache.py:244-280 | the upsert as written conflicts on the ORDERED hash pair: it writes the score under (A, B) and leaves a (B, A) row in place |
| PoseCache.StaleMatchAsWritten | services/core/pose_cache.py:204-280 | caching (a,b), then (b,a), then (a,b) again leaves lookups returning the stale middle score |
| PoseCache.UpsertMatchThenLookup | services/core/pose_cache.py:196-280 | after caching (A, B, s) with one row per unordered pair, lookups of (A, B) and (B, A) both return s and the table keeps one row per pair |
| PoseCache.TouchMatchesKeepsOnePerPair | services/core/pose_cache.py:455-469 | refreshing access statistics keeps one row per pair and does not change what a lookup returns |
| PoseCache.UpsertOverlay | services/core/pose_cache.py:340-381 | an upsert on (video, type, "WxH", version): a new row starts with access count 0; a rewrite replaces payload and confidence, keeps the access count and creation time |
| PoseCache.TouchOverlays | services/core/pose_cache.py:471-486 | a hit bumps access count and last access of every row for (video, type, dimensions), whatever its version, and no other row |
| PoseCache.PoseCacheManager.constructor | services/core/pose_cache.py:75-93 | an empty cache whose sequence digest is the given deterministic hash |
| PoseCache.PoseCacheManager.GetVideoPoseAnalysis | services/core/pose_cache.py:100-123 | returns the current-version row and refreshes its access time on a hit; None on a miss or a store failure; nothing else changes |
| PoseCache.PoseCacheManager.CacheVideoPoseAnalysis | services/core/pose_cache.py:125-193 | the analysis table becomes the upsert with the computed average confidence; returns False and changes nothing on a store failure |
| PoseCache.PoseCacheManager.GetSequenceMatch | services/core/pose_cache.py:195-225 | returns the newest score for the pair in either order, refreshing access statistics on a hit; None on a miss or failure |
| PoseCache.PoseCacheManager.CacheSequenceMatch | services/core/pose_cache.py:227-286 | stores the score so both lookup orders return it afterwards; returns False and changes nothing on failure (corrected; see Findings) |
| PoseCache.PoseCacheManager.GetSmartOverlayCache | services/core/pose_cache.py:288-327 | returns placements, metadata and confidence of the current-version row for (video, type, "WxH") and refreshes access statistics on a hit |
| PoseCache.PoseCacheManager.CacheSmartOverlayPlacement | services/core/pose_cache.py:329-387 | the overlay table becomes the upsert under the "WxH" key; returns False and changes nothing on failure |
| PoseCache.PoseCacheManager.CleanupExpiredCache | services/core/pose_cache.py:389-423 | each table loses exactly the rows last accessed before now minus 30, 7 and 14 days; the counts are the numbers removed; all zeros and no change on failure |
| PoseQueue.NextIndex | services/core/pose_processing_queue.py:37-71 | the chosen queue position holds a job no queued job precedes (smallest priority value, URGENT 0 before LOW 3) |
| PoseQueue.RemoveAt | services/core/pose_processing_queue.py:288 | taking one entry out of the queue leaves the other entries exactly |
| PoseQueue.PopNext | services/core/pose_processing_queue.py:69-71 | the popped job was queued, the rest of the queue is the old queue minus it, and no remaining job has a smaller priority value |
| PoseQueue.Variations | services/core/pose_processing_queue.py:424-430 | one variation per consecutive pair of normalised frames |
| PoseQueue.VariationsAt | services/core/pose_processing_queue.py:426-430 | variation k is the L1 distance of frames k and k+1 over their common length |
| PoseQueue.VariationUpToNonNegative | services/core/pose_processing_queue.py:427-429 | a variation is never negative |
| PoseQueue.VariationUpToSame | services/core/pose_processing_queue.py:427-429 | a frame has zero variation against itself |
| PoseQueue.AverageVariationNonNegative | services/core/pose_processing_queue.py:424-434 | the average variation is never negative (0.0 for fewer than two frames) |
| PoseQueue.MovementType | services/core/pose_processing_queue.py:436-444 | "high_activity" exactly above 2.0, "static" exactly at or below 0.3 |
| PoseQueue.StillSequenceIsStatic | services/core/pose_processing_queue.py:403-452 | a recording whose normalised frames are all equal is classified "static" with variation 0.0 |
| PoseQueue.AnalyzeMovementPatterns | services/core/pose_processing_queue.py:403-452 | the nested loops compute the specified analysis: "none"/0.0 for empty input, else average confidence, average variation and its class |
| PoseQueue.TakePreservesTables | services/core/pose_processing_queue.py:285-314 | popping a cancelled job or starting a queued one keeps every job in exactly one of active and completed, and queued ids active |
| PoseQueue.FinishPreservesTables | services/core/pose_processing_queue.py:348-399 | moving a finished job from active to completed keeps the tables consistent |
| PoseQueue.PoseProcessingQueue.constructor | services/core/pose_processing_queue.py:80-102 | an empty, stopped queue with zeroed statistics |
| PoseQueue.PoseProcessingQueue.Start | services/core/pose_processing_queue.py:117-126 | the queue is running; nothing else changes |
| PoseQueue.PoseProcessingQueue.Stop | services/core/pose_processing_queue.py:128-138 | the queue is stopped; nothing else changes |
| PoseQueue.PoseProcessingQueue.EnqueueJob | services/core/pose_processing_queue.py:140-192 | a full queue refuses with "Queue is full (N jobs)" and changes nothing; otherwise the job is queued and active as QUEUED with progress 0.0, and the high-water mark becomes the maximum of its old value and the new size |
| PoseQueue.PoseProcessingQueue.GetJobStatus | services/core/pose_processing_queue.py:194-228 | a view exists exactly for active or completed jobs, carries the job's status, and reports a cached result only for completed jobs |
| PoseQueue.PoseProcessingQueue.GetQueueStats | services/core/pose_processing_queue.py:248-263 | queue size, active and completed counts, statistics and running flag as held |
| PoseQueue.PoseProcessingQueue.CancelJob | services/core/pose_processing_queue.py:230-246 | True exactly for an active QUEUED job, which becomes CANCELLED and moves to completed; otherwise False and nothing changes |
| PoseQueue.PoseProcessingQueue.CleanupCompletedJobs | services/core/pose_processing_queue.py:265-279 | removes exactly the completed jobs finished before the cutoff; active jobs are untouched |
| PoseQueue.CollectStale | services/core/pose_processing_queue.py:270-273 | collects exactly the completed jobs that have a completion time before the cutoff |
| PoseQueue.PoseProcessingQueue.TakeNextJob | services/core/pose_processing_queue.py:285-314 | pops the job with the smallest priority value; a cancelled job is skipped unchanged, a queued one becomes PROCESSING with progress 0.1 |
| PoseQueue.PoseProcessingQueue.ProcessSingleJob | services/core/pose_processing_queue.py:305-399 | success: progress 0.6, 0.8, 0.9, 1.0, COMPLETED with the result, jobs_processed + 1 and average = total / processed; failure: FAILED, progress 0.0, the error kept, jobs_failed + 1; either way the job moves to completed |
| PoseQueue.RunJob | services/core/pose_processing_queue.py:318-395 | the job ends COMPLETED on a successful extraction and FAILED otherwise, keeping its id, with the progress trail, result and statistics as in `_process_single_job` |
| VideoAnalysis.PoseConfidence | services/core/ai_analysis_service.py:276-283 | 0.0 for fewer than 28 values |
| VideoAnalysis.PoseConfidenceMatchesCache | services/core/ai_analysis_service.py:276-283 | for 28 or more values it is the mean of the values at indices 3, 7, ..., the same average the pose cache computes for one frame |
| VideoAnalysis.PoseConfidenceBounds | services/core/ai_analysis_service.py:276-283 | with visibilities in [0, 1] the confidence is in [0, 1] |
| VideoAnalysis.SumAbs | services/core/ai_analysis_service.py:294 | a sum of absolute values is never negative |
| VideoAnalysis.ClassifyPoseMovement | services/core/ai_analysis_service.py:285-303 | "unknown" exactly below 22 values; otherwise "high_activity" exactly when the sum of abs over indices 6..13 exceeds 3.0, "low_activity" exactly when it is at most 1.5 |
| VideoAnalysis.NormalizedFrameIsClassified | services/core/ai_analysis_service.py:285-288 | every frame the pose normaliser accepts is long enough to be classified |
| VideoAnalysis.StableBodyRegions | services/core/ai_analysis_service.py:305-325 | [] below 22 values; "torso" iff abs(p[2]-p[4]) < 0.5 and "head_area" iff abs(p[1]) < 0.3, in that order |
| VideoAnalysis.Axis | services/core/ai_analysis_service.py:337-340 | the eleven x (or y) coordinates of a normalised pose |
| VideoAnalysis.EstimatePersonBbox | services/core/ai_analysis_service.py:327-359 | short input gives the quarter-frame default; otherwise the clamped box always lies inside the frame with width and height at least 1 |
| VideoAnalysis.MotionLevel | services/core/ai_analysis_service.py:361-374 | 0.3 with no analysis; 0.9 exactly for high_activity and 0.6 exactly for moderate_activity |
| VideoAnalysis.MotionLevelFromMovement | services/core/ai_analysis_service.py:473-482 | "high" exactly for high_activity, "low" exactly for low_activity |
| VideoAnalysis.MotionLevelsAgree | services/core/ai_analysis_service.py:473-482 | the textual level is "high" iff the numeric level exceeds 0.6 and "low" iff it is below 0.4 |
| VideoAnalysis.SafeOverlayZones | services/core/ai_analysis_service.py:376-415 | [] with no analysis; a torso_side zone iff "torso" is stable and an upper_corner zone iff "head_area" is stable, nothing else |
| VideoAnalysis.ZonesFollowStableRegions | services/core/ai_analysis_service.py:376-415 | a pose stable at torso and head yields torso_side then upper_corner |
| VideoAnalysis.Landmarks | services/core/ai_analysis_service.py:428-431 | the seven landmark x (or y) values scaled to pixels |
| VideoAnalysis.SafeOverlayZonesFromPose | services/core/ai_analysis_service.py:417-471 | default layout below 28 values; otherwise one avoid area clamped to the frame and at most three safe areas, each above, right of or below the person |
| VideoAnalysis.Expansion | services/core/ai_analysis_service.py:581-589 | every expansion of a tag ranks strictly lower, so expansion terminates |
| VideoAnalysis.ExpandListMembers | services/core/ai_analysis_service.py:591-595 | a tag is produced iff it is reached by expanding one of the listed tags |
| VideoAnalysis.ExpandListAppend | services/core/ai_analysis_service.py:591-593 | expanding a longer list yields the union of the expansions of its parts |
| VideoAnalysis.ExpandUnfold | services/core/ai_analysis_service.py:591-593 | a tag expands to itself plus the expansions of its related tags |
| VideoAnalysis.ListedTagsExpand | services/core/ai_analysis_service.py:578-595 | scene, activity and mood are always among the tags |
| VideoAnalysis.WeightOfExpansion | services/core/ai_analysis_service.py:591-593 | the tags a tag adds weigh one less than it: the loop's work decreases |
| VideoAnalysis.GenerateContentTags | services/core/ai_analysis_service.py:575-595 | the loop that also visits appended tags returns the duplicate-free transitive expansion |
| VideoAnalysis.ExpandReaches | services/core/ai_analysis_service.py:591-593 | expansion is transitive |
| VideoAnalysis.ListedExpands | services/core/ai_analysis_service.py:591-595 | each listed tag contributes its whole expansion |
| VideoAnalysis.DancingTags | services/core/ai_analysis_service.py:584-588 | "dancing" brings in music and celebration, and via celebration party, joy and festive |
| VideoAnalysis.PlacementStyle | services/core/ai_analysis_service.py:610-620 | activity is checked before mood: dancing/sports/exercise follow; calm/serene corner; otherwise-unmatched moods balanced_edge |
| VideoAnalysis.GetTimingPattern | services/core/ai_analysis_service.py:622-642 | at least two intervals; non-rhythmic intervals lie within the duration; per-overlay duration bounded by half the duration or 2.0 except for emphasis |
| VideoAnalysis.ScaleRange | services/core/ai_analysis_service.py:644-652 | every scale range is a non-empty positive interval |
| VideoAnalysis.AnimationSpeed | services/core/ai_analysis_service.py:654-666 | "medium" for any mood not in the table; always fast, medium or slow |
| VideoAnalysis.LayerSuggestions | services/core/ai_analysis_service.py:668-676 | between 1 and 3 layers, exactly 1 for talking or presentation |
| VideoAnalysis.GenerateOverlaySuggestions | services/core/ai_analysis_service.py:597-608 | the bundle's scale range is non-empty and movement activities follow the subject |
| VideoAnalysis.GetLocalFilePath | services/core/ai_analysis_service.py:718-730 | strips one leading "/media/" and ends with the rest of the URL path |
| VideoAnalysis.MediaUrlUnderMediaDir | services/core/ai_analysis_service.py:718-730 | "/media/name" maps to the media directory, "/", name |
| VideoAnalysis.OnlyOneMediaPrefixStripped | services/core/ai_analysis_service.py:721-728 | only one prefix is stripped; an absolute rest replaces the media directory as os.path.join does |
| VideoAnalysis.PlacementPosition | services/core/ai_analysis_service.py:843-862 | static_corner picks a corner, other non-centre styles an edge position |
| VideoAnalysis.PlacementCycles | services/core/ai_analysis_service.py:853-862 | corners repeat every 4 indices and edge positions every 5 |
| VideoAnalysis.PlacementTiming | services/core/ai_analysis_service.py:864-869 | start is interval index mod count; end is at most the duration and not before the start |
| VideoAnalysis.PlacementScale | services/core/ai_analysis_service.py:871-872 | the scale lies in [lo, hi) when hi > lo |
| VideoAnalysis.GenerateSmartPlacement | services/core/ai_analysis_service.py:833-889 | a placement exists iff there are intervals and the scale range is not degenerate (Python raises otherwise); layerOrder = index + 1, scaleX = scaleY within the range |
| VideoAnalysis.TagOverlap | services/core/ai_analysis_service.py:896-902 | the tag-overlap share is in [0, 0.6] |
| VideoAnalysis.RawMatchConfidence | services/core/ai_analysis_service.py:895-915 | the summed confidence is in [0.1, 1.2] |
| VideoAnalysis.MatchConfidence | services/core/ai_analysis_service.py:892-917 | the match confidence is always in [0.1, 1.0] |
| VideoAnalysis.WordTagsNeverOverlap | services/core/ai_analysis_service.py:896-902 | because set() of a tag string is its characters, video tags longer than one character never overlap |
| VideoAnalysis.MatchedReasons | services/core/ai_analysis_service.py:929-936 | the mood reason appears iff the mood occurs in the tags; no reason iff none of mood, activity, scene occurs |
| VideoAnalysis.Reasons | services/core/ai_analysis_service.py:920-939 | at least one reason; the fallback reason stands alone iff nothing matched the lower-cased tags |
| VideoAnalysis.RecommendationReasoning | services/core/ai_analysis_service.py:920-941 | the text starts "Great fit because it " and ends with "." |
| Recommendation.CounterOf | services/core/recommendation_engine.py:172-186 | every key in the insertion order has a count |
| Recommendation.CountStep | services/core/recommendation_engine.py:179-186 | counting one more key is `dict.get(key, 0) + 1` on the counter of the keys before |
| Recommendation.ItemsOfCounter | services/core/recommendation_engine.py:172-186 | the counter's items are exactly the distinct keys, each with its number of occurrences |
| Recommendation.TopKeysOf | services/core/recommendation_engine.py:196-204 | at most n keys, drawn from the input, in descending count, none left out that outnumbers one kept |
| Recommendation.MostCommonOf | services/core/recommendation_engine.py:196-204 | the sorted-descending top-n slice of a counter has the properties above |
| Recommendation.Cleaned | services/core/recommendation_engine.py:184-185 | one cleaned tag per comma-separated piece |
| Recommendation.CleanedTrimmed | services/core/recommendation_engine.py:182-186 | no cleaned tag begins or ends with white space, Unicode white space included |
| Recommendation.CleanedNoBreakSpace | services/core/recommendation_engine.py:185 | a tag padded with a no-break space and an ideographic space is counted as the bare tag |
| Recommendation.Patterns | services/core/recommendation_engine.py:188-193 | one collaboration pattern per history row |
| Recommendation.Approved | services/core/recommendation_engine.py:199 | the approved count never exceeds the number of patterns |
| Recommendation.AllTagsLower | services/core/recommendation_engine.py:182-186 | every counted tag is already lower-case |
| Recommendation.CleanedLower | services/core/recommendation_engine.py:185 | a stripped, lower-cased piece is lower-case |
| Recommendation.ProfileBounds | services/core/recommendation_engine.py:155-209 | success rate approved / max(n, 1) and strength min(n/10, 1) lie in [0, 1]; activity = n; at most 3 categories and 5 tags |
| Recommendation.ProfilePreferences | services/core/recommendation_engine.py:155-209 | the categories come from the history; the tags are lower-case history tags, none left out more frequent than one kept |
| Recommendation.CountTags | services/core/recommendation_engine.py:183-186 | the tag loop extends the counter by the cleaned pieces |
| Recommendation.CountRowTags | services/core/recommendation_engine.py:182-186 | a row with tags extends the tag counter by its cleaned pieces; a row without leaves it as it was |
| Recommendation.ScanHistory | services/core/recommendation_engine.py:172-193 | the loop counts every row's category and cleaned tags and records one pattern per row, in row order |
| Recommendation.BuildUserProfile | services/core/recommendation_engine.py:155-209 | the profile built by the loop is the specified profile of the rows |
| Recommendation.RawPersonalization | services/core/recommendation_engine.py:214-239 | the summed score before weighting is in [0, 1] |
| Recommendation.PersonalizationScore | services/core/recommendation_engine.py:211-245 | at most 1.0, and non-negative when the profile strength is |
| Recommendation.NewUserScoreDamped | services/core/recommendation_engine.py:199-245 | a user with no history scores at most 0.3 |
| Recommendation.NoSignalNoScore | services/core/recommendation_engine.py:218-243 | without category, tag, success or activity signals the score is 0 |
| Recommendation.EnhanceReasoning | services/core/recommendation_engine.py:247-261 | the base text is kept as a prefix; text is added exactly for score > 0.7 with preferred tags, 0.4 < score <= 0.7, or score <= 0.4 for a new user |
| Recommendation.PersonalizeAll | services/core/recommendation_engine.py:30-41 | every recommendation is scored and annotated, in order |
| Recommendation.PersonalizeEach | services/core/recommendation_engine.py:29-41 | the loop returns every recommendation scored and annotated, in input order |
| Recommendation.PersonalizeOne | services/core/recommendation_engine.py:31-39 | one recommendation gets its personalisation score, then its reasoning extended with that score |
| Recommendation.RankingBounded | services/core/recommendation_engine.py:43-49 | at most `limit` items (and no more than the inputs), sorted by 0.6 confidence + 0.4 personalization, highest first |
| Recommendation.RankingFromInputs | services/core/recommendation_engine.py:30-49 | every ranked item is the personalisation of one of the AI recommendations |
| Recommendation.RankingKeepsBest | services/core/recommendation_engine.py:43-49 | no personalised recommendation left out of the ranking has a higher combined score than one kept |
| Recommendation.GetPersonalizedRecommendations | services/core/recommendation_engine.py:19-49 | the method returns the specified ranking |
| Recommendation.AnyTagIn | services/core/recommendation_engine.py:297 | true iff some listed tag, lower-cased, occurs in the asset's tags |
| Recommendation.RelevantRows | services/core/recommendation_engine.py:294-298 | keeps exactly the rows matching one of the first three video tags |
| Recommendation.TrendingAssetsFromRows | services/core/recommendation_engine.py:292-302 | every trending asset is a trending row; with no video tags, all rows are kept as they are |
| Recommendation.TrendingAssetsKeepsRelevant | services/core/recommendation_engine.py:292-302 | with video tags, every relevant row is kept and, when any row is relevant, every kept row is relevant |
| Recommendation.TrendingAssetsFallback | services/core/recommendation_engine.py:292-302 | with video tags and no relevant row, the first three rows stand in |
| Recommendation.GetTrendingAssets | services/core/recommendation_engine.py:292-302 | the filtering loop returns the specified trending rows |
| Recommendation.TrendingPlacementCentred | services/core/recommendation_engine.py:392-413 | the trending placement runs from 20% to 80% of the duration |
| Recommendation.TrendingRecommendations | services/core/recommendation_engine.py:51-82 | at most `limit` items from the trending rows, confidence 0.8, personalisation 0.5, the trending placement |
| Recommendation.Jaccard | services/core/recommendation_engine.py:343-346 | the tag Jaccard index is in [0, 1] |
| Recommendation.Similarity | services/core/recommendation_engine.py:336-358 | 0.4 Jaccard + 0.3 category + 0.2 type + 0.1 artist lies in [0, 1] |
| Recommendation.OrderedAppend | services/core/recommendation_engine.py:375-390 | appending attributes of later rank keeps the fixed order |
| Recommendation.Keep | services/core/recommendation_engine.py:383 | keeps exactly the tags in both sets |
| Recommendation.CommonTags | services/core/recommendation_engine.py:383-384 | exactly the tags shared by both assets; non-empty iff they share one |
| Recommendation.MatchingAttributes | services/core/recommendation_engine.py:372-390 | same category, same format, shared themes (at most 2) and same artist, each present iff it holds |
| Recommendation.MatchingAttributesOrdered | services/core/recommendation_engine.py:375-390 | the attributes come in the fixed order category, format, themes, artist |
| Recommendation.ScoredAboveProperties | services/core/recommendation_engine.py:335-365 | keeps exactly the rows scoring above 0.3, with their scores |
| Recommendation.StyleSimilarScored | services/core/recommendation_engine.py:304-370 | at most `limit` assets, each scoring above 0.3 with its own similarity and shared attributes |
| Recommendation.StyleSimilarRanked | services/core/recommendation_engine.py:304-370 | most similar first, and no asset above the threshold left out scores higher than one returned |
| Recommendation.FindStyleSimilarAssets | services/core/recommendation_engine.py:304-370 | the scoring loop returns the specified style-similar list |
| Recommendation.StylePlacementsStagger | services/core/recommendation_engine.py:415-445 | each next placement starts 20% of the duration later, lasts 30%, sits one layer higher, and positions repeat every 4 |
| Recommendation.StylePlacementWithinVideo | services/core/recommendation_engine.py:439-440 | the first four placements lie within the video |
| Recommendation.StyleSimilarRecommendations | services/core/recommendation_engine.py:84-131 | [] without a reference asset; at most `limit` items with confidence in (0.3, 1], personalisation 0.6 and the staggered placement |
| Recommendation.BumpAllCounts | services/core/recommendation_engine.py:469-475 | each preference key ends with its old count plus its occurrences among the new keys |
| Recommendation.TagKeys | services/core/recommendation_engine.py:473-475 | one "tag_" key per tag |
| Recommendation.LearnProperties | services/core/recommendation_engine.py:447-486 | the pattern list keeps at most the 50 newest, ending with this interaction; preferences change only for 'apply' and 'approve', by the category and tag keys |
| Recommendation.RecommendationEngine.constructor | services/core/recommendation_engine.py:15-17 | no interactions and no learning profiles |
| Recommendation.RecommendationEngine.RecordRecommendationInteraction | services/core/recommendation_engine.py:133-153 | the interaction is appended to the user's log for the day and the user's learning profile is updated |
| Recommendation.RecommendationEngine.UpdateUserLearningProfile | services/core/recommendation_engine.py:447-486 | only the user's learning profile changes, to the learned profile |
| Recommendation.CountPreferences | services/core/recommendation_engine.py:469-475 | the loop adds the category and tag keys to the preference counts |
| Recommendation.CountTagPreferences | services/core/recommendation_engine.py:473-475 | the tag loop adds one to each "tag_" key |
| Rooms.Joined | services/core/websocket_service.py:22-25 | the user is in the room (created if missing); other rooms are untouched; no room becomes empty |
| Rooms.Left | services/core/websocket_service.py:48-53 | the user is removed and a room left empty is deleted; other rooms untouched; no stored room is ever empty |
| Rooms.LeaveUndoesJoin | services/core/websocket_service.py:19-57 | leaving right after joining a room one was not in restores the rooms |
| Rooms.Recipients | services/core/websocket_service.py:153-166 | the room's members minus the excluded user; nobody for a missing room; an empty exclusion excludes nobody |
| Rooms.JoinNotifiesOthers | services/core/websocket_service.py:33-43 | a join notifies exactly the members who were already in the room |
| Rooms.Logged | services/core/websocket_service.py:168-178 | the log grows by the message until 100 entries and then keeps the newest 100, ending with the message |
| Rooms.AddToActivity | services/core/websocket_service.py:168-178 | only this collaboration's log changes, and every log stays within 100 entries |
| Rooms.LogAllKeepsNewest | services/core/websocket_service.py:174-178 | after any number of messages the log is the last 100 of all messages, in insertion order |
| Rooms.LoggedAfterDrop | services/core/websocket_service.py:174-178 | logging one message onto the newest 100 of a history gives the newest 100 of the history with that message |
| Rooms.RecentActivity | services/core/websocket_service.py:141-145 | the last `limit` entries; limit 0 returns the whole log because of the [-0:] slice; negative limits follow Python slicing |
| Rooms.NewestIsRecent | services/core/websocket_service.py:141-178 | the most recent entry is the message just logged |
| Rooms.PresenceOf | services/core/websocket_service.py:130-137 | a presence entry carries the user's info, join and last-seen times |
| Rooms.ConnectionManager.constructor | services/core/websocket_service.py:11-17 | no rooms, connections or activity |
| Rooms.ConnectionManager.Broadcast | services/core/websocket_service.py:153-166 | the users sent to are the recipients of the room |
| Rooms.ConnectionManager.AddActivity | services/core/websocket_service.py:168-178 | the activity becomes the capped log with the message; rooms and connections unchanged |
| Rooms.ConnectionManager.JoinCollaboration | services/core/websocket_service.py:19-43 | the user joins the room, the connection entry is overwritten with this collaboration, and the others in the room are notified |
| Rooms.ConnectionManager.LeaveCollaboration | services/core/websocket_service.py:45-68 | the user leaves the room and loses the connection entry; the remaining members are notified only if the user was connected |
| Rooms.ConnectionManager.BroadcastOverlayUpdate | services/core/websocket_service.py:70-81 | sent to everyone else in the room and logged |
| Rooms.ConnectionManager.BroadcastCursorPosition | services/core/websocket_service.py:83-93 | sent to everyone else in the room, not logged |
| Rooms.ConnectionManager.BroadcastChatMessage | services/core/websocket_service.py:95-109 | sent to the whole room with the sender's info (or {}) and logged |
| Rooms.ConnectionManager.BroadcastRenderProgress | services/core/websocket_service.py:111-120 | sent to the whole room, not logged |
| Rooms.ConnectionManager.GetCollaborationUsers | services/core/websocket_service.py:122-139 | exactly the room members that have connection info, each once; [] for a missing room |
| Rooms.ConnectionManager.GetRecentActivity | services/core/websocket_service.py:141-145 | the recent slice of the collaboration's log |
| Rooms.ConnectionManager.UpdateUserPresence | services/core/websocket_service.py:147-151 | refreshes last_seen of a connected user; nothing else |
| Rooms.Dispatch | services/core/websocket_service.py:187-214 | each known message type selects its action; anything else is unknown |
| Rooms.HandleWebsocketMessage | services/core/websocket_service.py:184-214 | overlay and chat messages are logged, cursor updates not; ping only updates last_seen; unknown types change nothing and send nothing |
| Rooms.GetCollaborationPresence | services/core/websocket_service.py:217-225 | the connected room members and the last 20 activity entries |
| Rooms.NotifyRenderProgress | services/core/websocket_service.py:227-236 | the progress goes to the whole room |
| RenderCommand.Resolve | services/core/ffmpeg_service.py:145-156 | missing position and timing fields take the defaults 0, 0, scale 1 (100 pixels), start 0, end 30, no fades; present fields keep their stored int or float; the scaled size is the scale times 100 truncated |
| RenderCommand.OverlayParts | services/core/ffmpeg_service.py:158-180 | each overlay gives a scale filter on input i+1, a fade filter exactly when a fade is positive (fading out only when fadeOut > 0), and an overlay on the previous layer enabled between start and end, writing layer i; times may be ints or floats |
| RenderCommand.OverlayPartsValues | services/core/ffmpeg_service.py:158-177 | the filters carry the scaled size, the position, the start and fade-in, and a fade-out of fadeOut seconds from end - fadeOut, a float unless both are ints |
| RenderCommand.FractionalFadeFilter | services/core/ffmpeg_service.py:163-167 | 0.3-second fades on an overlay from 1.5 to 4.5 seconds fade in at "1.5" and out at "4.2" for "0.3" |
| RenderCommand.GraphWrites | services/core/ffmpeg_service.py:142-182 | every label is written once and the last part writes the last layer |
| RenderCommand.GraphReads | services/core/ffmpeg_service.py:142-182 | every stream a filter reads is an input or was written by an earlier filter |
| RenderCommand.GraphChained | services/core/ffmpeg_service.py:142-182 | the filter graph is well chained and ends in the last overlay's layer |
| RenderCommand.NoSeparator | services/core/ffmpeg_service.py:159-177 | no filter text contains ';' and each starts with '[' |
| RenderCommand.FilterComplexParts | services/core/ffmpeg_service.py:135-182 | the filter string is empty exactly when there are no overlays, and splitting it at ';' gives back the filters, for int and float times and positions alike |
| RenderCommand.AppendOverlayFilters | services/core/ffmpeg_service.py:145-180 | one turn of the loop appends exactly the overlay's filters on the current layer |
| RenderCommand.CollectFilters | services/core/ffmpeg_service.py:141-180 | the loop collects the graph's filters, fractional times, fades and positions included |
| RenderCommand.BuildFilterComplex | services/core/ffmpeg_service.py:135-182 | the method builds the filter string of the graph: "" without overlays, otherwise the filters joined with ';' |
| RenderCommand.Crf | services/core/ffmpeg_service.py:108-117 | CRF 18 for high or no quality, 23 for medium, 28 for anything else |
| RenderCommand.InputArgs | services/core/ffmpeg_service.py:98-99 | one -i pair per overlay file, in order |
| RenderCommand.OutputOptions | services/core/ffmpeg_service.py:106-128 | fourteen options: the CRF, libx264 medium preset, frame rate (30 by default), size (1920x1080 by default), AAC at 128k |
| RenderCommand.CommandLayout | services/core/ffmpeg_service.py:89-133 | ffmpeg -y -i video, the overlay inputs, the filter only when non-empty, the output options, and the output path last |
| RenderCommand.CommandHasFilterIffOverlays | services/core/ffmpeg_service.py:101-104 | -filter_complex appears exactly when there are overlays |
| RenderCommand.DefaultSettings | services/core/ffmpeg_service.py:106-109 | empty settings give CRF 18, 30 fps and 1920x1080 |
| RenderCommand.BuildFfmpegCommand | services/core/ffmpeg_service.py:89-133 | the method builds the specified command |
| RenderCommand.AssembleCommand | services/core/ffmpeg_service.py:92-131 | the loop appends the inputs, filter, options and output in the specified layout |
| RenderCommand.BuildOutputOptions | services/core/ffmpeg_service.py:106-128 | the method builds the specified output options |
| RenderCommand.AssetMap | services/core/ffmpeg_service.py:220 | every asset's id is a key, and each key maps to an asset with that id |
| RenderCommand.Collected | services/core/ffmpeg_service.py:222-235 | overlays without an asset are skipped; every kept entry comes from an overlay with its asset, and every such overlay is kept |
| RenderCommand.PreparedOverlaysProperties | services/core/ffmpeg_service.py:218-238 | the prepared list is sorted by layer order, a permutation of the kept entries, and stable within a layer |
| RenderCommand.PrepareOverlayData | services/core/ffmpeg_service.py:213-238 | the method prepares the specified sorted list |
| Collaborations.EffectiveSplit | services/core/collaboration_service.py:32-34 | a split in [0, 1] is kept; any other becomes the default 0.7 |
| Collaborations.StartOutcome | services/core/collaboration_service.py:11-45 | succeeds exactly when the video is available and the artist has no active collaboration on it; otherwise the matching error; a new collaboration is claimed by the artist with a split in [0, 1] and no notes, feedback or timestamps |
| Collaborations.StartTwiceRefused | services/core/collaboration_service.py:23-30 | starting a second collaboration on the same video is refused as already active |
| Collaborations.StartKeepsOneActive | services/core/collaboration_service.py:11-45 | starting keeps at most one active collaboration per artist and video |
| Collaborations.StatusRefusal | services/core/collaboration_service.py:112-140 | an unknown status is invalid; the update is allowed exactly when the collaboration exists and the user is the artist (not also the uploader) moving to in_progress or submitted, or the uploader (not also the artist) moving to approved or rejected |
| Collaborations.BothRolesCannotUpdate | services/core/collaboration_service.py:134-140 | a user who is both artist and uploader can set no status |
| Collaborations.OutsiderRefused | services/core/collaboration_service.py:127-132 | a user who is neither party is refused for lack of permission |
| Collaborations.StatusAssignments | services/core/collaboration_service.py:143-157 | the update always sets the status first |
| Collaborations.AssignedAppend | services/core/collaboration_service.py:143-162 | applying assignments one list after another equals applying them joined |
| Collaborations.StatusUpdateEffect | services/core/collaboration_service.py:143-170 | the status is set, notes and feedback only when given, submitted_at on submission, completed_at on approval or rejection; identity, video, artist and split are unchanged |
| Collaborations.ArtistMayReopen | services/core/collaboration_service.py:134-140 | the artist may move an approved or rejected collaboration back to in_progress, making it active again |
| Collaborations.BuildStatusUpdate | services/core/collaboration_service.py:143-157 | the method builds the specified assignment list |
| Collaborations.OverlayAssignments | services/core/collaboration_service.py:258-273 | no assignment exactly when nothing is given; at most three |
| Collaborations.OverlayAssignedAppend | services/core/collaboration_service.py:258-275 | applying assignments one list after another equals applying them joined |
| Collaborations.OverlayUpdateEffect | services/core/collaboration_service.py:258-283 | position, timing and layer change only when given; id, collaboration and asset are unchanged |
| Collaborations.BuildOverlayUpdate | services/core/collaboration_service.py:258-271 | the method builds the specified field list |
| Collaborations.CollaborationStore.constructor | services/core/collaboration_service.py:15-18 | the given videos and assets, no collaborations or overlays |
| Collaborations.CollaborationStore.PartiesOf | services/core/collaboration_service.py:117-125 | the join row exists exactly when the collaboration and its video exist |
| Collaborations.CollaborationStore.StartCollaboration | services/core/collaboration_service.py:11-45 | the result is the start outcome, and only a success stores the new collaboration |
| Collaborations.CollaborationStore.UpdateCollaborationStatus | services/core/collaboration_service.py:109-170 | a refusal changes nothing; otherwise the stored collaboration is replaced by the updated one, which is returned |
| Collaborations.CollaborationStore.AddOverlay | services/core/collaboration_service.py:173-204 | only the collaboration's artist may add an overlay, and only for an existing asset; success stores exactly the new overlay |
| Collaborations.CollaborationStore.OverlayOwner | services/core/collaboration_service.py:244-252 | the overlay's artist is known exactly when the overlay and its collaboration exist |
| Collaborations.CollaborationStore.UpdateOverlay | services/core/collaboration_service.py:240-283 | not found or not the owner changes nothing; the owner's update replaces the overlay with the updated one |
| Collaborations.CollaborationStore.DeleteOverlay | services/core/collaboration_service.py:286-309 | not found or not the owner changes nothing; the owner's delete removes exactly that overlay and returns true |
| Collaborations.CollaborationStore.GetCollaborationOverlays | services/core/collaboration_service.py:207-237 | a missing collaboration or an outsider is refused; the parties get exactly the collaboration's overlays |
| RenderJobs.EffectiveSettings | services/core/render_service.py:47-56 | the defaults 1920x1080, mp4, high, 30 fps, overridden key by key by the given settings, which may add keys |
| RenderJobs.MergeSettings | services/core/render_service.py:47-56 | the loop builds the specified settings |
| RenderJobs.QueueRefusal | services/core/render_service.py:19-45 | a render may be queued exactly when the collaboration is approved, the user is its artist or uploader, and no render is queued or processing; a collaboration not approved is refused first |
| RenderJobs.CancelRefusal | services/core/render_service.py:168-179 | a cancel is allowed exactly when the render exists, the user is a party and the render is queued or processing |
| RenderJobs.RetryRefusal | services/core/render_service.py:207-218 | a retry is allowed exactly when the render exists, the user is a party and the render failed |
| RenderJobs.NewRender | services/core/render_service.py:58-74 | a new render has the effective settings and progress 0; it is queued when enqueued, otherwise failed with the queueing error |
| RenderJobs.Retried | services/core/render_service.py:220-252 | a retried render keeps id, collaboration, settings and output path, resets progress and timestamps, and is queued or failed with the re-queue error |
| RenderJobs.NewRenderNextSteps | services/core/render_service.py:58-74 | a render queued successfully can be cancelled and not retried; one that failed to queue can be retried and not cancelled |
| RenderJobs.RetriedNextSteps | services/core/render_service.py:217-252 | the same after a retry |
| RenderJobs.Viewed | services/core/render_service.py:103-109 | only a completed render with a non-empty output path gets a presigned URL; nothing else changes |
| RenderJobs.BaseStatus | services/core/render_service.py:276-283 | the six status keys |
| RenderJobs.Overwritten | services/core/render_service.py:285-286 | each key takes the count of its last database row, or keeps its base value |
| RenderJobs.QueueStatusEntries | services/core/render_service.py:257-288 | queued, processing and stuck come from the queue (0 when absent), completed, failed and cancelled from the database rows (0 when absent) |
| RenderJobs.CountForAbsent | services/core/render_service.py:285-286 | a status without a row keeps its fallback |
| RenderJobs.GetRenderQueueStatus | services/core/render_service.py:257-288 | the loop builds the specified status map |
| RenderJobs.RenderStore.constructor | services/core/render_service.py:19-26 | the given collaborations and uploaders, no renders |
| RenderJobs.RenderStore.ApprovedParties | services/core/render_service.py:19-29 | the parties are known exactly when the collaboration exists, is approved and has a video |
| RenderJobs.RenderStore.RenderParties | services/core/render_service.py:82-94 | the parties are known only for a stored render |
| RenderJobs.RenderStore.QueueRender | services/core/render_service.py:15-76 | a refusal changes nothing; otherwise the new render is stored and returned, or stored as failed with a runtime error |
| RenderJobs.RenderStore.CancelRender | services/core/render_service.py:154-190 | a refusal changes nothing; otherwise the render becomes cancelled and the result is true |
| RenderJobs.RenderStore.RetryRender | services/core/render_service.py:193-254 | a refusal changes nothing; otherwise the render is reset and returned, or marked failed again with a runtime error |
| RenderJobs.RenderStore.GetRenderStatus | services/core/render_service.py:79-109 | none for an unknown render, a refusal for an outsider, otherwise the viewed render |
| RenderJobs.QueueTwiceRefused | services/core/render_service.py:38-45 | once a render is queued, queueing another for the same collaboration is refused as already rendering |
| GifSearch.NoKeyNoResults | services/core/gif_service.py:19-157 | without a Tenor key every Tenor call returns nothing (and a share is not registered); without a Giphy key Giphy returns nothing; without both an "all" search is empty |
| GifSearch.TenorLimit | services/core/gif_service.py:197 | a Tenor-only search asks for the limit; a mixed search asks for max(limit // 2, limit - 10), between half the limit and the limit |
| GifSearch.SearchGifs | services/core/gif_service.py:191-207 | never more than the limit; an unknown source gives nothing; a single source gives its results cut to the limit |
| GifSearch.SearchAllPrefersTenor | services/core/gif_service.py:193-207 | a mixed search lists the Tenor results first and asks Giphy only for what is still missing |
| GifSearch.OverlayQuery | services/core/gif_service.py:215 | a non-empty category is prefixed to the query with a space |
| GifSearch.OverlaySearchUsesTenorOnly | services/core/gif_service.py:212-218 | the overlay search does not depend on Giphy and returns Tenor's results for the prefixed query |
| GifSearch.IdsOfSnoc | services/core/gif_service.py:256-263 | appending a GIF adds its id to the seen ids |
| GifSearch.UniqueById | services/core/gif_service.py:256-261 | no two results share an id, every id is kept, and results come from the input |
| GifSearch.UniquePrefix | services/core/gif_service.py:256-261 | deduplicating a prefix gives a prefix of the deduplicated list |
| GifSearch.UniqueKeepsFirst | services/core/gif_service.py:256-261 | the first GIF with a given id is kept |
| GifSearch.MergeStep | services/core/gif_service.py:259-261 | a GIF with an unseen id is appended and its id becomes seen; a GIF with a seen id changes nothing |
| GifSearch.MergedFromPrefix | services/core/gif_service.py:258-265 | once 20 GIFs are kept, or every result was seen, the merge of the results read so far is the whole merge |
| GifSearch.Merged | services/core/gif_service.py:256-265 | at most 20 distinct-id results drawn from the input, covering every id when fewer than 20 |
| GifSearch.MergeUnique | services/core/gif_service.py:256-265 | the loop, which stops once 20 GIFs are kept, computes the specified merge |
| GifSearch.SmartQueries | services/core/gif_service.py:228-245 | between one and four queries |
| GifSearch.SmartQueriesOrder | services/core/gif_service.py:222-245 | activity and mood first, then the scene overlay, then the first two tags; the three fallback queries when none apply; an empty analysis gives "general neutral" and "general overlay" |
| GifSearch.ResultsPerQuery | services/core/gif_service.py:249 | at least one result per query |
| GifSearch.SharesFitFifteen | services/core/gif_service.py:249 | for one to four queries the shares add up to at most 15 |
| GifSearch.QueryResults | services/core/gif_service.py:251-253 | at most the share per query |
| GifSearch.MultiplyStep | services/core/gif_service.py:249-253 | one more query adds one more share to the bound |
| GifSearch.SmartGifOverlaysBound | services/core/gif_service.py:220-265 | at most 15 results with distinct ids, so the cap of 20 is never reached |
| GifSearch.BuildSmartQueries | services/core/gif_service.py:228-245 | the loop builds the specified queries |
| GifSearch.GetSmartGifOverlays | services/core/gif_service.py:220-265 | the method computes the specified overlays |
| StockFootage.FirstHd | services/core/pexels_service.py:44 | the index of the first HD file, or the length when there is none |
| StockFootage.ChosenFile | services/core/pexels_service.py:44-100 | the first HD file when there is one, otherwise the first file |
| StockFootage.ToFootage | services/core/pexels_service.py:46-115 | the entry keeps the video's id, links the chosen file, names the photographer ("Unknown" when absent), is from pexels, and carries tags only in the curated list |
| StockFootage.Converted | services/core/pexels_service.py:37-59 | no more entries than videos |
| StockFootage.ConvertedSkipsEmpty | services/core/pexels_service.py:37-59 | videos without files give no entry: a list of such videos converts to nothing |
| StockFootage.ConvertedKeepsAll | services/core/pexels_service.py:37-59 | when every video has files, each becomes its own entry, in order, one per video |
| StockFootage.SearchEnvironmentalVideos | services/core/pexels_service.py:14-65 | the loop computes the specified search result: nothing without an API key |
| StockFootage.JoinContainsPart | services/core/pexels_service.py:97 | every tag is a substring of the joined tags |
| StockFootage.LowerContains | services/core/pexels_service.py:97 | lower-casing keeps a substring a substring |
| StockFootage.KeywordTagIsEnvironmental | services/core/pexels_service.py:88-97 | a video with a tag that is an environmental keyword (any case) counts as environmental |
| StockFootage.CuratedScan | services/core/pexels_service.py:90-119 | at most one entry per video and at most max(limit, 1) entries; a scan that did not stop has fewer than max(limit, 1) |
| StockFootage.CuratedStopped | services/core/pexels_service.py:118-119 | once the scan stops, later videos change nothing |
| StockFootage.CuratedKeepsEnvironmental | services/core/pexels_service.py:95-116 | if the scan never stopped, every environmental video with files is in the result |
| StockFootage.CuratedEnvironmental | services/core/pexels_service.py:67-125 | at most the limit for a positive limit, at most one otherwise |
| StockFootage.CuratedLimitZero | services/core/pexels_service.py:99-119 | with limit 0 an environmental video is still returned before the break |
| StockFootage.GetCuratedEnvironmentalVideos | services/core/pexels_service.py:67-125 | the loop with its early break computes the specified list |
| StockFootage.EnvironmentalCategories | services/core/pexels_service.py:127-160 | six predefined categories |
| StockFootage.CategoryInitials | services/core/pexels_service.py:131-156 | the categories are Urban, Nature, Beaches, Forests, Public and Suburban, in that order |
| StockFootage.CategoryNamesDistinct | services/core/pexels_service.py:131-156 | no two category names are equal ignoring case |
| StockFootage.FindCategory | services/core/pexels_service.py:170 | the first category whose name equals the given one ignoring case, or the length when none does |
| StockFootage.InspirationInLookup | services/core/pexels_service.py:165-175 | a matching category searches its query; no match falls back to the curated list |
| StockFootage.InspirationLookup | services/core/pexels_service.py:165-175 | for the six predefined categories: each name, in any case, searches its own query, and an unknown name gives the curated list |
| Health.CheckDatabase | services/core/health.py:15-39 | down exactly when the pool is missing or the query fails; up exactly when connected |
| Health.CheckRedis | services/core/health.py:41-59 | down exactly when the stats call fails; up otherwise, with queued and processing counts defaulting to 0 |
| Health.ContractStatuses | services/core/health.py:70-73 | one entry per contract: configured exactly when its address is set and non-empty, missing otherwise |
| Health.CheckFlowServiceAsWritten | services/core/health.py:61-80 | a service without an access node makes the check fail with "error"; otherwise configured exactly when some contract address is set |
| Health.CheckFlowService | services/core/health.py:61-74 | configured exactly when some contract address is set, unconfigured otherwise, listing every contract and the access node |
| Health.OverallStatus | services/core/health.py:105-111 | unhealthy exactly when the database or Redis is down; otherwise degraded exactly when Flow is unconfigured; otherwise healthy |
| Health.FlowErrorIsHealthy | services/core/health.py:105-111 | a Flow check that failed still counts as healthy |
| Health.FullHealthStatus | services/core/health.py:97-122 | unhealthy exactly when the database or Redis check fails; degraded exactly when both are up and no contract address is set (corrected; see Findings) |
| Health.DegradedUnreachableAsWritten | services/core/health.py:61-80 | with the repository's Flow service the check always fails, so the status is never degraded |
| Health.DegradedReachable | services/core/health.py:97-122 | with the corrected check the repository's Flow service makes a running system degraded |
| Numbers.Trunc | services/core/ffmpeg_service.py:159 | Python's int() on a float: truncation toward zero, within one of the value |
| Numbers.FloatMod | services/core/ai_analysis_service.py:872 | Python's float %: the remainder takes the divisor's sign and stays below it in magnitude |
| JsonNumbers.Positive | services/core/ffmpeg_service.py:163-165 | Python's `x > 0` on an int or float holds exactly when its value is positive |
| JsonNumbers.Sub | services/core/ffmpeg_service.py:165 | Python's `a - b`: an int exactly when both are, worth the difference of the values |
| JsonNumbers.ReadStr | services/core/ffmpeg_service.py:159-177 | `float(str(x)) == x`: the text an int or a float is printed with reads back as its value |
| JsonNumbers.StrIgnoresTrailingZeros | services/core/ffmpeg_service.py:159-177 | a float prints the same however many trailing zero places it was written with |
| JsonNumbers.StrCharacters | services/core/ffmpeg_service.py:159-177 | a printed number holds only digits, a leading minus sign and the point |
| JsonNumbers.StrOfTenths | services/core/ffmpeg_service.py:164-166 | a float with one non-zero decimal place prints as "w.t" |
| JsonNumbers.StrOfFivePointZero | services/core/ffmpeg_service.py:164-166 | `str(5.0)` is "5.0" |
| JsonNumbers.StrOfDifference | services/core/ffmpeg_service.py:165 | `str(5 - 0.3)` is "4.7" |
| Text.Lower | services/core/pexels_service.py:97 | lower-casing keeps the length and maps each character on its own |
| Text.StripUnicodePadding | services/core/recommendation_engine.py:185 | `str.strip()` removes Unicode white space such as the no-break space and the ideographic space |
| Text.LowerStripTrimmed | services/core/recommendation_engine.py:185 | a stripped, lower-cased string has no white space at either end |
| Text.JoinSplit | services/core/ffmpeg_service.py:182 | joining the pieces of a split at the same separator gives back the string |
| Text.SplitJoin | services/core/ffmpeg_service.py:182 | splitting a join of separator-free pieces gives back the pieces |

## Left out

- Threads, the thread-pool executor, the lock, the singletons and the cleanup thread of the processing queue. Every method is one atomic step.
- Handing a popped job to a worker and the worker starting on it are one step (`TakeNextJob`). The window in which a job cancelled between those two moments is still processed is not modelled.
- PoseQueue.PopNext: states that the job with the smallest priority value leaves first, but not which of several equal-priority jobs leaves first (heap tie order).
- uuid4 job, collaboration, overlay and render identifiers are a counter or an identifier parameter.
- `datetime.now()` is an integer clock parameter.
- The cleanup cutoff `now.replace(hour=now.hour - max_age_hours)` is taken as a parameter. As written it raises whenever the hour is below the age.
- The SHA-256 digest of the sorted-key JSON text of a sequence is an abstract deterministic function, `digest`, given to the cache manager.
- The cache's SQL text, JSONB encoding and connection handling are left out: each table is a map keyed by its unique key, and `storeUp` says whether the database answers.
- `math.sqrt`, `numpy.dot` and `numpy.linalg.norm` are a square-root parameter and exact real arithmetic. Floating-point rounding is not modelled.
- `round(x, d)` rounds halves up in the model, whereas Python rounds halves to even. It is used only for reported figures.
- The MediaPipe extractor, OpenCV frame extraction, the LLM call and its JSON scraping, and the SQL in the video analyser are left out.
- The methods nested after the `return` of the reasoning function in the video analyser are dead code and are left out.
- Tie-breaking of `max(set(...))` in the video analysis synthesis depends on set order and is left out.
- VideoAnalysis.GenerateContentTags: returns the tags as a set, because `list(set(...))` has no specified order.
- Recommendation.CommonTags: the shared themes come in the reference asset's tag order, because `list(set(...))[:2]` has no specified order.
- Rooms.ConnectionManager.GetCollaborationUsers: states which users are listed, each once, but not their order, which follows set iteration.
- Sending over websockets is modelled as the set of users a message goes to. Send failures and disconnects during a broadcast are not modelled.
- Collaborations.CollaborationStore.GetCollaborationOverlays: returns the collaboration's overlays as a set, not the list ordered by `layer_order`.
- Read-only collaboration queries (`get_my_collaborations`, `get_collaborations_for_my_videos`, `get_collaboration`) and `get_collaboration_renders` are left out. They are single queries with an access test the modelled operations already state.
- SQL UPDATE statements are modelled as lists of column assignments applied to the stored row.
- The Redis render queue is left out: whether enqueueing succeeds is a parameter, and so is the queue statistics map.
- `FFmpegRenderer.render_collaboration` and `get_video_info` are left out, because they download files and run subprocesses.
- The JSON field extraction of the Tenor, Giphy and Pexels responses is left out: what a provider answers for a query and a limit is a function parameter, and a failed request answers nothing.
- `HealthCheck.get_system_metrics` (psutil) and the report timestamp are left out.
- Health.CheckDatabase: the pool size is an opaque string, because the `pool_size` expression depends on the pool library's internals.
- `str.lower()` folds ASCII letters only.
- Strings are sequences of characters, with no encoding.
- JsonNumbers.Sub: gives the exact decimal difference. Binary floating point can print a neighbouring value instead, as for `0.3 - 0.1`.
- JsonNumbers.Str: prints floats in positional form only. Python switches to exponent notation below 1e-4 and from 1e16, which the overlay times and positions the repository generates do not reach.
- The repository's table layer (`services/core/table.py`) is a placeholder: `ColumnDetails` takes no arguments and `Table` has no `sql` or `sync`, so the record modules cannot build their columns and the `.sql(...)` calls cannot run as written. Each query is given the meaning of its SQL text, as the repository's tests assume when they stand in for `sql`.
- A JSON field present with the value null (the analysis fields of a GIF result, `quality` in the render settings) is modelled as a missing key, so it takes the default. Python's `.get(key, default)` returns None for it instead.

## Findings

| source | as written | input that shows it | evidently intended | confidence | as-written member | corrected member |
|---|---|---|---|---|---|---|
| services/core/pose_cache.py:244-280 | the match upsert conflicts on the ordered hash pair, while the lookup accepts either order and takes the newest row | cache (a, b) with 0.9 at time 1, (b, a) with 0.2 at time 2, (a, b) with 0.7 at time 3; both lookups return 0.2, not 0.7 | one row per unordered pair, so the latest score is returned | high (proved; not executed) | PoseCache.StaleMatchAsWritten | PoseCache.UpsertMatchThenLookup |
| services/core/health.py:61-80 | the Flow check reads `flow_service.access_node`, which the Flow service never defines, so the check always reports "error" and the overall status can never be "degraded" | any call of `get_full_health_status` with the repository's Flow service | the access node is reported when present, and unconfigured contracts make the status "degraded" | high (proved; not executed) | Health.DegradedUnreachableAsWritten | Health.DegradedReachable |
