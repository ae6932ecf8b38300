// The deterministic helpers of the video analyser (`VideoAnalyzer` and the
// module functions beside it in services/core/ai_analysis_service.py): pose
// confidence, movement and stability classification, bounding boxes and safe
// overlay zones, content tags, the overlay suggestion tables, and the
// placement, confidence and reasoning given to each recommended asset.
// Python's `//` on ints floors; Dafny's `/` agrees for the positive divisors
// used here.
module VideoAnalysis {
  import opened Wrappers
  import opened Numbers
  import opened Text
  import opened Lists
  import PoseVision

  // ------------------------------------------------- pose-derived signals

  /** `_calculate_pose_confidence`: the mean visibility of a frame of at least seven landmarks. */
  function PoseConfidence(landmarks: seq<real>): (c: real)
    ensures |landmarks| < 28 ==> c == 0.0
  {
    if |landmarks| < 28 then 0.0 else Mean(PoseVision.Visibilities(landmarks))
  }

  /** The analyser and the cache agree on the confidence of a single full frame. */
  lemma PoseConfidenceMatchesCache(landmarks: seq<real>)
    requires |landmarks| >= 28
    ensures PoseConfidence(landmarks) == Mean(PoseVision.AllVisibilities([landmarks]))
  {
    assert [landmarks][..0] == [];
    var v := PoseVision.Visibilities(landmarks);
    assert PoseVision.AllVisibilities([landmarks]) == PoseVision.AllVisibilities([]) + v;
    assert [] + v == v;
  }

  /** With visibilities in [0, 1], so is the confidence. */
  lemma PoseConfidenceBounds(landmarks: seq<real>)
    requires forall k :: 0 <= k < |landmarks| && k % 4 == 3 ==> 0.0 <= landmarks[k] <= 1.0
    ensures 0.0 <= PoseConfidence(landmarks) <= 1.0
  {
    if |landmarks| >= 28 {
      var v := PoseVision.Visibilities(landmarks);
      PoseVision.VisibilitiesAt(landmarks);
      forall k | 0 <= k < |v|
        ensures 0.0 <= v[k] <= 1.0
      {
        assert v[k] == landmarks[4 * k + 3];
        assert (4 * k + 3) % 4 == 3;
      }
      MeanBounds(v, 0.0, 1.0);
    }
  }

  /** Sum of |v| over the arm values at indices 6..13. */
  function LimbSpread(pose: seq<real>): real
    requires |pose| >= 14
  {
    SumAbs(pose[6..14])
  }

  function SumAbs(s: seq<real>): (r: real)
    ensures r >= 0.0
  {
    if |s| == 0 then 0.0 else SumAbs(s[..|s| - 1]) + Abs(s[|s| - 1])
  }

  /** `_classify_pose_movement`. */
  function ClassifyPoseMovement(pose: seq<real>): (r: string)
    ensures r == "unknown" <==> |pose| < 22
    ensures r == "high_activity" <==> |pose| >= 22 && LimbSpread(pose) > 3.0
    ensures r == "low_activity" <==> |pose| >= 22 && LimbSpread(pose) <= 1.5
  {
    if |pose| < 22 then "unknown"
    else
      var spread := LimbSpread(pose);
      if spread > 3.0 then "high_activity"
      else if spread > 1.5 then "moderate_activity"
      else "low_activity"
  }

  /** Every frame that normalises is classified by its limb spread, never "unknown". */
  lemma NormalizedFrameIsClassified(frame: seq<real>, sqrt: real -> real)
    requires |frame| >= 26
    ensures ClassifyPoseMovement(PoseVision.NormalizeFrame(PoseVision.Coordinates(frame), sqrt)) != "unknown"
  {
    PoseVision.ValidFrameLength(frame, sqrt);
  }

  /** `_identify_stable_body_regions`: "torso" then "head_area", each when its test holds. */
  function StableBodyRegions(pose: seq<real>): (r: seq<string>)
    ensures |pose| < 22 ==> r == []
    ensures "torso" in r <==> |pose| >= 22 && Abs(pose[2] - pose[4]) < 0.5
    ensures "head_area" in r <==> |pose| >= 22 && Abs(pose[1]) < 0.3
    ensures |r| == 2 ==> r == ["torso", "head_area"]
  {
    if |pose| < 22 then []
    else
      (if Abs(pose[2] - pose[4]) < 0.5 then ["torso"] else [])
      + (if Abs(pose[1]) < 0.3 then ["head_area"] else [])
  }

  // ------------------------------------------------------ bounding boxes

  datatype Box = Box(x: int, y: int, w: int, h: int)

  /** The box is non-empty and lies inside a `width` x `height` frame. */
  predicate InsideFrame(b: Box, width: int, height: int)
  {
    0 <= b.x <= width - 1 && 0 <= b.y <= height - 1
    && 1 <= b.w <= width - b.x && 1 <= b.h <= height - b.y
  }

  /** The x (start 0) or y (start 1) values of the eleven normalised points. */
  function Axis(pose: seq<real>, start: nat): (r: seq<real>)
    requires |pose| >= 22 && start <= 1
    ensures |r| == 11 && forall k :: 0 <= k < 11 ==> r[k] == pose[start + 2 * k]
  {
    seq(11, k requires 0 <= k < 11 => pose[start + 2 * k])
  }

  /** `_estimate_person_bbox_from_pose`. */
  function EstimatePersonBbox(pose: seq<real>, width: int, height: int): (b: Box)
    ensures |pose| < 22 ==> b == Box(width / 4, height / 4, width / 2, height / 2)
    ensures |pose| >= 22 && width >= 1 && height >= 1 ==> InsideFrame(b, width, height)
    ensures |pose| < 22 && width >= 2 && height >= 2 ==> InsideFrame(b, width, height)
  {
    if |pose| < 22 then Box(width / 4, height / 4, width / 2, height / 2)
    else
      var minX, maxX := MinOf(Axis(pose, 0)), MaxOf(Axis(pose, 0));
      var minY, maxY := MinOf(Axis(pose, 1)), MaxOf(Axis(pose, 1));
      var padding := 0.1;
      var x := MaxInt(0, MinInt(Trunc((minX - padding) * width as real), width - 1));
      var y := MaxInt(0, MinInt(Trunc((minY - padding) * height as real), height - 1));
      var w := MaxInt(1, MinInt(Trunc((maxX - minX + 2.0 * padding) * width as real), width - x));
      var h := MaxInt(1, MinInt(Trunc((maxY - minY + 2.0 * padding) * height as real), height - y));
      Box(x, y, w, h)
  }

  // --------------------------------------------------------- motion level

  /** The fields of the pose analysis the zone helpers read; `None` is an empty dictionary. */
  datatype PoseSummary = PoseSummary(movementType: Option<string>, stableRegions: seq<string>)

  /** `_calculate_motion_level`. */
  function MotionLevel(poseAnalysis: Option<PoseSummary>): (level: real)
    ensures poseAnalysis.None? ==> level == 0.3
    ensures level == 0.9 <==> poseAnalysis.Some? && poseAnalysis.value.movementType == Some("high_activity")
    ensures level == 0.6 <==> poseAnalysis.Some? && poseAnalysis.value.movementType == Some("moderate_activity")
  {
    match poseAnalysis
    case None => 0.3
    case Some(summary) =>
      var movementType := summary.movementType.GetOr("unknown");
      if movementType == "high_activity" then 0.9
      else if movementType == "moderate_activity" then 0.6
      else if movementType == "low_activity" then 0.3
      else 0.4
  }

  /** `_motion_level_from_movement`. */
  function MotionLevelFromMovement(movementType: string): (level: string)
    ensures level == "high" <==> movementType == "high_activity"
    ensures level == "low" <==> movementType == "low_activity"
  {
    if movementType == "high_activity" then "high"
    else if movementType == "moderate_activity" then "medium"
    else if movementType == "low_activity" then "low"
    else "medium"
  }

  /** The numeric and the named motion levels order movement types the same way. */
  lemma MotionLevelsAgree(movementType: string)
    ensures var numeric := MotionLevel(Some(PoseSummary(Some(movementType), [])));
      (MotionLevelFromMovement(movementType) == "high" <==> numeric > 0.6)
      && (MotionLevelFromMovement(movementType) == "low" <==> numeric < 0.4)
  {
  }

  // ---------------------------------------------------------- safe zones

  datatype Zone = Zone(region: string, bbox: Box, confidence: real)

  /** `_calculate_safe_overlay_zones`: one zone per stable region, torso side first. */
  function SafeOverlayZones(poseAnalysis: Option<PoseSummary>, width: int, height: int): (zones: seq<Zone>)
    ensures poseAnalysis.None? ==> zones == []
    ensures |zones| <= 2
    ensures forall z :: z in zones ==> z.region in {"torso_side", "upper_corner"}
    ensures (exists z :: z in zones && z.region == "torso_side")
            <==> poseAnalysis.Some? && "torso" in poseAnalysis.value.stableRegions
    ensures (exists z :: z in zones && z.region == "upper_corner")
            <==> poseAnalysis.Some? && "head_area" in poseAnalysis.value.stableRegions
  {
    match poseAnalysis
    case None => []
    case Some(summary) =>
      var w, h := width as real, height as real;
      var torso := Zone("torso_side", Box(Trunc(w * 0.7), Trunc(h * 0.3), Trunc(w * 0.25), Trunc(h * 0.4)), 0.8);
      var head := Zone("upper_corner", Box(Trunc(w * 0.75), Trunc(h * 0.1), Trunc(w * 0.2), Trunc(h * 0.2)), 0.7);
      var zones := (if "torso" in summary.stableRegions then [torso] else [])
                   + (if "head_area" in summary.stableRegions then [head] else []);
      assert forall z :: z in zones ==> z == torso || z == head;
      zones
  }

  /** The zones of a frame's own stable regions: torso side before upper corner. */
  lemma ZonesFollowStableRegions(pose: seq<real>, width: int, height: int)
    requires |pose| >= 22 && Abs(pose[2] - pose[4]) < 0.5 && Abs(pose[1]) < 0.3
    ensures var zones := SafeOverlayZones(Some(PoseSummary(None, StableBodyRegions(pose))), width, height);
      |zones| == 2 && zones[0].region == "torso_side" && zones[1].region == "upper_corner"
  {
  }

  datatype ZoneLayout = ZoneLayout(safeAreas: seq<Box>, avoidAreas: seq<Box>)

  const DefaultLayout := ZoneLayout([Box(50, 50, 200, 100), Box(400, 300, 150, 80)], [Box(200, 150, 240, 180)])

  /** The first seven landmarks' x (offset 0) or y (offset 1), in pixels. */
  function Landmarks(landmarks: seq<real>, offset: nat, size: int): (r: seq<real>)
    requires |landmarks| >= 28 && offset <= 1
    ensures |r| == 7 && forall k :: 0 <= k < 7 ==> r[k] == landmarks[4 * k + offset] * size as real
  {
    seq(7, k requires 0 <= k < 7 => landmarks[4 * k + offset] * size as real)
  }

  /** `_calculate_safe_overlay_zones_from_pose`. */
  function SafeOverlayZonesFromPose(landmarks: seq<real>, width: int, height: int): (layout: ZoneLayout)
    ensures |landmarks| < 28 ==> layout == DefaultLayout
    ensures |landmarks| >= 28 ==>
      var minX, maxX := MinOf(Landmarks(landmarks, 0, width)), MaxOf(Landmarks(landmarks, 0, width));
      var minY, maxY := MinOf(Landmarks(landmarks, 1, height)), MaxOf(Landmarks(landmarks, 1, height));
      |layout.avoidAreas| == 1
      && layout.avoidAreas[0].x >= 0 && layout.avoidAreas[0].y >= 0
      && layout.avoidAreas[0].w <= width && layout.avoidAreas[0].h <= height
      && |layout.safeAreas| <= 3
      // every safe area stays clear of the landmarks' extent
      && (forall a :: a in layout.safeAreas ==>
            (a.y == 0 && a.h as real < minY) || a.x as real > maxX || a.y as real > maxY)
  {
    if |landmarks| < 28 then DefaultLayout
    else
      var xs, ys := Landmarks(landmarks, 0, width), Landmarks(landmarks, 1, height);
      var minX, maxX := MinOf(xs), MaxOf(xs);
      var minY, maxY := MinOf(ys), MaxOf(ys);
      var padding := 50.0;
      var avoid := Box(MaxInt(0, Trunc(minX - padding)), MaxInt(0, Trunc(minY - padding)),
                       MinInt(width, Trunc(maxX - minX + 2.0 * padding)),
                       MinInt(height, Trunc(maxY - minY + 2.0 * padding)));
      var top := Box(0, 0, width, Trunc(minY - 20.0));
      var right := Box(Trunc(maxX + 20.0), 0, width - Trunc(maxX + 20.0), height);
      var bottom := Box(0, Trunc(maxY + 20.0), width, height - Trunc(maxY + 20.0));
      var safe := (if minY > 100.0 then [top] else [])
                  + (if width as real - maxX > 100.0 then [right] else [])
                  + (if height as real - maxY > 100.0 then [bottom] else []);
      assert forall a :: a in safe ==> (a == top && minY > 100.0) || a == right || a == bottom;
      ZoneLayout(safe, [avoid])
  }

  // --------------------------------------------------------- content tags

  /** `tag_expansions` in `_generate_content_tags`. */
  const TagExpansions: map<string, seq<string>> := map[
    "outdoor" := ["nature", "adventure", "travel"],
    "indoor" := ["cozy", "intimate", "personal"],
    "dancing" := ["music", "rhythm", "movement", "celebration"],
    "cooking" := ["food", "kitchen", "recipe", "lifestyle"],
    "energetic" := ["dynamic", "upbeat", "vibrant"],
    "calm" := ["peaceful", "serene", "relaxing"],
    "celebration" := ["party", "joy", "festive"]
  ]

  /** How deep a tag's expansions go: "dancing" reaches "celebration", which reaches leaves. */
  function Rank(tag: string): nat
  {
    if tag == "dancing" then 2 else if tag in TagExpansions then 1 else 0
  }

  function Expansion(tag: string): (r: seq<string>)
    ensures forall e :: e in r ==> Rank(e) < Rank(tag)
  {
    if tag in TagExpansions then TagExpansions[tag] else []
  }

  /** Every tag reachable from `tag` through the expansion table, `tag` included. */
  function Expand(tag: string): set<string>
    decreases Rank(tag)
  {
    {tag} + (set e, x | e in Expansion(tag) && x in Expand(e) :: x)
  }

  /** The union of `Expand` over a list of tags. */
  function ExpandList(tags: seq<string>): set<string>
  {
    if |tags| == 0 then {} else Expand(tags[0]) + ExpandList(tags[1..])
  }

  /** What `_generate_content_tags` returns, as a set: its list has no repeats and no fixed order. */
  function ContentTags(sceneType: string, activity: string, mood: string): set<string>
  {
    ExpandList([sceneType, activity, mood])
  }

  lemma {:induction false} ExpandListMembers(tags: seq<string>, x: string)
    ensures x in ExpandList(tags) <==> exists k :: 0 <= k < |tags| && x in Expand(tags[k])
  {
    if |tags| > 0 {
      ExpandListMembers(tags[1..], x);
      if x in ExpandList(tags[1..]) {
        var k :| 0 <= k < |tags[1..]| && x in Expand(tags[1..][k]);
        assert x in Expand(tags[k + 1]);
      }
      forall k | 1 <= k < |tags| && x in Expand(tags[k])
        ensures x in ExpandList(tags[1..])
      {
        assert tags[1..][k - 1] == tags[k];
      }
    }
  }

  lemma ExpandListAppend(a: seq<string>, b: seq<string>)
    ensures ExpandList(a + b) == ExpandList(a) + ExpandList(b)
  {
    forall x
      ensures x in ExpandList(a + b) <==> x in ExpandList(a) + ExpandList(b)
    {
      ExpandListMembers(a + b, x);
      ExpandListMembers(a, x);
      ExpandListMembers(b, x);
      if exists k :: 0 <= k < |b| && x in Expand(b[k]) {
        var k :| 0 <= k < |b| && x in Expand(b[k]);
        assert (a + b)[|a| + k] == b[k];
      }
      if exists k :: 0 <= k < |a| && x in Expand(a[k]) {
        var k :| 0 <= k < |a| && x in Expand(a[k]);
        assert (a + b)[k] == a[k];
      }
    }
  }

  /** A tag expands to itself plus everything its direct expansions reach. */
  lemma ExpandUnfold(tag: string)
    ensures Expand(tag) == {tag} + ExpandList(Expansion(tag))
  {
    var es := Expansion(tag);
    forall x
      ensures x in Expand(tag) <==> x in {tag} + ExpandList(es)
    {
      ExpandListMembers(es, x);
      if x in ExpandList(es) {
        var k :| 0 <= k < |es| && x in Expand(es[k]);
        assert es[k] in es;
      }
    }
  }

  lemma ListedTagsExpand(tags: seq<string>)
    ensures forall k :: 0 <= k < |tags| ==> tags[k] in ExpandList(tags)
  {
    forall k | 0 <= k < |tags|
      ensures tags[k] in ExpandList(tags)
    {
      ExpandListMembers(tags, tags[k]);
    }
  }

  /** The loop's measure: the tags still to visit, each weighted by the tags it will add. */
  function Weight(tag: string): nat
  {
    if tag == "dancing" then 8 else 1 + |Expansion(tag)|
  }

  function WeightSum(tags: seq<string>): nat
  {
    if |tags| == 0 then 0 else Weight(tags[0]) + WeightSum(tags[1..])
  }

  lemma {:induction false} WeightSumAppend(a: seq<string>, b: seq<string>)
    ensures WeightSum(a + b) == WeightSum(a) + WeightSum(b)
  {
    if |a| > 0 {
      assert (a + b)[1..] == a[1..] + b;
      WeightSumAppend(a[1..], b);
    } else {
      assert a + b == b;
    }
  }

  /** Visiting a tag adds exactly one less weight than it takes away. */
  lemma {:induction false} WeightSumOfLeaves(tags: seq<string>)
    requires forall k :: 0 <= k < |tags| ==> Weight(tags[k]) == 1
    ensures WeightSum(tags) == |tags|
  {
    if |tags| > 0 {
      assert Weight(tags[0]) == 1;
      WeightSumOfLeaves(tags[1..]);
    }
  }

  lemma WeightOfDancing()
    ensures WeightSum(Expansion("dancing")) == 7
  {
    assert Expansion("dancing") == ["music", "rhythm", "movement"] + ["celebration"];
    WeightSumAppend(["music", "rhythm", "movement"], ["celebration"]);
    WeightSumOfLeaves(["music", "rhythm", "movement"]);
    assert Weight("celebration") == 4;
  }

  lemma WeightOfExpansion(tag: string)
    ensures WeightSum(Expansion(tag)) == Weight(tag) - 1
  {
    var es := Expansion(tag);
    if tag == "dancing" {
      WeightOfDancing();
    } else {
      forall k | 0 <= k < |es|
        ensures Weight(es[k]) == 1
      {
        assert es[k] in es;
      }
      WeightSumOfLeaves(es);
    }
  }

  /**
   * `_generate_content_tags`: the loop visits the tags it appends as well,
   * so the expansion is transitive; the result is the set of all tags seen.
   */
  method GenerateContentTags(sceneType: string, activity: string, mood: string) returns (tags: set<string>)
    ensures tags == ContentTags(sceneType, activity, mood)
  {
    var list := [sceneType, activity, mood];
    ListedTagsExpand(list);
    var i := 0;
    while i < |list|
      invariant 0 <= i <= |list|
      invariant (set x | x in list) + ExpandList(list[i..]) == ContentTags(sceneType, activity, mood)
      invariant forall k :: 0 <= k < i ==> list[k] in ContentTags(sceneType, activity, mood)
      decreases WeightSum(list[i..])
    {
      var tag := list[i];
      var extra := if tag in TagExpansions then TagExpansions[tag] else [];
      var next := list + extra;
      DropAppend(list, extra, i);
      ExpandUnfold(tag);
      ExpandListAppend(list[i + 1..], extra);
      ListedTagsExpand(extra);
      WeightOfExpansion(tag);
      WeightSumAppend(list[i + 1..], extra);
      list := next;
      i := i + 1;
    }
    tags := set x | x in list;
  }

  /** Whatever a direct expansion reaches, the tag reaches. */
  lemma ExpandReaches(tag: string, e: string)
    requires e in Expansion(tag)
    ensures Expand(e) <= Expand(tag)
  {
  }

  /** Each listed tag's expansion is part of the list's. */
  lemma ListedExpands(tags: seq<string>, k: nat)
    requires k < |tags|
    ensures Expand(tags[k]) <= ExpandList(tags)
  {
    forall x | x in Expand(tags[k])
      ensures x in ExpandList(tags)
    {
      ExpandListMembers(tags, x);
    }
  }

  lemma CelebrationReaches()
    ensures {"celebration", "party", "joy", "festive"} <= Expand("celebration")
  {
    var celebration := Expansion("celebration");
    assert celebration == ["party", "joy", "festive"];
    assert "party" in Expand("party") && "joy" in Expand("joy") && "festive" in Expand("festive");
    ExpandReaches("celebration", "party");
    ExpandReaches("celebration", "joy");
    ExpandReaches("celebration", "festive");
  }

  lemma DancingReaches()
    ensures {"dancing", "music"} + Expand("celebration") <= Expand("dancing")
  {
    var dancing := Expansion("dancing");
    assert "music" in dancing && "celebration" in dancing;
    assert "music" in Expand("music");
    ExpandReaches("dancing", "music");
    ExpandReaches("dancing", "celebration");
  }

  /** "dancing" brings in the celebration tags through "celebration". */
  lemma DancingTags(sceneType: string, mood: string)
    ensures {"dancing", "music", "celebration", "party", "joy", "festive"} <= ContentTags(sceneType, "dancing", mood)
  {
    CelebrationReaches();
    DancingReaches();
    ListedExpands([sceneType, "dancing", mood], 1);
  }

  // ----------------------------------------------------- suggestion tables

  /** `_get_placement_style`: the activity is consulted before the mood. */
  function PlacementStyle(activity: string, mood: string): (style: string)
    ensures activity in {"dancing", "sports", "exercise"} ==> style == "dynamic_follow"
    ensures style == "static_corner" <==> activity !in {"dancing", "sports", "exercise"} && mood in {"calm", "serene"}
    ensures style == "balanced_edge" <==>
      activity !in {"dancing", "sports", "exercise"} && mood !in {"calm", "serene", "energetic", "celebration"}
  {
    if activity in ["dancing", "sports", "exercise"] then "dynamic_follow"
    else if mood in ["calm", "serene"] then "static_corner"
    else if mood in ["energetic", "celebration"] then "center_burst"
    else "balanced_edge"
  }

  datatype TimingPattern = TimingPattern(pattern: string, intervals: seq<real>, durationPerOverlay: real)

  /** `_get_timing_pattern`. */
  function GetTimingPattern(activity: string, duration: real): (t: TimingPattern)
    ensures |t.intervals| >= 2
    ensures t.pattern != "rhythmic" && duration >= 0.0 ==>
      forall k :: 0 <= k < |t.intervals| ==> 0.0 <= t.intervals[k] <= duration
    ensures t.pattern != "emphasis" ==> t.durationPerOverlay <= duration / 2.0 || t.durationPerOverlay <= 2.0
  {
    if activity in ["dancing", "music"] then
      TimingPattern("rhythmic", [0.5, 1.0, 1.5], if 2.0 < duration / 3.0 then 2.0 else duration / 3.0)
    else if activity in ["talking", "presentation"] then
      TimingPattern("emphasis", [duration * 0.2, duration * 0.7], 3.0)
    else
      TimingPattern("steady", [duration * 0.1, duration * 0.5, duration * 0.8],
                    if 4.0 < duration / 2.0 then 4.0 else duration / 2.0)
  }

  /** `_get_scale_range`: every range is non-empty. */
  function ScaleRange(sceneType: string): (r: (real, real))
    ensures 0.0 < r.0 < r.1
  {
    if sceneType == "close_up" then (0.3, 0.7)
    else if sceneType == "wide_shot" then (0.8, 1.5)
    else (0.5, 1.0)
  }

  const SpeedMap: map<string, string> := map[
    "energetic" := "fast", "upbeat" := "fast", "calm" := "slow",
    "serene" := "slow", "dramatic" := "medium", "playful" := "fast"
  ]

  /** `_get_animation_speed`: the table, and "medium" for any other mood. */
  function AnimationSpeed(mood: string): (speed: string)
    ensures mood !in SpeedMap ==> speed == "medium"
    ensures speed in {"fast", "medium", "slow"}
  {
    if mood in SpeedMap then SpeedMap[mood] else "medium"
  }

  datatype LayerSuggestion = LayerSuggestion(maxLayers: nat, arrangement: string, priority: string)

  /** `_get_layer_suggestions`. */
  function LayerSuggestions(activity: string): (s: LayerSuggestion)
    ensures 1 <= s.maxLayers <= 3
    ensures s.maxLayers == 1 <==> activity in {"talking", "presentation"}
  {
    if activity in ["celebration", "party"] then LayerSuggestion(3, "scattered", "background_fill")
    else if activity in ["talking", "presentation"] then LayerSuggestion(1, "single_accent", "emphasis")
    else LayerSuggestion(2, "balanced", "enhancement")
  }

  datatype OverlaySuggestions = OverlaySuggestions(placementStyle: string, timingPattern: TimingPattern,
                                                   scaleRange: (real, real), animationSpeed: string,
                                                   layerSuggestions: LayerSuggestion)

  /** `_generate_overlay_suggestions`: one entry from each table. */
  function GenerateOverlaySuggestions(sceneType: string, activity: string, mood: string, duration: real)
    : (s: OverlaySuggestions)
    ensures s.scaleRange.0 < s.scaleRange.1
    ensures activity in {"dancing", "sports", "exercise"} ==> s.placementStyle == "dynamic_follow"
  {
    OverlaySuggestions(PlacementStyle(activity, mood), GetTimingPattern(activity, duration), ScaleRange(sceneType),
                       AnimationSpeed(mood), LayerSuggestions(activity))
  }

  // ---------------------------------------------------- local file paths

  /** `os.path.join(a, b)` for two POSIX paths: an absolute `b` discards `a`. */
  function PathJoin(a: string, b: string): (r: string)
    ensures EndsWith(r, b)
  {
    if StartsWith(b, "/") then b
    else if a == [] || EndsWith(a, "/") then a + b
    else a + "/" + b
  }

  /** `_get_local_file_path`, with the `LOCAL_MEDIA_DIR` setting as a parameter. */
  function GetLocalFilePath(urlPath: string, mediaDir: string): (r: string)
    ensures StartsWith(urlPath, "/media/") ==> EndsWith(r, urlPath[7..])
    ensures !StartsWith(urlPath, "/media/") ==> EndsWith(r, urlPath)
  {
    var relative := if StartsWith(urlPath, "/media/") then urlPath[7..] else urlPath;
    PathJoin(mediaDir, relative)
  }

  /** A media URL lands directly under the media directory. */
  lemma MediaUrlUnderMediaDir(name: string, mediaDir: string)
    requires !StartsWith(name, "/") && mediaDir != [] && !EndsWith(mediaDir, "/")
    ensures GetLocalFilePath("/media/" + name, mediaDir) == mediaDir + "/" + name
  {
    assert StartsWith("/media/" + name, "/media/");
    assert ("/media/" + name)[7..] == name;
  }

  /** Only one leading "/media/" is stripped: what follows it is joined as it stands. */
  lemma OnlyOneMediaPrefixStripped(name: string, mediaDir: string)
    requires mediaDir != [] && !EndsWith(mediaDir, "/")
    ensures GetLocalFilePath("/media//media/" + name, mediaDir) == "/media/" + name
  {
    var url := "/media//media/" + name;
    assert StartsWith(url, "/media/");
    assert url[7..] == "/media/" + name;
    assert StartsWith("/media/" + name, "/");
  }

  // ------------------------------------------------- asset recommendation

  /** The fields of a video analysis the recommendation helpers read; `None` is a missing key. */
  datatype Analysis = Analysis(duration: Option<real>, tags: Option<seq<string>>, mood: Option<string>,
                               primaryActivity: Option<string>, sceneType: Option<string>)

  /** The overlay suggestions passed in; `None` is a missing key. */
  datatype Suggestions = Suggestions(placementStyle: Option<string>, intervals: Option<seq<real>>,
                                     durationPerOverlay: Option<real>, scaleRange: Option<(real, real)>)

  datatype Position = Position(x: int, y: int)

  const Corners := [Position(50, 50), Position(650, 50), Position(50, 350), Position(650, 350)]
  const EdgePositions := [Position(100, 100), Position(600, 150), Position(150, 300), Position(550, 80),
                          Position(200, 200)]

  /** Where the `index`-th overlay goes for a placement style. */
  function PlacementPosition(style: string, index: nat): (p: Position)
    ensures style == "static_corner" ==> p in Corners
    ensures style != "static_corner" && style != "center_burst" ==> p in EdgePositions
  {
    if style == "center_burst" then Position(400, 225)
    else if style == "static_corner" then Corners[index % |Corners|]
    else EdgePositions[index % |EdgePositions|]
  }

  /** Corners repeat every four overlays, edge positions every five. */
  lemma PlacementCycles(style: string, index: nat)
    ensures style == "static_corner" ==> PlacementPosition(style, index + 4) == PlacementPosition(style, index)
    ensures style != "static_corner" ==> PlacementPosition(style, index + 5) == PlacementPosition(style, index)
  {
    assert (index + 4) % 4 == index % 4;
    assert (index + 5) % 5 == index % 5;
  }

  datatype Placement = Placement(x: int, y: int, scaleX: real, scaleY: real, angle: int,
                                 startTime: real, endTime: real, fadeIn: real, fadeOut: real, layerOrder: nat)

  /** The start and (unrounded) end of the `index`-th overlay. */
  function PlacementTiming(intervals: seq<real>, overlayDuration: real, duration: real, index: nat)
    : (t: (real, real))
    requires |intervals| > 0
    ensures t.0 == intervals[index % |intervals|]
    ensures t.1 <= duration
    ensures overlayDuration >= 0.0 && t.0 <= duration ==> t.0 <= t.1
  {
    var start := intervals[index % |intervals|];
    (start, if start + overlayDuration < duration then start + overlayDuration else duration)
  }

  /** The `index`-th overlay's scale, within the range when the range is non-empty. */
  function PlacementScale(range: (real, real), index: nat): (scale: real)
    requires range.0 != range.1
    ensures range.0 < range.1 ==> range.0 <= scale < range.1
  {
    range.0 + FloatMod(index as real * 0.1, range.1 - range.0)
  }

  /**
   * `_generate_smart_placement`. An empty interval list or an empty scale
   * range makes the source's `%` raise `ZeroDivisionError`.
   */
  function GenerateSmartPlacement(analysis: Analysis, index: nat, suggestions: Suggestions): (r: Result<Placement, string>)
    ensures r.Success? <==>
      |suggestions.intervals.GetOr([analysis.duration.GetOr(10.0) * 0.3, analysis.duration.GetOr(10.0) * 0.7])| > 0
      && suggestions.scaleRange.GetOr((0.5, 1.0)).0 != suggestions.scaleRange.GetOr((0.5, 1.0)).1
    ensures r.Success? ==> r.value.layerOrder == index + 1 && r.value.scaleX == r.value.scaleY
    ensures r.Success? && suggestions.scaleRange.GetOr((0.5, 1.0)).0 < suggestions.scaleRange.GetOr((0.5, 1.0)).1 ==>
      suggestions.scaleRange.GetOr((0.5, 1.0)).0 <= r.value.scaleX < suggestions.scaleRange.GetOr((0.5, 1.0)).1
  {
    var duration := analysis.duration.GetOr(10.0);
    var style := suggestions.placementStyle.GetOr("balanced_edge");
    var range := suggestions.scaleRange.GetOr((0.5, 1.0));
    var position := PlacementPosition(style, index);
    var intervals := suggestions.intervals.GetOr([duration * 0.3, duration * 0.7]);
    var overlayDuration := suggestions.durationPerOverlay.GetOr(3.0);
    if |intervals| == 0 then Failure("ZeroDivisionError: integer modulo by zero")
    else
      var timing := PlacementTiming(intervals, overlayDuration, duration, index);
      if range.0 == range.1 then Failure("ZeroDivisionError: float modulo")
      else
        var scale := PlacementScale(range, index);
        Success(Placement(position.x, position.y, scale, scale, 0, RoundTo(timing.0, 10), RoundTo(timing.1, 10),
                          0.3, 0.3, index + 1))
  }

  /** The one-character strings `set(asset.tags)` yields when the tags are a string. */
  function CharacterSet(s: string): set<string>
  {
    set c | c in s :: [c]
  }

  /** The tag-overlap share of `_calculate_match_confidence`. */
  function TagOverlap(videoTags: set<string>, assetTags: Option<string>): (share: real)
    ensures 0.0 <= share <= 0.6
  {
    var assetSet := if assetTags.Some? && assetTags.value != [] then CharacterSet(assetTags.value) else {};
    if |videoTags| > 0 && |assetSet| > 0 then
      var overlap := |videoTags * assetSet|;
      SubsetCardinality(videoTags * assetSet, videoTags);
      (overlap as real / |videoTags| as real) * 0.6
    else 0.0
  }

  /** `text in asset.tags.lower()` for non-empty text and tags. */
  predicate MentionedIn(text: string, assetTags: Option<string>)
  {
    text != [] && assetTags.Some? && assetTags.value != [] && HasSubstring(Lower(assetTags.value), text)
  }

  /** The sum `_calculate_match_confidence` rounds and caps. */
  function RawMatchConfidence(assetTags: Option<string>, analysis: Analysis): (c: real)
    ensures 0.1 <= c <= 1.2
  {
    var videoTags := set t | t in analysis.tags.GetOr([]);
    var mood := Lower(analysis.mood.GetOr(""));
    var activity := Lower(analysis.primaryActivity.GetOr(""));
    TagOverlap(videoTags, assetTags)
      + (if MentionedIn(mood, assetTags) then 0.3 else 0.0)
      + (if MentionedIn(activity, assetTags) then 0.2 else 0.0)
      + 0.1
  }

  /** `_calculate_match_confidence`: always within [0.1, 1.0]. */
  function MatchConfidence(assetTags: Option<string>, analysis: Analysis): (c: real)
    ensures 0.1 <= c <= 1.0
  {
    var raw := RawMatchConfidence(assetTags, analysis);
    RoundThousandthsAtLeast(raw, 100);
    var rounded := RoundTo(raw, 1000);
    if rounded < 1.0 then rounded else 1.0
  }

  /**
   * Because `set()` of a string yields its characters, a video tag longer
   * than one character never counts as overlapping the asset's tags.
   */
  lemma WordTagsNeverOverlap(videoTags: set<string>, assetTags: Option<string>)
    requires forall t :: t in videoTags ==> |t| != 1
    ensures TagOverlap(videoTags, assetTags) == 0.0
  {
    if assetTags.Some? && assetTags.value != [] {
      var assetSet := CharacterSet(assetTags.value);
      assert forall t :: t in assetSet ==> |t| == 1;
      assert videoTags * assetSet == {};
    }
  }

  /** The reasons found in the lower-cased tags, mood first, then activity, then setting. */
  function MatchedReasons(tags: string, mood: string, activity: string, scene: string): (found: seq<string>)
    ensures ("matches " + mood + " mood" in found) <==> HasSubstring(tags, mood)
    ensures found == [] <==> !HasSubstring(tags, mood) && !HasSubstring(tags, activity) && !HasSubstring(tags, scene)
    ensures forall k :: 0 <= k < |found| ==> |found[k]| > 0 && found[k][0] != 'p'
  {
    var m := "matches " + mood + " mood";
    var f := "fits " + activity + " activity";
    var w := "works with " + scene + " setting";
    assert m[0] == 'm' && f[0] == 'f' && w[0] == 'w';
    (if HasSubstring(tags, mood) then [m] else [])
    + (if HasSubstring(tags, activity) then [f] else [])
    + (if HasSubstring(tags, scene) then [w] else [])
  }

  /** The reasons `_generate_recommendation_reasoning` lists, or the stock reason when none applies. */
  function Reasons(assetTags: Option<string>, analysis: Analysis): (reasons: seq<string>)
    ensures |reasons| >= 1
    ensures var mood := analysis.mood.GetOr("neutral");
      ("matches " + mood + " mood" in reasons)
      <==> assetTags.Some? && assetTags.value != [] && HasSubstring(Lower(assetTags.value), mood)
    ensures reasons == ["popular choice for similar videos"] <==>
      !(assetTags.Some? && assetTags.value != []
        && (HasSubstring(Lower(assetTags.value), analysis.mood.GetOr("neutral"))
            || HasSubstring(Lower(assetTags.value), analysis.primaryActivity.GetOr("general"))
            || HasSubstring(Lower(assetTags.value), analysis.sceneType.GetOr("standard"))))
  {
    var mood := analysis.mood.GetOr("neutral");
    var found :=
      if assetTags.Some? && assetTags.value != [] then
        MatchedReasons(Lower(assetTags.value), mood, analysis.primaryActivity.GetOr("general"),
                       analysis.sceneType.GetOr("standard"))
      else [];
    var stock := "popular choice for similar videos";
    assert stock[0] == 'p';
    assert "matches " + mood + " mood" != stock by {
      assert ("matches " + mood + " mood")[0] == 'm';
    }
    assert found != [] ==> found != [stock] by {
      if found != [] {
        assert found[0][0] != 'p';
      }
    }
    if found == [] then [stock] else found
  }

  /** `_generate_recommendation_reasoning`. */
  function RecommendationReasoning(assetTags: Option<string>, analysis: Analysis): (text: string)
    ensures StartsWith(text, "Great fit because it ") && EndsWith(text, ".")
  {
    var prefix := "Great fit because it ";
    var text := prefix + Join(" and ", Reasons(assetTags, analysis)) + ".";
    assert text[..|prefix|] == prefix;
    text
  }
}
