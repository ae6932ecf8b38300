// Pose normalisation and sequence matching (the `PoseAnalyzer` of the
// computer-vision service). A raw landmark frame is a flat list of
// (x, y, z, visibility) groups; normalisation keeps the first seven
// landmarks, derives hips and knees from the shoulders, and expresses the
// eleven key points relative to the shoulder midpoint in units of the
// shoulder width. Sequences are compared by cosine similarity over a
// sliding window.
//
// Floats are modelled as reals. `math.sqrt` and `numpy.linalg.norm` are
// library code: the square root is a parameter `sqrt`, and the lemmas that
// depend on what it computes require `IsSqrt(sqrt)`.
module PoseVision {
  import opened Lists

  datatype Point = Point(x: real, y: real)

  // ------------------------------------------------------------ raw frames

  /** The (x, y) of every landmark group that has both values. */
  function Coordinates(frame: seq<real>): seq<Point>
    decreases |frame|
  {
    if |frame| < 2 then []
    else [Point(frame[0], frame[1])] + Coordinates(if |frame| < 4 then [] else frame[4..])
  }

  lemma {:induction false} CoordinatesAt(frame: seq<real>)
    ensures |Coordinates(frame)| == (|frame| + 2) / 4
    ensures forall k :: 0 <= k < |Coordinates(frame)| ==>
      Coordinates(frame)[k] == Point(frame[4 * k], frame[4 * k + 1])
  {
    if |frame| >= 4 {
      CoordinatesAt(frame[4..]);
    }
  }

  /** The visibility of every complete landmark group (indices 3, 7, 11, ...). */
  function Visibilities(frame: seq<real>): seq<real>
  {
    if |frame| < 4 then [] else [frame[3]] + Visibilities(frame[4..])
  }

  lemma {:induction false} VisibilitiesAt(frame: seq<real>)
    ensures |Visibilities(frame)| == |frame| / 4
    ensures forall k :: 0 <= k < |frame| / 4 ==> Visibilities(frame)[k] == frame[4 * k + 3]
  {
    if |frame| >= 4 {
      VisibilitiesAt(frame[4..]);
    }
  }

  /** Every visibility of every frame, frame by frame. */
  function AllVisibilities(frames: seq<seq<real>>): seq<real>
  {
    if |frames| == 0 then []
    else AllVisibilities(frames[..|frames| - 1]) + Visibilities(frames[|frames| - 1])
  }

  /** Landmark visibilities are probabilities. */
  ghost predicate VisibilitiesInRange(frames: seq<seq<real>>)
  {
    forall i, k :: 0 <= i < |frames| && 0 <= k < |frames[i]| && k % 4 == 3 ==> 0.0 <= frames[i][k] <= 1.0
  }

  lemma {:induction false} AllVisibilitiesInRange(frames: seq<seq<real>>)
    requires VisibilitiesInRange(frames)
    ensures forall k :: 0 <= k < |AllVisibilities(frames)| ==> 0.0 <= AllVisibilities(frames)[k] <= 1.0
  {
    if |frames| > 0 {
      var last := frames[|frames| - 1];
      AllVisibilitiesInRange(frames[..|frames| - 1]);
      VisibilitiesAt(last);
      forall k | 0 <= k < |last| / 4
        ensures 0.0 <= Visibilities(last)[k] <= 1.0
      {
        assert (4 * k + 3) % 4 == 3;
      }
    }
  }

  /** `extract_coordinates_from_frame`: the loop over groups of four. */
  method ExtractCoordinatesFromFrame(frame: seq<real>) returns (coords: seq<Point>)
    ensures coords == Coordinates(frame)
    ensures |coords| == (|frame| + 2) / 4
  {
    coords := [];
    var i := 0;
    while i < |frame|
      invariant 0 <= i <= |frame| + 3 && i % 4 == 0
      invariant |coords| == if i / 4 < (|frame| + 2) / 4 then i / 4 else (|frame| + 2) / 4
      invariant forall k :: 0 <= k < |coords| ==> coords[k] == Point(frame[4 * k], frame[4 * k + 1])
    {
      if i + 1 < |frame| {
        coords := coords + [Point(frame[i], frame[i + 1])];
      }
      i := i + 4;
    }
    CoordinatesAt(frame);
  }

  // --------------------------------------------------------- normalisation

  const HipDrop: real := 0.3
  const KneeDrop: real := 0.4

  /** Nose, shoulders, elbows and wrists as given; hips and knees hang below the shoulders. */
  function KeyPoints(coords: seq<Point>): (pts: seq<Point>)
    requires |coords| >= 7
    ensures |pts| == 11
  {
    var leftHip := Point(coords[1].x, coords[1].y + HipDrop);
    var rightHip := Point(coords[2].x, coords[2].y + HipDrop);
    var leftKnee := Point(leftHip.x, leftHip.y + KneeDrop);
    var rightKnee := Point(rightHip.x, rightHip.y + KneeDrop);
    coords[..7] + [leftHip, rightHip, leftKnee, rightKnee]
  }

  function Midpoint(a: Point, b: Point): Point
  {
    Point((a.x + b.x) / 2.0, (a.y + b.y) / 2.0)
  }

  /** The Euclidean shoulder distance, replaced by 1.0 when it is zero. */
  function ShoulderWidth(left: Point, right: Point, sqrt: real -> real): (w: real)
    ensures w != 0.0
  {
    ScaleOf(right.x - left.x, right.y - left.y, sqrt)
  }

  function ScaleOf(dx: real, dy: real, sqrt: real -> real): (w: real)
    ensures w != 0.0
  {
    var raw := sqrt(dx * dx + dy * dy);
    if raw == 0.0 then 1.0 else raw
  }

  /** Every point as (x, y) offsets from `origin` in units of `scale`, flattened. */
  function Relative(pts: seq<Point>, origin: Point, scale: real): (r: seq<real>)
    requires scale != 0.0
    ensures |r| == 2 * |pts|
  {
    if |pts| == 0 then []
    else
      var p := pts[|pts| - 1];
      Relative(pts[..|pts| - 1], origin, scale) + [(p.x - origin.x) / scale, (p.y - origin.y) / scale]
  }

  lemma {:induction false} RelativeAt(pts: seq<Point>, origin: Point, scale: real)
    requires scale != 0.0
    ensures forall k :: 0 <= k < |pts| ==>
      Relative(pts, origin, scale)[2 * k] == (pts[k].x - origin.x) / scale &&
      Relative(pts, origin, scale)[2 * k + 1] == (pts[k].y - origin.y) / scale
  {
    if |pts| > 0 {
      RelativeAt(pts[..|pts| - 1], origin, scale);
    }
  }

  /** `normalize_pose_frame`: 22 values for seven or more landmarks, nothing otherwise. */
  function NormalizeFrame(coords: seq<Point>, sqrt: real -> real): (r: seq<real>)
    ensures |coords| < 7 ==> r == []
    ensures |coords| >= 7 ==> |r| == 22
  {
    if |coords| < 7 then []
    else
      Relative(KeyPoints(coords), Midpoint(coords[1], coords[2]), ShoulderWidth(coords[1], coords[2], sqrt))
  }

  /** The loop of `normalize_pose_frame` that extends the output point by point. */
  method NormalizePoseFrame(coords: seq<Point>, sqrt: real -> real) returns (normalized: seq<real>)
    ensures normalized == NormalizeFrame(coords, sqrt)
  {
    if |coords| < 7 {
      return [];
    }
    var keyPoints := KeyPoints(coords);
    var mid := Midpoint(coords[1], coords[2]);
    var width := ShoulderWidth(coords[1], coords[2], sqrt);
    normalized := [];
    var i := 0;
    while i < |keyPoints|
      invariant 0 <= i <= |keyPoints|
      invariant normalized == Relative(keyPoints[..i], mid, width)
    {
      var p := keyPoints[i];
      normalized := normalized + [(p.x - mid.x) / width, (p.y - mid.y) / width];
      assert keyPoints[..i + 1][..i] == keyPoints[..i];
      i := i + 1;
    }
    assert keyPoints[..i] == keyPoints;
  }

  /** A frame of raw values normalises to something exactly when it holds 26 values or more. */
  lemma ValidFrameLength(frame: seq<real>, sqrt: real -> real)
    ensures NormalizeFrame(Coordinates(frame), sqrt) == [] <==> |frame| < 26
  {
    CoordinatesAt(frame);
  }

  /** Landmarks after the seventh never influence the result. */
  lemma OnlySevenLandmarksCount(coords: seq<Point>, sqrt: real -> real)
    requires |coords| >= 7
    ensures NormalizeFrame(coords, sqrt) == NormalizeFrame(coords[..7], sqrt)
  {
    assert coords[..7][..7] == coords[..7];
  }

  /** The shoulders sit symmetrically about the origin. */
  lemma ShouldersCentred(coords: seq<Point>, sqrt: real -> real)
    requires |coords| >= 7
    ensures NormalizeFrame(coords, sqrt)[2] == -NormalizeFrame(coords, sqrt)[4]
    ensures NormalizeFrame(coords, sqrt)[3] == -NormalizeFrame(coords, sqrt)[5]
  {
    var r := NormalizeFrame(coords, sqrt);
    var pts := KeyPoints(coords);
    var mid := Midpoint(coords[1], coords[2]);
    var w := ShoulderWidth(coords[1], coords[2], sqrt);
    RelativeAt(pts, mid, w);
    assert r[2] == (pts[1].x - mid.x) / w && r[4] == (pts[2].x - mid.x) / w;
    assert r[3] == (pts[1].y - mid.y) / w && r[5] == (pts[2].y - mid.y) / w;
    assert pts[1].x - mid.x == -(pts[2].x - mid.x);
    assert pts[1].y - mid.y == -(pts[2].y - mid.y);
  }

  /**
   * Hips share the shoulders' x and lie 0.3 below them, knees lie 0.4 below
   * the hips, both measured in shoulder widths.
   */
  lemma DerivedLandmarks(coords: seq<Point>, sqrt: real -> real)
    requires |coords| >= 7
    ensures var r, w := NormalizeFrame(coords, sqrt), ShoulderWidth(coords[1], coords[2], sqrt);
      && r[14] == r[2] && r[15] == r[3] + HipDrop / w
      && r[16] == r[4] && r[17] == r[5] + HipDrop / w
      && r[18] == r[14] && r[19] == r[15] + KneeDrop / w
      && r[20] == r[16] && r[21] == r[17] + KneeDrop / w
  {
    var r := NormalizeFrame(coords, sqrt);
    var pts := KeyPoints(coords);
    var mid := Midpoint(coords[1], coords[2]);
    var w := ShoulderWidth(coords[1], coords[2], sqrt);
    RelativeAt(pts, mid, w);
    assert r[2] == (pts[1].x - mid.x) / w && r[3] == (pts[1].y - mid.y) / w;
    assert r[4] == (pts[2].x - mid.x) / w && r[5] == (pts[2].y - mid.y) / w;
    assert r[14] == (pts[7].x - mid.x) / w && r[16] == (pts[8].x - mid.x) / w;
    assert r[18] == (pts[9].x - mid.x) / w && r[20] == (pts[10].x - mid.x) / w;
    assert r[15] == (pts[7].y - mid.y) / w;
    assert r[17] == (pts[8].y - mid.y) / w;
    assert r[19] == (pts[9].y - mid.y) / w;
    assert r[21] == (pts[10].y - mid.y) / w;
    DivideSum(pts[1].y - mid.y, HipDrop, w);
    DivideSum(pts[2].y - mid.y, HipDrop, w);
    DivideSum(pts[7].y - mid.y, KneeDrop, w);
    DivideSum(pts[8].y - mid.y, KneeDrop, w);
  }

  lemma DivideSum(a: real, b: real, w: real)
    requires w != 0.0
    ensures (a + b) / w == a / w + b / w
  {
  }

  function TranslatePoints(pts: seq<Point>, dx: real, dy: real): (r: seq<Point>)
    ensures |r| == |pts|
    ensures forall k :: 0 <= k < |pts| ==> r[k] == Point(pts[k].x + dx, pts[k].y + dy)
  {
    seq(|pts|, k requires 0 <= k < |pts| => Point(pts[k].x + dx, pts[k].y + dy))
  }

  /** Moving every landmark by the same offset changes none of the 22 values. */
  lemma TranslationInvariantFrame(coords: seq<Point>, dx: real, dy: real, sqrt: real -> real)
    ensures NormalizeFrame(TranslatePoints(coords, dx, dy), sqrt) == NormalizeFrame(coords, sqrt)
  {
    if |coords| >= 7 {
      var moved := TranslatePoints(coords, dx, dy);
      var pts, pts' := KeyPoints(coords), KeyPoints(moved);
      var mid, mid' := Midpoint(coords[1], coords[2]), Midpoint(moved[1], moved[2]);
      assert mid' == Point(mid.x + dx, mid.y + dy);
      assert moved[2].x - moved[1].x == coords[2].x - coords[1].x;
      assert moved[2].y - moved[1].y == coords[2].y - coords[1].y;
      var w := ShoulderWidth(coords[1], coords[2], sqrt);
      assert ShoulderWidth(moved[1], moved[2], sqrt) == w;
      var r, r' := Relative(pts, mid, w), Relative(pts', mid', w);
      RelativeAt(pts, mid, w);
      RelativeAt(pts', mid', w);
      forall k | 0 <= k < 11
        ensures r'[2 * k] == r[2 * k] && r'[2 * k + 1] == r[2 * k + 1]
      {
        assert pts'[k] == Point(pts[k].x + dx, pts[k].y + dy);
      }
      forall i | 0 <= i < 22
        ensures r'[i] == r[i]
      {
        if i % 2 == 0 {
          assert r'[2 * (i / 2)] == r[2 * (i / 2)];
        } else {
          assert r'[2 * (i / 2) + 1] == r[2 * (i / 2) + 1];
        }
      }
    }
  }

  /** Adds (dx, dy) to the x and y of every landmark group of a raw frame. */
  function TranslateFrame(frame: seq<real>, dx: real, dy: real): (r: seq<real>)
    ensures |r| == |frame|
  {
    seq(|frame|, i requires 0 <= i < |frame| =>
      if i % 4 == 0 then frame[i] + dx else if i % 4 == 1 then frame[i] + dy else frame[i])
  }

  lemma CoordinatesOfTranslatedFrame(frame: seq<real>, dx: real, dy: real)
    ensures Coordinates(TranslateFrame(frame, dx, dy)) == TranslatePoints(Coordinates(frame), dx, dy)
  {
    var moved := TranslateFrame(frame, dx, dy);
    CoordinatesAt(frame);
    CoordinatesAt(moved);
    forall k | 0 <= k < |Coordinates(frame)|
      ensures Coordinates(moved)[k] == TranslatePoints(Coordinates(frame), dx, dy)[k]
    {
      assert (4 * k) % 4 == 0 && (4 * k + 1) % 4 == 1;
    }
  }

  // ------------------------------------------------------------- sequences

  /** `normalize_pose_sequence`: the normalised frames, in order, dropping those that fail. */
  function NormalizeSequence(frames: seq<seq<real>>, sqrt: real -> real): (r: seq<seq<real>>)
    ensures |r| <= |frames|
    ensures forall k :: 0 <= k < |r| ==> |r[k]| == 22
  {
    if |frames| == 0 then []
    else
      var init := NormalizeSequence(frames[..|frames| - 1], sqrt);
      var last := NormalizeFrame(Coordinates(frames[|frames| - 1]), sqrt);
      if last == [] then init else init + [last]
  }

  /** Normalisation works frame by frame: it distributes over concatenation. */
  lemma {:induction false} NormalizeSequenceAppend(a: seq<seq<real>>, b: seq<seq<real>>, sqrt: real -> real)
    ensures NormalizeSequence(a + b, sqrt) == NormalizeSequence(a, sqrt) + NormalizeSequence(b, sqrt)
    decreases |b|
  {
    if |b| == 0 {
      assert a + b == a;
    } else {
      assert (a + b)[..|a + b| - 1] == a + b[..|b| - 1];
      NormalizeSequenceAppend(a, b[..|b| - 1], sqrt);
    }
  }

  /** A sequence normalises to nothing exactly when every frame is shorter than 26 values. */
  lemma {:induction false} NormalizeSequenceEmpty(frames: seq<seq<real>>, sqrt: real -> real)
    ensures NormalizeSequence(frames, sqrt) == [] <==> forall i :: 0 <= i < |frames| ==> |frames[i]| < 26
  {
    if |frames| > 0 {
      NormalizeSequenceEmpty(frames[..|frames| - 1], sqrt);
      ValidFrameLength(frames[|frames| - 1], sqrt);
      assert forall i :: 0 <= i < |frames| - 1 ==> frames[..|frames| - 1][i] == frames[i];
    }
  }

  function TranslateFrames(frames: seq<seq<real>>, dx: real, dy: real): (r: seq<seq<real>>)
    ensures |r| == |frames|
    ensures forall i :: 0 <= i < |frames| ==> r[i] == TranslateFrame(frames[i], dx, dy)
  {
    seq(|frames|, i requires 0 <= i < |frames| => TranslateFrame(frames[i], dx, dy))
  }

  lemma {:induction false} TranslationInvariantSequence(frames: seq<seq<real>>, dx: real, dy: real, sqrt: real -> real)
    ensures NormalizeSequence(TranslateFrames(frames, dx, dy), sqrt) == NormalizeSequence(frames, sqrt)
  {
    if |frames| > 0 {
      var moved := TranslateFrames(frames, dx, dy);
      var n := |frames|;
      assert moved[..n - 1] == TranslateFrames(frames[..n - 1], dx, dy);
      TranslationInvariantSequence(frames[..n - 1], dx, dy, sqrt);
      CoordinatesOfTranslatedFrame(frames[n - 1], dx, dy);
      TranslationInvariantFrame(Coordinates(frames[n - 1]), dx, dy, sqrt);
    }
  }

  /** The loop of `normalize_pose_sequence`. */
  method NormalizePoseSequence(frames: seq<seq<real>>, sqrt: real -> real) returns (normalized: seq<seq<real>>)
    ensures normalized == NormalizeSequence(frames, sqrt)
  {
    normalized := [];
    var i := 0;
    while i < |frames|
      invariant 0 <= i <= |frames|
      invariant normalized == NormalizeSequence(frames[..i], sqrt)
    {
      var coords := ExtractCoordinatesFromFrame(frames[i]);
      var frame := NormalizePoseFrame(coords, sqrt);
      if frame != [] {
        normalized := normalized + [frame];
      }
      assert frames[..i + 1][..i] == frames[..i];
      i := i + 1;
    }
    assert frames[..i] == frames;
  }

  // ------------------------------------------------------------ similarity

  function Dot(u: seq<real>, v: seq<real>): real
    requires |u| == |v|
  {
    if |u| == 0 then 0.0 else Dot(u[..|u| - 1], v[..|v| - 1]) + u[|u| - 1] * v[|v| - 1]
  }

  /** `sqrt` returns the non-negative square root of every non-negative argument. */
  ghost predicate IsSqrt(sqrt: real -> real)
  {
    forall x :: 0.0 <= x ==> 0.0 <= sqrt(x) && sqrt(x) * sqrt(x) == x
  }

  /** `calculate_frame_similarity`: cosine similarity mapped from [-1, 1] onto [0, 1]. */
  function FrameSimilarity(u: seq<real>, v: seq<real>, sqrt: real -> real): real
  {
    if |u| != |v| || |u| == 0 then 0.0
    else
      var n1 := sqrt(Dot(u, u));
      var n2 := sqrt(Dot(v, v));
      if n1 == 0.0 || n2 == 0.0 then 0.0 else (Dot(u, v) / (n1 * n2) + 1.0) / 2.0
  }

  lemma {:induction false} DotSymmetric(u: seq<real>, v: seq<real>)
    requires |u| == |v|
    ensures Dot(u, v) == Dot(v, u)
  {
    if |u| > 0 {
      DotSymmetric(u[..|u| - 1], v[..|v| - 1]);
    }
  }

  lemma SimilaritySymmetric(u: seq<real>, v: seq<real>, sqrt: real -> real)
    ensures FrameSimilarity(u, v, sqrt) == FrameSimilarity(v, u, sqrt)
  {
    if |u| == |v| && |u| > 0 {
      DotSymmetric(u, v);
      var n1, n2 := sqrt(Dot(u, u)), sqrt(Dot(v, v));
      assert n1 * n2 == n2 * n1;
    }
  }

  /** b²·|u|² − 2ab·(u·v) + a²·|v|² is the squared length of b·u − a·v, hence non-negative. */
  lemma {:induction false} MixedSquaresNonNegative(u: seq<real>, v: seq<real>, a: real, b: real)
    requires |u| == |v|
    ensures b * b * Dot(u, u) - 2.0 * a * b * Dot(u, v) + a * a * Dot(v, v) >= 0.0
  {
    if |u| > 0 {
      var u', v' := u[..|u| - 1], v[..|v| - 1];
      var x, y := u[|u| - 1], v[|v| - 1];
      MixedSquaresNonNegative(u', v', a, b);
      MixedSquaresStep(a, b, Dot(u', u'), Dot(u', v'), Dot(v', v'), x, y, Dot(u, u), Dot(u, v), Dot(v, v));
    } else {
      ZeroForm(a, b, Dot(u, u), Dot(u, v), Dot(v, v));
    }
  }

  lemma ZeroForm(a: real, b: real, p: real, q: real, r: real)
    requires p == 0.0 && q == 0.0 && r == 0.0
    ensures b * b * p - 2.0 * a * b * q + a * a * r >= 0.0
  {
  }

  /** Adding one more component pair keeps the quadratic form non-negative: the new terms are
      (b x - a y)^2. */
  lemma MixedSquaresStep(a: real, b: real, p: real, q: real, r: real, x: real, y: real, p': real, q': real, r': real)
    requires b * b * p - 2.0 * a * b * q + a * a * r >= 0.0
    requires p' == p + x * x && q' == q + x * y && r' == r + y * y
    ensures b * b * p' - 2.0 * a * b * q' + a * a * r' >= 0.0
  {
    var d := b * x - a * y;
    SquareOfDifference(a, b, x, y);
    SquareNonNegative(d);
    Distribute(b * b, p, x * x);
    Distribute(2.0 * a * b, q, x * y);
    Distribute(a * a, r, y * y);
  }

  lemma SquareOfDifference(a: real, b: real, x: real, y: real)
    ensures (b * x - a * y) * (b * x - a * y) == b * b * (x * x) - 2.0 * a * b * (x * y) + a * a * (y * y)
  {
  }

  lemma SquareNonNegative(d: real)
    ensures d * d >= 0.0
  {
  }

  lemma Distribute(c: real, s: real, t: real)
    ensures c * (s + t) == c * s + c * t
  {
  }

  /** Cauchy-Schwarz: (u.v)^2 <= |u|^2 |v|^2, read off the non-negative quadratic form above. */
  lemma CauchySchwarz(u: seq<real>, v: seq<real>)
    requires |u| == |v|
    ensures Dot(u, v) * Dot(u, v) <= Dot(u, u) * Dot(v, v)
  {
    var A, B, C := Dot(u, u), Dot(v, v), Dot(u, v);
    DotSelfNonNegative(v);
    if B > 0.0 {
      MixedSquaresNonNegative(u, v, C, B);
      QuadraticFormBound(A, B, C);
    } else if C != 0.0 {
      var t := (A + 1.0) / (2.0 * C);
      MixedSquaresNonNegative(u, v, t, 1.0);
      DegenerateQuadraticForm(A, B, C, t);
    } else {
      assert C * C == 0.0;
      assert A * B == 0.0;
    }
  }

  /** With B > 0, B^2 A - 2 B C^2 + C^2 B >= 0 is B (AB - C^2) >= 0. */
  lemma QuadraticFormBound(A: real, B: real, C: real)
    requires B > 0.0
    requires B * B * A - 2.0 * C * B * C + C * C * B >= 0.0
    ensures C * C <= A * B
  {
    var g := A * B - C * C;
    assert B * B * A - 2.0 * C * B * C + C * C * B == B * g;
    if g < 0.0 {
      NegativeProduct(B, g);
    }
  }

  lemma NegativeProduct(p: real, n: real)
    requires p > 0.0 && n < 0.0
    ensures p * n < 0.0
  {
  }

  /** When |v|^2 = 0 the form A - 2tC is negative for t = (A + 1) / 2C, so C must be 0. */
  lemma DegenerateQuadraticForm(A: real, B: real, C: real, t: real)
    requires B == 0.0 && C != 0.0 && t == (A + 1.0) / (2.0 * C)
    ensures 1.0 * 1.0 * A - 2.0 * t * 1.0 * C + t * t * B < 0.0
  {
    assert 2.0 * t * C == A + 1.0;
  }

  lemma {:induction false} DotSelfNonNegative(v: seq<real>)
    ensures Dot(v, v) >= 0.0
  {
    if |v| > 0 {
      DotSelfNonNegative(v[..|v| - 1]);
    }
  }

  /** |v|² is at least the square of any one component. */
  lemma {:induction false} DotSelfAtLeast(v: seq<real>, k: nat)
    requires k < |v|
    ensures Dot(v, v) >= v[k] * v[k]
  {
    var v' := v[..|v| - 1];
    DotSelfNonNegative(v');
    if k < |v| - 1 {
      DotSelfAtLeast(v', k);
    }
  }

  /** A real square root only vanishes at zero. */
  lemma SqrtPositive(sqrt: real -> real, x: real)
    requires IsSqrt(sqrt) && x > 0.0
    ensures sqrt(x) > 0.0
  {
    assert 0.0 <= sqrt(x) && sqrt(x) * sqrt(x) == x;
  }

  /** With a true square root the similarity lies in [0, 1]. */
  lemma SimilarityBounds(u: seq<real>, v: seq<real>, sqrt: real -> real)
    requires IsSqrt(sqrt)
    ensures 0.0 <= FrameSimilarity(u, v, sqrt) <= 1.0
  {
    if |u| == |v| && |u| > 0 {
      DotSelfNonNegative(u);
      DotSelfNonNegative(v);
      CauchySchwarz(u, v);
      var A, B, C := Dot(u, u), Dot(v, v), Dot(u, v);
      var n1, n2 := sqrt(A), sqrt(B);
      assert 0.0 <= n1 && n1 * n1 == A;
      assert 0.0 <= n2 && n2 * n2 == B;
      CosineMapBounds(A, B, C, n1, n2);
      assert FrameSimilarity(u, v, sqrt) == if n1 == 0.0 || n2 == 0.0 then 0.0 else (C / (n1 * n2) + 1.0) / 2.0;
    }
  }

  lemma CosineMapBounds(A: real, B: real, C: real, n1: real, n2: real)
    requires 0.0 <= n1 && n1 * n1 == A && 0.0 <= n2 && n2 * n2 == B && C * C <= A * B
    ensures 0.0 <= (if n1 == 0.0 || n2 == 0.0 then 0.0 else (C / (n1 * n2) + 1.0) / 2.0) <= 1.0
  {
    if n1 != 0.0 && n2 != 0.0 {
      ProductOfRoots(n1, n2, A, B);
      CosineBounds(C, n1 * n2);
    }
  }

  lemma ProductOfRoots(n1: real, n2: real, A: real, B: real)
    requires n1 > 0.0 && n2 > 0.0 && n1 * n1 == A && n2 * n2 == B
    ensures n1 * n2 > 0.0 && (n1 * n2) * (n1 * n2) == A * B
  {
  }

  lemma CosineBounds(c: real, p: real)
    requires p > 0.0 && c * c <= p * p
    ensures 0.0 <= (c / p + 1.0) / 2.0 <= 1.0
  {
    SquareBound(c, p);
    assert c / p * p == c;
  }

  lemma SquareBound(c: real, p: real)
    requires p > 0.0 && c * c <= p * p
    ensures -p <= c <= p
  {
    if c > p {
      ProductPositive(c - p, c + p, c * c - p * p);
    } else if c < -p {
      ProductPositive(-c - p, p - c, c * c - p * p);
    }
  }

  /** A frame with any non-zero value is fully similar to itself. */
  lemma SelfSimilarity(v: seq<real>, sqrt: real -> real)
    requires IsSqrt(sqrt)
    requires Dot(v, v) > 0.0
    ensures FrameSimilarity(v, v, sqrt) == 1.0
  {
    var d := Dot(v, v);
    assert |v| > 0;
    var n := sqrt(d);
    assert 0.0 <= n && n * n == d;
    assert n != 0.0;
    assert d / (n * n) == 1.0;
  }

  /** Every normalised frame has a non-zero value (the hips lie off the shoulder line). */
  lemma NormalizedFrameNonZero(coords: seq<Point>, sqrt: real -> real)
    requires |coords| >= 7
    ensures Dot(NormalizeFrame(coords, sqrt), NormalizeFrame(coords, sqrt)) > 0.0
  {
    var r := NormalizeFrame(coords, sqrt);
    var w := ShoulderWidth(coords[1], coords[2], sqrt);
    DerivedLandmarks(coords, sqrt);
    assert HipDrop / w != 0.0;
    if r[3] != 0.0 {
      DotSelfAtLeast(r, 3);
      SquareDominated(Dot(r, r), r[3]);
    } else {
      DotSelfAtLeast(r, 15);
      SquareDominated(Dot(r, r), r[15]);
    }
  }

  lemma SquareDominated(d: real, x: real)
    requires x != 0.0 && d >= x * x
    ensures d > 0.0
  {
    if x > 0.0 {
      ProductPositive(x, x, x * x);
    } else {
      ProductPositive(-x, -x, x * x);
    }
  }

  lemma ProductPositive(a: real, b: real, c: real)
    requires a > 0.0 && b > 0.0 && c == a * b
    ensures c > 0.0
  {
  }

  lemma {:induction false} NormalizedSequenceNonZero(frames: seq<seq<real>>, sqrt: real -> real)
    ensures forall k :: 0 <= k < |NormalizeSequence(frames, sqrt)| ==>
      Dot(NormalizeSequence(frames, sqrt)[k], NormalizeSequence(frames, sqrt)[k]) > 0.0
  {
    if |frames| > 0 {
      NormalizedSequenceNonZero(frames[..|frames| - 1], sqrt);
      var coords := Coordinates(frames[|frames| - 1]);
      if |coords| >= 7 {
        NormalizedFrameNonZero(coords, sqrt);
      }
    }
  }

  // -------------------------------------------------------- sliding window

  /** The similarities of `b` against the window of `a` starting at `i`. */
  function WindowSimilarities(a: seq<seq<real>>, b: seq<seq<real>>, i: nat, sqrt: real -> real): (r: seq<real>)
    requires i + |b| <= |a|
    ensures |r| == |b|
    ensures forall j :: 0 <= j < |b| ==> r[j] == FrameSimilarity(a[i + j], b[j], sqrt)
  {
    seq(|b|, j requires 0 <= j < |b| => FrameSimilarity(a[i + j], b[j], sqrt))
  }

  function WindowAverage(a: seq<seq<real>>, b: seq<seq<real>>, i: nat, sqrt: real -> real): real
    requires i + |b| <= |a|
  {
    Mean(WindowSimilarities(a, b, i, sqrt))
  }

  /** The average similarity at every offset where `b` fits inside `a`. */
  function WindowAverages(a: seq<seq<real>>, b: seq<seq<real>>, sqrt: real -> real): (r: seq<real>)
    requires |b| <= |a|
    ensures |r| == |a| - |b| + 1
    ensures forall i :: 0 <= i < |r| ==> r[i] == WindowAverage(a, b, i, sqrt)
  {
    seq(|a| - |b| + 1, i requires 0 <= i < |a| - |b| + 1 => WindowAverage(a, b, i, sqrt))
  }

  function Max(x: real, y: real): real { if x >= y then x else y }

  /** `max_similarity` after the loop: the running maximum of `s`, starting from 0.0. */
  function RunningMax(s: seq<real>): real
  {
    if |s| == 0 then 0.0 else Max(RunningMax(s[..|s| - 1]), s[|s| - 1])
  }

  /** The running maximum bounds every element and is 0.0 or one of them. */
  lemma {:induction false} RunningMaxIsMaximum(s: seq<real>)
    ensures forall i :: 0 <= i < |s| ==> s[i] <= RunningMax(s)
    ensures RunningMax(s) == 0.0 || RunningMax(s) in s
  {
    if |s| > 0 {
      var init := s[..|s| - 1];
      RunningMaxIsMaximum(init);
      assert forall i :: 0 <= i < |init| ==> init[i] == s[i];
    }
  }

  /** `find_pose_sequence_match`. */
  function SequenceMatch(seqA: seq<seq<real>>, seqB: seq<seq<real>>, sqrt: real -> real): real
  {
    if |seqA| == 0 || |seqB| == 0 || |seqB| > |seqA| then 0.0
    else
      var na := NormalizeSequence(seqA, sqrt);
      var nb := NormalizeSequence(seqB, sqrt);
      if |na| == 0 || |nb| == 0 || |nb| > |na| then 0.0
      else RunningMax(WindowAverages(na, nb, sqrt))
  }

  lemma WindowAverageBounds(a: seq<seq<real>>, b: seq<seq<real>>, i: nat, sqrt: real -> real)
    requires IsSqrt(sqrt)
    requires i + |b| <= |a|
    ensures 0.0 <= WindowAverage(a, b, i, sqrt) <= 1.0
  {
    var sims := WindowSimilarities(a, b, i, sqrt);
    if |sims| > 0 {
      forall j | 0 <= j < |sims|
        ensures 0.0 <= sims[j] <= 1.0
      {
        SimilarityBounds(a[i + j], b[j], sqrt);
      }
      MeanBounds(sims, 0.0, 1.0);
    }
  }

  /** The match score is a similarity in [0, 1]. */
  lemma SequenceMatchBounds(seqA: seq<seq<real>>, seqB: seq<seq<real>>, sqrt: real -> real)
    requires IsSqrt(sqrt)
    ensures 0.0 <= SequenceMatch(seqA, seqB, sqrt) <= 1.0
  {
    var na := NormalizeSequence(seqA, sqrt);
    var nb := NormalizeSequence(seqB, sqrt);
    if 0 < |seqB| <= |seqA| && 0 < |nb| <= |na| {
      var avgs := WindowAverages(na, nb, sqrt);
      RunningMaxIsMaximum(avgs);
      WindowAverageBounds(na, nb, 0, sqrt);
      if RunningMax(avgs) != 0.0 {
        var i :| 0 <= i < |avgs| && avgs[i] == RunningMax(avgs);
        WindowAverageBounds(na, nb, i, sqrt);
      }
    }
  }

  /** A searched-for recording none of whose frames holds seven landmarks scores 0.0 against anything. */
  lemma SequenceMatchUnusableFrames(seqA: seq<seq<real>>, seqB: seq<seq<real>>, sqrt: real -> real)
    requires forall i :: 0 <= i < |seqB| ==> |seqB[i]| < 26
    ensures SequenceMatch(seqA, seqB, sqrt) == 0.0
  {
    NormalizeSequenceEmpty(seqB, sqrt);
  }

  /** A window that reproduces `b` frame for frame averages 1.0. */
  lemma ExactWindow(a: seq<seq<real>>, b: seq<seq<real>>, k: nat, sqrt: real -> real)
    requires IsSqrt(sqrt)
    requires |b| > 0 && k + |b| <= |a| && a[k..k + |b|] == b
    requires forall j :: 0 <= j < |b| ==> Dot(b[j], b[j]) > 0.0
    ensures WindowAverage(a, b, k, sqrt) == 1.0
  {
    var sims := WindowSimilarities(a, b, k, sqrt);
    forall j | 0 <= j < |b|
      ensures sims[j] == 1.0
    {
      assert a[k + j] == b[j];
      SelfSimilarity(b[j], sqrt);
    }
    MeanOfConstant(sims, 1.0);
  }

  /**
   * A recording embedded anywhere in a longer one is matched with score 1.0,
   * provided it has at least one frame that normalises.
   */
  lemma EmbeddedSequenceMatchesFully(before: seq<seq<real>>, b: seq<seq<real>>, after: seq<seq<real>>, sqrt: real -> real)
    requires IsSqrt(sqrt)
    requires NormalizeSequence(b, sqrt) != []
    ensures SequenceMatch(before + b + after, b, sqrt) == 1.0
  {
    var a := before + b + after;
    NormalizeSequenceAppend(before, b, sqrt);
    NormalizeSequenceAppend(before + b, after, sqrt);
    var na, nb := NormalizeSequence(a, sqrt), NormalizeSequence(b, sqrt);
    var k := |NormalizeSequence(before, sqrt)|;
    assert na == NormalizeSequence(before, sqrt) + nb + NormalizeSequence(after, sqrt);
    assert na[k..k + |nb|] == nb;
    NormalizedSequenceNonZero(b, sqrt);
    ExactWindow(na, nb, k, sqrt);
    RunningMaxIsMaximum(WindowAverages(na, nb, sqrt));
    SequenceMatchBounds(a, b, sqrt);
  }

  /** A recording that normalises to anything matches itself with score 1.0. */
  lemma SelfMatch(s: seq<seq<real>>, sqrt: real -> real)
    requires IsSqrt(sqrt)
    requires NormalizeSequence(s, sqrt) != []
    ensures SequenceMatch(s, s, sqrt) == 1.0
  {
    EmbeddedSequenceMatchesFully([], s, [], sqrt);
    assert [] + s + [] == s;
  }

  /** Moving the searched recording in the image plane does not change the score. */
  lemma TranslationInvariantMatch(seqA: seq<seq<real>>, seqB: seq<seq<real>>, dx: real, dy: real, sqrt: real -> real)
    ensures SequenceMatch(TranslateFrames(seqA, dx, dy), seqB, sqrt) == SequenceMatch(seqA, seqB, sqrt)
  {
    TranslationInvariantSequence(seqA, dx, dy, sqrt);
  }

  /** The nested loops of `find_pose_sequence_match`. */
  method FindPoseSequenceMatch(seqA: seq<seq<real>>, seqB: seq<seq<real>>, sqrt: real -> real) returns (best: real)
    ensures best == SequenceMatch(seqA, seqB, sqrt)
  {
    if |seqA| == 0 || |seqB| == 0 || |seqB| > |seqA| {
      return 0.0;
    }
    var normA := NormalizePoseSequence(seqA, sqrt);
    var normB := NormalizePoseSequence(seqB, sqrt);
    if |normA| == 0 || |normB| == 0 {
      return 0.0;
    }
    if |normB| > |normA| {
      // `range` over a negative count is empty, so the score stays 0.0
      return 0.0;
    }
    best := BestWindowLoop(normA, normB, sqrt);
  }

  /** The outer loop of `find_pose_sequence_match`: the best window average, starting from 0.0. */
  method BestWindowLoop(normA: seq<seq<real>>, normB: seq<seq<real>>, sqrt: real -> real) returns (best: real)
    requires 0 < |normB| <= |normA|
    ensures best == RunningMax(WindowAverages(normA, normB, sqrt))
  {
    best := 0.0;
    var windowSize := |normB|;
    ghost var averages := WindowAverages(normA, normB, sqrt);
    var i := 0;
    while i < |normA| - windowSize + 1
      invariant 0 <= i <= |averages|
      invariant best == RunningMax(averages[..i])
    {
      var average := WindowAverageLoop(normA, normB, i, sqrt);
      best := Max(best, average);
      assert averages[..i + 1][..i] == averages[..i];
      i := i + 1;
    }
    assert averages[..i] == averages;
  }

  /** The inner loop of `find_pose_sequence_match`: the mean similarity of one window. */
  method WindowAverageLoop(normA: seq<seq<real>>, normB: seq<seq<real>>, i: nat, sqrt: real -> real) returns (average: real)
    requires 0 < |normB| && i + |normB| <= |normA|
    ensures average == WindowAverage(normA, normB, i, sqrt)
  {
    var sims: seq<real> := [];
    var j := 0;
    while j < |normB|
      invariant 0 <= j <= |normB|
      invariant |sims| == j
      invariant forall t :: 0 <= t < j ==> sims[t] == FrameSimilarity(normA[i + t], normB[t], sqrt)
    {
      sims := sims + [FrameSimilarity(normA[i + j], normB[j], sqrt)];
      j := j + 1;
    }
    assert sims == WindowSimilarities(normA, normB, i, sqrt);
    average := Sum(sims) / (|sims| as real);
  }
}
