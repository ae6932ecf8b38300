/** The FFmpeg compositing command: the filter graph that scales, fades and stacks each overlay on
    the video, the argument list around it, and the preparation of the overlay list from the
    stored overlays and their assets. */
module RenderCommand {
  import opened Wrappers
  import opened Numbers
  import opened Text
  import opened Lists
  import opened JsonNumbers

  /** An overlay's `position` object; every field may be missing, and x and y are JSON numbers
      (an int or a float). */
  datatype Position = Position(x: Option<Number>, y: Option<Number>, scaleX: Option<real>, scaleY: Option<real>)

  /** An overlay's `timing` object, in seconds, each an int or a float; every field may be missing. */
  datatype Timing = Timing(startTime: Option<Number>, endTime: Option<Number>,
                           fadeIn: Option<Number>, fadeOut: Option<Number>)

  /** One entry of the overlay list handed to the renderer. */
  datatype OverlayData = OverlayData(id: string, assetPath: string, format: string,
                                     position: Position, timing: Timing, layerOrder: int)

  /** A downloaded overlay: its local path and its entry. */
  datatype OverlayFile = OverlayFile(path: string, data: OverlayData)

  /** The values the filter graph uses once missing fields take their defaults. */
  datatype Resolved = Resolved(x: Number, y: Number, width: int, height: int,
                               start: Number, end: Number, fadeIn: Number, fadeOut: Number)

  function Resolve(d: OverlayData): (v: Resolved)
    ensures d.position.x.None? ==> v.x == Int(0)
    ensures d.position.y.None? ==> v.y == Int(0)
    ensures d.position.scaleX.None? ==> v.width == 100
    ensures d.position.scaleY.None? ==> v.height == 100
    ensures d.timing.startTime.None? ==> v.start == Int(0)
    ensures d.timing.endTime.None? ==> v.end == Int(30)
    ensures d.timing.fadeIn.None? ==> v.fadeIn == Int(0)
    ensures d.timing.fadeOut.None? ==> v.fadeOut == Int(0)
    ensures d.position.scaleX.Some? && d.position.scaleX.value >= 0.0 ==>
              v.width as real <= d.position.scaleX.value * 100.0 < v.width as real + 1.0
    ensures d.position.x.Some? ==> v.x == d.position.x.value
    ensures d.position.y.Some? ==> v.y == d.position.y.value
    ensures d.timing.startTime.Some? ==> v.start == d.timing.startTime.value
    ensures d.timing.endTime.Some? ==> v.end == d.timing.endTime.value
    ensures d.timing.fadeIn.Some? ==> v.fadeIn == d.timing.fadeIn.value
    ensures d.timing.fadeOut.Some? ==> v.fadeOut == d.timing.fadeOut.value
  {
    Resolved(d.position.x.GetOr(Int(0)), d.position.y.GetOr(Int(0)),
             Trunc(d.position.scaleX.GetOr(1.0) * 100.0), Trunc(d.position.scaleY.GetOr(1.0) * 100.0),
             d.timing.startTime.GetOr(Int(0)), d.timing.endTime.GetOr(Int(30)),
             d.timing.fadeIn.GetOr(Int(0)), d.timing.fadeOut.GetOr(Int(0)))
  }

  // ------------------------------------------------------- filter graph

  /** A stream label: input `i` (0 is the video), or the scaled, faded or stacked result of overlay `i`. */
  datatype Stream = Input(i: nat) | Scaled(i: nat) | Faded(i: nat) | Layer(i: nat)

  function StreamName(s: Stream): string
  {
    match s
    case Input(i) => NatToDecimal(i)
    case Scaled(i) => "scaled" + NatToDecimal(i)
    case Faded(i) => "faded" + NatToDecimal(i)
    case Layer(i) => "layer" + NatToDecimal(i)
  }

  datatype FadeOut = FadeOut(start: Number, duration: Number)

  /** One filter of the graph. */
  datatype FilterPart =
    | Scale(source: Stream, width: int, height: int, output: Stream)
    | Fade(source: Stream, start: Number, fadeIn: Number, fadeOut: Option<FadeOut>, output: Stream)
    | Overlay(base: Stream, top: Stream, x: Number, y: Number, start: Number, end: Number, output: Stream)

  function Label(s: Stream): string
  {
    "[" + StreamName(s) + "]"
  }

  /** The pieces of a filter's text in FFmpeg's filtergraph syntax. */
  function Pieces(p: FilterPart): seq<string>
  {
    match p
    case Scale(source, width, height, output) =>
      [Label(source), "scale=", IntToDecimal(width), ":", IntToDecimal(height), Label(output)]
    case Fade(source, start, fadeIn, fadeOut, output) =>
      [Label(source), "fade=t=in:st=", Str(start), ":d=", Str(fadeIn), ":alpha=1"]
      + (match fadeOut
         case None => []
         case Some(f) => [",fade=t=out:st=", Str(f.start), ":d=", Str(f.duration), ":alpha=1"])
      + [Label(output)]
    case Overlay(base, top, x, y, start, end, output) =>
      [Label(base), Label(top), "overlay=", Str(x), ":", Str(y),
       ":enable='between(t,", Str(start), ",", Str(end), ")'", Label(output)]
  }

  /** The filter's text. */
  function Show(p: FilterPart): string
  {
    Concat(Pieces(p))
  }

  /** The layer overlay `i` is stacked on: the video for the first, the previous layer after. */
  function BaseOf(i: nat): Stream
  {
    if i == 0 then Input(0) else Layer(i - 1)
  }

  /** The filters for overlay `i`: scale, an optional fade, then the overlay onto the current layer. */
  function OverlayParts(i: nat, d: OverlayData): (r: seq<FilterPart>)
    ensures var v := Resolve(d);
            (|r| == 3 <==> Value(v.fadeIn) > 0.0 || Value(v.fadeOut) > 0.0) && (|r| == 2 || |r| == 3)
    ensures r[0].Scale? && r[0].source == Input(i + 1) && r[0].output == Scaled(i)
    ensures |r| == 3 ==> r[1].Fade? && r[1].source == Scaled(i) && r[1].output == Faded(i)
    ensures |r| == 3 ==> (r[1].fadeOut.Some? <==> Value(Resolve(d).fadeOut) > 0.0)
    ensures var last := r[|r| - 1];
            last.Overlay? && last.base == BaseOf(i) && last.top == r[|r| - 2].output && last.output == Layer(i)
    ensures var last := r[|r| - 1];
            last.start == Resolve(d).start && last.end == Resolve(d).end
  {
    var v := Resolve(d);
    var scale := Scale(Input(i + 1), v.width, v.height, Scaled(i));
    if Positive(v.fadeIn) || Positive(v.fadeOut) then
      var fadeOut := if Positive(v.fadeOut) then Some(FadeOut(Sub(v.end, v.fadeOut), v.fadeOut)) else None;
      [scale, Fade(Scaled(i), v.start, v.fadeIn, fadeOut, Faded(i)),
       Overlay(BaseOf(i), Faded(i), v.x, v.y, v.start, v.end, Layer(i))]
    else
      [scale, Overlay(BaseOf(i), Scaled(i), v.x, v.y, v.start, v.end, Layer(i))]
  }

  /** The numbers each filter of an overlay prints: the scaled size, the fade-in from the start
      time, the fade-out from `end - fadeOut` (a float unless both are ints), and the position. */
  lemma OverlayPartsValues(i: nat, d: OverlayData)
    ensures var r, v := OverlayParts(i, d), Resolve(d);
            r[0].width == v.width && r[0].height == v.height &&
            r[|r| - 1].x == v.x && r[|r| - 1].y == v.y
    ensures var r, v := OverlayParts(i, d), Resolve(d);
            |r| == 3 ==> r[1].start == v.start && r[1].fadeIn == v.fadeIn
    ensures var r, v := OverlayParts(i, d), Resolve(d);
            |r| == 3 && r[1].fadeOut.Some? ==>
              r[1].fadeOut.value.duration == v.fadeOut &&
              Value(r[1].fadeOut.value.start) == Value(v.end) - Value(v.fadeOut) &&
              (r[1].fadeOut.value.start.Int? <==> v.end.Int? && v.fadeOut.Int?)
  {
  }

  /** A placement with 0.3-second fades from 1.5 to 4.5 seconds, as the repository's placement
      generators store them, fades in at "1.5" and out at "4.2", each for "0.3" seconds. */
  lemma FractionalFadeFilter()
    ensures var d := OverlayData("o", "a.gif", "gif", Position(None, None, None, None),
                                 Timing(Some(Float(15, 1)), Some(Float(45, 1)), Some(Float(3, 1)), Some(Float(3, 1))), 1);
            var f := OverlayParts(0, d)[1];
            f == Fade(Scaled(0), Float(15, 1), Float(3, 1), Some(FadeOut(Float(42, 1), Float(3, 1))), Faded(0)) &&
            Str(f.start) == "1.5" && Str(f.fadeIn) == "0.3" && Str(f.fadeOut.value.start) == "4.2"
  {
    var d := OverlayData("o", "a.gif", "gif", Position(None, None, None, None),
                         Timing(Some(Float(15, 1)), Some(Float(45, 1)), Some(Float(3, 1)), Some(Float(3, 1))), 1);
    var v := Resolve(d);
    assert v.start == Float(15, 1) && v.end == Float(45, 1) && v.fadeIn == Float(3, 1) && v.fadeOut == Float(3, 1);
    assert Positive(Float(3, 1));
    assert Sub(Float(45, 1), Float(3, 1)) == Float(42, 1);
    StrOfTenths(0, 3);
    StrOfTenths(1, 5);
    StrOfTenths(4, 2);
  }

  /** The whole graph: the overlays' filters in list order. */
  function Graph(files: seq<OverlayFile>): seq<FilterPart>
  {
    if |files| == 0 then []
    else Graph(files[..|files| - 1]) + OverlayParts(|files| - 1, files[|files| - 1].data)
  }

  /** `_build_filter_complex`: the filters joined with ";". */
  function FilterComplex(files: seq<OverlayFile>): string
  {
    Join(";", Mapped(Graph(files), Show))
  }

  /** The streams a filter reads. */
  function Reads(p: FilterPart): seq<Stream>
  {
    match p
    case Scale(source, _, _, _) => [source]
    case Fade(source, _, _, _, _) => [source]
    case Overlay(base, top, _, _, _, _, _) => [base, top]
  }

  predicate WrittenBefore(g: seq<FilterPart>, j: int, s: Stream)
    requires j <= |g|
  {
    exists k :: 0 <= k < j && g[k].output == s
  }

  predicate ReadsDefined(g: seq<FilterPart>, inputs: nat)
  {
    forall j, s :: 0 <= j < |g| && s in Reads(g[j]) ==> (s.Input? && s.i <= inputs) || WrittenBefore(g, j, s)
  }

  predicate WritesOnce(g: seq<FilterPart>)
  {
    forall j, k :: 0 <= j < k < |g| ==> g[j].output != g[k].output
  }

  /** Every stream written is a result (never an input) of one of the first `n` overlays. */
  predicate WritesBelow(g: seq<FilterPart>, n: nat)
  {
    forall j :: 0 <= j < |g| ==> !g[j].output.Input? && g[j].output.i < n
  }

  /** Every filter reads an input file or a stream an earlier filter wrote, and no stream is written twice. */
  predicate WellChained(g: seq<FilterPart>, inputs: nat)
  {
    ReadsDefined(g, inputs) && WritesOnce(g) && WritesBelow(g, inputs + 1)
  }

  /** The filters of `n` overlays write distinct streams of those overlays and end with the last layer. */
  lemma {:induction false} GraphWrites(files: seq<OverlayFile>)
    ensures WritesBelow(Graph(files), |files|) && WritesOnce(Graph(files))
    ensures |files| > 0 ==> |Graph(files)| > 0 && Graph(files)[|Graph(files)| - 1].output == Layer(|files| - 1)
  {
    if |files| > 0 {
      var n := |files|;
      var init := files[..n - 1];
      GraphWrites(init);
      var p := OverlayParts(n - 1, files[n - 1].data);
      PartsWriteOwn(n - 1, files[n - 1].data);
      AppendWrites(Graph(init), p, n);
    }
  }

  /** One overlay's filters write distinct results of that overlay. */
  lemma PartsWriteOwn(i: nat, d: OverlayData)
    ensures var p := OverlayParts(i, d);
      WritesOnce(p) && forall j :: 0 <= j < |p| ==> !p[j].output.Input? && p[j].output.i == i
  {
  }

  /** Appending the filters of overlay `n - 1` to those of the earlier overlays keeps every write distinct. */
  lemma AppendWrites(g0: seq<FilterPart>, p: seq<FilterPart>, n: nat)
    requires 0 < n && 0 < |p|
    requires WritesBelow(g0, n - 1) && WritesOnce(g0) && WritesOnce(p)
    requires forall j :: 0 <= j < |p| ==> !p[j].output.Input? && p[j].output.i == n - 1
    ensures WritesBelow(g0 + p, n) && WritesOnce(g0 + p)
    ensures (g0 + p)[|g0 + p| - 1] == p[|p| - 1]
  {
    var g := g0 + p;
    assert forall j :: 0 <= j < |g0| ==> g[j] == g0[j];
    assert forall j :: |g0| <= j < |g| ==> g[j] == p[j - |g0|];
  }

  lemma WrittenBeforeExtends(g0: seq<FilterPart>, p: seq<FilterPart>, j: int, s: Stream)
    requires 0 <= j <= |g0| && WrittenBefore(g0, j, s)
    ensures WrittenBefore(g0 + p, j, s)
  {
    var k :| 0 <= k < j && g0[k].output == s;
    assert (g0 + p)[k] == g0[k];
  }

  /** The filters of one more overlay read only the new input, their own results and the last layer so far. */
  lemma NextOverlayReads(files: seq<OverlayFile>, j: int, s: Stream)
    requires |files| > 0
    requires |Graph(files[..|files| - 1])| <= j < |Graph(files)| && s in Reads(Graph(files)[j])
    ensures (s.Input? && s.i <= |files|) || WrittenBefore(Graph(files), j, s)
  {
    var n := |files|;
    var init := files[..n - 1];
    var g0 := Graph(init);
    var p := OverlayParts(n - 1, files[n - 1].data);
    var g := Graph(files);
    assert g == g0 + p;
    assert g[j] == p[j - |g0|];
    if j == |g0| {
      assert s == Input(n);
    } else if j == |g| - 1 {
      if s == p[|p| - 2].output {
        assert g[|g| - 2] == p[|p| - 2];
      } else if n > 1 {
        GraphWrites(init);
        assert g[|g0| - 1] == g0[|g0| - 1];
      }
    } else {
      assert g[j] == p[1] && s == Scaled(n - 1);
      assert g[|g0|] == p[0];
    }
  }

  lemma {:induction false} GraphReads(files: seq<OverlayFile>)
    ensures ReadsDefined(Graph(files), |files|)
  {
    if |files| > 0 {
      var n := |files|;
      var init := files[..n - 1];
      GraphReads(init);
      var g0 := Graph(init);
      var g := Graph(files);
      assert g == g0 + OverlayParts(n - 1, files[n - 1].data);
      forall j, s | 0 <= j < |g| && s in Reads(g[j])
        ensures (s.Input? && s.i <= n) || WrittenBefore(g, j, s)
      {
        if j < |g0| {
          assert g[j] == g0[j];
          if !(s.Input? && s.i <= n - 1) {
            WrittenBeforeExtends(g0, OverlayParts(n - 1, files[n - 1].data), j, s);
          }
        } else {
          NextOverlayReads(files, j, s);
        }
      }
    }
  }

  /** The graph of `n` overlays is well chained over the video and `n` overlay inputs, and it ends
      by writing the last layer. */
  lemma GraphChained(files: seq<OverlayFile>)
    ensures WellChained(Graph(files), |files|)
    ensures |files| > 0 ==> |Graph(files)| > 0 && Graph(files)[|Graph(files)| - 1].output == Layer(|files| - 1)
  {
    GraphWrites(files);
    GraphReads(files);
  }

  lemma IntNoSeparator(i: int)
    ensures ';' !in IntToDecimal(i)
  {
    DecimalCharacters(i, ';');
  }

  lemma NumberNoSeparator(n: Number)
    ensures ';' !in Str(n)
  {
    StrCharacters(n, ';');
  }

  lemma LabelNoSeparator(s: Stream)
    ensures ';' !in Label(s)
  {
    assert forall k :: 0 <= k < |NatToDecimal(s.i)| ==> IsDigit(NatToDecimal(s.i)[k]);
  }

  predicate Free(pieces: seq<string>)
  {
    forall k :: 0 <= k < |pieces| ==> ';' !in pieces[k]
  }

  lemma ScaleNoSeparator(source: Stream, width: int, height: int, output: Stream)
    ensures Free(Pieces(Scale(source, width, height, output)))
  {
    LabelNoSeparator(source);
    LabelNoSeparator(output);
    IntNoSeparator(width);
    IntNoSeparator(height);
  }

  /** The fixed text of the fade and overlay filters holds no ";". */
  lemma FilterTextFree()
    ensures ';' !in "fade=t=in:st=" && ';' !in ":d=" && ';' !in ":alpha=1" && ';' !in ",fade=t=out:st="
    ensures ';' !in "overlay=" && ';' !in ":" && ';' !in ":enable='between(t," && ';' !in "," && ';' !in ")'"
  {
  }

  lemma FreeAppend(a: seq<string>, b: seq<string>)
    requires Free(a) && Free(b)
    ensures Free(a + b)
  {
    forall k | 0 <= k < |a + b|
      ensures ';' !in (a + b)[k]
    {
      if k >= |a| {
        assert (a + b)[k] == b[k - |a|];
      }
    }
  }

  lemma FadeNoSeparator(source: Stream, start: Number, fadeIn: Number, fadeOut: Option<FadeOut>, output: Stream)
    ensures Free(Pieces(Fade(source, start, fadeIn, fadeOut, output)))
  {
    LabelNoSeparator(source);
    LabelNoSeparator(output);
    NumberNoSeparator(start);
    NumberNoSeparator(fadeIn);
    FilterTextFree();
    var head := [Label(source), "fade=t=in:st=", Str(start), ":d=", Str(fadeIn), ":alpha=1"];
    var tail := match fadeOut
      case None => []
      case Some(f) => [",fade=t=out:st=", Str(f.start), ":d=", Str(f.duration), ":alpha=1"];
    if fadeOut.Some? {
      NumberNoSeparator(fadeOut.value.start);
      NumberNoSeparator(fadeOut.value.duration);
    }
    FreeAppend(head, tail);
    FreeAppend(head + tail, [Label(output)]);
  }

  lemma OverlayNoSeparator(base: Stream, top: Stream, x: Number, y: Number, start: Number, end: Number, output: Stream)
    ensures Free(Pieces(Overlay(base, top, x, y, start, end, output)))
  {
    LabelNoSeparator(base);
    LabelNoSeparator(top);
    LabelNoSeparator(output);
    NumberNoSeparator(x);
    NumberNoSeparator(y);
    NumberNoSeparator(start);
    NumberNoSeparator(end);
    FilterTextFree();
    var head := [Label(base), Label(top), "overlay=", Str(x), ":", Str(y)];
    var tail := [":enable='between(t,", Str(start), ",", Str(end), ")'", Label(output)];
    assert Free(head);
    assert Free(tail);
    FreeAppend(head, tail);
    assert Pieces(Overlay(base, top, x, y, start, end, output)) == head + tail;
  }

  /** No filter text contains ";", so the joined graph splits back into its filters. */
  lemma NoSeparator(p: FilterPart)
    ensures ';' !in Show(p)
    ensures |Show(p)| > 0 && Show(p)[0] == '['
  {
    match p {
      case Scale(source, width, height, output) => ScaleNoSeparator(source, width, height, output);
      case Fade(source, start, fadeIn, fadeOut, output) => FadeNoSeparator(source, start, fadeIn, fadeOut, output);
      case Overlay(base, top, x, y, start, end, output) => OverlayNoSeparator(base, top, x, y, start, end, output);
    }
    ConcatAvoids(Pieces(p), ';');
    ConcatStartsWith(Pieces(p));
  }

  /** Filters joined with ";" make a non-empty text that splits back into the filters' texts. */
  lemma JoinedFiltersSplit(g: seq<FilterPart>)
    requires |g| > 0
    ensures var parts := Mapped(g, Show);
            Join(";", parts) != "" && Split(Join(";", parts), ';') == parts
  {
    var parts := Mapped(g, Show);
    forall k | 0 <= k < |g|
      ensures ';' !in parts[k] && parts[k] != ""
    {
      NoSeparator(g[k]);
    }
    SplitJoin(parts, ';');
    JoinStartsWithFirst(";", parts);
  }

  /** `_build_filter_complex` is empty exactly when there are no overlays, and otherwise splits on
      ";" into exactly the graph's filters. */
  lemma FilterComplexParts(files: seq<OverlayFile>)
    ensures FilterComplex(files) == "" <==> |files| == 0
    ensures |files| > 0 ==> Split(FilterComplex(files), ';') == Mapped(Graph(files), Show)
  {
    if |files| > 0 {
      GraphWrites(files);
      JoinedFiltersSplit(Graph(files));
    }
  }

  /** One turn of `_build_filter_complex`'s loop: the scale, optional fade and overlay filters of
      overlay `i`, stacked on the current layer. */
  method AppendOverlayFilters(filters: seq<FilterPart>, i: nat, data: OverlayData, current: Stream)
    returns (r: seq<FilterPart>)
    requires current == BaseOf(i)
    ensures r == filters + OverlayParts(i, data)
  {
    var v := Resolve(data);
    var scale := Scale(Input(i + 1), v.width, v.height, Scaled(i));
    if Positive(v.fadeIn) || Positive(v.fadeOut) {
      var fadeOut := if Positive(v.fadeOut) then Some(FadeOut(Sub(v.end, v.fadeOut), v.fadeOut)) else None;
      var fade := Fade(Scaled(i), v.start, v.fadeIn, fadeOut, Faded(i));
      r := filters + [scale, fade, Overlay(current, Faded(i), v.x, v.y, v.start, v.end, Layer(i))];
    } else {
      r := filters + [scale, Overlay(current, Scaled(i), v.x, v.y, v.start, v.end, Layer(i))];
    }
  }

  /** The graph of one more overlay adds that overlay's filters. */
  lemma GraphStep(files: seq<OverlayFile>, i: nat)
    requires i < |files|
    ensures Graph(files[..i + 1]) == Graph(files[..i]) + OverlayParts(i, files[i].data)
  {
    assert files[..i + 1][..i] == files[..i];
  }

  /** The loop of `_build_filter_complex`, threading the current layer through the overlays. */
  method CollectFilters(files: seq<OverlayFile>) returns (filters: seq<FilterPart>)
    ensures filters == Graph(files)
  {
    filters := [];
    var current := Input(0);
    var i := 0;
    while i < |files|
      invariant 0 <= i <= |files|
      invariant filters == Graph(files[..i])
      invariant current == BaseOf(i)
    {
      GraphStep(files, i);
      filters := AppendOverlayFilters(filters, i, files[i].data, current);
      current := Layer(i);
      i := i + 1;
    }
    assert files[..i] == files;
  }

  /** `_build_filter_complex`: "" without overlays, otherwise the filters collected as values and
      rendered when joined with ";". */
  method BuildFilterComplex(files: seq<OverlayFile>) returns (r: string)
    ensures r == FilterComplex(files)
  {
    if |files| == 0 {
      return "";
    }
    var filters := CollectFilters(files);
    r := Join(";", Mapped(filters, Show));
  }

  // ------------------------------------------------------------ command

  /** The `output_settings` keys the command reads; each may be missing. */
  datatype Settings = Settings(resolution: Option<string>, quality: Option<string>, fps: Option<int>)

  /** The constant rate factor for a quality name: lower is better. */
  function Crf(quality: Option<string>): (r: string)
    ensures r == "18" <==> quality.None? || quality == Some("high")
    ensures r == "23" <==> quality == Some("medium")
    ensures r == "28" <==> quality.Some? && quality.value != "high" && quality.value != "medium"
  {
    var q := quality.GetOr("high");
    if q == "high" then "18" else if q == "medium" then "23" else "28"
  }

  /** `-i <path>` for each overlay file, in order. */
  function InputArgs(paths: seq<string>): (r: seq<string>)
    ensures |r| == 2 * |paths|
    ensures forall k :: 0 <= k < |paths| ==> r[2 * k] == "-i" && r[2 * k + 1] == paths[k]
  {
    if |paths| == 0 then []
    else InputArgs(paths[..|paths| - 1]) + ["-i", paths[|paths| - 1]]
  }

  /** Encoder, rate, size and audio options: the quality's crf, then fps and size, missing ones defaulted. */
  function OutputOptions(settings: Settings): (r: seq<string>)
    ensures |r| == 14
    ensures r[0] == "-crf" && r[1] == Crf(settings.quality)
    ensures r[6] == "-r" && r[7] == IntToDecimal(settings.fps.GetOr(30))
    ensures r[8] == "-s" && r[9] == settings.resolution.GetOr("1920x1080")
  {
    ["-crf", Crf(settings.quality),
     "-c:v", "libx264", "-preset", "medium",
     "-r", IntToDecimal(settings.fps.GetOr(30)), "-s", settings.resolution.GetOr("1920x1080"),
     "-c:a", "aac", "-b:a", "128k"]
  }

  /** The argument list for a video, the overlay paths and an already built filter graph. */
  function CommandWith(videoPath: string, paths: seq<string>, filter: string, outputPath: string, settings: Settings): seq<string>
  {
    ["ffmpeg", "-y", "-i", videoPath] + InputArgs(paths)
    + (if filter != "" then ["-filter_complex", filter] else [])
    + OutputOptions(settings) + [outputPath]
  }

  function PathOf(f: OverlayFile): string
  {
    f.path
  }

  function Command(videoPath: string, files: seq<OverlayFile>, outputPath: string, settings: Settings): seq<string>
  {
    CommandWith(videoPath, Mapped(files, PathOf), FilterComplex(files), outputPath, settings)
  }

  /** Where each argument sits: the video first, one `-i` per overlay in order, the filter graph
      exactly when it is non-empty, the encoder options, and the output path last. */
  lemma CommandLayout(videoPath: string, paths: seq<string>, filter: string, outputPath: string, settings: Settings)
    ensures var r := CommandWith(videoPath, paths, filter, outputPath, settings);
            var n := |paths|;
            var f := if filter != "" then 2 else 0;
            |r| == 4 + 2 * n + f + 15 && r[|r| - 1] == outputPath &&
            r[..4] == ["ffmpeg", "-y", "-i", videoPath] &&
            (forall k :: 0 <= k < n ==> r[4 + 2 * k] == "-i" && r[5 + 2 * k] == paths[k]) &&
            (r[4 + 2 * n] == "-filter_complex" <==> filter != "") &&
            (filter != "" ==> r[5 + 2 * n] == filter) &&
            r[4 + 2 * n + f..] == OutputOptions(settings) + [outputPath]
  {
    var r := CommandWith(videoPath, paths, filter, outputPath, settings);
    var n := |paths|;
    var inputs := InputArgs(paths);
    var head := ["ffmpeg", "-y", "-i", videoPath] + inputs;
    var middle := if filter != "" then ["-filter_complex", filter] else [];
    var tail := OutputOptions(settings) + [outputPath];
    assert r == head + middle + tail;
    assert forall k :: 0 <= k < n ==> r[4 + 2 * k] == head[4 + 2 * k] == inputs[2 * k];
    assert forall k :: 0 <= k < n ==> r[5 + 2 * k] == head[5 + 2 * k] == inputs[2 * k + 1];
    assert r[4 + 2 * n + |middle|..] == tail;
  }

  /** The filter graph argument is present exactly when there are overlays. */
  lemma CommandHasFilterIffOverlays(videoPath: string, files: seq<OverlayFile>, outputPath: string, settings: Settings)
    ensures var r := Command(videoPath, files, outputPath, settings);
            |r| > 4 + 2 * |files| && (r[4 + 2 * |files|] == "-filter_complex" <==> |files| > 0)
  {
    FilterComplexParts(files);
    CommandLayout(videoPath, Mapped(files, PathOf), FilterComplex(files), outputPath, settings);
  }

  /** With no settings the command asks for crf 18 at 30 fps and 1920x1080. */
  lemma DefaultSettings()
    ensures var r := OutputOptions(Settings(None, None, None));
            r[1] == "18" && r[7] == "30" && r[9] == "1920x1080"
  {
    assert NatToDecimal(30) == NatToDecimal(3) + [DigitChar(0)];
  }

  /** `_build_ffmpeg_command`: builds the filter graph, then the argument list around it. */
  method BuildFfmpegCommand(videoPath: string, files: seq<OverlayFile>, outputPath: string, settings: Settings)
    returns (cmd: seq<string>)
    ensures cmd == Command(videoPath, files, outputPath, settings)
  {
    var filter := BuildFilterComplex(files);
    cmd := AssembleCommand(videoPath, files, filter, outputPath, settings);
  }

  /** The argument list of `_build_ffmpeg_command` around a built filter graph, grown in order. */
  method AssembleCommand(videoPath: string, files: seq<OverlayFile>, filter: string, outputPath: string, settings: Settings)
    returns (cmd: seq<string>)
    ensures cmd == CommandWith(videoPath, Mapped(files, PathOf), filter, outputPath, settings)
  {
    ghost var paths := Mapped(files, PathOf);
    cmd := ["ffmpeg", "-y"];
    cmd := cmd + ["-i", videoPath];
    var i := 0;
    while i < |files|
      invariant 0 <= i <= |files|
      invariant cmd == ["ffmpeg", "-y", "-i", videoPath] + InputArgs(paths[..i])
    {
      assert paths[..i + 1][..i] == paths[..i];
      cmd := cmd + ["-i", files[i].path];
      i := i + 1;
    }
    assert paths[..i] == paths;
    if filter != "" {
      cmd := cmd + ["-filter_complex", filter];
    }
    var options := BuildOutputOptions(settings);
    cmd := cmd + options + [outputPath];
  }

  /** The quality, rate, size and audio options of `_build_ffmpeg_command`, missing settings defaulted. */
  method BuildOutputOptions(settings: Settings) returns (options: seq<string>)
    ensures options == OutputOptions(settings)
  {
    var resolution := settings.resolution.GetOr("1920x1080");
    var quality := settings.quality.GetOr("high");
    var fps := settings.fps.GetOr(30);
    var crf;
    if quality == "high" {
      crf := "18";
    } else if quality == "medium" {
      crf := "23";
    } else {
      crf := "28";
    }
    options := ["-crf", crf];
    options := options + ["-c:v", "libx264", "-preset", "medium", "-r", IntToDecimal(fps), "-s", resolution];
    options := options + ["-c:a", "aac", "-b:a", "128k"];
  }

  // --------------------------------------------------- overlay preparation

  datatype OverlayRecord = OverlayRecord(id: string, assetId: string, positionData: Position,
                                         timingData: Timing, layerOrder: int)

  datatype ArtistAsset = ArtistAsset(id: string, filePath: string, assetType: string)

  /** `{asset.id: asset for asset in assets}`: a later asset with the same id wins. */
  function AssetMap(assets: seq<ArtistAsset>): (m: map<string, ArtistAsset>)
    ensures forall a :: a in assets ==> a.id in m
    ensures forall id :: id in m ==> m[id] in assets && m[id].id == id
  {
    if |assets| == 0 then map[]
    else
      var last := assets[|assets| - 1];
      AssetMap(assets[..|assets| - 1])[last.id := last]
  }

  function Prepared(o: OverlayRecord, a: ArtistAsset): OverlayData
  {
    OverlayData(o.id, a.filePath, a.assetType, o.positionData, o.timingData, o.layerOrder)
  }

  predicate HasAsset(o: OverlayRecord, m: map<string, ArtistAsset>)
  {
    o.assetId in m
  }

  /** The overlays whose asset is known, turned into renderer entries, in their original order. */
  function Collected(overlays: seq<OverlayRecord>, m: map<string, ArtistAsset>): (r: seq<OverlayData>)
    ensures |r| <= |overlays|
    ensures forall d :: d in r ==>
              exists o :: o in overlays && HasAsset(o, m) && d == Prepared(o, m[o.assetId])
    ensures forall i :: 0 <= i < |overlays| && HasAsset(overlays[i], m) ==>
              Prepared(overlays[i], m[overlays[i].assetId]) in r
  {
    if |overlays| == 0 then []
    else
      var init, o := overlays[..|overlays| - 1], overlays[|overlays| - 1];
      var rest := Collected(init, m);
      assert forall i :: 0 <= i < |init| ==> init[i] == overlays[i];
      assert overlays == init + [o];
      if HasAsset(o, m) then rest + [Prepared(o, m[o.assetId])] else rest
  }

  function LayerKey(d: OverlayData): real
  {
    d.layerOrder as real
  }

  /** The overlay list `render_video_with_overlays` hands to the renderer. */
  function PreparedOverlays(overlays: seq<OverlayRecord>, assets: seq<ArtistAsset>): seq<OverlayData>
  {
    SortBy(Collected(overlays, AssetMap(assets)), LayerKey)
  }

  /** The prepared list holds exactly the overlays with a known asset, ordered by layer, with
      overlays on the same layer in their original order. */
  lemma PreparedOverlaysProperties(overlays: seq<OverlayRecord>, assets: seq<ArtistAsset>)
    ensures var r := PreparedOverlays(overlays, assets);
            var kept := Collected(overlays, AssetMap(assets));
            SortedBy(r, LayerKey) && multiset(r) == multiset(kept) &&
            (forall layer: real :: WithKey(r, LayerKey, layer) == WithKey(kept, LayerKey, layer))
  {
    var kept := Collected(overlays, AssetMap(assets));
    forall layer: real
      ensures WithKey(PreparedOverlays(overlays, assets), LayerKey, layer) == WithKey(kept, LayerKey, layer)
    {
      SortByStable(kept, LayerKey, layer);
    }
  }

  /** The preparation part of `render_video_with_overlays`. */
  method PrepareOverlayData(overlays: seq<OverlayRecord>, assets: seq<ArtistAsset>) returns (r: seq<OverlayData>)
    ensures r == PreparedOverlays(overlays, assets)
  {
    var assetMap: map<string, ArtistAsset> := map[];
    var i := 0;
    while i < |assets|
      invariant 0 <= i <= |assets|
      invariant assetMap == AssetMap(assets[..i])
    {
      assert assets[..i + 1][..i] == assets[..i];
      assetMap := assetMap[assets[i].id := assets[i]];
      i := i + 1;
    }
    assert assets[..i] == assets;
    var collected: seq<OverlayData> := [];
    i := 0;
    while i < |overlays|
      invariant 0 <= i <= |overlays|
      invariant collected == Collected(overlays[..i], assetMap)
    {
      assert overlays[..i + 1][..i] == overlays[..i];
      var o := overlays[i];
      if o.assetId in assetMap {
        var asset := assetMap[o.assetId];
        collected := collected + [OverlayData(o.id, asset.filePath, asset.assetType,
                                              o.positionData, o.timingData, o.layerOrder)];
      }
      i := i + 1;
    }
    assert overlays[..i] == overlays;
    r := SortBy(collected, LayerKey);
  }
}
