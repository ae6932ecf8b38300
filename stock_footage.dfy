/** Environmental stock footage from Pexels: turning the videos a search answers into footage
    entries, the curated selection with its keyword filter, the fixed list of categories, and the
    category lookup behind the inspiration feed. What Pexels answers is a function parameter; a
    request that fails answers nothing. */
module StockFootage {
  import opened Wrappers
  import opened Text
  import opened Numbers

  datatype VideoFile = VideoFile(quality: Option<string>, link: string)

  /** A video as Pexels describes it; a missing user name is `None`. */
  datatype PexelsVideo = PexelsVideo(id: int, userName: Option<string>, userUrl: string, duration: int,
                                     width: int, height: int, image: string, files: seq<VideoFile>,
                                     tags: seq<string>)

  /** One footage entry; only curated entries carry the tags. */
  datatype Footage = Footage(id: int, title: string, description: string, previewUrl: string,
                             videoUrl: string, duration: int, width: int, height: int,
                             photographer: string, photographerUrl: string, source: string,
                             tags: Option<seq<string>>)

  datatype Category = Category(name: string, query: string, description: string)

  /** `if not self.api_key`: a missing or empty key disables the service. */
  predicate Configured(key: Option<string>)
  {
    key.Some? && key.value != ""
  }

  // ------------------------------------------------------------- one video

  /** The index of the first HD file, or `|files|` when there is none. */
  function FirstHd(files: seq<VideoFile>): (k: nat)
    ensures k <= |files|
    ensures forall j :: 0 <= j < k ==> files[j].quality != Some("hd")
    ensures k < |files| ==> files[k].quality == Some("hd")
  {
    if |files| == 0 then 0
    else if files[0].quality == Some("hd") then 0
    else 1 + FirstHd(files[1..])
  }

  /** The file whose link a footage entry uses: the first HD one, otherwise the first. */
  function ChosenFile(files: seq<VideoFile>): (f: VideoFile)
    requires |files| > 0
    ensures f in files
    ensures (exists j :: 0 <= j < |files| && files[j].quality == Some("hd")) ==>
              f == files[FirstHd(files)] && f.quality == Some("hd")
    ensures (forall j :: 0 <= j < |files| ==> files[j].quality != Some("hd")) ==> f == files[0]
  {
    var k := FirstHd(files);
    if k < |files| then files[k] else files[0]
  }

  /** The entry built for a video that has files. */
  function ToFootage(v: PexelsVideo, withTags: bool): (e: Footage)
    requires |v.files| > 0
    ensures e.id == v.id && e.videoUrl == ChosenFile(v.files).link && e.source == "pexels"
    ensures e.photographer == v.userName.GetOr("Unknown")
    ensures e.tags == if withTags then Some(v.tags) else None
  {
    var name := v.userName.GetOr("Unknown");
    Footage(v.id, "Environmental footage by " + name, "Duration: " + IntToDecimal(v.duration) + "s",
            v.image, ChosenFile(v.files).link, v.duration, v.width, v.height, name, v.userUrl, "pexels",
            if withTags then Some(v.tags) else None)
  }

  // ------------------------------------------------------------- search

  /** The entries of the videos that have files, in order. */
  function Converted(vs: seq<PexelsVideo>): (r: seq<Footage>)
    ensures |r| <= |vs|
  {
    if |vs| == 0 then []
    else
      var rest := Converted(vs[..|vs| - 1]);
      var v := vs[|vs| - 1];
      if |v.files| == 0 then rest else rest + [ToFootage(v, false)]
  }

  /** Videos without files are skipped. */
  lemma {:induction false} ConvertedSkipsEmpty(vs: seq<PexelsVideo>)
    requires forall i :: 0 <= i < |vs| ==> |vs[i].files| == 0
    ensures Converted(vs) == []
  {
    if |vs| > 0 {
      var init := vs[..|vs| - 1];
      assert forall i :: 0 <= i < |init| ==> init[i] == vs[i];
      ConvertedSkipsEmpty(init);
    }
  }

  /** When every video has files, each gives its entry, in order. */
  lemma {:induction false} ConvertedKeepsAll(vs: seq<PexelsVideo>)
    requires forall i :: 0 <= i < |vs| ==> |vs[i].files| > 0
    ensures |Converted(vs)| == |vs|
    ensures forall i :: 0 <= i < |vs| ==> Converted(vs)[i] == ToFootage(vs[i], false)
  {
    if |vs| > 0 {
      var init := vs[..|vs| - 1];
      assert forall i :: 0 <= i < |init| ==> init[i] == vs[i];
      ConvertedKeepsAll(init);
      var r := Converted(vs);
      assert r == Converted(init) + [ToFootage(vs[|vs| - 1], false)];
      forall i | 0 <= i < |vs|
        ensures r[i] == ToFootage(vs[i], false)
      {
        if i < |init| {
          assert r[i] == Converted(init)[i] == ToFootage(init[i], false);
          assert init[i] == vs[i];
        } else {
          assert i == |init|;
        }
      }
    }
  }

  /** `search_environmental_videos`, given the videos Pexels answered for the query and limit. */
  function SearchEnvironmental(key: Option<string>, search: (string, int) -> seq<PexelsVideo>, query: string, limit: int)
    : seq<Footage>
  {
    if Configured(key) then Converted(search(query, limit)) else []
  }

  /** The loop of `search_environmental_videos`. */
  method SearchEnvironmentalVideos(key: Option<string>, search: (string, int) -> seq<PexelsVideo>, query: string, limit: int)
    returns (videos: seq<Footage>)
    ensures videos == SearchEnvironmental(key, search, query, limit)
  {
    if !Configured(key) {
      return [];
    }
    var data := search(query, limit);
    videos := [];
    var i := 0;
    while i < |data|
      invariant 0 <= i <= |data|
      invariant videos == Converted(data[..i])
    {
      assert data[..i + 1][..i] == data[..i];
      var video := data[i];
      i := i + 1;
      if |video.files| == 0 {
        continue;
      }
      videos := videos + [ToFootage(video, false)];
    }
    assert data[..i] == data;
  }

  // ------------------------------------------------------------- curated

  const EnvironmentalKeywords: seq<string> := ["nature", "park", "street", "city", "forest", "beach", "urban", "outdoor"]

  /** Some keyword occurs in the lower-cased, space-joined tags. */
  predicate Environmental(tags: seq<string>)
  {
    exists k :: 0 <= k < |EnvironmentalKeywords| && Contains(Lower(Join(" ", tags)), EnvironmentalKeywords[k])
  }

  lemma {:induction false} JoinContainsPart(sep: string, parts: seq<string>, i: nat)
    requires i < |parts|
    ensures Contains(Join(sep, parts), parts[i])
  {
    var j := Join(sep, parts);
    if i == 0 {
      if |parts| == 1 {
        assert OccursAt(j, parts[0], 0);
      } else {
        assert j == parts[0] + sep + Join(sep, parts[1..]);
        assert OccursAt(j, parts[0], 0);
      }
    } else {
      var rest := Join(sep, parts[1..]);
      JoinContainsPart(sep, parts[1..], i - 1);
      var p :| 0 <= p <= |rest| && OccursAt(rest, parts[i], p);
      var offset := |parts[0] + sep|;
      assert j == (parts[0] + sep) + rest;
      assert j[offset + p..offset + p + |parts[i]|] == rest[p..p + |parts[i]|];
      assert OccursAt(j, parts[i], offset + p);
    }
  }

  lemma LowerContains(haystack: string, needle: string)
    requires Contains(haystack, needle)
    ensures Contains(Lower(haystack), Lower(needle))
  {
    var p :| 0 <= p <= |haystack| && OccursAt(haystack, needle, p);
    assert Lower(haystack)[p..p + |needle|] == Lower(needle);
    assert OccursAt(Lower(haystack), Lower(needle), p);
  }

  /** A tag that is a keyword in any letter case makes a video environmental. */
  lemma KeywordTagIsEnvironmental(tags: seq<string>, i: nat, k: nat)
    requires i < |tags| && k < |EnvironmentalKeywords|
    requires Lower(tags[i]) == EnvironmentalKeywords[k]
    ensures Environmental(tags)
  {
    JoinContainsPart(" ", tags, i);
    LowerContains(Join(" ", tags), tags[i]);
  }

  /** The state of the curated loop: the entries taken so far and whether it stopped. */
  datatype Scan = Scan(taken: seq<Footage>, stopped: bool)

  /** The curated loop over `vs`: a video with files is taken when it is environmental or fewer
      than half the limit were taken, and the loop stops once the limit is reached. */
  function CuratedScan(vs: seq<PexelsVideo>, limit: int): (s: Scan)
    ensures |s.taken| <= |vs|
    ensures |s.taken| <= MaxInt(limit, 1)
    ensures !s.stopped ==> |s.taken| < MaxInt(limit, 1)
  {
    if |vs| == 0 then Scan([], false)
    else
      var prev := CuratedScan(vs[..|vs| - 1], limit);
      var v := vs[|vs| - 1];
      if prev.stopped || |v.files| == 0 then prev
      else
        var taken := if Environmental(v.tags) || |prev.taken| < limit / 2 then prev.taken + [ToFootage(v, true)]
                     else prev.taken;
        Scan(taken, |taken| >= limit)
  }

  /** Once the loop stopped, later videos change nothing. */
  lemma {:induction false} CuratedStopped(vs: seq<PexelsVideo>, i: nat, limit: int)
    requires i <= |vs|
    requires CuratedScan(vs[..i], limit).stopped
    ensures CuratedScan(vs, limit) == CuratedScan(vs[..i], limit)
  {
    if i < |vs| {
      assert vs[..|vs| - 1][..i] == vs[..i];
      CuratedStopped(vs[..|vs| - 1], i, limit);
    } else {
      assert vs[..i] == vs;
    }
  }

  /** Until the loop stops, every environmental video with files is taken. */
  lemma {:induction false} CuratedKeepsEnvironmental(vs: seq<PexelsVideo>, limit: int)
    ensures !CuratedScan(vs, limit).stopped ==>
              forall i :: 0 <= i < |vs| && |vs[i].files| > 0 && Environmental(vs[i].tags) ==>
                ToFootage(vs[i], true) in CuratedScan(vs, limit).taken
  {
    var s := CuratedScan(vs, limit);
    if |vs| > 0 && !s.stopped {
      var init := vs[..|vs| - 1];
      var prev := CuratedScan(init, limit);
      assert !prev.stopped && forall f :: f in prev.taken ==> f in s.taken;
      CuratedKeepsEnvironmental(init, limit);
      forall i | 0 <= i < |vs| && |vs[i].files| > 0 && Environmental(vs[i].tags)
        ensures ToFootage(vs[i], true) in s.taken
      {
        if i < |init| {
          assert init[i] == vs[i];
          assert ToFootage(init[i], true) in prev.taken;
        }
      }
    }
  }

  /** `get_curated_environmental_videos`, given the videos Pexels answered. */
  function CuratedEnvironmental(key: Option<string>, popular: int -> seq<PexelsVideo>, limit: int): (r: seq<Footage>)
    ensures 1 <= limit ==> |r| <= limit
    ensures limit < 1 ==> |r| <= 1
  {
    if Configured(key) then CuratedScan(popular(limit), limit).taken else []
  }

  /** With a limit of 0 the curated list still holds the first video with files when that video
      is environmental. */
  lemma CuratedLimitZero(v: PexelsVideo)
    requires |v.files| > 0 && Environmental(v.tags)
    ensures CuratedScan([v], 0).taken == [ToFootage(v, true)]
  {
    assert [v][..0] == [];
  }

  /** The loop of `get_curated_environmental_videos`, with its `continue` and its `break`. */
  method GetCuratedEnvironmentalVideos(key: Option<string>, popular: int -> seq<PexelsVideo>, limit: int)
    returns (videos: seq<Footage>)
    ensures videos == CuratedEnvironmental(key, popular, limit)
  {
    if !Configured(key) {
      return [];
    }
    var data := popular(limit);
    videos := [];
    var i := 0;
    while i < |data|
      invariant 0 <= i <= |data|
      invariant CuratedScan(data[..i], limit) == Scan(videos, false)
    {
      assert data[..i + 1][..i] == data[..i];
      var video := data[i];
      i := i + 1;
      if |video.files| == 0 {
        continue;
      }
      var isEnvironmental := Environmental(video.tags);
      if isEnvironmental || |videos| < limit / 2 {
        videos := videos + [ToFootage(video, true)];
      }
      if |videos| >= limit {
        CuratedStopped(data, i, limit);
        break;
      }
    }
    assert i == |data| ==> data[..i] == data;
  }

  // ------------------------------------------------------------- categories

  /** `get_environmental_categories`. */
  function EnvironmentalCategories(): (r: seq<Category>)
    ensures |r| == 6
  {
    [Category("Urban Streets", "city street urban walking", "Bustling city life and street scenes"),
     Category("Nature Parks", "park nature trees walking", "Peaceful parks and natural settings"),
     Category("Beaches & Water", "beach ocean water waves", "Coastal and water environments"),
     Category("Forests & Trees", "forest trees woodland hiking", "Dense forests and wooded areas"),
     Category("Public Spaces", "plaza square public people", "Town squares and gathering places"),
     Category("Suburban Areas", "suburban neighborhood residential", "Quiet residential neighborhoods")]
  }

  /** The index of the first category whose name matches `name` ignoring case, or `|cats|`. */
  function FindCategory(cats: seq<Category>, name: string): (k: nat)
    ensures k <= |cats|
    ensures forall j :: 0 <= j < k ==> Lower(cats[j].name) != Lower(name)
    ensures k < |cats| ==> Lower(cats[k].name) == Lower(name)
  {
    if |cats| == 0 then 0
    else if Lower(cats[0].name) == Lower(name) then 0
    else 1 + FindCategory(cats[1..], name)
  }

  lemma CategoryInitials()
    ensures forall i :: 0 <= i < 6 ==> |EnvironmentalCategories()[i].name| > 0 &&
                                       EnvironmentalCategories()[i].name[0] == "UNBFPS"[i]
  {
  }

  /** No two categories share a name, even ignoring case: the first letters already differ. */
  lemma CategoryNamesDistinct(j: nat, k: nat)
    requires j < 6 && k < 6 && j != k
    ensures Lower(EnvironmentalCategories()[j].name) != Lower(EnvironmentalCategories()[k].name)
  {
    var cats := EnvironmentalCategories();
    var initials := "UNBFPS";
    CategoryInitials();
    var a, b := initials[j], initials[k];
    assert IsUpper(a) && IsUpper(b) && a != b;
    assert LowerChar(a) != LowerChar(b);
    assert Lower(cats[j].name)[0] == LowerChar(a);
    assert Lower(cats[k].name)[0] == LowerChar(b);
  }

  /** The lookup of `get_environmental_inspiration` over a list of categories. */
  function InspirationIn(cats: seq<Category>, key: Option<string>, search: (string, int) -> seq<PexelsVideo>,
                         popular: int -> seq<PexelsVideo>, category: Option<string>, limit: int)
    : seq<Footage>
  {
    if category.Some? && category.value != "" && FindCategory(cats, category.value) < |cats| then
      SearchEnvironmental(key, search, cats[FindCategory(cats, category.value)].query, limit)
    else CuratedEnvironmental(key, popular, limit)
  }

  /** `get_environmental_inspiration`: a category named in any letter case is searched with its
      query; no category, or an unknown one, gives the curated list. */
  function Inspiration(key: Option<string>, search: (string, int) -> seq<PexelsVideo>,
                       popular: int -> seq<PexelsVideo>, category: Option<string>, limit: int)
    : seq<Footage>
  {
    InspirationIn(EnvironmentalCategories(), key, search, popular, category, limit)
  }

  /** Over categories whose names differ ignoring case: naming category `k` in any letter case
      selects its query, and a name matching none falls back to the curated list. */
  lemma InspirationInLookup(cats: seq<Category>, key: Option<string>, search: (string, int) -> seq<PexelsVideo>,
                            popular: int -> seq<PexelsVideo>, category: string, limit: int, k: nat)
    requires k < |cats|
    requires forall j :: 0 <= j < |cats| ==> cats[j].name != ""
    requires forall j :: 0 <= j < k ==> Lower(cats[j].name) != Lower(cats[k].name)
    ensures Lower(category) == Lower(cats[k].name) ==>
              InspirationIn(cats, key, search, popular, Some(category), limit) ==
              SearchEnvironmental(key, search, cats[k].query, limit)
    ensures (forall j :: 0 <= j < |cats| ==> Lower(cats[j].name) != Lower(category)) ==>
              InspirationIn(cats, key, search, popular, Some(category), limit) == CuratedEnvironmental(key, popular, limit)
  {
    if Lower(category) == Lower(cats[k].name) {
      assert |category| == |Lower(category)| == |cats[k].name| > 0;
      assert FindCategory(cats, category) == k;
    }
  }

  /** Naming one of the six categories in any letter case searches with its query; any other
      name gives the curated list. */
  lemma InspirationLookup(key: Option<string>, search: (string, int) -> seq<PexelsVideo>,
                          popular: int -> seq<PexelsVideo>, category: string, limit: int, k: nat)
    requires k < 6
    ensures Lower(category) == Lower(EnvironmentalCategories()[k].name) ==>
              Inspiration(key, search, popular, Some(category), limit) ==
              SearchEnvironmental(key, search, EnvironmentalCategories()[k].query, limit)
    ensures (forall j :: 0 <= j < 6 ==> Lower(EnvironmentalCategories()[j].name) != Lower(category)) ==>
              Inspiration(key, search, popular, Some(category), limit) == CuratedEnvironmental(key, popular, limit)
  {
    var cats := EnvironmentalCategories();
    forall j | 0 <= j < k
      ensures Lower(cats[j].name) != Lower(cats[k].name)
    {
      CategoryNamesDistinct(j, k);
    }
    assert forall j :: 0 <= j < |cats| ==> cats[j].name != "";
    InspirationInLookup(cats, key, search, popular, category, limit, k);
  }
}
