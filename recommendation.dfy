/** The recommendation engine: user profiles from collaboration history, personalised ranking,
    trending and style-similar suggestions, and the per-user learning profile. */
module Recommendation {
  import opened Wrappers
  import opened Numbers
  import opened Text
  import opened Lists
  import VideoAnalysis

  // ------------------------------------------------------------ counting

  /** A counting dict: its keys in insertion order and the count held under each. */
  datatype Counter = Counter(order: seq<string>, counts: map<string, nat>)

  /** `d[key] = d.get(key, 0) + 1`. */
  function Count(c: Counter, key: string): Counter
  {
    if key in c.counts then Counter(c.order, c.counts[key := c.counts[key] + 1])
    else Counter(c.order + [key], c.counts[key := 1])
  }

  /** The dict that counting every key of `keys` in turn builds from `{}`: its keys in order of
      first occurrence, each held with the number of times it occurs. */
  function CounterOf(keys: seq<string>): (c: Counter)
    ensures c.order == Dedupe(keys)
    ensures forall k :: k in c.counts <==> k in keys
    ensures forall k :: k in c.counts ==> c.counts[k] == Occurrences(keys, k)
    ensures forall k :: k in c.order ==> k in c.counts
  {
    if |keys| == 0 then Counter([], map[])
    else
      var init := keys[..|keys| - 1];
      var key := keys[|keys| - 1];
      assert keys == init + [key];
      OccurrencesPositive(init, key);
      Count(CounterOf(init), key)
  }

  /** Counting one more key moves the dict of a list to the dict of the longer list. */
  lemma {:induction false} CountStep(keys: seq<string>, key: string)
    ensures CounterOf(keys + [key]) == Count(CounterOf(keys), key)
  {
    var s := keys + [key];
    assert s[..|s| - 1] == keys;
  }

  /** The entries of a counter in insertion order. */
  function Items(c: Counter): seq<(string, nat)>
    requires forall k :: k in c.order ==> k in c.counts
  {
    seq(|c.order|, i requires 0 <= i < |c.order| => (c.order[i], c.counts[c.order[i]]))
  }

  function ByCount(e: (string, nat)): real { e.1 as real }

  /** `[k for k, _ in sorted(items, key=count, reverse=True)[:n]]`. */
  function TopKeys(items: seq<(string, nat)>, n: nat): seq<string>
  {
    var top := Take(SortByDescending(items, ByCount), n);
    seq(|top|, i requires 0 <= i < |top| => top[i].0)
  }

  /** The `n` keys a counter holds most often. */
  function MostCommon(c: Counter, n: nat): seq<string>
    requires forall k :: k in c.order ==> k in c.counts
  {
    TopKeys(Items(c), n)
  }

  /** The entries of a list's counter are exactly its keys, each with its number of occurrences. */
  lemma ItemsOfCounter(keys: seq<string>)
    ensures forall e :: e in Items(CounterOf(keys)) ==> e.0 in keys && e.1 == Occurrences(keys, e.0)
    ensures forall k :: k in keys ==> (k, Occurrences(keys, k)) in Items(CounterOf(keys))
  {
    var items := Items(CounterOf(keys));
    forall k | k in keys
      ensures (k, Occurrences(keys, k)) in items
    {
      var p :| 0 <= p < |Dedupe(keys)| && Dedupe(keys)[p] == k;
      assert items[p] == (k, Occurrences(keys, k));
    }
  }

  /** Ranking entries that count the keys of a list. */
  lemma TopKeysOf(items: seq<(string, nat)>, keys: seq<string>, n: nat)
    requires forall e :: e in items ==> e.0 in keys && e.1 == Occurrences(keys, e.0)
    requires forall k :: k in keys ==> (k, Occurrences(keys, k)) in items
    ensures var r := TopKeys(items, n);
      && |r| <= n
      && (forall i :: 0 <= i < |r| ==> r[i] in keys)
      && (forall i, j :: 0 <= i < j < |r| ==> Occurrences(keys, r[i]) >= Occurrences(keys, r[j]))
      && (forall k :: k in keys && k !in r ==>
            forall i :: 0 <= i < |r| ==> Occurrences(keys, k) <= Occurrences(keys, r[i]))
  {
    var sorted := SortByDescending(items, ByCount);
    var top := Take(sorted, n);
    var r := TopKeys(items, n);
    forall i | 0 <= i < |top|
      ensures top[i] in items
    {
      assert top[i] == sorted[i];
      assert sorted[i] in multiset(items);
    }
    forall k | k in keys && k !in r
      ensures forall i :: 0 <= i < |r| ==> Occurrences(keys, k) <= Occurrences(keys, r[i])
    {
      assert forall q :: 0 <= q < |top| ==> r[q] == top[q].0;
      assert (k, Occurrences(keys, k)) !in top;
      TopOfDescending(items, ByCount, n, (k, Occurrences(keys, k)));
      assert forall i :: 0 <= i < |r| ==> top[i].1 == Occurrences(keys, r[i]);
    }
  }

  /** The `n` most frequent keys of a list: at most `n` of them, all from the list, most frequent
      first, and no key left out occurs more often than any key kept. */
  lemma MostCommonOf(keys: seq<string>, n: nat)
    ensures var r := MostCommon(CounterOf(keys), n);
      && |r| <= n
      && (forall i :: 0 <= i < |r| ==> r[i] in keys)
      && (forall i, j :: 0 <= i < j < |r| ==> Occurrences(keys, r[i]) >= Occurrences(keys, r[j]))
      && (forall k :: k in keys && k !in r ==>
            forall i :: 0 <= i < |r| ==> Occurrences(keys, k) <= Occurrences(keys, r[i]))
  {
    ItemsOfCounter(keys);
    TopKeysOf(Items(CounterOf(keys)), keys, n);
  }

  // ---------------------------------------------------------- user profile

  /** A collaboration of the user, joined with its video's category and tags. */
  datatype CollabRow = CollabRow(status: Option<string>, videoCategory: string, videoTags: Option<string>,
                                 createdAt: int)

  datatype CollabPattern = CollabPattern(status: Option<string>, category: string, createdAt: int)

  datatype UserProfile = UserProfile(
    userId: string,
    preferredCategories: seq<string>,
    preferredTags: seq<string>,
    successRate: real,
    activityLevel: nat,
    recentActivity: seq<CollabPattern>,
    profileStrength: real)

  /** `[tag.strip().lower() for tag in pieces]`. */
  function Cleaned(pieces: seq<string>): (r: seq<string>)
    ensures |r| == |pieces|
  {
    if |pieces| == 0 then [] else Cleaned(pieces[..|pieces| - 1]) + [Lower(Strip(pieces[|pieces| - 1]))]
  }

  /** The tags a collaboration contributes: its video's comma-separated tags, cleaned. */
  function RowTags(row: CollabRow): seq<string>
  {
    if row.videoTags.Some? && row.videoTags.value != "" then Cleaned(Split(row.videoTags.value, ','))
    else []
  }

  function Categories(rows: seq<CollabRow>): seq<string>
  {
    if |rows| == 0 then [] else Categories(rows[..|rows| - 1]) + [rows[|rows| - 1].videoCategory]
  }

  function AllTags(rows: seq<CollabRow>): seq<string>
  {
    if |rows| == 0 then [] else AllTags(rows[..|rows| - 1]) + RowTags(rows[|rows| - 1])
  }

  function Patterns(rows: seq<CollabRow>): (r: seq<CollabPattern>)
    ensures |r| == |rows|
  {
    if |rows| == 0 then []
    else
      var row := rows[|rows| - 1];
      Patterns(rows[..|rows| - 1]) + [CollabPattern(row.status, row.videoCategory, row.createdAt)]
  }

  /** How many patterns record an approved collaboration. */
  function Approved(patterns: seq<CollabPattern>): (n: nat)
    ensures n <= |patterns|
  {
    if |patterns| == 0 then 0
    else Approved(patterns[..|patterns| - 1]) + (if patterns[|patterns| - 1].status == Some("approved") then 1 else 0)
  }

  /** The profile built from the (at most twenty, newest first) collaborations of a user. */
  function ProfileOf(userId: string, rows: seq<CollabRow>): UserProfile
  {
    ProfileFrom(userId, CounterOf(Categories(rows)), CounterOf(AllTags(rows)), Patterns(rows))
  }

  /** The profile `_build_user_profile` assembles from the two counters and the patterns. */
  function ProfileFrom(userId: string, categories: Counter, tags: Counter, patterns: seq<CollabPattern>): UserProfile
    requires forall k :: k in categories.order ==> k in categories.counts
    requires forall k :: k in tags.order ==> k in tags.counts
  {
    var n := |patterns|;
    UserProfile(
      userId,
      MostCommon(categories, 3),
      MostCommon(tags, 5),
      SuccessRate(patterns),
      n,
      Take(patterns, 5),
      ProfileStrength(n))
  }

  /** The share of approved collaborations, over at least one. */
  function SuccessRate(patterns: seq<CollabPattern>): real
  {
    Approved(patterns) as real / (if |patterns| > 1 then |patterns| else 1) as real
  }

  /** `min(n / 10, 1.0)`. */
  function ProfileStrength(n: nat): real
  {
    if n as real / 10.0 < 1.0 then n as real / 10.0 else 1.0
  }

  /** Every tag a user's history yields is lower-case. */
  lemma {:induction false} AllTagsLower(rows: seq<CollabRow>)
    ensures forall t :: t in AllTags(rows) ==> Lower(t) == t
  {
    if |rows| > 0 {
      AllTagsLower(rows[..|rows| - 1]);
      var row := rows[|rows| - 1];
      if row.videoTags.Some? && row.videoTags.value != "" {
        CleanedLower(Split(row.videoTags.value, ','));
      }
    }
  }

  /** Every cleaned tag is trimmed of white space at both ends, Unicode white space included. */
  lemma {:induction false} CleanedTrimmed(pieces: seq<string>)
    ensures forall t :: t in Cleaned(pieces) && |t| > 0 ==> !IsSpace(t[0]) && !IsSpace(t[|t| - 1])
  {
    if |pieces| > 0 {
      var init := Cleaned(pieces[..|pieces| - 1]);
      var last := Lower(Strip(pieces[|pieces| - 1]));
      CleanedTrimmed(pieces[..|pieces| - 1]);
      LowerStripTrimmed(pieces[|pieces| - 1]);
      forall t | t in Cleaned(pieces) && |t| > 0
        ensures !IsSpace(t[0]) && !IsSpace(t[|t| - 1])
      {
        assert t in init || t == last;
      }
    }
  }

  /** A tag padded with a no-break space and an ideographic space is counted bare. */
  lemma CleanedNoBreakSpace()
    ensures Cleaned(["\U{A0}tag\U{3000}"]) == ["tag"]
  {
    var p := "\U{A0}tag\U{3000}";
    CleanedSingle(p);
    StripUnicodePadding();
    LowerTag();
  }

  lemma CleanedSingle(piece: string)
    ensures Cleaned([piece]) == [Lower(Strip(piece))]
  {
    assert [piece][..0] == [];
  }

  lemma {:induction false} CleanedLower(pieces: seq<string>)
    ensures forall t :: t in Cleaned(pieces) ==> Lower(t) == t
  {
    if |pieces| > 0 {
      CleanedLower(pieces[..|pieces| - 1]);
      LowerIdempotent(Strip(pieces[|pieces| - 1]));
    }
  }

  /** A profile's success rate and strength lie between 0 and 1, its activity level is the number
      of collaborations, and it keeps at most three categories and five tags. */
  lemma ProfileBounds(userId: string, rows: seq<CollabRow>)
    ensures var p := ProfileOf(userId, rows);
      && 0.0 <= p.successRate <= 1.0
      && 0.0 <= p.profileStrength <= 1.0
      && p.activityLevel == |rows|
      && |p.preferredCategories| <= 3 && |p.preferredTags| <= 5
  {
    MostCommonOf(Categories(rows), 3);
    MostCommonOf(AllTags(rows), 5);
    var patterns := Patterns(rows);
    var n := if |patterns| > 1 then |patterns| else 1;
    RatioAtMostOne(Approved(patterns) as real, n as real);
  }

  /** A profile's categories come from the history, its tags are lower-case tags of the history,
      and no tag left out occurs more often than one kept. */
  lemma ProfilePreferences(userId: string, rows: seq<CollabRow>)
    ensures var p := ProfileOf(userId, rows);
      && (forall c :: c in p.preferredCategories ==> c in Categories(rows))
      && (forall t :: t in p.preferredTags ==> t in AllTags(rows) && Lower(t) == t)
      && (forall k :: k in AllTags(rows) && k !in p.preferredTags ==>
            forall i :: 0 <= i < |p.preferredTags| ==>
              Occurrences(AllTags(rows), k) <= Occurrences(AllTags(rows), p.preferredTags[i]))
  {
    MostCommonOf(Categories(rows), 3);
    MostCommonOf(AllTags(rows), 5);
    AllTagsLower(rows);
  }

  lemma AppendOne(a: seq<string>, b: seq<string>, x: string)
    ensures a + (b + [x]) == (a + b) + [x]
  {
  }

  lemma CleanedSnoc(pieces: seq<string>, j: nat)
    requires j < |pieces|
    ensures Cleaned(pieces[..j + 1]) == Cleaned(pieces[..j]) + [Lower(Strip(pieces[j]))]
  {
    assert pieces[..j + 1][..j] == pieces[..j];
  }

  /** Counts the cleaned pieces of one video's tags into the tag counter. */
  method CountTags(tags: Counter, ghost before: seq<string>, pieces: seq<string>) returns (counted: Counter)
    requires tags == CounterOf(before)
    ensures counted == CounterOf(before + Cleaned(pieces))
  {
    counted := tags;
    var j := 0;
    assert before + Cleaned(pieces[..0]) == before;
    while j < |pieces|
      invariant 0 <= j <= |pieces|
      invariant counted == CounterOf(before + Cleaned(pieces[..j]))
    {
      var tag := Lower(Strip(pieces[j]));
      CleanedSnoc(pieces, j);
      AppendOne(before, Cleaned(pieces[..j]), tag);
      CountStep(before + Cleaned(pieces[..j]), tag);
      counted := Count(counted, tag);
      j := j + 1;
    }
    assert pieces[..|pieces|] == pieces;
  }

  /** One more history row extends the categories, the tags and the patterns by that row's. */
  lemma HistoryStep(rows: seq<CollabRow>, i: nat)
    requires i < |rows|
    ensures Categories(rows[..i + 1]) == Categories(rows[..i]) + [rows[i].videoCategory]
    ensures AllTags(rows[..i + 1]) == AllTags(rows[..i]) + RowTags(rows[i])
    ensures Patterns(rows[..i + 1]) == Patterns(rows[..i]) + [CollabPattern(rows[i].status, rows[i].videoCategory, rows[i].createdAt)]
  {
    assert rows[..i + 1][..i] == rows[..i];
  }

  /** Counts the tags of one row, if its video has any. */
  method CountRowTags(tags: Counter, ghost before: seq<string>, row: CollabRow) returns (counted: Counter)
    requires tags == CounterOf(before)
    ensures counted == CounterOf(before + RowTags(row))
  {
    if row.videoTags.Some? && row.videoTags.value != "" {
      counted := CountTags(tags, before, Split(row.videoTags.value, ','));
    } else {
      assert before + RowTags(row) == before;
      counted := tags;
    }
  }

  /** The loop of `_build_user_profile`: counts the categories and the cleaned tags of the rows and
      collects their patterns, in row order. */
  method ScanHistory(rows: seq<CollabRow>) returns (categories: Counter, tags: Counter, patterns: seq<CollabPattern>)
    ensures categories == CounterOf(Categories(rows))
    ensures tags == CounterOf(AllTags(rows))
    ensures patterns == Patterns(rows)
  {
    categories := Counter([], map[]);
    tags := Counter([], map[]);
    patterns := [];
    assert rows[..0] == [];
    var i := 0;
    while i < |rows|
      invariant 0 <= i <= |rows|
      invariant categories == CounterOf(Categories(rows[..i]))
      invariant tags == CounterOf(AllTags(rows[..i]))
      invariant patterns == Patterns(rows[..i])
    {
      var row := rows[i];
      HistoryStep(rows, i);
      CountStep(Categories(rows[..i]), row.videoCategory);
      categories := Count(categories, row.videoCategory);
      tags := CountRowTags(tags, AllTags(rows[..i]), row);
      patterns := patterns + [CollabPattern(row.status, row.videoCategory, row.createdAt)];
      i := i + 1;
    }
    assert rows[..|rows|] == rows;
  }

  /** `_build_user_profile` over the rows the collaboration query returned. */
  method BuildUserProfile(userId: string, rows: seq<CollabRow>) returns (profile: UserProfile)
    ensures profile == ProfileOf(userId, rows)
  {
    var categories, tags, patterns := ScanHistory(rows);
    profile := ProfileFrom(userId, categories, tags, patterns);
  }

  // ------------------------------------------------------- personalisation

  /** An AI recommendation, reduced to the fields the personalisation reads and writes. */
  datatype Recommendation = Recommendation(assetId: string, assetCategory: string, assetTags: Option<string>,
                                           confidenceScore: real, reasoning: string,
                                           personalizationScore: real)

  /** `asset['tags'].lower().split(',')` when the asset has tags; the pieces are not stripped. */
  function AssetTagList(tags: Option<string>): seq<string>
  {
    if tags.Some? && tags.value != "" then Split(Lower(tags.value), ',') else []
  }

  /** The unweighted score: category, tag overlap, success and activity bonuses. */
  function RawPersonalization(rec: Recommendation, profile: UserProfile): (raw: real)
    ensures 0.0 <= raw <= 1.0
  {
    var userTags := profile.preferredTags;
    var userSet := set t | t in userTags;
    var overlap := |(set t | t in AssetTagList(rec.assetTags)) * userSet|;
    var category := if rec.assetCategory in profile.preferredCategories then 0.3 else 0.0;
    var tags :=
      if |userTags| > 0 then
        SubsetCardinality((set t | t in AssetTagList(rec.assetTags)) * userSet, userSet);
        CardOfElements(userTags);
        RatioAtMostOne(overlap as real, |userTags| as real);
        (overlap as real / |userTags| as real) * 0.4
      else 0.0;
    var success := if profile.successRate > 0.7 then 0.1 else 0.0;
    var activity :=
      if profile.activityLevel > 5 then 0.1
      else if profile.activityLevel < 2 && rec.confidenceScore > 0.7 then 0.2
      else 0.0;
    category + tags + success + activity
  }

  lemma ProductNonNegative(a: real, b: real)
    requires 0.0 <= a && 0.0 <= b
    ensures 0.0 <= a * b
  {
  }

  /** `_calculate_personalization_score`: the raw score weighted by profile strength + 0.3,
      rounded to thousandths and capped at 1; never negative for a profile of non-negative strength. */
  function PersonalizationScore(rec: Recommendation, profile: UserProfile): (s: real)
    ensures s <= 1.0
    ensures profile.profileStrength >= 0.0 ==> 0.0 <= s
  {
    WeightedScore(RawPersonalization(rec, profile), profile.profileStrength)
  }

  /** `min(round(raw * (strength + 0.3), 3), 1.0)`. */
  function WeightedScore(raw: real, strength: real): (s: real)
    requires 0.0 <= raw
    ensures s <= 1.0
    ensures strength >= 0.0 ==> 0.0 <= s
  {
    var weighted := raw * (strength + 0.3);
    if strength >= 0.0 then
      ProductNonNegative(raw, strength + 0.3);
      RoundNonNegative(weighted);
      Min1(RoundTo(weighted, 1000))
    else Min1(RoundTo(weighted, 1000))
  }

  function Min1(x: real): real { if x < 1.0 then x else 1.0 }

  /** A user with no collaborations has strength 0, which damps any score to at most 0.3. */
  lemma NewUserScoreDamped(rec: Recommendation, userId: string)
    ensures 0.0 <= PersonalizationScore(rec, ProfileOf(userId, [])) <= 0.3
  {
    var profile := ProfileOf(userId, []);
    assert profile.profileStrength == 0.0;
    var raw := RawPersonalization(rec, profile);
    assert raw * (profile.profileStrength + 0.3) <= 0.3;
    assert (raw * 0.3 * 1000.0 + 0.5).Floor <= 300;
  }

  /** Nothing in common with the profile and an unremarkable history give a score of 0. */
  lemma NoSignalNoScore(rec: Recommendation, profile: UserProfile)
    requires rec.assetCategory !in profile.preferredCategories
    requires forall t :: t in AssetTagList(rec.assetTags) ==> t !in profile.preferredTags
    requires profile.successRate <= 0.7 && 2 <= profile.activityLevel <= 5
    ensures PersonalizationScore(rec, profile) == 0.0
  {
    var userSet := set t | t in profile.preferredTags;
    assert (set t | t in AssetTagList(rec.assetTags)) * userSet == {};
    assert RawPersonalization(rec, profile) == 0.0;
  }

  /** `_enhance_reasoning_with_personalization`. */
  function EnhanceReasoning(base: string, score: real, profile: UserProfile): (r: string)
    ensures StartsWith(r, base)
    ensures |r| > |base| <==>
      (score > 0.7 && |profile.preferredTags| > 0) || (0.4 < score <= 0.7)
      || (score <= 0.4 && profile.activityLevel < 2)
  {
    if score > 0.7 then
      var tags := Take(profile.preferredTags, 2);
      if |tags| > 0 then
        base + " Perfect match for your preference for " + Join(" and ", tags) + " content."
      else base
    else if score > 0.4 then base + " Matches your video style preferences."
    else if profile.activityLevel < 2 then base + " Popular choice for new creators."
    else base
  }

  /** The recommendation with its personalisation score and its reasoning extended. */
  function Personalize(rec: Recommendation, profile: UserProfile): Recommendation
  {
    var p := PersonalizationScore(rec, profile);
    rec.(personalizationScore := p, reasoning := EnhanceReasoning(rec.reasoning, p, profile))
  }

  /** The ranking key: 60% AI confidence, 40% personalisation. */
  function Combined(rec: Recommendation): real
  {
    rec.confidenceScore * 0.6 + rec.personalizationScore * 0.4
  }

  /** `Personalize` against one profile, as a function value. */
  function PersonalizeWith(profile: UserProfile): Recommendation -> Recommendation
  {
    rec => Personalize(rec, profile)
  }

  function PersonalizeAll(recs: seq<Recommendation>, profile: UserProfile): (r: seq<Recommendation>)
    ensures |r| == |recs| && forall i :: 0 <= i < |r| ==> r[i] == Personalize(recs[i], profile)
  {
    Mapped(recs, PersonalizeWith(profile))
  }

  /** The personalised recommendations, best combined score first, cut to `limit`. */
  function PersonalizedRanking(recs: seq<Recommendation>, profile: UserProfile, limit: int): seq<Recommendation>
  {
    Take(SortByDescending(PersonalizeAll(recs, profile), Combined), limit)
  }

  /** The ranking keeps at most `limit` personalised recommendations, in descending combined score. */
  lemma RankingBounded(recs: seq<Recommendation>, profile: UserProfile, limit: int)
    ensures var r := PersonalizedRanking(recs, profile, limit);
      && (0 <= limit ==> |r| <= limit) && |r| <= |recs|
      && (forall i, j :: 0 <= i < j < |r| ==> Combined(r[i]) >= Combined(r[j]))
  {
    var sorted := SortByDescending(PersonalizeAll(recs, profile), Combined);
    var r := Take(sorted, limit);
    assert forall i :: 0 <= i < |r| ==> r[i] == sorted[i];
  }

  /** Every recommendation ranked is the personalisation of one of the inputs. */
  lemma RankingFromInputs(recs: seq<Recommendation>, profile: UserProfile, limit: int)
    ensures var r := PersonalizedRanking(recs, profile, limit);
      forall i :: 0 <= i < |r| ==> exists k :: 0 <= k < |recs| && r[i] == Personalize(recs[k], profile)
  {
    var all := PersonalizeAll(recs, profile);
    var sorted := SortByDescending(all, Combined);
    var r := Take(sorted, limit);
    forall i | 0 <= i < |r|
      ensures exists k :: 0 <= k < |recs| && r[i] == Personalize(recs[k], profile)
    {
      assert r[i] == sorted[i];
      assert sorted[i] in multiset(all);
      var k :| 0 <= k < |all| && all[k] == r[i];
    }
  }

  /** No personalised recommendation left out of the ranking outranks one kept in it. */
  lemma RankingKeepsBest(recs: seq<Recommendation>, profile: UserProfile, limit: int)
    ensures var r := PersonalizedRanking(recs, profile, limit);
      forall k :: 0 <= k < |recs| && Personalize(recs[k], profile) !in r ==>
        forall i :: 0 <= i < |r| ==> Combined(Personalize(recs[k], profile)) <= Combined(r[i])
  {
    var all := PersonalizeAll(recs, profile);
    var r := PersonalizedRanking(recs, profile, limit);
    forall k | 0 <= k < |recs| && Personalize(recs[k], profile) !in r
      ensures forall i :: 0 <= i < |r| ==> Combined(Personalize(recs[k], profile)) <= Combined(r[i])
    {
      assert all[k] == Personalize(recs[k], profile);
      TopOfDescending(all, Combined, limit, all[k]);
    }
  }

  /** `get_personalized_recommendations`: the AI recommendations and the user's collaboration rows
      are what its two queries return. */
  method GetPersonalizedRecommendations(userId: string, rows: seq<CollabRow>, recs: seq<Recommendation>, limit: int)
    returns (ranked: seq<Recommendation>)
    ensures ranked == PersonalizedRanking(recs, ProfileOf(userId, rows), limit)
  {
    var profile := BuildUserProfile(userId, rows);
    var personalized := PersonalizeEach(recs, profile);
    ranked := Take(SortByDescending(personalized, Combined), limit);
  }

  /** The loop of `get_personalized_recommendations` that scores and annotates each recommendation. */
  method PersonalizeEach(recs: seq<Recommendation>, profile: UserProfile) returns (personalized: seq<Recommendation>)
    ensures personalized == PersonalizeAll(recs, profile)
  {
    personalized := [];
    var i := 0;
    while i < |recs|
      invariant 0 <= i <= |recs|
      invariant personalized == Mapped(recs[..i], PersonalizeWith(profile))
    {
      var rec := PersonalizeOne(recs[i], profile);
      MappedStep(recs, i, PersonalizeWith(profile));
      personalized := personalized + [rec];
      i := i + 1;
    }
    assert recs[..i] == recs;
  }

  /** One iteration: the score, then the reasoning extended with it. */
  method PersonalizeOne(rec: Recommendation, profile: UserProfile) returns (r: Recommendation)
    ensures r == PersonalizeWith(profile)(rec)
  {
    var score := PersonalizationScore(rec, profile);
    r := rec.(personalizationScore := score);
    r := r.(reasoning := EnhanceReasoning(r.reasoning, score, profile));
  }

  // -------------------------------------------------------------- trending

  /** An approved asset used at least twice in the last week, as the trending query returns it. */
  datatype TrendingRow = TrendingRow(assetId: string, tags: string, usageCount: nat, successRate: real)

  /** `any(tag.lower() in haystack for tag in tags)`. */
  function AnyTagIn(haystack: string, tags: seq<string>): (b: bool)
    ensures b <==> exists k :: 0 <= k < |tags| && Contains(haystack, Lower(tags[k]))
  {
    if |tags| == 0 then false
    else
      var found := HasSubstring(haystack, Lower(tags[0]));
      assert forall k :: 1 <= k < |tags| ==> tags[k] == tags[1..][k - 1];
      found || AnyTagIn(haystack, tags[1..])
  }

  /** A trending asset is relevant when one of the video's first three tags occurs in its tags. */
  predicate Relevant(row: TrendingRow, videoTags: seq<string>)
  {
    AnyTagIn(Lower(row.tags), Take(videoTags, 3))
  }

  function RelevantRows(rows: seq<TrendingRow>, videoTags: seq<string>): (r: seq<TrendingRow>)
    ensures forall x :: x in r ==> x in rows && Relevant(x, videoTags)
    ensures forall x :: x in rows && Relevant(x, videoTags) ==> x in r
  {
    if |rows| == 0 then []
    else
      var init := rows[..|rows| - 1];
      var last := rows[|rows| - 1];
      SplitLast(rows);
      RelevantRows(init, videoTags) + (if Relevant(last, videoTags) then [last] else [])
  }

  /** `_get_trending_assets` after its query: the relevant rows, or the first three when none is. */
  function TrendingAssets(videoTags: seq<string>, rows: seq<TrendingRow>): seq<TrendingRow>
  {
    if |videoTags| == 0 then rows
    else
      var relevant := RelevantRows(rows, videoTags);
      if |relevant| > 0 then relevant else Take(rows, 3)
  }

  /** The trending assets are trending rows; without video tags they are all the rows. */
  lemma TrendingAssetsFromRows(videoTags: seq<string>, rows: seq<TrendingRow>)
    ensures var r := TrendingAssets(videoTags, rows);
      && (forall x :: x in r ==> x in rows)
      && (|videoTags| == 0 ==> r == rows)
  {
    var r := TrendingAssets(videoTags, rows);
    forall x | x in r
      ensures x in rows
    {
      if |videoTags| > 0 && |RelevantRows(rows, videoTags)| == 0 {
        var k :| 0 <= k < |r| && r[k] == x;
        assert r[k] == rows[k];
      }
    }
  }

  /** With video tags every relevant row is kept and, once one is relevant, only relevant rows. */
  lemma TrendingAssetsKeepsRelevant(videoTags: seq<string>, rows: seq<TrendingRow>)
    requires 0 < |videoTags|
    ensures var r := TrendingAssets(videoTags, rows);
      && (forall x :: x in rows && Relevant(x, videoTags) ==> x in r)
      && ((exists x :: x in rows && Relevant(x, videoTags)) ==> forall x :: x in r ==> Relevant(x, videoTags))
  {
    var relevant := RelevantRows(rows, videoTags);
    if exists x :: x in rows && Relevant(x, videoTags) {
      var x :| x in rows && Relevant(x, videoTags);
      assert x in relevant;
    }
  }

  /** With video tags and no relevant row, the first three rows stand in. */
  lemma TrendingAssetsFallback(videoTags: seq<string>, rows: seq<TrendingRow>)
    requires 0 < |videoTags| && forall x :: x in rows ==> !Relevant(x, videoTags)
    ensures TrendingAssets(videoTags, rows) == Take(rows, 3)
  {
    var relevant := RelevantRows(rows, videoTags);
    assert forall x :: x !in relevant;
    EmptyWhenNoMember(relevant);
  }

  /** The relevance filter as its loop computes it. */
  method GetTrendingAssets(videoTags: seq<string>, rows: seq<TrendingRow>) returns (trending: seq<TrendingRow>)
    ensures trending == TrendingAssets(videoTags, rows)
  {
    if |videoTags| == 0 {
      return rows;
    }
    var relevant: seq<TrendingRow> := [];
    var i := 0;
    while i < |rows|
      invariant 0 <= i <= |rows|
      invariant relevant == RelevantRows(rows[..i], videoTags)
    {
      assert rows[..i + 1][..i] == rows[..i];
      if AnyTagIn(Lower(rows[i].tags), Take(videoTags, 3)) {
        relevant := relevant + [rows[i]];
      }
      i := i + 1;
    }
    assert rows[..|rows|] == rows;
    trending := if |relevant| > 0 then relevant else Take(rows, 3);
  }

  /** `analysis.get('duration', 10)`. */
  function DurationOr10(duration: Option<real>): real { duration.GetOr(10.0) }

  /** `_generate_trending_placement`: a popular spot, from 20% to 80% of the video. */
  function TrendingPlacement(duration: Option<real>): VideoAnalysis.Placement
  {
    var d := DurationOr10(duration);
    VideoAnalysis.Placement(150, 100, 0.8, 0.8, 0, d * 0.2, d * 0.8, 0.5, 0.5, 1)
  }

  /** The trending window skips the first and last fifth: it lies inside the video and is centred on it. */
  lemma TrendingPlacementCentred(duration: Option<real>)
    requires DurationOr10(duration) >= 0.0
    ensures var p := TrendingPlacement(duration);
      0.0 <= p.startTime <= p.endTime <= DurationOr10(duration)
      && p.startTime + p.endTime == DurationOr10(duration)
  {
  }

  datatype TrendingRecommendation = TrendingRecommendation(
    assetId: string, placement: VideoAnalysis.Placement, confidenceScore: real,
    personalizationScore: real, reasoning: string, usageCount: nat, successRate: real)

  /** `get_trending_recommendations` over the analysis's tags and duration and the trending rows. */
  function TrendingRecommendations(videoTags: seq<string>, duration: Option<real>, rows: seq<TrendingRow>,
                                   limit: int): (r: seq<TrendingRecommendation>)
    ensures 0 <= limit ==> |r| <= limit
    ensures forall i :: 0 <= i < |r| ==>
      r[i].confidenceScore == 0.8 && r[i].personalizationScore == 0.5
      && r[i].placement == TrendingPlacement(duration)
      && exists k :: 0 <= k < |rows| && rows[k].assetId == r[i].assetId
  {
    var picked := Take(TrendingAssets(videoTags, rows), limit);
    TrendingAssetsFromRows(videoTags, rows);
    assert forall i :: 0 <= i < |picked| ==> picked[i] in rows;
    seq(|picked|, i requires 0 <= i < |picked| =>
      TrendingRecommendation(picked[i].assetId, TrendingPlacement(duration), 0.8, 0.5,
        "Trending now - used in " + NatToDecimal(picked[i].usageCount) + " recent videos",
        picked[i].usageCount, picked[i].successRate))
  }

  // ------------------------------------------------------------ style match

  /** An asset row as the similarity query returns it (the reference asset has the same shape). */
  datatype AssetRow = AssetRow(assetId: string, tags: Option<string>, category: Option<string>,
                               assetType: Option<string>, uploaderId: Option<string>)

  /** `set(tags.lower().split(','))` when there are tags. */
  function TagSet(tags: Option<string>): set<string>
  {
    if tags.Some? && tags.value != "" then set t | t in Split(Lower(tags.value), ',') else {}
  }

  /** The Jaccard index of two non-empty tag sets: shared tags over all tags. */
  function Jaccard(a: set<string>, b: set<string>): (j: real)
    requires |a| > 0
    ensures 0.0 <= j <= 1.0
  {
    SubsetCardinality(a * b, a + b);
    SubsetCardinality(a, a + b);
    RatioAtMostOne(|a * b| as real, |a + b| as real);
    |a * b| as real / |a + b| as real
  }

  /** `_find_style_similar_assets`' score: 40% tag Jaccard index, 30% category, 20% type, 10% artist. */
  function Similarity(reference: AssetRow, row: AssetRow): (s: real)
    ensures 0.0 <= s <= 1.0
  {
    var refTags := TagSet(reference.tags);
    var tags := TagSet(row.tags);
    (if |refTags| > 0 && |tags| > 0 then Jaccard(refTags, tags) * 0.4 else 0.0)
    + (if row.category == reference.category then 0.3 else 0.0)
    + (if row.assetType == reference.assetType then 0.2 else 0.0)
    + (if row.uploaderId == reference.uploaderId then 0.1 else 0.0)
  }

  /** One reason two assets look alike. */
  datatype Attribute =
    | SameCategory(category: Option<string>)
    | SameFormat(assetType: Option<string>)
    | SharedThemes(themes: seq<string>)
    | SameArtist

  function AttributeRank(a: Attribute): nat
  {
    match a
    case SameCategory(_) => 0
    case SameFormat(_) => 1
    case SharedThemes(_) => 2
    case SameArtist => 3
  }

  /** Attributes listed in the order the source checks them, each kind at most once. */
  predicate Ordered(r: seq<Attribute>)
  {
    forall i, j :: 0 <= i < j < |r| ==> AttributeRank(r[i]) < AttributeRank(r[j])
  }

  lemma OrderedAppend(a: seq<Attribute>, b: seq<Attribute>)
    requires Ordered(a) && Ordered(b)
    requires forall x, y :: x in a && y in b ==> AttributeRank(x) < AttributeRank(y)
    ensures Ordered(a + b)
  {
    forall i, j | 0 <= i < j < |a + b|
      ensures AttributeRank((a + b)[i]) < AttributeRank((a + b)[j])
    {
      if j < |a| {
      } else if i >= |a| {
        assert (a + b)[i] == b[i - |a|] && (a + b)[j] == b[j - |a|];
      } else {
        assert (a + b)[i] in a && (a + b)[j] in b;
      }
    }
  }

  function ShowOption(s: Option<string>): string
  {
    if s.Some? then s.value else "None"
  }

  /** The text the source stores for an attribute. */
  function Describe(a: Attribute): string
  {
    match a
    case SameCategory(c) => "Same category (" + ShowOption(c) + ")"
    case SameFormat(t) => "Same format (" + ShowOption(t) + ")"
    case SharedThemes(themes) => "Shared themes: " + Join(", ", themes)
    case SameArtist => "Same artist"
  }

  /** The elements of `s` that are in `keep`, in order. */
  function Keep(s: seq<string>, keep: set<string>): (r: seq<string>)
    ensures forall t :: t in r <==> t in s && t in keep
  {
    if |s| == 0 then []
    else
      var init := s[..|s| - 1];
      assert s == init + [s[|s| - 1]];
      Keep(init, keep) + (if s[|s| - 1] in keep then [s[|s| - 1]] else [])
  }

  /** The tags the two assets share, in the reference's order. */
  function CommonTags(reference: AssetRow, row: AssetRow): (r: seq<string>)
    ensures forall t :: t in r <==> t in TagSet(reference.tags) * TagSet(row.tags)
    ensures |r| > 0 <==> TagSet(reference.tags) * TagSet(row.tags) != {}
  {
    var shared := TagSet(reference.tags) * TagSet(row.tags);
    var r := if reference.tags.Some? && reference.tags.value != "" then
      Dedupe(Keep(Split(Lower(reference.tags.value), ','), TagSet(row.tags)))
    else [];
    assert shared != {} ==> |r| > 0 by {
      if shared != {} {
        var t :| t in shared;
        assert t in r;
      }
    }
    r
  }

  /** `_identify_matching_attributes`: category, format, up to two shared themes, artist, in that order,
      each present exactly when the assets agree on it. */
  function MatchingAttributes(reference: AssetRow, row: AssetRow): (r: seq<Attribute>)
    ensures SameCategory(reference.category) in r <==> row.category == reference.category
    ensures SameFormat(reference.assetType) in r <==> row.assetType == reference.assetType
    ensures SameArtist in r <==> row.uploaderId == reference.uploaderId
    ensures SharedThemes(Take(CommonTags(reference, row), 2)) in r <==> TagSet(reference.tags) * TagSet(row.tags) != {}
  {
    var common := CommonTags(reference, row);
    var category := Present(row.category == reference.category, SameCategory(reference.category));
    var format := Present(row.assetType == reference.assetType, SameFormat(reference.assetType));
    var themes := Present(|common| > 0, SharedThemes(Take(common, 2)));
    var artist := Present(row.uploaderId == reference.uploaderId, SameArtist);
    category + format + themes + artist
  }

  /** The attribute alone when the condition holds, nothing otherwise. */
  function Present(agree: bool, a: Attribute): (r: seq<Attribute>)
    ensures a in r <==> agree
    ensures forall x :: x in r ==> x == a
    ensures |r| <= 1
  {
    if agree then [a] else []
  }

  /** The attributes come in the order the source checks them: category, format, themes, artist. */
  lemma MatchingAttributesOrdered(reference: AssetRow, row: AssetRow)
    ensures Ordered(MatchingAttributes(reference, row))
  {
    var common := CommonTags(reference, row);
    var category := Present(row.category == reference.category, SameCategory(reference.category));
    var format := Present(row.assetType == reference.assetType, SameFormat(reference.assetType));
    var themes := Present(|common| > 0, SharedThemes(Take(common, 2)));
    var artist := Present(row.uploaderId == reference.uploaderId, SameArtist);
    OrderedFour(category, format, themes, artist);
    assert MatchingAttributes(reference, row) == category + format + themes + artist;
  }

  /** At most one attribute of each kind, kinds in rank order, gives an ordered list. */
  lemma OrderedFour(a: seq<Attribute>, b: seq<Attribute>, c: seq<Attribute>, d: seq<Attribute>)
    requires |a| <= 1 && |b| <= 1 && |c| <= 1 && |d| <= 1
    requires forall x :: x in a ==> AttributeRank(x) == 0
    requires forall x :: x in b ==> AttributeRank(x) == 1
    requires forall x :: x in c ==> AttributeRank(x) == 2
    requires forall x :: x in d ==> AttributeRank(x) == 3
    ensures Ordered(a + b + c + d)
  {
    OrderedAppend(a, b);
    assert forall x :: x in a + b ==> AttributeRank(x) <= 1;
    OrderedAppend(a + b, c);
    assert forall x :: x in a + b + c ==> AttributeRank(x) <= 2;
    OrderedAppend(a + b + c, d);
  }

  datatype ScoredAsset = ScoredAsset(row: AssetRow, similarity: real, attributes: seq<Attribute>)

  function BySimilarity(s: ScoredAsset): real { s.similarity }

  /** A row with its similarity to the reference and what the two share. */
  function Scored(reference: AssetRow, row: AssetRow): ScoredAsset
  {
    ScoredAsset(row, Similarity(reference, row), MatchingAttributes(reference, row))
  }

  function ScoreAgainst(reference: AssetRow): AssetRow -> ScoredAsset
  {
    row => Scored(reference, row)
  }

  predicate AboveThreshold(s: ScoredAsset) { s.similarity > 0.3 }

  /** The rows scoring above 0.3, in query order. */
  function ScoredAbove(reference: AssetRow, rows: seq<AssetRow>): seq<ScoredAsset>
  {
    Filtered(rows, ScoreAgainst(reference), AboveThreshold)
  }

  /** The threshold keeps exactly the rows scoring above 0.3, each with its own score. */
  lemma ScoredAboveProperties(reference: AssetRow, rows: seq<AssetRow>)
    ensures var r := ScoredAbove(reference, rows);
      && (forall s :: s in r ==> s.row in rows && s == Scored(reference, s.row) && s.similarity > 0.3)
      && (forall k :: 0 <= k < |rows| && Scored(reference, rows[k]).similarity > 0.3 ==> Scored(reference, rows[k]) in r)
  {
    var r := ScoredAbove(reference, rows);
    FilteredProperties(rows, ScoreAgainst(reference), AboveThreshold);
    forall s | s in r
      ensures s.row in rows && s == Scored(reference, s.row) && s.similarity > 0.3
    {
      var i :| 0 <= i < |r| && r[i] == s;
      assert AboveThreshold(r[i]);
      var k :| 0 <= k < |rows| && s == ScoreAgainst(reference)(rows[k]);
      assert s == Scored(reference, rows[k]);
    }
  }

  /** The `limit` most similar assets, most similar first. */
  function StyleSimilar(reference: AssetRow, rows: seq<AssetRow>, limit: int): seq<ScoredAsset>
  {
    Take(SortByDescending(ScoredAbove(reference, rows), BySimilarity), limit)
  }

  /** At most `limit` assets are returned, each scoring above 0.3 and carrying its own score and
      attributes. */
  lemma StyleSimilarScored(reference: AssetRow, rows: seq<AssetRow>, limit: int)
    ensures var r := StyleSimilar(reference, rows, limit);
      && (0 <= limit ==> |r| <= limit)
      && (forall i :: 0 <= i < |r| ==>
            r[i].row in rows && r[i] == Scored(reference, r[i].row) && 0.3 < r[i].similarity)
  {
    TopMembers(ScoredAbove(reference, rows), BySimilarity, limit);
    ScoredAboveProperties(reference, rows);
  }

  /** The assets come most similar first, and none left out scores above one returned. */
  lemma StyleSimilarRanked(reference: AssetRow, rows: seq<AssetRow>, limit: int)
    ensures var r := StyleSimilar(reference, rows, limit);
      && (forall i, j :: 0 <= i < j < |r| ==> r[i].similarity >= r[j].similarity)
      && (forall s :: s in ScoredAbove(reference, rows) && s !in r ==>
            forall i :: 0 <= i < |r| ==> s.similarity <= r[i].similarity)
  {
    var scored := ScoredAbove(reference, rows);
    var sorted := SortByDescending(scored, BySimilarity);
    var r := Take(sorted, limit);
    forall i, j | 0 <= i < j < |r|
      ensures r[i].similarity >= r[j].similarity
    {
      assert r[i] == sorted[i] && r[j] == sorted[j];
      assert BySimilarity(sorted[i]) >= BySimilarity(sorted[j]);
    }
    forall s | s in scored && s !in r
      ensures forall i :: 0 <= i < |r| ==> s.similarity <= r[i].similarity
    {
      TopOfDescending(scored, BySimilarity, limit, s);
      forall i | 0 <= i < |r|
        ensures s.similarity <= r[i].similarity
      {
        assert BySimilarity(s) <= BySimilarity(r[i]);
      }
    }
  }

  /** The scoring loop of `_find_style_similar_assets`. */
  method FindStyleSimilarAssets(reference: AssetRow, rows: seq<AssetRow>, limit: int)
    returns (similar: seq<ScoredAsset>)
    ensures similar == StyleSimilar(reference, rows, limit)
  {
    var scored: seq<ScoredAsset> := [];
    var i := 0;
    while i < |rows|
      invariant 0 <= i <= |rows|
      invariant scored == ScoredAbove(reference, rows[..i])
    {
      FilteredStep(rows, ScoreAgainst(reference), AboveThreshold, i);
      assert ScoreAgainst(reference)(rows[i]) == Scored(reference, rows[i]);
      var score := Similarity(reference, rows[i]);
      if score > 0.3 {
        scored := scored + [ScoredAsset(rows[i], score, MatchingAttributes(reference, rows[i]))];
      }
      i := i + 1;
    }
    assert rows[..|rows|] == rows;
    similar := Take(SortByDescending(scored, BySimilarity), limit);
  }

  const StylePositions := [VideoAnalysis.Position(200, 150), VideoAnalysis.Position(500, 200),
                           VideoAnalysis.Position(100, 300), VideoAnalysis.Position(600, 100)]

  /** `_generate_style_consistent_placement` for the `index`-th similar asset. */
  function StylePlacement(duration: Option<real>, index: nat): VideoAnalysis.Placement
  {
    var d := DurationOr10(duration);
    var position := StylePositions[index % |StylePositions|];
    VideoAnalysis.Placement(position.x, position.y, 0.7, 0.7, 0,
                            d * (0.1 + index as real * 0.2), d * (0.4 + index as real * 0.2),
                            0.3, 0.3, index + 2)
  }

  /** Each next similar asset starts a fifth of the video later, shows for the same three tenths,
      sits one layer higher, and the positions repeat every four. */
  lemma StylePlacementsStagger(duration: Option<real>, index: nat)
    ensures var p := StylePlacement(duration, index);
      var q := StylePlacement(duration, index + 1);
      var d := DurationOr10(duration);
      && q.startTime == p.startTime + d * 0.2
      && q.endTime - q.startTime == p.endTime - p.startTime == d * 0.3
      && q.layerOrder == p.layerOrder + 1
      && StylePlacement(duration, index + 4).x == p.x && StylePlacement(duration, index + 4).y == p.y
  {
  }

  /** With the default four suggestions, every window lies inside the video. */
  lemma StylePlacementWithinVideo(duration: Option<real>, index: nat)
    requires index < 4 && DurationOr10(duration) >= 0.0
    ensures var p := StylePlacement(duration, index);
      0.0 <= p.startTime <= p.endTime <= DurationOr10(duration)
  {
    var d := DurationOr10(duration);
    if index == 0 {
    } else if index == 1 {
      assert d * (0.1 + 1.0 * 0.2) == d * 0.3;
    } else if index == 2 {
      assert d * (0.1 + 2.0 * 0.2) == d * 0.5;
    } else {
      assert d * (0.4 + 3.0 * 0.2) == d;
    }
  }

  datatype StyleRecommendation = StyleRecommendation(
    assetId: string, placement: VideoAnalysis.Placement, confidenceScore: real,
    personalizationScore: real, reasoning: string, similarity: real, attributes: seq<Attribute>)

  /** `f"{score:.0%}"` for a score between 0 and 1: a whole percentage. */
  function Percent(score: real): string
  {
    IntToDecimal((score * 100.0 + 0.5).Floor) + "%"
  }

  /** `get_style_similar_recommendations`: no reference asset gives no recommendations. */
  function StyleSimilarRecommendations(reference: Option<AssetRow>, duration: Option<real>, rows: seq<AssetRow>,
                                       limit: int): (r: seq<StyleRecommendation>)
    ensures reference.None? ==> r == []
    ensures 0 <= limit ==> |r| <= limit
    ensures forall i :: 0 <= i < |r| ==>
      0.3 < r[i].confidenceScore <= 1.0 && r[i].personalizationScore == 0.6
      && r[i].placement == StylePlacement(duration, i)
  {
    if reference.None? then []
    else
      var similar := Take(StyleSimilar(reference.value, rows, 2 * limit), limit);
      StyleSimilarScored(reference.value, rows, 2 * limit);
      seq(|similar|, i requires 0 <= i < |similar| =>
        StyleRecommendation(similar[i].row.assetId, StylePlacement(duration, i), similar[i].similarity, 0.6,
          "Similar style to your selected overlay - " + Percent(similar[i].similarity) + " match",
          similar[i].similarity, similar[i].attributes))
  }

  // -------------------------------------------------------------- learning

  datatype Metadata = Metadata(assetCategory: Option<string>, assetTags: Option<seq<string>>)

  const NoMetadata := Metadata(None, None)

  datatype Interaction = Interaction(userId: string, videoId: string, assetId: string, action: string,
                                     timestamp: int, metadata: Metadata)

  datatype PatternEntry = PatternEntry(action: string, timestamp: int, context: Metadata)

  datatype LearningProfile = LearningProfile(userId: string, preferences: map<string, nat>,
                                             patterns: seq<PatternEntry>, updatedAt: int)

  /** `prefs[key] = prefs.get(key, 0) + 1`. */
  function Bump(prefs: map<string, nat>, key: string): map<string, nat>
  {
    prefs[key := (if key in prefs then prefs[key] else 0) + 1]
  }

  function BumpAll(prefs: map<string, nat>, keys: seq<string>): map<string, nat>
  {
    if |keys| == 0 then prefs else Bump(BumpAll(prefs, keys[..|keys| - 1]), keys[|keys| - 1])
  }

  /** Bumping a list of keys adds each key's number of occurrences to its count and touches nothing else. */
  lemma {:induction false} BumpAllCounts(prefs: map<string, nat>, keys: seq<string>, k: string)
    ensures k in BumpAll(prefs, keys) <==> k in prefs || k in keys
    ensures k in BumpAll(prefs, keys) ==>
      BumpAll(prefs, keys)[k] == (if k in prefs then prefs[k] else 0) + Occurrences(keys, k)
  {
    if |keys| > 0 {
      var init := keys[..|keys| - 1];
      BumpAllCounts(prefs, init, k);
      OccurrencesPositive(init, k);
      assert keys == init + [keys[|keys| - 1]];
    }
  }

  function TagKeys(tags: seq<string>): (r: seq<string>)
    ensures |r| == |tags|
  {
    if |tags| == 0 then [] else TagKeys(tags[..|tags| - 1]) + ["tag_" + tags[|tags| - 1]]
  }

  /** The preference keys a positive interaction counts: its category, then each of its tags. */
  function PreferenceKeys(m: Metadata): seq<string>
  {
    (if m.assetCategory.Some? then ["category_" + m.assetCategory.value] else [])
    + (if m.assetTags.Some? then TagKeys(m.assetTags.value) else [])
  }

  predicate Positive(action: string) { action == "apply" || action == "approve" }

  /** The learning profile a user starts from. */
  function ProfileFor(profiles: map<string, LearningProfile>, userId: string, now: int): LearningProfile
  {
    if userId in profiles then profiles[userId] else LearningProfile(userId, map[], [], now)
  }

  /** `_update_user_learning_profile` on one profile. */
  function Learn(profile: LearningProfile, interaction: Interaction, now: int): LearningProfile
  {
    var preferences :=
      if Positive(interaction.action) then BumpAll(profile.preferences, PreferenceKeys(interaction.metadata))
      else profile.preferences;
    var entry := PatternEntry(interaction.action, interaction.timestamp, interaction.metadata);
    LearningProfile(profile.userId, preferences, Drop(profile.patterns + [entry], -50), now)
  }

  /** Learning keeps the fifty most recent patterns, the newest last, and counts the interaction's
      keys only for an apply or approve action. */
  lemma LearnProperties(profile: LearningProfile, interaction: Interaction, now: int, k: string)
    ensures var p := Learn(profile, interaction, now);
      var keys := PreferenceKeys(interaction.metadata);
      && 0 < |p.patterns| <= 50
      && p.patterns[|p.patterns| - 1] == PatternEntry(interaction.action, interaction.timestamp, interaction.metadata)
      && (|profile.patterns| < 50 ==> p.patterns == profile.patterns + [p.patterns[|p.patterns| - 1]])
      && (!Positive(interaction.action) ==> p.preferences == profile.preferences)
      && (Positive(interaction.action) ==>
            (k in p.preferences <==> k in profile.preferences || k in keys)
            && (k in p.preferences ==>
                  p.preferences[k] == (if k in profile.preferences then profile.preferences[k] else 0)
                                      + Occurrences(keys, k)))
  {
    BumpAllCounts(profile.preferences, PreferenceKeys(interaction.metadata), k);
  }

  /** The engine's in-memory learning store. */
  class RecommendationEngine {
    /** `learning_data['interaction_<user>_<day>']`, keyed by user and day. */
    var interactions: map<(string, string), seq<Interaction>>
    /** `learning_data['learning_<user>']`, keyed by user. */
    var profiles: map<string, LearningProfile>

    constructor()
      ensures interactions == map[] && profiles == map[]
    {
      interactions := map[];
      profiles := map[];
    }

    /** `record_recommendation_interaction`: log the interaction under the user and day, then learn from it. */
    method RecordRecommendationInteraction(userId: string, videoId: string, assetId: string, action: string,
                                           metadata: Option<Metadata>, now: int, day: string)
      modifies this
      ensures var interaction := Interaction(userId, videoId, assetId, action, now, metadata.GetOr(NoMetadata));
        var logged := if (userId, day) in old(interactions) then old(interactions)[(userId, day)] else [];
        && interactions == old(interactions)[(userId, day) := logged + [interaction]]
        && profiles == old(profiles)[userId := Learn(ProfileFor(old(profiles), userId, now), interaction, now)]
    {
      var interaction := Interaction(userId, videoId, assetId, action, now, metadata.GetOr(NoMetadata));
      var key := (userId, day);
      if key !in interactions {
        interactions := interactions[key := []];
      }
      interactions := interactions[key := interactions[key] + [interaction]];
      UpdateUserLearningProfile(userId, interaction, now);
    }

    /** `_update_user_learning_profile`. */
    method UpdateUserLearningProfile(userId: string, interaction: Interaction, now: int)
      modifies this
      ensures interactions == old(interactions)
      ensures profiles == old(profiles)[userId := Learn(ProfileFor(old(profiles), userId, now), interaction, now)]
    {
      var profile := ProfileFor(profiles, userId, now);
      var preferences := profile.preferences;
      if Positive(interaction.action) {
        preferences := CountPreferences(preferences, interaction.metadata);
      }
      var patterns := profile.patterns + [PatternEntry(interaction.action, interaction.timestamp, interaction.metadata)];
      patterns := Drop(patterns, -50);
      profiles := profiles[userId := LearningProfile(profile.userId, preferences, patterns, now)];
    }
  }

  /** The preference counting of a positive interaction: its category, then each of its tags. */
  method CountPreferences(prefs: map<string, nat>, metadata: Metadata) returns (counted: map<string, nat>)
    ensures counted == BumpAll(prefs, PreferenceKeys(metadata))
  {
    counted := prefs;
    ghost var categoryKeys: seq<string> := [];
    if metadata.assetCategory.Some? {
      categoryKeys := ["category_" + metadata.assetCategory.value];
      counted := Bump(counted, "category_" + metadata.assetCategory.value);
    }
    assert counted == BumpAll(prefs, categoryKeys);
    if metadata.assetTags.Some? {
      counted := CountTagPreferences(prefs, counted, categoryKeys, metadata.assetTags.value);
    } else {
      assert categoryKeys + [] == categoryKeys;
    }
  }

  /** `prefs[f'tag_{tag}'] = prefs.get(f'tag_{tag}', 0) + 1` for each tag in turn. */
  method CountTagPreferences(ghost prefs: map<string, nat>, counted: map<string, nat>, ghost before: seq<string>,
                             tags: seq<string>) returns (result: map<string, nat>)
    requires counted == BumpAll(prefs, before)
    ensures result == BumpAll(prefs, before + TagKeys(tags))
  {
    result := counted;
    assert before + TagKeys(tags[..0]) == before;
    var j := 0;
    while j < |tags|
      invariant 0 <= j <= |tags|
      invariant result == BumpAll(prefs, before + TagKeys(tags[..j]))
    {
      ghost var done := before + TagKeys(tags[..j]);
      assert tags[..j + 1][..j] == tags[..j];
      assert before + TagKeys(tags[..j + 1]) == done + ["tag_" + tags[j]];
      assert (done + ["tag_" + tags[j]])[..|done|] == done;
      result := Bump(result, "tag_" + tags[j]);
      j := j + 1;
    }
    assert tags[..|tags|] == tags;
  }
}
