/** GIF search across the Tenor and Giphy services: how one search splits its limit between the
    two, how overlay searches build their queries, and how the results of several queries are
    merged without repeating a GIF. What a service answers for a query and a limit is a function
    parameter; a request that fails answers nothing. */
module GifSearch {
  import opened Wrappers
  import opened Lists
  import opened Numbers

  /** One search result, as the service normalises it. */
  datatype Gif = Gif(id: string, title: string, previewUrl: string, fullUrl: string, source: string,
                     tags: seq<string>, contentDescription: string)

  datatype Category = Category(name: string, path: string, image: string)

  /** The service's API keys, as read from the environment. */
  datatype Keys = Keys(tenorKey: Option<string>, giphyKey: Option<string>)

  /** What a service answers for a query and a requested number of results. */
  type Provider = (string, int) -> seq<Gif>

  /** `if not self.…_api_key`: a missing or empty key disables the service. */
  predicate Configured(key: Option<string>)
  {
    key.Some? && key.value != ""
  }

  // ------------------------------------------------------------- one service

  function SearchTenor(keys: Keys, tenor: Provider, query: string, limit: int): seq<Gif>
  {
    if Configured(keys.tenorKey) then tenor(query, limit) else []
  }

  function SearchGiphy(keys: Keys, giphy: Provider, query: string, limit: int): seq<Gif>
  {
    if Configured(keys.giphyKey) then giphy(query, limit) else []
  }

  /** `get_tenor_categories`, given the categories the service answered. */
  function TenorCategories(keys: Keys, answered: seq<Category>): seq<Category>
  {
    if Configured(keys.tenorKey) then answered else []
  }

  /** `get_tenor_featured`, given the GIFs the service answered. */
  function TenorFeatured(keys: Keys, answered: seq<Gif>): seq<Gif>
  {
    if Configured(keys.tenorKey) then answered else []
  }

  /** `register_tenor_share`, given whether the request went through. */
  function RegisterTenorShare(keys: Keys, accepted: bool): bool
  {
    Configured(keys.tenorKey) && accepted
  }

  /** Without a Tenor key nothing is asked of Tenor: searches, categories and featured GIFs are
      empty and no share is registered; without a Giphy key Giphy searches are empty. */
  lemma NoKeyNoResults(keys: Keys, tenor: Provider, giphy: Provider, query: string, limit: int,
                       categories: seq<Category>, featured: seq<Gif>, accepted: bool)
    ensures !Configured(keys.tenorKey) ==>
              SearchTenor(keys, tenor, query, limit) == [] && TenorCategories(keys, categories) == [] &&
              TenorFeatured(keys, featured) == [] && !RegisterTenorShare(keys, accepted)
    ensures !Configured(keys.giphyKey) ==> SearchGiphy(keys, giphy, query, limit) == []
    ensures !Configured(keys.tenorKey) && !Configured(keys.giphyKey) ==>
              SearchGifs(keys, tenor, giphy, query, limit, "all") == []
  {
  }

  // ------------------------------------------------------------- search_gifs

  /** How many results Tenor is asked for: all of them for a Tenor-only search, otherwise the
      larger of half and all but ten. */
  function TenorLimit(source: string, limit: int): (r: int)
    ensures source == "tenor" ==> r == limit
    ensures source != "tenor" && 0 <= limit ==>
              r == (if limit >= 20 then limit - 10 else limit / 2) && limit / 2 <= r <= limit
  {
    if source == "tenor" then limit else MaxInt(limit / 2, limit - 10)
  }

  /** `search_gifs`: Tenor first, then Giphy for whatever of the limit Tenor left, cut to the
      limit. */
  function SearchGifs(keys: Keys, tenor: Provider, giphy: Provider, query: string, limit: int, source: string)
    : (r: seq<Gif>)
    ensures 0 <= limit ==> |r| <= limit
    ensures source != "all" && source != "tenor" && source != "giphy" ==> r == []
    ensures source == "tenor" ==> r == Take(SearchTenor(keys, tenor, query, limit), limit)
    ensures source == "giphy" && limit > 0 ==> r == Take(SearchGiphy(keys, giphy, query, limit), limit)
  {
    var fromTenor := if source == "all" || source == "tenor" then SearchTenor(keys, tenor, query, TenorLimit(source, limit)) else [];
    var remaining := limit - |fromTenor|;
    var fromGiphy := if (source == "all" || source == "giphy") && remaining > 0 then SearchGiphy(keys, giphy, query, remaining) else [];
    assert source == "tenor" ==> fromTenor + fromGiphy == fromTenor;
    Take(fromTenor + fromGiphy, limit)
  }

  /** A search over both services keeps Tenor's answers ahead of Giphy's, and asks Giphy only for
      the positive remainder of the limit. */
  lemma SearchAllPrefersTenor(keys: Keys, tenor: Provider, giphy: Provider, query: string, limit: int)
    ensures var t := SearchTenor(keys, tenor, query, TenorLimit("all", limit));
            var r := SearchGifs(keys, tenor, giphy, query, limit, "all");
            (limit - |t| > 0 ==> r == Take(t + SearchGiphy(keys, giphy, query, limit - |t|), limit)) &&
            (limit - |t| <= 0 ==> r == Take(t, limit)) &&
            (0 <= limit && |t| <= limit ==> r[..|t|] == t)
  {
    var t := SearchTenor(keys, tenor, query, TenorLimit("all", limit));
    if limit - |t| > 0 {
      var g := SearchGiphy(keys, giphy, query, limit - |t|);
      assert (t + g)[..|t|] == t;
    } else {
      assert t + [] == t;
    }
  }

  /** `search_overlay_gifs`' query: the category in front when one is given. */
  function OverlayQuery(query: string, category: Option<string>): (r: string)
    ensures category.Some? && category.value != "" ==> r == category.value + " " + query
    ensures !(category.Some? && category.value != "") ==> r == query
  {
    if category.Some? && category.value != "" then category.value + " " + query else query
  }

  /** `search_overlay_gifs`: a Tenor-only search for the overlay query. */
  function SearchOverlayGifs(keys: Keys, tenor: Provider, giphy: Provider, query: string,
                             category: Option<string>, limit: int): seq<Gif>
  {
    SearchGifs(keys, tenor, giphy, OverlayQuery(query, category), limit, "tenor")
  }

  /** Overlay searches never depend on Giphy, and return what Tenor answers for the query with the
      category in front, cut to the limit. */
  lemma OverlaySearchUsesTenorOnly(keys: Keys, tenor: Provider, giphy1: Provider, giphy2: Provider,
                                   query: string, category: string, limit: int)
    requires category != ""
    ensures SearchOverlayGifs(keys, tenor, giphy1, query, Some(category), limit) ==
            SearchOverlayGifs(keys, tenor, giphy2, query, Some(category), limit)
    ensures SearchOverlayGifs(keys, tenor, giphy1, query, Some(category), limit) ==
            Take(SearchTenor(keys, tenor, category + " " + query, limit), limit)
  {
  }

  // ------------------------------------------------------------- merging results

  function IdsOf(xs: seq<Gif>): set<string>
  {
    set k | 0 <= k < |xs| :: xs[k].id
  }

  lemma IdsOfSnoc(xs: seq<Gif>, x: Gif)
    ensures IdsOf(xs + [x]) == IdsOf(xs) + {x.id}
  {
    assert forall k :: 0 <= k < |xs| ==> (xs + [x])[k] == xs[k];
    assert (xs + [x])[|xs|] == x;
  }

  /** The GIFs in order, each id kept at its first occurrence only. */
  function UniqueById(xs: seq<Gif>): (r: seq<Gif>)
    ensures |r| <= |xs|
    ensures forall j, k :: 0 <= j < k < |r| ==> r[j].id != r[k].id
    ensures IdsOf(r) == IdsOf(xs)
    ensures forall j :: 0 <= j < |r| ==> r[j] in xs
  {
    if |xs| == 0 then []
    else
      var init, x := xs[..|xs| - 1], xs[|xs| - 1];
      var rest := UniqueById(init);
      assert xs == init + [x];
      IdsOfSnoc(init, x);
      if x.id in IdsOf(rest) then rest
      else
        IdsOfSnoc(rest, x);
        rest + [x]
  }

  /** Merging a prefix gives a prefix of the merge: earlier GIFs stay ahead. */
  lemma {:induction false} UniquePrefix(xs: seq<Gif>, i: nat)
    requires i <= |xs|
    ensures |UniqueById(xs[..i])| <= |UniqueById(xs)|
    ensures UniqueById(xs)[..|UniqueById(xs[..i])|] == UniqueById(xs[..i])
  {
    if i < |xs| {
      var init := xs[..|xs| - 1];
      assert init[..i] == xs[..i];
      UniquePrefix(init, i);
      var u := UniqueById(init);
      assert UniqueById(xs) == u || UniqueById(xs) == u + [xs[|xs| - 1]] by {
        assert xs[..|xs| - 1] == init;
      }
    } else {
      assert xs[..i] == xs;
    }
  }

  /** One more GIF is appended to the merged prefix exactly when its id is new. */
  lemma UniqueStep(xs: seq<Gif>, i: nat)
    requires i < |xs|
    ensures xs[..i + 1] == xs[..i] + [xs[i]]
    ensures UniqueById(xs[..i + 1]) ==
      if xs[i].id in IdsOf(UniqueById(xs[..i])) then UniqueById(xs[..i]) else UniqueById(xs[..i]) + [xs[i]]
  {
    assert xs[..i + 1][..i] == xs[..i];
  }

  /** One turn of the de-duplication loop, stated on its variables. */
  lemma MergeStep(all: seq<Gif>, i: nat, unique: seq<Gif>, seen: set<string>)
    requires i < |all| && unique == UniqueById(all[..i]) && seen == IdsOf(unique)
    ensures all[i].id !in seen ==>
      UniqueById(all[..i + 1]) == unique + [all[i]] && IdsOf(unique + [all[i]]) == seen + {all[i].id}
    ensures all[i].id in seen ==> UniqueById(all[..i + 1]) == unique
  {
    UniqueStep(all, i);
    IdsOfSnoc(unique, all[i]);
  }

  /** A GIF whose id does not occur earlier is kept. */
  lemma UniqueKeepsFirst(xs: seq<Gif>, i: nat)
    requires i < |xs|
    requires forall k :: 0 <= k < i ==> xs[k].id != xs[i].id
    ensures xs[i] in UniqueById(xs)
  {
    var u := UniqueById(xs[..i + 1]);
    assert xs[i].id !in IdsOf(xs[..i]);
    UniqueStep(xs, i);
    UniquePrefix(xs, i + 1);
    assert UniqueById(xs)[|u| - 1] == u[|u| - 1] == xs[i];
  }

  /** The most GIFs a smart overlay search returns. */
  const MergeCap: nat := 20

  /** The merged results: first occurrences in order, at most 20. */
  function Merged(all: seq<Gif>): (r: seq<Gif>)
    ensures |r| <= MergeCap && |r| <= |all|
    ensures forall j, k :: 0 <= j < k < |r| ==> r[j].id != r[k].id
    ensures forall j :: 0 <= j < |r| ==> r[j] in all
    ensures |r| < MergeCap ==> IdsOf(r) == IdsOf(all)
  {
    Take(UniqueById(all), MergeCap)
  }

  /** Once the merge of a prefix is full, or the prefix is everything, it decides the merge. */
  lemma MergedFromPrefix(all: seq<Gif>, i: nat)
    requires i <= |all|
    requires i == |all| || |UniqueById(all[..i])| >= MergeCap
    requires |UniqueById(all[..i])| <= MergeCap
    ensures Merged(all) == UniqueById(all[..i])
  {
    if i == |all| {
      assert all[..i] == all;
    } else {
      UniquePrefix(all, i);
    }
  }

  /** The de-duplication loop of `get_smart_gif_overlays`, with its `seen_ids` set and its stop
      at 20. */
  method MergeUnique(all: seq<Gif>) returns (unique: seq<Gif>)
    ensures unique == Merged(all)
  {
    var seen: set<string> := {};
    unique := [];
    var i := 0;
    while i < |all| && |unique| < MergeCap
      invariant 0 <= i <= |all|
      invariant unique == UniqueById(all[..i])
      invariant seen == IdsOf(unique)
      invariant |unique| <= MergeCap
      decreases |all| - i
    {
      MergeStep(all, i, unique, seen);
      if all[i].id !in seen {
        seen := seen + {all[i].id};
        unique := unique + [all[i]];
      }
      i := i + 1;
    }
    MergedFromPrefix(all, i);
  }


  // ------------------------------------------------------------- smart overlays

  /** The fields of a video analysis the smart search reads; a missing field is `None`. */
  datatype Analysis = Analysis(sceneType: Option<string>, mood: Option<string>,
                               primaryActivity: Option<string>, tags: Option<seq<string>>)

  const FallbackQueries: seq<string> := ["celebration", "sparkles", "effects"]

  /** The queries `get_smart_gif_overlays` builds: activity and mood, the scene, the first two
      tags, or the fallback list when none applies. */
  function SmartQueries(a: Analysis): (r: seq<string>)
    ensures 1 <= |r| <= 4
  {
    var scene := a.sceneType.GetOr("general");
    var mood := a.mood.GetOr("neutral");
    var activity := a.primaryActivity.GetOr("general");
    var queries := (if activity != "" && mood != "" then [activity + " " + mood] else [])
                   + (if scene != "" then [scene + " overlay"] else [])
                   + Take(a.tags.GetOr([]), 2);
    if |queries| == 0 then FallbackQueries else queries
  }

  /** The queries in order: activity and mood first when both are set, then the scene, then up to
      two tags; with every field missing they are "general neutral" and "general overlay". */
  lemma SmartQueriesOrder(a: Analysis)
    ensures var r := SmartQueries(a);
            var activity := a.primaryActivity.GetOr("general");
            var mood := a.mood.GetOr("neutral");
            var scene := a.sceneType.GetOr("general");
            var tags := a.tags.GetOr([]);
            (activity != "" && mood != "" ==> r[0] == activity + " " + mood) &&
            (scene != "" && (activity == "" || mood == "") ==> r[0] == scene + " overlay") &&
            (scene != "" && activity != "" && mood != "" ==> r[1] == scene + " overlay") &&
            (|tags| > 0 ==> r[|r| - |Take(tags, 2)|..] == Take(tags, 2)) &&
            ((activity == "" || mood == "") && scene == "" && |tags| == 0 ==> r == FallbackQueries)
    ensures SmartQueries(Analysis(None, None, None, None)) == ["general neutral", "general overlay"]
  {
    assert "general" + " " + "neutral" == "general neutral";
    assert "general" + " overlay" == "general overlay";
    assert Take<string>([], 2) == [];
  }

  /** `max(1, 15 // len(search_queries))`. */
  function ResultsPerQuery(n: nat): (r: int)
    requires n >= 1
    ensures r >= 1
  {
    MaxInt(1, 15 / n)
  }

  /** Up to four queries, each asking for its share of fifteen, never ask for more than fifteen. */
  lemma SharesFitFifteen(n: nat)
    requires 1 <= n <= 4
    ensures n * ResultsPerQuery(n) <= 15
  {
  }

  /** The GIFs of every query, each a Tenor-only search for the per-query share, in query order. */
  function QueryResults(keys: Keys, tenor: Provider, giphy: Provider, queries: seq<string>, per: int)
    : (r: seq<Gif>)
    ensures per >= 0 ==> |r| <= |queries| * per
  {
    if |queries| == 0 then []
    else
      var rest := QueryResults(keys, tenor, giphy, queries[..|queries| - 1], per);
      var last := SearchGifs(keys, tenor, giphy, queries[|queries| - 1], per, "tenor");
      MultiplyStep(|queries|, per);
      rest + last
  }

  lemma QueryResultsStep(keys: Keys, tenor: Provider, giphy: Provider, queries: seq<string>, per: int, i: nat)
    requires i < |queries|
    ensures QueryResults(keys, tenor, giphy, queries[..i + 1], per)
         == QueryResults(keys, tenor, giphy, queries[..i], per) + SearchGifs(keys, tenor, giphy, queries[i], per, "tenor")
  {
    assert queries[..i + 1][..i] == queries[..i];
  }

  lemma MultiplyStep(n: nat, per: int)
    requires n >= 1
    ensures (n - 1) * per + per == n * per
  {
  }

  /** `get_smart_gif_overlays`. */
  function SmartGifOverlays(keys: Keys, tenor: Provider, giphy: Provider, a: Analysis): seq<Gif>
  {
    var queries := SmartQueries(a);
    Merged(QueryResults(keys, tenor, giphy, queries, ResultsPerQuery(|queries|)))
  }

  /** The smart search returns at most fifteen GIFs, so its cap of twenty never applies, and no
      id twice. */
  lemma SmartGifOverlaysBound(keys: Keys, tenor: Provider, giphy: Provider, a: Analysis)
    ensures var r := SmartGifOverlays(keys, tenor, giphy, a);
            |r| <= 15 && forall j, k :: 0 <= j < k < |r| ==> r[j].id != r[k].id
  {
    var queries := SmartQueries(a);
    var per := ResultsPerQuery(|queries|);
    SharesFitFifteen(|queries|);
    var all := QueryResults(keys, tenor, giphy, queries, per);
    assert |all| <= |queries| * per;
  }

  /** Builds the queries by successive appends. */
  method BuildSmartQueries(a: Analysis) returns (queries: seq<string>)
    ensures queries == SmartQueries(a)
  {
    var scene := a.sceneType.GetOr("general");
    var mood := a.mood.GetOr("neutral");
    var activity := a.primaryActivity.GetOr("general");
    var tags := a.tags.GetOr([]);
    queries := [];
    if activity != "" && mood != "" {
      queries := queries + [activity + " " + mood];
    }
    if scene != "" {
      queries := queries + [scene + " overlay"];
    }
    ghost var head := queries;
    var top := Take(tags, 2);
    var i := 0;
    while i < |top|
      invariant 0 <= i <= |top|
      invariant queries == head + top[..i]
    {
      queries := queries + [top[i]];
      i := i + 1;
    }
    assert top[..i] == top;
    if |queries| == 0 {
      queries := FallbackQueries;
    }
  }

  /** `get_smart_gif_overlays`: one search per query, then the merge. */
  method GetSmartGifOverlays(keys: Keys, tenor: Provider, giphy: Provider, a: Analysis) returns (r: seq<Gif>)
    ensures r == SmartGifOverlays(keys, tenor, giphy, a)
  {
    var queries := BuildSmartQueries(a);
    var per := ResultsPerQuery(|queries|);
    var all: seq<Gif> := [];
    var i := 0;
    while i < |queries|
      invariant 0 <= i <= |queries|
      invariant all == QueryResults(keys, tenor, giphy, queries[..i], per)
    {
      QueryResultsStep(keys, tenor, giphy, queries, per, i);
      all := all + SearchGifs(keys, tenor, giphy, queries[i], per, "tenor");
      i := i + 1;
    }
    assert queries[..i] == queries;
    r := MergeUnique(all);
  }
}
