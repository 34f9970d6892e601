/** The recommendation engine: an id-keyed catalogue of items, a trailer
    cache, pairwise similarity memoised in the items, and the scoring and
    ranking of the catalogue against a user's preferences. The language
    model, the trailer search, the thumbnail analysis and the sentiment
    analyser are inputs: each call receives what they would answer. */
module Engine {
  import opened Common
  import opened PyDict
  import opened Scoring
  import Ranking
  import ColorPreferences
  import Preferences
  import AnimeModel
  import Sentiment
  import Errors
  import Values

  /** `RecommendationResult`. */
  datatype RecommendationResult = RecommendationResult(
    anime: AnimeModel.Anime,
    score: real,
    explanation: Option<string>,
    trailerUrl: Option<string>,
    trailerThumbnail: Option<string>,
    trailerTitle: Option<string>,
    trailerChannel: Option<string>)

  function ResultScore(r: RecommendationResult): real { r.score }

  // ---------------------------------------------------------------------
  // The catalogue
  // ---------------------------------------------------------------------

  /** Every item stored under its own id. */
  ghost predicate KeyedById(d: Dict<string, AnimeModel.Anime>) {
    d.Valid() && forall id :: id in d.entries ==> d.entries[id].id == id
  }

  /** The catalogue after `add_anime` of each item in turn. */
  function PutAll(d: Dict<string, AnimeModel.Anime>, items: seq<AnimeModel.Anime>): (r: Dict<string, AnimeModel.Anime>)
    requires d.Valid()
    ensures r.Valid()
  {
    if items == [] then d
    else
      var last := items[|items| - 1];
      PutAll(d, items[..|items| - 1]).Put(last.id, last)
  }

  /** Index of the last item carrying `id`. */
  predicate LastWithId(items: seq<AnimeModel.Anime>, id: string, i: int) {
    0 <= i < |items| && items[i].id == id && forall j :: i < j < |items| ==> items[j].id != id
  }

  /** Adding items in turn keeps every earlier key in place, new ids going
      after them. */
  lemma {:induction false} PutAllKeepsOrder(d: Dict<string, AnimeModel.Anime>, items: seq<AnimeModel.Anime>)
    requires d.Valid()
    ensures |d.keys| <= |PutAll(d, items).keys| && PutAll(d, items).keys[..|d.keys|] == d.keys
  {
    if items != [] {
      var last := items[|items| - 1];
      PutAllKeepsOrder(d, items[..|items| - 1]);
      var p := PutAll(d, items[..|items| - 1]);
      if last.id !in p.entries {
        assert PutAll(d, items).keys == p.keys + [last.id];
        assert (p.keys + [last.id])[..|d.keys|] == p.keys[..|d.keys|];
      }
    }
  }

  /** An id is in the catalogue afterwards exactly when it was before or an
      added item carries it. */
  lemma {:induction false} PutAllKeys(d: Dict<string, AnimeModel.Anime>, items: seq<AnimeModel.Anime>)
    requires d.Valid()
    ensures forall id :: id in PutAll(d, items).entries <==>
      id in d.entries || exists i :: 0 <= i < |items| && items[i].id == id
  {
    if items != [] {
      var init := items[..|items| - 1];
      PutAllKeys(d, init);
      forall id ensures id in PutAll(d, items).entries <==> id in d.entries || exists i :: 0 <= i < |items| && items[i].id == id {
        if exists i :: 0 <= i < |items| && items[i].id == id {
          var i :| 0 <= i < |items| && items[i].id == id;
          if i < |init| {
            assert init[i].id == id;
          }
        }
        if exists i :: 0 <= i < |init| && init[i].id == id {
          var i :| 0 <= i < |init| && init[i].id == id;
          assert items[i].id == id;
        }
      }
    }
  }

  /** The last item carrying an id is the one stored under it. */
  lemma {:induction false} PutAllLastWins(d: Dict<string, AnimeModel.Anime>, items: seq<AnimeModel.Anime>, id: string, i: int)
    requires d.Valid() && LastWithId(items, id, i)
    ensures id in PutAll(d, items).entries && PutAll(d, items).entries[id] == items[i]
  {
    var init := items[..|items| - 1];
    if i < |init| {
      assert LastWithId(init, id, i);
      PutAllLastWins(d, init, id, i);
    }
  }

  /** An id no added item carries keeps its old value. */
  lemma {:induction false} PutAllUntouched(d: Dict<string, AnimeModel.Anime>, items: seq<AnimeModel.Anime>, id: string)
    requires d.Valid() && id in d.entries
    requires forall i :: 0 <= i < |items| ==> items[i].id != id
    ensures id in PutAll(d, items).entries && PutAll(d, items).entries[id] == d.entries[id]
  {
    if items != [] {
      var init := items[..|items| - 1];
      assert forall i :: 0 <= i < |init| ==> init[i].id == items[i].id;
      PutAllUntouched(d, init, id);
    }
  }

  /** Items keyed by their own ids stay keyed by their own ids. */
  lemma {:induction false} PutAllKeyedById(d: Dict<string, AnimeModel.Anime>, items: seq<AnimeModel.Anime>)
    requires KeyedById(d)
    ensures KeyedById(PutAll(d, items))
  {
    if items != [] {
      PutAllKeyedById(d, items[..|items| - 1]);
    }
  }

  /** Starting from an empty catalogue, the catalogue has one entry per
      distinct id added. */
  lemma PutAllSize(items: seq<AnimeModel.Anime>)
    ensures |PutAll(Empty(), items).entries| == |set i | 0 <= i < |items| :: items[i].id|
  {
    PutAllKeys(Empty(), items);
    var r := PutAll(Empty(), items);
    assert r.entries.Keys == set i | 0 <= i < |items| :: items[i].id;
  }

  // ---------------------------------------------------------------------
  // Trailer lookups
  // ---------------------------------------------------------------------

  /** `_fetch_trailer_sync` on a cache: the answer and the cache after. A
      cached title answers from the cache; with no search (demo mode or no
      client) the mock trailer is made and cached; otherwise a found trailer
      is cached and a failed search gives the empty record, uncached. */
  function TrailerLookup(cache: map<string, TrailerInfo>, title: string, mock: bool,
                         search: string -> Option<TrailerInfo>): (r: (TrailerInfo, map<string, TrailerInfo>))
    ensures title in cache ==> r == (cache[title], cache)
    ensures r.1 == cache || r.1 == cache[title := r.0]
  {
    if title in cache then (cache[title], cache)
    else
      match Fresh(title, mock, search)
      case Some(info) => (info, cache[title := info])
      case None => (NoTrailer, cache)
  }

  /** What an uncached title finds: the mock trailer when there is no
      search, otherwise the search result. */
  function Fresh(title: string, mock: bool, search: string -> Option<TrailerInfo>): (r: Option<TrailerInfo>)
    ensures mock ==> r == Some(MockTrailer(title))
    ensures !mock ==> r == search(title)
  {
    if mock then Some(MockTrailer(title)) else search(title)
  }

  /** A cache that holds nothing but mock trailers. */
  predicate MockCache(cache: map<string, TrailerInfo>) {
    forall t :: t in cache ==> cache[t] == MockTrailer(t)
  }

  /** Asking twice for the same title gives the same answer and leaves the
      cache as the first call left it. */
  lemma TrailerLookupIdempotent(cache: map<string, TrailerInfo>, title: string, mock: bool,
                                search: string -> Option<TrailerInfo>)
    ensures var (info, c) := TrailerLookup(cache, title, mock, search);
      TrailerLookup(c, title, mock, search) == (info, c) || (info == NoTrailer && c == cache && title !in c)
  {
  }

  /** Looking one title up never changes what another lookup answers: a
      found trailer is what a later search would find again, and a failed
      one is not cached. */
  lemma TrailerLookupStable(cache: map<string, TrailerInfo>, u: string, t: string, mock: bool,
                            search: string -> Option<TrailerInfo>)
    ensures TrailerLookup(TrailerLookup(cache, u, mock, search).1, t, mock, search).0 ==
            TrailerLookup(cache, t, mock, search).0
  {
  }

  /** `c` grew from `c0` by lookups: it keeps every entry of `c0`, and
      each entry it adds is what a fresh lookup of its title finds. */
  ghost predicate Extends(c: map<string, TrailerInfo>, c0: map<string, TrailerInfo>, mock: bool,
                          search: string -> Option<TrailerInfo>)
  {
    && (forall t :: t in c0 ==> t in c && c[t] == c0[t])
    && (forall t :: t in c && t !in c0 ==> Fresh(t, mock, search) == Some(c[t]))
  }

  /** A cache grown by lookups answers every title as the cache it grew
      from, and keeps growing by lookups. */
  lemma ExtendsLookup(c: map<string, TrailerInfo>, c0: map<string, TrailerInfo>, t: string, mock: bool,
                      search: string -> Option<TrailerInfo>)
    requires Extends(c, c0, mock, search)
    ensures TrailerLookup(c, t, mock, search).0 == TrailerLookup(c0, t, mock, search).0
    ensures Extends(TrailerLookup(c, t, mock, search).1, c0, mock, search)
  {
  }

  /** In mock mode over a cache of mocks, every answer is the mock trailer
      of the title, and the cache stays a cache of mocks. */
  lemma MockLookup(cache: map<string, TrailerInfo>, title: string, search: string -> Option<TrailerInfo>)
    requires MockCache(cache)
    ensures TrailerLookup(cache, title, true, search).0 == MockTrailer(title)
    ensures MockCache(TrailerLookup(cache, title, true, search).1)
  {
  }

  // ---------------------------------------------------------------------
  // Visual profiles
  // ---------------------------------------------------------------------

  /** `_fetch_visual_profile_sync`: the demo profile in demo mode; otherwise
      nothing without an image URL, else what the thumbnail analysis gives
      (`None` for a failed analysis). */
  function FetchedProfile(demoMode: bool, title: string, imageUrl: Option<string>,
                          thumbnails: string -> Option<ColorPreferences.VisualProfile>)
    : (p: Option<ColorPreferences.VisualProfile>)
    ensures demoMode ==> p == Some(DemoVisualProfile(title))
    ensures !demoMode && !Values.TruthyStr(imageUrl) ==> p.None?
    ensures !demoMode && Values.TruthyStr(imageUrl) ==> p == thumbnails(imageUrl.value)
  {
    if demoMode then Some(DemoVisualProfile(title))
    else if !Values.TruthyStr(imageUrl) then None
    else thumbnails(imageUrl.value)
  }

  /** The visual profile an item has after scoring: unchanged unless the
      user has colour preferences and the item has no profile yet. */
  function ProfileAfterScoring(colorPrefs: seq<ColorPreferences.Preference>, profile: Option<ColorPreferences.VisualProfile>,
                               demoMode: bool, title: string, imageUrl: Option<string>,
                               thumbnails: string -> Option<ColorPreferences.VisualProfile>)
    : Option<ColorPreferences.VisualProfile>
  {
    if colorPrefs != [] && profile.None? then FetchedProfile(demoMode, title, imageUrl, thumbnails) else profile
  }

  /** Scoring twice fetches at most once: the second time the profile is
      kept, unless the first fetch found nothing. */
  lemma ProfileAfterScoringIdempotent(colorPrefs: seq<ColorPreferences.Preference>,
                                      profile: Option<ColorPreferences.VisualProfile>, demoMode: bool, title: string,
                                      imageUrl: Option<string>,
                                      thumbnails: string -> Option<ColorPreferences.VisualProfile>)
    ensures var p := ProfileAfterScoring(colorPrefs, profile, demoMode, title, imageUrl, thumbnails);
      ProfileAfterScoring(colorPrefs, p, demoMode, title, imageUrl, thumbnails) == p
  {
  }

  // ---------------------------------------------------------------------
  // Sentiment analysis of an item
  // ---------------------------------------------------------------------

  /** The features after a successful analysis: sentiment holds positivity
      and intensity, emotions and target audience are replaced, and themes
      gain the analysed themes scored above 0.5. */
  function AnalysedFeatures(f: AnimeModel.Features, result: Sentiment.SentimentResult): (g: AnimeModel.Features)
    ensures g.sentiment.Keys == {"positivity", "intensity"}
    ensures g.sentiment["positivity"] == result.positivity && g.sentiment["intensity"] == result.intensity
    ensures g.emotionProfile == result.emotions && g.targetDemographic == result.targetAudience
    ensures forall t :: t in g.themes <==> t in f.themes || (t in result.themes && result.themes[t] > 0.5)
    ensures forall t :: t in g.themes ==>
      g.themes[t] == if t in result.themes && result.themes[t] > 0.5 then result.themes[t] else f.themes[t]
    ensures g.genres == f.genres && g.synopsisEmbedding == f.synopsisEmbedding && g.titleEmbedding == f.titleEmbedding
  {
    var high := map t | t in result.themes && result.themes[t] > 0.5 :: result.themes[t];
    f.(sentiment := map["positivity" := result.positivity, "intensity" := result.intensity],
       emotionProfile := result.emotions,
       themes := f.themes + high,
       targetDemographic := result.targetAudience)
  }

  /** The error `analyze_anime_sentiment` raises when the analyser fails. */
  function SentimentFailure(id: string): (e: Errors.Error)
    ensures e.cls == Errors.AnalysisError && e.code == Some("ANALYSIS_ERROR")
    ensures e.message == "Failed to analyze sentiment for anime " + id
    ensures e.details == map["anime_id" := Values.VStr(id)]
  {
    Errors.NewAnalysisError("Failed to analyze sentiment for anime " + id, None,
                            Some(map["anime_id" := Values.VStr(id)]), None)
  }

  /** `analyze_anime_sentiment(anime)`, given what the analyser answers for
      the synopsis: an item without a synopsis is returned untouched. */
  method AnalyzeAnimeSentiment(a: AnimeModel.Anime, analysis: Result<Sentiment.SentimentResult, string>)
    returns (r: Result<AnimeModel.Anime, Errors.Error>)
    modifies a`features
    ensures !Values.TruthyStr(a.synopsis) ==> r == Ok(a) && a.features == old(a.features)
    ensures Values.TruthyStr(a.synopsis) && analysis.Err? ==> r == Err(SentimentFailure(a.id)) && a.features == old(a.features)
    ensures Values.TruthyStr(a.synopsis) && analysis.Ok? ==> r == Ok(a) && a.features == AnalysedFeatures(old(a.features), analysis.value)
  {
    if !Values.TruthyStr(a.synopsis) {
      return Ok(a);
    }
    if analysis.Err? {
      return Err(SentimentFailure(a.id));
    }
    a.features := AnalysedFeatures(a.features, analysis.value);
    r := Ok(a);
  }

  // ---------------------------------------------------------------------
  // Scoring and recommending, as functions of the state
  // ---------------------------------------------------------------------

  /** `options or RecommendationOptions()`. */
  function OptionsOr(options: Option<Options>): Options {
    if options.Some? then options.value else DefaultOptions
  }

  /** The catalogue ids `get_recommendations` scores, in catalogue order. */
  function Candidates(ids: seq<string>, watched: set<string>): (c: seq<string>)
    ensures |c| <= |ids|
  {
    if ids == [] then []
    else
      var last := ids[|ids| - 1];
      assert ids == ids[..|ids| - 1] + [last];
      Candidates(ids[..|ids| - 1], watched) + (if last in watched then [] else [last])
  }

  /** The candidates are exactly the ids that are not watched. */
  lemma {:induction false} CandidatesMembers(ids: seq<string>, watched: set<string>)
    ensures forall x :: x in Candidates(ids, watched) <==> x in ids && x !in watched
  {
    if ids != [] {
      var init := ids[..|ids| - 1];
      CandidatesMembers(init, watched);
      assert ids == init + [ids[|ids| - 1]];
    }
  }

  /** Distinct ids give distinct candidates. */
  lemma {:induction false} CandidatesDistinct(ids: seq<string>, watched: set<string>)
    requires Distinct(ids)
    ensures Distinct(Candidates(ids, watched))
  {
    if ids != [] {
      var init := ids[..|ids| - 1];
      DistinctInit(ids);
      CandidatesDistinct(init, watched);
      CandidatesMembers(init, watched);
      if ids[|ids| - 1] !in watched {
        DistinctSnoc(Candidates(init, watched), ids[|ids| - 1]);
      } else {
        assert Candidates(init, watched) + [] == Candidates(init, watched);
      }
    }
  }

  /** Growing the scanned prefix of distinct ids by one id appends it,
      unless it is watched, and it was not a candidate before. */
  lemma CandidatesStep(ids: seq<string>, i: nat, watched: set<string>)
    requires Distinct(ids) && i < |ids|
    ensures Candidates(ids[..i + 1], watched) ==
      Candidates(ids[..i], watched) + (if ids[i] in watched then [] else [ids[i]])
    ensures ids[i] !in Candidates(ids[..i], watched)
  {
    assert ids[..i + 1][..i] == ids[..i];
    if ids[i] in ids[..i] {
      var k :| 0 <= k < i && ids[k] == ids[i];
      DistinctAt(ids, k, i);
    }
    CandidatesMembers(ids[..i], watched);
  }

  /** The ids a user has rated, unless watched items are included. */
  function Watched(ratings: Dict<string, Preferences.AnimeRating>, o: Options): set<string> {
    if o.includeWatched then {} else ratings.entries.Keys
  }

  /** The preferences `score_anime` reads. */
  datatype Taste = Taste(
    genres: map<string, real>,
    studios: set<string>,
    mood: Preferences.Mood,
    ratings: Dict<string, Preferences.AnimeRating>,
    colors: seq<ColorPreferences.Preference>)

  function TasteOf(prefs: Preferences.UserPreferences): Taste
    reads prefs
  {
    Taste(prefs.genrePreferences.entries, prefs.favoriteStudios, prefs.currentMood, prefs.animeRatings,
          prefs.colorPreferences)
  }

  /** The sentiment dict of each item, by id. */
  function SentimentsOf(features: map<string, AnimeModel.Features>): (m: map<string, map<string, real>>)
    ensures m.Keys == features.Keys
  {
    map id | id in features :: features[id].sentiment
  }

  /** What `score_anime` returns for an item with these genres, studios,
      features and visual profile: the weighted total and, when asked for,
      the explanation; or the division by a zero weight sum. */
  function ScoreOf(genres: seq<string>, studios: seq<string>, features: AnimeModel.Features,
                   profile: Option<ColorPreferences.VisualProfile>, t: Taste, o: Options,
                   sentiments: map<string, map<string, real>>, useTemplate: bool, reply: Result<string, string>)
    : Result<(real, Option<string>), ColorPreferences.ZeroDivisionError>
  {
    var s := SignalsOf(genres, studios, features, profile, t.genres, t.studios, t.mood, t.ratings, sentiments,
                       t.colors);
    match Total(o, s)
    case Err(e) => Err(e)
    case Ok(total) =>
      Ok((total, if o.generateExplanations
                 then Some(Explanation(useTemplate, reply, genres, studios, t.genres, t.studios, t.mood))
                 else None))
  }

  /** The trailer a result carries: looked up only when trailers are asked
      for and the trailer client module is present. */
  function TrailerFor(o: Options, youtubeAvailable: bool, cache: map<string, TrailerInfo>, title: string, mock: bool,
                      search: string -> Option<TrailerInfo>): TrailerInfo
  {
    if o.includeTrailers && youtubeAvailable then TrailerLookup(cache, title, mock, search).0 else NoTrailer
  }

  /** `r` holds the score and explanation of its item, given the item's
      features and visual profile, and the trailer. */
  ghost predicate Built(r: RecommendationResult, t: Taste, o: Options,
                        sentiments: map<string, map<string, real>>, useTemplate: bool,
                        reply: Result<string, string>, trailer: TrailerInfo,
                        features: AnimeModel.Features, profile: Option<ColorPreferences.VisualProfile>)
  {
    && ScoreOf(r.anime.genres, r.anime.studios, features, profile, t, o, sentiments, useTemplate, reply)
       == Ok((r.score, r.explanation))
    && r.trailerUrl == trailer.url && r.trailerThumbnail == trailer.thumbnail
    && r.trailerTitle == trailer.title && r.trailerChannel == trailer.channel
  }

  /** What `get_recommendations` returns from the scored results. */
  function Ranked(scored: seq<RecommendationResult>, limit: int): seq<RecommendationResult> {
    Ranking.SliceTo(Ranking.SortDesc(scored, ResultScore), limit)
  }

  /** Position of a result's item in a list of ids. */
  function RankIn(ids: seq<string>): RecommendationResult -> int {
    (r: RecommendationResult) => if r.anime.id in ids then IndexOf(ids, r.anime.id) else -1
  }

  lemma IndexOfDistinct(s: seq<string>, i: int)
    requires Distinct(s) && 0 <= i < |s|
    ensures IndexOf(s, s[i]) == i
  {
    var k := IndexOf(s, s[i]);
    if k != i {
      DistinctAt(s, k, i);
    }
  }

  /** The returned list: at most `limit` results (Python slice semantics),
      non-increasing scores, drawn from the scored ones, and nothing left
      out scores above anything kept. */
  lemma RankedSpec(scored: seq<RecommendationResult>, limit: int)
    ensures var out := Ranked(scored, limit);
      && |out| == Ranking.SliceLen(|scored|, limit)
      && Ranking.NonIncreasing(out, ResultScore)
      && multiset(out) <= multiset(scored)
      && forall x :: x in multiset(scored) - multiset(out) ==>
           forall j :: 0 <= j < |out| ==> out[j].score >= x.score
  {
    Ranking.TopSpec(scored, ResultScore, limit);
  }

  /** When the scored results follow a list of distinct ids, the returned
      list orders equal scores by position in that list. */
  lemma RankedOrder(scored: seq<RecommendationResult>, ids: seq<string>, limit: int)
    requires Distinct(ids) && |scored| == |ids|
    requires forall i :: 0 <= i < |scored| ==> scored[i].anime.id == ids[i]
    ensures Ranking.RankedDesc(Ranked(scored, limit), ResultScore, RankIn(ids))
  {
    var rank := RankIn(ids);
    forall i, j | 0 <= i < j < |scored| ensures rank(scored[i]) < rank(scored[j]) {
      IndexOfDistinct(ids, i);
      IndexOfDistinct(ids, j);
    }
    Ranking.SortDescRanked(scored, ResultScore, rank);
    var sorted := Ranking.SortDesc(scored, ResultScore);
    var out := Ranked(scored, limit);
    forall i, j | 0 <= i < j < |out|
      ensures ResultScore(out[i]) > ResultScore(out[j]) || (ResultScore(out[i]) == ResultScore(out[j]) && rank(out[i]) < rank(out[j]))
    {
      assert out[i] == sorted[i] && out[j] == sorted[j];
    }
  }

  /** Results that follow distinct ids are told apart by their items. */
  lemma SameItemSameResult(scored: seq<RecommendationResult>, ids: seq<string>, x: RecommendationResult,
                           y: RecommendationResult)
    requires Distinct(ids) && |scored| == |ids|
    requires forall i :: 0 <= i < |scored| ==> scored[i].anime.id == ids[i]
    requires x in scored && y in scored && x.anime == y.anime
    ensures x == y
  {
    var p :| 0 <= p < |scored| && scored[p] == x;
    var q :| 0 <= q < |scored| && scored[q] == y;
    assert ids[p] == ids[q];
    if p != q {
      DistinctAt(ids, p, q);
    }
  }

  /** ... and never holds the same item twice. */
  lemma RankedDistinct(scored: seq<RecommendationResult>, ids: seq<string>, limit: int)
    requires Distinct(ids) && |scored| == |ids|
    requires forall i :: 0 <= i < |scored| ==> scored[i].anime.id == ids[i]
    ensures var out := Ranked(scored, limit);
      forall i, j :: 0 <= i < j < |out| ==> out[i].anime != out[j].anime
  {
    RankedOrder(scored, ids, limit);
    Ranking.SortDescPermutes(scored, ResultScore);
    var sorted := Ranking.SortDesc(scored, ResultScore);
    var out := Ranked(scored, limit);
    forall i, j | 0 <= i < j < |out| ensures out[i].anime != out[j].anime {
      assert out[i] == sorted[i] && out[j] == sorted[j];
      assert out[i] in multiset(sorted) && out[j] in multiset(sorted);
      if out[i].anime == out[j].anime {
        SameItemSameResult(scored, ids, out[i], out[j]);
      }
    }
  }

  /** A map that agrees with `m` everywhere but at `k`, where it holds `v`,
      is `m` updated at `k`. */
  lemma MapUpdated<K, V>(m1: map<K, V>, m: map<K, V>, k: K, v: V)
    requires m1.Keys == m.Keys && k in m1 && m1[k] == v
    requires forall x :: x in m1 && x != k ==> m1[x] == m[x]
    ensures m1 == m[k := v]
  {
  }

  /** Two maps with the same keys and the same value at each key are equal. */
  lemma MapsEqual<K, V>(m1: map<K, V>, m2: map<K, V>)
    requires m1.Keys == m2.Keys
    requires forall x :: x in m1 ==> m1[x] == m2[x]
    ensures m1 == m2
  {
  }

  // ---------------------------------------------------------------------
  // The engine
  // ---------------------------------------------------------------------

  class RecommendationEngine {
    var catalog: Dict<string, AnimeModel.Anime>
    const demoMode: bool
    /** Whether a language-model client could be made. */
    const hasLlmClient: bool
    /** Whether the trailer client module could be imported. */
    const youtubeAvailable: bool
    /** Whether a trailer client was made: the module is there and an API key is set. */
    const hasYoutubeClient: bool
    var trailerCache: map<string, TrailerInfo>

    ghost predicate Valid()
      reads this
    {
      && KeyedById(catalog)
      && (MockMode() ==> MockCache(trailerCache))
    }

    /** Trailers are made up rather than searched for. */
    predicate MockMode() {
      demoMode || !hasYoutubeClient
    }

    /** The template explanation is used rather than the language model. */
    predicate UsesTemplate() {
      !hasLlmClient || demoMode
    }

    /** `RecommendationEngine(demo_mode)`, given whether the language-model
        client could be made, whether the trailer client module is present
        and the value of the API key variable. */
    constructor(demoMode: bool, hasLlmClient: bool, youtubeAvailable: bool, apiKey: Option<string>)
      ensures Valid()
      ensures catalog.keys == [] && trailerCache == map[]
      ensures this.demoMode == demoMode && this.hasLlmClient == hasLlmClient
      ensures this.youtubeAvailable == youtubeAvailable
      ensures hasYoutubeClient <==> youtubeAvailable && Values.TruthyStr(apiKey)
    {
      catalog := Empty();
      this.demoMode := demoMode;
      this.hasLlmClient := hasLlmClient;
      this.youtubeAvailable := youtubeAvailable;
      hasYoutubeClient := youtubeAvailable && Values.TruthyStr(apiKey);
      trailerCache := map[];
    }

    /** `add_anime(anime)`: stored under its id, replacing any item there. */
    method AddAnime(a: AnimeModel.Anime)
      requires Valid()
      modifies this`catalog
      ensures Valid()
      ensures catalog == old(catalog).Put(a.id, a)
    {
      catalog := catalog.Put(a.id, a);
    }

    /** `add_anime_batch(animes)`: each item added in turn. */
    method AddAnimeBatch(items: seq<AnimeModel.Anime>)
      requires Valid()
      modifies this`catalog
      ensures Valid()
      ensures catalog == PutAll(old(catalog), items)
    {
      ghost var start := catalog;
      for i := 0 to |items|
        invariant catalog == PutAll(start, items[..i])
        invariant Valid()
      {
        assert items[..i + 1][..i] == items[..i];
        catalog := catalog.Put(items[i].id, items[i]);
      }
      assert items[..|items|] == items;
      PutAllKeyedById(start, items);
    }

    /** `_compute_similarity(a1, a2)`: a pair already in the first item's
        cache answers from it; otherwise the cosine of the feature vectors is
        stored under both orders, each in its own item. */
    method ComputeSimilarity(a1: AnimeModel.Anime, a2: AnimeModel.Anime, sqrt: real -> real) returns (s: real)
      modifies a1`similarityCache, a2`similarityCache
      ensures var k := a1.id + ":" + a2.id;
        k in old(a1.similarityCache) ==>
          && s == old(a1.similarityCache)[k]
          && a1.similarityCache == old(a1.similarityCache) && a2.similarityCache == old(a2.similarityCache)
      ensures var k := a1.id + ":" + a2.id;
        k !in old(a1.similarityCache) ==>
          && s == Cosine(AnimeModel.FeatureVector(a1.features), AnimeModel.FeatureVector(a2.features), sqrt)
          && a1.similarityCache == old(a1.similarityCache)[k := s]
          && a2.similarityCache == old(a2.similarityCache)[a2.id + ":" + a1.id := s]
    {
      var key := a1.id + ":" + a2.id;
      if key in a1.similarityCache {
        return a1.similarityCache[key];
      }
      var v1 := a1.GetFeatureVector();
      var v2 := a2.GetFeatureVector();
      s := CosineSimilarity(v1, v2, sqrt);
      var reverse := a2.id + ":" + a1.id;
      if a1 == a2 {
        assert reverse == key;
        a1.similarityCache := a1.similarityCache[key := s];
      } else {
        a1.similarityCache := a1.similarityCache[key := s];
        a2.similarityCache := a2.similarityCache[reverse := s];
      }
    }

    /** `_fetch_trailer_sync(title)`, given what the search answers for
        each title (`None` for no result or a failed search). */
    method FetchTrailerSync(title: string, search: string -> Option<TrailerInfo>) returns (info: TrailerInfo)
      requires Valid()
      modifies this`trailerCache
      ensures Valid() && catalog == old(catalog)
      ensures (info, trailerCache) == TrailerLookup(old(trailerCache), title, MockMode(), search)
    {
      if title in trailerCache {
        return trailerCache[title];
      }
      if demoMode || !hasYoutubeClient {
        info := MockTrailer(title);
        trailerCache := trailerCache[title := info];
        return;
      }
      var found := search(title);
      if found.Some? {
        info := found.value;
        trailerCache := trailerCache[title := info];
      } else {
        info := NoTrailer;
      }
    }

    /** The positivity source of `score_anime`: the sentiment dict of each
        catalogue item, by id. */
    function CatalogSentiments(): (m: map<string, map<string, real>>)
      reads this`catalog, catalog.entries.Values`features
      ensures m.Keys == catalog.entries.Keys
    {
      map id | id in catalog.entries :: catalog.entries[id].features.sentiment
    }

    /** The features of each catalogue item, by id. */
    function CatalogFeatures(): (m: map<string, AnimeModel.Features>)
      reads this`catalog, catalog.entries.Values`features
      ensures m.Keys == catalog.entries.Keys
    {
      map id | id in catalog.entries :: catalog.entries[id].features
    }

    /** The visual profile of each catalogue item, by id. */
    function Profiles(): (m: map<string, Option<ColorPreferences.VisualProfile>>)
      reads this`catalog, catalog.entries.Values`visualProfile
      ensures m.Keys == catalog.entries.Keys
    {
      map id | id in catalog.entries :: catalog.entries[id].visualProfile
    }

    /** `features` holds the features of each catalogue item. */
    ghost predicate FeaturesAre(features: map<string, AnimeModel.Features>)
      reads this`catalog, catalog.entries.Values`features
    {
      && features.Keys == catalog.entries.Keys
      && forall id :: id in catalog.entries ==> catalog.entries[id].features == features[id]
    }

    /** `m` holds the visual profile of each catalogue item. */
    ghost predicate ProfilesAre(m: map<string, Option<ColorPreferences.VisualProfile>>)
      reads this`catalog, catalog.entries.Values`visualProfile
    {
      forall id :: id in catalog.entries ==> id in m && catalog.entries[id].visualProfile == m[id]
    }

    /** `score_anime(anime, user_prefs, options)`, given the language
        model's reply and what the thumbnail analysis answers. Scoring with
        colour preferences fetches a missing visual profile first, so the
        item can change even when the division raises. */
    method ScoreAnime(a: AnimeModel.Anime, prefs: Preferences.UserPreferences, o: Options,
                      reply: Result<string, string>, thumbnails: string -> Option<ColorPreferences.VisualProfile>)
      returns (r: Result<(real, Option<string>), ColorPreferences.ZeroDivisionError>)
      modifies a`visualProfile
      ensures a.visualProfile ==
        ProfileAfterScoring(prefs.colorPreferences, old(a.visualProfile), demoMode, a.title, a.imageUrl, thumbnails)
      ensures r == ScoreOf(a.genres, a.studios, a.features, a.visualProfile, old(TasteOf(prefs)), o,
                           old(CatalogSentiments()), UsesTemplate(), reply)
    {
      var sentiments := CatalogSentiments();
      if prefs.colorPreferences != [] && a.visualProfile.None? {
        a.visualProfile := FetchedProfile(demoMode, a.title, a.imageUrl, thumbnails);
      }
      var signals := ComputeSignals(a.genres, a.studios, a.features, a.visualProfile, prefs.genrePreferences.entries,
                                    prefs.favoriteStudios, prefs.currentMood, prefs.animeRatings, sentiments,
                                    prefs.colorPreferences);
      var total := Total(o, signals);
      if total.Err? {
        return Err(total.error);
      }
      var explanation := None;
      if o.generateExplanations {
        explanation := Some(Explanation(UsesTemplate(), reply, a.genres, a.studios, prefs.genrePreferences.entries,
                                        prefs.favoriteStudios, prefs.currentMood));
      }
      r := Ok((total.value, explanation));
    }

    /** The trailer `get_recommendations` attaches to a result: looked up
        only when trailers are asked for and the trailer client module is
        present. */
    method TrailerOf(title: string, o: Options, search: string -> Option<TrailerInfo>,
                     ghost cache0: map<string, TrailerInfo>)
      returns (info: TrailerInfo)
      requires Valid() && Extends(trailerCache, cache0, MockMode(), search)
      modifies this`trailerCache
      ensures Valid() && catalog == old(catalog)
      ensures Extends(trailerCache, cache0, MockMode(), search)
      ensures info == TrailerFor(o, youtubeAvailable, cache0, title, MockMode(), search)
    {
      info := NoTrailer;
      if o.includeTrailers && youtubeAvailable {
        ExtendsLookup(trailerCache, cache0, title, MockMode(), search);
        info := FetchTrailerSync(title, search);
      }
    }

    /** One pass of the loop of `get_recommendations`: score the item, look
        its trailer up when asked for, and build its result. */
    method ScoreCandidate(a: AnimeModel.Anime, prefs: Preferences.UserPreferences, o: Options,
                          reply: Result<string, string>, search: string -> Option<TrailerInfo>,
                          thumbnails: string -> Option<ColorPreferences.VisualProfile>,
                          ghost features: map<string, AnimeModel.Features>, ghost cache0: map<string, TrailerInfo>)
      returns (res: Result<RecommendationResult, ColorPreferences.ZeroDivisionError>)
      requires Valid() && a.id in catalog.entries && catalog.entries[a.id] == a && FeaturesAre(features)
      requires Extends(trailerCache, cache0, MockMode(), search)
      modifies this`trailerCache, a`visualProfile
      ensures catalog == old(catalog)
      ensures Valid()
      ensures Extends(trailerCache, cache0, MockMode(), search)
      ensures a.visualProfile ==
        ProfileAfterScoring(prefs.colorPreferences, old(a.visualProfile), demoMode, a.title, a.imageUrl, thumbnails)
      ensures res.Err? <==> TotalWeight(o) == 0.0
      ensures res.Ok? ==>
        && res.value.anime == a
        && Built(res.value, old(TasteOf(prefs)), o, SentimentsOf(features), UsesTemplate(), reply,
                 TrailerFor(o, youtubeAvailable, cache0, a.title, MockMode(), search),
                 features[a.id], a.visualProfile)
    {
      assert CatalogSentiments() == SentimentsOf(features);
      var scoredOne := ScoreAnime(a, prefs, o, reply, thumbnails);
      if scoredOne.Err? {
        return Err(scoredOne.error);
      }
      var info := TrailerOf(a.title, o, search, cache0);
      res := Ok(RecommendationResult(a, scoredOne.value.0, scoredOne.value.1,
                                     info.url, info.thumbnail, info.title, info.channel));
    }

    /** The results of `get_recommendations` after scoring the candidates
        `cands`: one result per candidate, in order, each built from its
        item, the features and visual profile the item had before the call
        (`features`, `profiles`), the profile scoring gave it, and the
        preferences `taste`. */
    ghost predicate Scored(results: seq<RecommendationResult>, cands: seq<string>,
                           entries: map<string, AnimeModel.Anime>,
                           profiles: map<string, Option<ColorPreferences.VisualProfile>>,
                           features: map<string, AnimeModel.Features>, taste: Taste, o: Options,
                           replies: string -> Result<string, string>, cache0: map<string, TrailerInfo>,
                           search: string -> Option<TrailerInfo>, thumbnails: string -> Option<ColorPreferences.VisualProfile>)
    {
      && |results| == |cands|
      && forall j :: 0 <= j < |results| ==>
           && cands[j] in entries && results[j].anime == entries[cands[j]]
           && BuiltFor(results[j], cands[j], profiles, features, taste, o, replies, cache0, search, thumbnails)
    }

    /** The result `r` for candidate `id` was built from the item's
        features, the profile scoring gave it, its reply and the answer of
        the trailer cache the call started with. */
    ghost predicate BuiltFor(r: RecommendationResult, id: string,
                             profiles: map<string, Option<ColorPreferences.VisualProfile>>,
                             features: map<string, AnimeModel.Features>, taste: Taste, o: Options,
                             replies: string -> Result<string, string>, cache0: map<string, TrailerInfo>,
                             search: string -> Option<TrailerInfo>,
                             thumbnails: string -> Option<ColorPreferences.VisualProfile>)
    {
      && id in features && id in profiles
      && Built(r, taste, o, SentimentsOf(features), UsesTemplate(), replies(id),
               TrailerFor(o, youtubeAvailable, cache0, r.anime.title, MockMode(), search), features[id],
               ProfileAfterScoring(taste.colors, profiles[id], demoMode, r.anime.title, r.anime.imageUrl, thumbnails))
    }

    /** Appending the result of one more candidate keeps the results built. */
    lemma {:induction false} ScoredStep(results: seq<RecommendationResult>, cands: seq<string>,
                                        one: RecommendationResult, id: string,
                                        entries: map<string, AnimeModel.Anime>,
                                        profiles: map<string, Option<ColorPreferences.VisualProfile>>,
                                        features: map<string, AnimeModel.Features>, taste: Taste, o: Options,
                                        replies: string -> Result<string, string>, cache0: map<string, TrailerInfo>,
                                        search: string -> Option<TrailerInfo>,
                                        thumbnails: string -> Option<ColorPreferences.VisualProfile>)
      requires Scored(results, cands, entries, profiles, features, taste, o, replies, cache0, search, thumbnails)
      requires id in entries && one.anime == entries[id]
      requires BuiltFor(one, id, profiles, features, taste, o, replies, cache0, search, thumbnails)
      ensures Scored(results + [one], cands + [id], entries, profiles, features, taste, o, replies, cache0, search,
                     thumbnails)
    {
      var rs, cs := results + [one], cands + [id];
      forall j | 0 <= j < |rs|
        ensures cs[j] in entries && rs[j].anime == entries[cs[j]]
        ensures BuiltFor(rs[j], cs[j], profiles, features, taste, o, replies, cache0, search, thumbnails)
      {
        if j < |results| {
          assert rs[j] == results[j] && cs[j] == cands[j];
        }
      }
    }

    /** `ScoreCandidate` on a catalogue item, seen from the catalogue: the
        result is built from what the records `profiles` and `features` say
        of the item, the item alone gets a new visual profile, and nothing
        else the loop relies on changes. */
    method ScoreInCatalog(a: AnimeModel.Anime, prefs: Preferences.UserPreferences, o: Options,
                          replies: string -> Result<string, string>, search: string -> Option<TrailerInfo>,
                          thumbnails: string -> Option<ColorPreferences.VisualProfile>,
                          ghost profiles: map<string, Option<ColorPreferences.VisualProfile>>,
                          ghost features: map<string, AnimeModel.Features>, ghost taste: Taste,
                          ghost cache0: map<string, TrailerInfo>,
                          ghost now: map<string, Option<ColorPreferences.VisualProfile>>)
      returns (res: Result<RecommendationResult, ColorPreferences.ZeroDivisionError>)
      requires Valid() && a.id in catalog.entries && catalog.entries[a.id] == a
      requires FeaturesAre(features) && ProfilesAre(now) && TasteOf(prefs) == taste
      requires a.id in profiles && a.visualProfile == profiles[a.id]
      requires Extends(trailerCache, cache0, MockMode(), search)
      modifies this`trailerCache, a`visualProfile
      ensures catalog == old(catalog)
      ensures Valid()
      ensures Extends(trailerCache, cache0, MockMode(), search)
      ensures FeaturesAre(features) && TasteOf(prefs) == taste
      ensures a.visualProfile ==
        ProfileAfterScoring(taste.colors, old(a.visualProfile), demoMode, a.title, a.imageUrl, thumbnails)
      ensures ProfilesAre(now[a.id := a.visualProfile])
      ensures res.Err? <==> TotalWeight(o) == 0.0
      ensures res.Ok? ==>
        && res.value.anime == a
        && BuiltFor(res.value, a.id, profiles, features, taste, o, replies, cache0, search, thumbnails)
    {
      res := ScoreCandidate(a, prefs, o, replies(a.id), search, thumbnails, features, cache0);
      forall x | x in catalog.entries && x != a.id
        ensures x in now && catalog.entries[x].visualProfile == now[x]
      {
        assert catalog.entries[x].id == x;
      }
      ProfilesAreUpdate(now, a.id);
    }

    /** Profiles recorded for every item but `id`, together with the current
        profile of `id`, record every item. */
    lemma ProfilesAreUpdate(now: map<string, Option<ColorPreferences.VisualProfile>>, id: string)
      requires id in catalog.entries
      requires forall x | x in catalog.entries && x != id :: x in now && catalog.entries[x].visualProfile == now[x]
      ensures ProfilesAre(now[id := catalog.entries[id].visualProfile])
    {
    }

    /** The visual profiles after scoring the candidates `cands`, one after
        the other, starting from `profiles`. */
    function Refreshed(entries: map<string, AnimeModel.Anime>,
                       profiles: map<string, Option<ColorPreferences.VisualProfile>>, cands: seq<string>,
                       colors: seq<ColorPreferences.Preference>,
                       thumbnails: string -> Option<ColorPreferences.VisualProfile>)
      : (m: map<string, Option<ColorPreferences.VisualProfile>>)
      ensures m.Keys == profiles.Keys
    {
      if cands == [] then profiles
      else
        var id := cands[|cands| - 1];
        var m := Refreshed(entries, profiles, cands[..|cands| - 1], colors, thumbnails);
        if id in profiles && id in entries
        then m[id := ProfileAfterScoring(colors, profiles[id], demoMode, entries[id].title, entries[id].imageUrl,
                                         thumbnails)]
        else m
    }

    /** Scoring one more candidate refreshes its profile alone. */
    lemma RefreshedSnoc(entries: map<string, AnimeModel.Anime>,
                        profiles: map<string, Option<ColorPreferences.VisualProfile>>,
                        cands: seq<string>, id: string, colors: seq<ColorPreferences.Preference>,
                        thumbnails: string -> Option<ColorPreferences.VisualProfile>)
      requires id in profiles && id in entries
      ensures Refreshed(entries, profiles, cands + [id], colors, thumbnails) ==
        Refreshed(entries, profiles, cands, colors, thumbnails)[id := ProfileAfterScoring(
          colors, profiles[id], demoMode, entries[id].title, entries[id].imageUrl, thumbnails)]
    {
      assert (cands + [id])[..|cands|] == cands;
    }

    /** After scoring the candidates, each scored item has the profile
        scoring gives it from the one it started with, and every other item
        keeps its profile. */
    lemma {:induction false} RefreshedAt(entries: map<string, AnimeModel.Anime>,
                                         profiles: map<string, Option<ColorPreferences.VisualProfile>>,
                                         cands: seq<string>, colors: seq<ColorPreferences.Preference>,
                                         thumbnails: string -> Option<ColorPreferences.VisualProfile>, x: string)
      requires x in profiles
      ensures Refreshed(entries, profiles, cands, colors, thumbnails)[x] ==
        if x in cands && x in entries
        then ProfileAfterScoring(colors, profiles[x], demoMode, entries[x].title, entries[x].imageUrl, thumbnails)
        else profiles[x]
    {
      if cands != [] {
        var init := cands[..|cands| - 1];
        RefreshedAt(entries, profiles, init, colors, thumbnails, x);
        assert cands == init + [cands[|cands| - 1]];
      }
    }

    /** The state of the loop of `get_recommendations` after the first `i`
        catalogue ids: the catalogue, the items' features, the preferences
        and the answers of the trailer cache are as they were, the
        candidates among those ids have been scored, and exactly their
        visual profiles have been refreshed. */
    ghost predicate Progress(i: int, results: seq<RecommendationResult>, cands: seq<string>,
                             keys: seq<string>, watched: set<string>,
                             entries: map<string, AnimeModel.Anime>,
                             profiles: map<string, Option<ColorPreferences.VisualProfile>>,
                             features: map<string, AnimeModel.Features>,
                             prefs: Preferences.UserPreferences, taste: Taste, o: Options,
                             replies: string -> Result<string, string>, cache0: map<string, TrailerInfo>,
                             search: string -> Option<TrailerInfo>,
                             thumbnails: string -> Option<ColorPreferences.VisualProfile>)
      reads this, entries.Values`features, entries.Values`visualProfile, prefs
    {
      && Valid() && catalog.keys == keys && catalog.entries == entries
      && FeaturesAre(features) && TasteOf(prefs) == taste
      && Extends(trailerCache, cache0, MockMode(), search)
      && ProfilesAre(Refreshed(entries, profiles, cands, taste.colors, thumbnails))
      && 0 <= i <= |keys| && cands == Candidates(keys[..i], watched)
      && (TotalWeight(o) == 0.0 ==> cands == [])
      && Scored(results, cands, entries, profiles, features, taste, o, replies, cache0, search, thumbnails)
    }

    /** Before the loop: nothing scanned, nothing scored. */
    lemma ProgressStart(watched: set<string>, prefs: Preferences.UserPreferences, o: Options,
                        replies: string -> Result<string, string>, search: string -> Option<TrailerInfo>,
                        thumbnails: string -> Option<ColorPreferences.VisualProfile>)
      requires Valid()
      ensures Progress(0, [], [], catalog.keys, watched, catalog.entries, Profiles(), CatalogFeatures(), prefs,
                       TasteOf(prefs), o, replies, trailerCache, search, thumbnails)
    {
      assert catalog.keys[..0] == [];
    }

    /** After the loop: every candidate scored, and their profiles alone
        refreshed. */
    lemma ProgressEnd(results: seq<RecommendationResult>, cands: seq<string>,
                      keys: seq<string>, watched: set<string>,
                      entries: map<string, AnimeModel.Anime>,
                      profiles: map<string, Option<ColorPreferences.VisualProfile>>,
                      features: map<string, AnimeModel.Features>,
                      prefs: Preferences.UserPreferences, taste: Taste, o: Options,
                      replies: string -> Result<string, string>, cache0: map<string, TrailerInfo>,
                      search: string -> Option<TrailerInfo>,
                      thumbnails: string -> Option<ColorPreferences.VisualProfile>)
      requires Progress(|keys|, results, cands, keys, watched, entries, profiles, features, prefs, taste, o,
                        replies, cache0, search, thumbnails)
      ensures cands == Candidates(catalog.keys, watched)
      ensures Scored(results, cands, catalog.entries, profiles, features, taste, o, replies, cache0, search, thumbnails)
      ensures ProfilesAre(Refreshed(catalog.entries, profiles, cands, prefs.colorPreferences, thumbnails))
    {
      assert keys[..|keys|] == keys;
    }

    /** A watched id is skipped: nothing is scored for it. */
    lemma SkipWatched(i: int, results: seq<RecommendationResult>, cands: seq<string>,
                      keys: seq<string>, watched: set<string>,
                      entries: map<string, AnimeModel.Anime>,
                      profiles: map<string, Option<ColorPreferences.VisualProfile>>,
                      features: map<string, AnimeModel.Features>,
                      prefs: Preferences.UserPreferences, taste: Taste, o: Options,
                      replies: string -> Result<string, string>, cache0: map<string, TrailerInfo>,
                      search: string -> Option<TrailerInfo>,
                      thumbnails: string -> Option<ColorPreferences.VisualProfile>)
      requires Progress(i, results, cands, keys, watched, entries, profiles, features, prefs, taste, o,
                        replies, cache0, search, thumbnails)
      requires i < |keys| && keys[i] in watched
      ensures Progress(i + 1, results, cands, keys, watched, entries, profiles, features, prefs, taste, o,
                       replies, cache0, search, thumbnails)
    {
      CandidatesStep(keys, i, watched);
    }

    /** One turn of the loop of `get_recommendations`: score the candidate
        `keys[i]` and append its result. */
    method ScoreNext(i: int, keys: seq<string>, watched: set<string>,
                     prefs: Preferences.UserPreferences, o: Options,
                     replies: string -> Result<string, string>, search: string -> Option<TrailerInfo>,
                     thumbnails: string -> Option<ColorPreferences.VisualProfile>,
                     results: seq<RecommendationResult>, ghost cands: seq<string>,
                     ghost entries: map<string, AnimeModel.Anime>,
                     ghost profiles: map<string, Option<ColorPreferences.VisualProfile>>,
                     ghost features: map<string, AnimeModel.Features>, ghost taste: Taste,
                     ghost cache0: map<string, TrailerInfo>)
      returns (r: Result<seq<RecommendationResult>, ColorPreferences.ZeroDivisionError>)
      requires Progress(i, results, cands, keys, watched, entries, profiles, features, prefs, taste, o,
                        replies, cache0, search, thumbnails)
      requires i < |keys| && keys[i] !in watched
      modifies this`trailerCache, entries.Values`visualProfile
      ensures Valid() && catalog == old(catalog) && TasteOf(prefs) == taste
      ensures r.Err? <==> TotalWeight(o) == 0.0
      ensures r.Ok? ==>
        Progress(i + 1, r.value, cands + [keys[i]], keys, watched, entries, profiles, features, prefs, taste, o,
                 replies, cache0, search, thumbnails)
    {
      var id := keys[i];
      CandidatesStep(keys, i, watched);
      var a := catalog.entries[id];
      RefreshedAt(entries, profiles, cands, taste.colors, thumbnails, id);
      assert a.visualProfile == profiles[id];
      ghost var now := Refreshed(entries, profiles, cands, taste.colors, thumbnails);
      var one := ScoreInCatalog(a, prefs, o, replies, search, thumbnails, profiles, features, taste, cache0, now);
      if one.Err? {
        return Err(one.error);
      }
      ScoredStep(results, cands, one.value, id, entries, profiles, features, taste, o, replies, cache0, search,
                 thumbnails);
      r := Ok(results + [one.value]);
      assert a.id == id;
      RefreshedSnoc(entries, profiles, cands, id, taste.colors, thumbnails);
    }

    /** The loop of `get_recommendations`: every catalogue item that is not
        excluded as watched is scored, in catalogue order, and has its
        visual profile refreshed; the first division by a zero weight sum
        ends the call. */
    method ScoreAll(prefs: Preferences.UserPreferences, o: Options,
                    replies: string -> Result<string, string>, search: string -> Option<TrailerInfo>,
                    thumbnails: string -> Option<ColorPreferences.VisualProfile>)
      returns (r: Result<seq<RecommendationResult>, ColorPreferences.ZeroDivisionError>, ghost cands: seq<string>)
      requires Valid()
      modifies this`trailerCache, catalog.entries.Values`visualProfile
      ensures Valid()
      ensures cands == Candidates(catalog.keys, Watched(prefs.animeRatings, o))
      ensures r.Err? <==> cands != [] && TotalWeight(o) == 0.0
      ensures r.Ok? ==>
        && Scored(r.value, cands, catalog.entries, old(Profiles()), old(CatalogFeatures()), old(TasteOf(prefs)), o,
                  replies, old(trailerCache), search, thumbnails)
        && ProfilesAre(Refreshed(catalog.entries, old(Profiles()), cands, prefs.colorPreferences, thumbnails))
    {
      var watched := if o.includeWatched then {} else prefs.animeRatings.entries.Keys;
      var keys := catalog.keys;
      ghost var entries := catalog.entries;
      ghost var profiles := Profiles();
      ghost var features := CatalogFeatures();
      ghost var taste := TasteOf(prefs);
      ghost var cache0 := trailerCache;
      cands := [];
      var results: seq<RecommendationResult> := [];
      ProgressStart(watched, prefs, o, replies, search, thumbnails);
      for i := 0 to |keys|
        invariant Progress(i, results, cands, keys, watched, entries, profiles, features, prefs, taste, o,
                           replies, cache0, search, thumbnails)
      {
        if keys[i] in watched {
          SkipWatched(i, results, cands, keys, watched, entries, profiles, features, prefs, taste, o,
                      replies, cache0, search, thumbnails);
        } else {
          var next := ScoreNext(i, keys, watched, prefs, o, replies, search, thumbnails, results, cands,
                                entries, profiles, features, taste, cache0);
          if next.Err? {
            CandidatesMembers(keys, watched);
            assert keys[i] in Candidates(keys, watched);
            return Err(next.error), Candidates(keys, watched);
          }
          results := next.value;
          cands := cands + [keys[i]];
        }
      }
      ProgressEnd(results, cands, keys, watched, entries, profiles, features, prefs, taste, o, replies, cache0,
                  search, thumbnails);
      r := Ok(results);
    }

    /** `get_recommendations(user_prefs, options)`, given the language
        model's reply for each item id, the trailer search and the thumbnail
        analysis: the scored candidates, best first, cut to the limit.
        `scored` is the list before sorting, one result per candidate in
        catalogue order. */
    method GetRecommendations(prefs: Preferences.UserPreferences, options: Option<Options>,
                              replies: string -> Result<string, string>, search: string -> Option<TrailerInfo>,
                              thumbnails: string -> Option<ColorPreferences.VisualProfile>)
      returns (r: Result<seq<RecommendationResult>, ColorPreferences.ZeroDivisionError>,
               ghost scored: seq<RecommendationResult>)
      requires Valid()
      modifies this`trailerCache, catalog.entries.Values`visualProfile
      ensures Valid()
      ensures var o := OptionsOr(options);
        r.Err? <==> Candidates(catalog.keys, Watched(prefs.animeRatings, o)) != [] && TotalWeight(o) == 0.0
      ensures var o := OptionsOr(options);
        var cands := Candidates(catalog.keys, Watched(prefs.animeRatings, o));
        r.Ok? ==>
          && r.value == Ranked(scored, o.limit)
          && Scored(scored, cands, catalog.entries, old(Profiles()), old(CatalogFeatures()), old(TasteOf(prefs)),
                    o, replies, old(trailerCache), search, thumbnails)
          && ProfilesAre(Refreshed(catalog.entries, old(Profiles()), cands, prefs.colorPreferences, thumbnails))
    {
      var o := OptionsOr(options);
      var all;
      ghost var cands;
      all, cands := ScoreAll(prefs, o, replies, search, thumbnails);
      if all.Err? {
        return Err(all.error), [];
      }
      scored := all.value;
      r := Ok(Ranked(all.value, o.limit));
    }

  }

  /** The padding and cosine part of `_compute_similarity`. */
  method CosineSimilarity(v1: seq<real>, v2: seq<real>, sqrt: real -> real) returns (s: real)
    ensures s == Cosine(v1, v2, sqrt)
  {
    var n := if |v1| < |v2| then |v2| else |v1|;
    var p1, p2 := Pad(v1, n), Pad(v2, n);
    var dot := DotProduct(p1, p2);
    var sq1 := DotProduct(p1, p1);
    var sq2 := DotProduct(p2, p2);
    var magnitudes := Mul(sqrt(sq1), sqrt(sq2));
    if magnitudes == 0.0 {
      s := 0.0;
    } else {
      s := dot / magnitudes;
    }
  }

  /** `sum(a * b for a, b in zip(u, v))`, accumulated. */
  method DotProduct(u: seq<real>, v: seq<real>) returns (d: real)
    requires |u| == |v|
    ensures d == Dot(u, v)
  {
    d := 0.0;
    for i := 0 to |u|
      invariant d == Dot(u[..i], v[..i])
    {
      assert u[..i + 1][..i] == u[..i] && v[..i + 1][..i] == v[..i];
      d := d + Mul(u[i], v[i]);
    }
    assert u[..|u|] == u && v[..|v|] == v;
  }
}
