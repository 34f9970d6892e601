/** The offline demo: turning a sample record into an item, and the
    simplified engine the demo falls back to when no service is reachable.
    That engine scores each item from the user's genre weights and mood
    alone, clamps the score to [0, 1], sorts and keeps the first `limit`. */
module Demo {
  import opened Common
  import Text
  import Ranking
  import Preferences
  import AnimeModel
  import Recommendations
  import Scoring

  type Anime = AnimeModel.Anime
  type Rec = Recommendations.Recommendation<Anime>

  // ---------------------------------------------------------------------
  // create_anime_object
  // ---------------------------------------------------------------------

  /** One entry of the sample data: the keys `create_anime_object` reads. */
  datatype SampleAnime = SampleAnime(
    id: string,
    title: string,
    synopsis: string,
    genres: seq<string>,
    studios: seq<string>,
    kind: string,
    episodes: int,
    year: int)

  /** The type of a sample entry: `"Movie"` and `"OVA"` are recognised,
      anything else is a TV series. */
  function TypeOf(kind: string): (t: AnimeModel.AnimeType)
    ensures t == AnimeModel.Movie <==> kind == "Movie"
    ensures t == AnimeModel.Ova <==> kind == "OVA"
    ensures t == AnimeModel.Tv <==> kind != "Movie" && kind != "OVA"
  {
    if kind == "Movie" then AnimeModel.Movie
    else if kind == "OVA" then AnimeModel.Ova
    else AnimeModel.Tv
  }

  /** `create_anime_object(anime_data)`: a new item carrying the entry's
      fields, the mapped type and the status `FINISHED`; everything else
      keeps the item's defaults. */
  method CreateAnimeObject(data: SampleAnime) returns (a: Anime)
    ensures fresh(a)
    ensures a.id == data.id && a.title == data.title && a.synopsis == Some(data.synopsis)
    ensures a.genres == data.genres && a.studios == data.studios
    ensures a.animeType == TypeOf(data.kind) && a.status == AnimeModel.Finished
    ensures a.episodes == Some(data.episodes) && a.year == Some(data.year)
    ensures a.themes == [] && a.features == AnimeModel.EmptyFeatures && a.visualProfile.None?
    ensures a.alternativeTitles == map[] && a.airedFrom.None? && a.airedTo.None? && a.season.None?
    ensures a.malId.None? && a.anilistId.None? && a.imageUrl.None? && a.similarityCache == map[]
  {
    var kind := AnimeModel.Tv;
    if data.kind == "Movie" {
      kind := AnimeModel.Movie;
    } else if data.kind == "OVA" {
      kind := AnimeModel.Ova;
    }
    a := new AnimeModel.Anime(
      data.id, data.title, animeType := kind, episodes := Some(data.episodes),
      status := AnimeModel.Finished, year := Some(data.year), synopsis := Some(data.synopsis),
      genres := data.genres, studios := data.studios);
  }

  // ---------------------------------------------------------------------
  // The simplified score
  // ---------------------------------------------------------------------

  /** The genres of the item the user has a weight for, repeats included:
      `[g for g in anime.genres if g in genre_preferences]`. */
  function MatchingGenres(genres: seq<string>, prefs: map<string, real>): (r: seq<string>)
    ensures |r| <= |genres|
    ensures forall g :: g in r ==> g in genres && g in prefs
  {
    if genres == [] then []
    else
      var init := MatchingGenres(genres[..|genres| - 1], prefs);
      var g := genres[|genres| - 1];
      assert genres == genres[..|genres| - 1] + [g];
      if g in prefs then init + [g] else init
  }

  /** Every weighted genre of the item is kept as often as the item lists it,
      and no other genre is kept, so the count the rationale prints is the
      number of the item's genres the user has a weight for. */
  lemma {:induction false} MatchingGenresMultiset(genres: seq<string>, prefs: map<string, real>)
    ensures forall g :: multiset(MatchingGenres(genres, prefs))[g] == if g in prefs then multiset(genres)[g] else 0
    ensures forall g :: g in MatchingGenres(genres, prefs) <==> g in genres && g in prefs
  {
    if genres != [] {
      var init := genres[..|genres| - 1];
      var x := genres[|genres| - 1];
      assert genres == init + [x];
      MatchingGenresMultiset(init, prefs);
      assert multiset(genres) == multiset(init) + multiset{x};
    }
  }

  /** `0.2 · w` for every genre of the item with a weight `w`. */
  function GenreBonus(genres: seq<string>, prefs: map<string, real>): real {
    if genres == [] then 0.0
    else
      var g := genres[|genres| - 1];
      GenreBonus(genres[..|genres| - 1], prefs) + (if g in prefs then prefs[g] * 0.2 else 0.0)
  }

  /** The mood bonus: 0.1 for `ANY`; for `HAPPY` and `SAD` a fifth of the
      item's positivity or intensity, when it has any sentiment at all;
      nothing for the other moods. */
  function MoodBonus(mood: Preferences.Mood, sentiment: map<string, real>): real {
    if mood == Preferences.Any then 0.1
    else if mood == Preferences.Happy && sentiment != map[] then Get(sentiment, "positivity") * 0.2
    else if mood == Preferences.Sad && sentiment != map[] then Get(sentiment, "intensity") * 0.2
    else 0.0
  }

  /** The score before clamping: 0.5, the genre bonus and the mood bonus. */
  function RawScore(genres: seq<string>, prefs: map<string, real>, mood: Preferences.Mood,
                    sentiment: map<string, real>): real
  {
    0.5 + GenreBonus(genres, prefs) + MoodBonus(mood, sentiment)
  }

  /** The scoring loop of the simplified engine for one item. */
  method ScoreAnime(genres: seq<string>, prefs: map<string, real>, mood: Preferences.Mood,
                    sentiment: map<string, real>) returns (score: real)
    ensures score == RawScore(genres, prefs, mood, sentiment)
  {
    score := 0.5;
    for i := 0 to |genres|
      invariant score == 0.5 + GenreBonus(genres[..i], prefs)
    {
      assert genres[..i + 1][..i] == genres[..i];
      if genres[i] in prefs {
        score := score + prefs[genres[i]] * 0.2;
      }
    }
    assert genres[..|genres|] == genres;
    if mood == Preferences.Any {
      score := score + 0.1;
    } else if mood == Preferences.Happy && sentiment != map[] {
      score := score + Get(sentiment, "positivity") * 0.2;
    } else if mood == Preferences.Sad && sentiment != map[] {
      score := score + Get(sentiment, "intensity") * 0.2;
    }
  }

  /** `"Matches <n> of your preferred genres."`. */
  function Rationale(genres: seq<string>, prefs: map<string, real>): string {
    "Matches " + Text.IntToString(|MatchingGenres(genres, prefs)|) + " of your preferred genres."
  }

  const TrailerUrlPrefix := "https://www.youtube.com/watch?v=dummyid-"
  const ThumbnailPrefix := "https://img.youtube.com/vi/dummyid-"
  const ThumbnailSuffix := "/hqdefault.jpg"

  /** The dummy trailer fields the demo attaches when trailers are asked for. */
  function WithDummyTrailer(r: Rec, id: string, title: string): Rec {
    r.(trailerUrl := Some(TrailerUrlPrefix + id),
       trailerTitle := Some(title + " - Official Trailer"),
       trailerChannel := Some("AnimeChannel"),
       trailerThumbnail := Some(ThumbnailPrefix + id + ThumbnailSuffix))
  }

  /** What the simplified engine makes of one item. */
  function Candidate(a: Anime, prefs: map<string, real>, mood: Preferences.Mood, trailers: bool): (r: Rec)
    reads a
    ensures r.anime == a && 0.0 <= r.score <= 1.0
  {
    var rec := Recommendations.Recommendation(
      a, Clamp(RawScore(a.genres, prefs, mood, a.features.sentiment), 0.0, 1.0),
      Rationale(a.genres, prefs), map[], None, None, None, None);
    if trailers then WithDummyTrailer(rec, a.id, a.title) else rec
  }

  /** The candidates of a list of items, in list order. */
  function Candidates(list: seq<Anime>, prefs: map<string, real>, mood: Preferences.Mood, trailers: bool)
    : (r: seq<Rec>)
    reads set a | a in list
    ensures |r| == |list|
  {
    if list == [] then []
    else Candidates(list[..|list| - 1], prefs, mood, trailers) + [Candidate(list[|list| - 1], prefs, mood, trailers)]
  }

  function RecScore(r: Rec): real { r.score }

  /** `options.limit`, or 10 without options. */
  function LimitOf(options: Option<Scoring.Options>): int {
    if options.Some? then options.value.limit else 10
  }

  function TrailersOf(options: Option<Scoring.Options>): bool {
    options.Some? && options.value.includeTrailers
  }

  // ---------------------------------------------------------------------
  // SimplifiedEngine
  // ---------------------------------------------------------------------

  /** The fallback engine of the demo: a list of items, appended to. */
  class SimplifiedEngine {
    var animeList: seq<Anime>

    constructor()
      ensures animeList == []
    {
      animeList := [];
    }

    /** `add_anime_batch(anime_list)`: appends, so an item added twice is
        listed twice. */
    method AddAnimeBatch(list: seq<Anime>)
      modifies this
      ensures animeList == old(animeList) + list
    {
      animeList := animeList + list;
    }

    /** `get_recommendations(user_prefs, options)`: every item is scored,
        none is excluded, and the best `limit` come back, Python slice
        semantics, ties in list order. */
    method GetRecommendations(prefs: Preferences.UserPreferences, options: Option<Scoring.Options>)
      returns (recs: seq<Rec>)
      ensures recs == Ranking.SliceTo(Ranking.SortDesc(Candidates(animeList, prefs.genrePreferences.entries,
                                                                  prefs.currentMood, TrailersOf(options)),
                                                       RecScore), LimitOf(options))
      ensures |recs| == Ranking.SliceLen(|animeList|, LimitOf(options))
      ensures forall r :: r in recs ==> 0.0 <= r.score <= 1.0
      ensures Ranking.NonIncreasing(recs, RecScore)
      ensures var all := Candidates(animeList, prefs.genrePreferences.entries, prefs.currentMood, TrailersOf(options));
        && multiset(recs) <= multiset(all)
        && forall x :: x in multiset(all) - multiset(recs) ==>
             forall j :: 0 <= j < |recs| ==> recs[j].score >= x.score
    {
      var limit := 10;
      if options.Some? {
        limit := options.value.limit;
      }
      var scores := ScoreAll(animeList, prefs.genrePreferences.entries, prefs.currentMood, TrailersOf(options));
      recs := Ranking.SliceTo(Ranking.SortDesc(scores, RecScore), limit);
      Ranking.TopSpec(scores, RecScore, limit);
      CandidatesInRange(animeList, prefs.genrePreferences.entries, prefs.currentMood, TrailersOf(options));
      InRangeKept(scores, recs);
    }
  }

  /** The loop of `get_recommendations` over the items: one candidate per
      item, in list order. */
  method ScoreAll(list: seq<Anime>, genrePrefs: map<string, real>, mood: Preferences.Mood, trailers: bool)
    returns (scores: seq<Rec>)
    ensures scores == Candidates(list, genrePrefs, mood, trailers)
  {
    scores := [];
    for i := 0 to |list|
      invariant scores == Candidates(list[..i], genrePrefs, mood, trailers)
    {
      var rec := MakeCandidate(list[i], genrePrefs, mood, trailers);
      CandidatesSnoc(list, i, genrePrefs, mood, trailers);
      scores := scores + [rec];
    }
    assert list[..|list|] == list;
  }

  /** The body of that loop for one item. */
  method MakeCandidate(anime: Anime, genrePrefs: map<string, real>, mood: Preferences.Mood, trailers: bool)
    returns (rec: Rec)
    ensures rec == Candidate(anime, genrePrefs, mood, trailers)
  {
    var score := ScoreAnime(anime.genres, genrePrefs, mood, anime.features.sentiment);
    rec := Recommendations.Recommendation(
      anime, Min(1.0, Max(0.0, score)), Rationale(anime.genres, genrePrefs), map[], None, None, None, None);
    if trailers {
      rec := WithDummyTrailer(rec, anime.id, anime.title);
    }
  }

  /** Every candidate's score is in [0, 1]. */
  lemma {:induction false} CandidatesInRange(list: seq<Anime>, prefs: map<string, real>, mood: Preferences.Mood,
                                             trailers: bool)
    ensures forall r :: r in Candidates(list, prefs, mood, trailers) ==> 0.0 <= r.score <= 1.0
  {
    if list != [] {
      CandidatesInRange(list[..|list| - 1], prefs, mood, trailers);
    }
  }

  /** The candidates are the items' candidates one for one, in list order. */
  lemma {:induction false} CandidatesAt(list: seq<Anime>, prefs: map<string, real>, mood: Preferences.Mood,
                                        trailers: bool)
    ensures forall i :: 0 <= i < |list| ==>
              Candidates(list, prefs, mood, trailers)[i] == Candidate(list[i], prefs, mood, trailers)
  {
    if list != [] {
      var init := list[..|list| - 1];
      CandidatesAt(init, prefs, mood, trailers);
      assert forall i :: 0 <= i < |init| ==> init[i] == list[i];
    }
  }

  lemma InRangeKept(all: seq<Rec>, kept: seq<Rec>)
    requires forall r :: r in all ==> 0.0 <= r.score <= 1.0
    requires multiset(kept) <= multiset(all)
    ensures forall r :: r in kept ==> 0.0 <= r.score <= 1.0
  {
    forall r | r in kept ensures 0.0 <= r.score <= 1.0 {
      assert r in multiset(all);
    }
  }

  lemma CandidatesSnoc(list: seq<Anime>, i: nat, genrePrefs: map<string, real>, mood: Preferences.Mood, trailers: bool)
    requires i < |list|
    ensures Candidates(list[..i + 1], genrePrefs, mood, trailers) ==
            Candidates(list[..i], genrePrefs, mood, trailers) + [Candidate(list[i], genrePrefs, mood, trailers)]
  {
    assert list[..i + 1][..i] == list[..i];
  }

  // ---------------------------------------------------------------------
  // Properties
  // ---------------------------------------------------------------------

  /** Every genre of the item counts exactly when each has a weight, and
      none counts exactly when none has. */
  lemma {:induction false} MatchingGenresCount(genres: seq<string>, prefs: map<string, real>)
    ensures |MatchingGenres(genres, prefs)| == |genres| <==> forall i :: 0 <= i < |genres| ==> genres[i] in prefs
    ensures |MatchingGenres(genres, prefs)| == 0 <==> forall i :: 0 <= i < |genres| ==> genres[i] !in prefs
  {
    if genres != [] {
      var init := genres[..|genres| - 1];
      MatchingGenresCount(init, prefs);
      assert forall i :: 0 <= i < |init| ==> init[i] == genres[i];
    }
  }

  /** With weights in [-1, 1], the genre bonus is at most 0.2 per matching
      genre either way. */
  lemma {:induction false} GenreBonusBounds(genres: seq<string>, prefs: map<string, real>)
    requires forall g :: g in prefs ==> -1.0 <= prefs[g] <= 1.0
    ensures var n := |MatchingGenres(genres, prefs)| as real;
      -0.2 * n <= GenreBonus(genres, prefs) <= 0.2 * n
  {
    if genres != [] {
      GenreBonusBounds(genres[..|genres| - 1], prefs);
    }
  }

  /** Without any weighted genre the bonus is 0, so an item scores 0.6 in
      mood `ANY` and 0.5 in a mood other than `ANY`, `HAPPY` and `SAD`. */
  lemma NeutralScore(a: Anime, prefs: map<string, real>, mood: Preferences.Mood, trailers: bool)
    requires forall i :: 0 <= i < |a.genres| ==> a.genres[i] !in prefs
    ensures mood == Preferences.Any ==> Candidate(a, prefs, mood, trailers).score == 0.6
    ensures mood !in {Preferences.Any, Preferences.Happy, Preferences.Sad} ==>
              Candidate(a, prefs, mood, trailers).score == 0.5
  {
    GenreBonusNone(a.genres, prefs);
  }

  lemma {:induction false} GenreBonusNone(genres: seq<string>, prefs: map<string, real>)
    requires forall i :: 0 <= i < |genres| ==> genres[i] !in prefs
    ensures GenreBonus(genres, prefs) == 0.0
  {
    if genres != [] {
      GenreBonusNone(genres[..|genres| - 1], prefs);
    }
  }

  /** The dummy trailer url carries the item's id: it is the fixed prefix
      followed by the id, so distinct items get distinct urls. */
  lemma DummyTrailerId(r: Rec, id1: string, id2: string, title: string)
    ensures WithDummyTrailer(r, id1, title).trailerUrl.value[|TrailerUrlPrefix|..] == id1
    ensures WithDummyTrailer(r, id1, title).trailerUrl == WithDummyTrailer(r, id2, title).trailerUrl <==> id1 == id2
  {
    var u1, u2 := TrailerUrlPrefix + id1, TrailerUrlPrefix + id2;
    assert u1[|TrailerUrlPrefix|..] == id1;
    assert u2[|TrailerUrlPrefix|..] == id2;
  }

  /** With a limit that covers the list, every item comes back, once per
      time it was added. */
  lemma AllKeptWhenLimitCovers(list: seq<Anime>, prefs: map<string, real>, mood: Preferences.Mood,
                               trailers: bool, limit: int)
    requires limit >= |list|
    ensures var all := Candidates(list, prefs, mood, trailers);
      multiset(Ranking.SliceTo(Ranking.SortDesc(all, RecScore), limit)) == multiset(all)
  {
    var all := Candidates(list, prefs, mood, trailers);
    var sorted := Ranking.SortDesc(all, RecScore);
    Ranking.SortDescPermutes(all, RecScore);
    assert Ranking.SliceTo(sorted, limit) == sorted;
  }
}
