/** The computations of the recommendation engine that read no object state:
    the options, the five partial scores of a candidate (genre, studio, mood,
    sentiment, colour) and their weighted total, cosine similarity of two
    feature vectors, the demo visual profile, the explanation texts and the
    mock trailer. */
module Scoring {
  import opened Common
  import opened PyDict
  import Text
  import ColorPreferences
  import ColorAnalysis
  import Preferences
  import AnimeModel
  import Sentiment

  /** `RecommendationOptions`. */
  datatype Options = Options(
    limit: int,
    includeWatched: bool,
    moodWeight: real,
    genreWeight: real,
    studioWeight: real,
    sentimentWeight: real,
    colorWeight: real,
    generateExplanations: bool,
    includeTrailers: bool,
    demoMode: bool)

  /** `RecommendationOptions()` with every field at its default. */
  const DefaultOptions := Options(10, false, 0.5, 0.5, 0.2, 0.5, 0.3, true, false, false)

  // ---------------------------------------------------------------------
  // Sums and means
  // ---------------------------------------------------------------------

  function Sum(xs: seq<real>): real {
    if xs == [] then 0.0 else Sum(xs[..|xs| - 1]) + xs[|xs| - 1]
  }

  /** `sum(xs) / len(xs) if xs else 0.0`. */
  function Mean(xs: seq<real>): real {
    if xs == [] then 0.0 else Sum(xs) / |xs| as real
  }

  lemma {:induction false} SumBounds(xs: seq<real>)
    requires forall i :: 0 <= i < |xs| ==> 0.0 <= xs[i] <= 1.0
    ensures 0.0 <= Sum(xs) <= |xs| as real
  {
    if xs != [] {
      SumBounds(xs[..|xs| - 1]);
    }
  }

  /** The mean of values in [0,1] lies in [0,1]. */
  lemma MeanBounds(xs: seq<real>)
    requires forall i :: 0 <= i < |xs| ==> 0.0 <= xs[i] <= 1.0
    ensures 0.0 <= Mean(xs) <= 1.0
  {
    if xs != [] {
      SumBounds(xs);
      RatioBounds(Sum(xs), |xs| as real);
    }
  }

  /** The lower end `lo * w` of a weighted sum of values in [lo, 1] with
      total weight `w`, for the two lower ends the model uses. */
  function Low(lo: real, w: real): real {
    if lo == 0.0 then 0.0 else -w
  }

  /** A weighted average of values in [lo, 1] lies in [lo, 1]. */
  lemma WeightedAverageBounds(n: real, w: real, lo: real)
    requires lo == -1.0 || lo == 0.0
    requires w > 0.0 && Low(lo, w) <= n <= w
    ensures lo <= n / w <= 1.0
  {
    if n >= 0.0 {
      RatioBounds(n, w);
    } else {
      RatioBounds(-n, w);
      NegDiv(n, w);
    }
  }

  lemma NegDiv(n: real, w: real)
    requires w != 0.0
    ensures (-n) / w == -(n / w)
  {
    var q1, q2 := (-n) / w, n / w;
    assert q1 * w == -n;
    assert q2 * w == n;
    assert (q1 + q2) * w == 0.0;
  }

  // ---------------------------------------------------------------------
  // Genre score
  // ---------------------------------------------------------------------

  /** `sum(prefs.get(g, 0.0) for g in genres)`. */
  function PrefSum(genres: seq<string>, prefs: map<string, real>): real {
    if genres == [] then 0.0 else PrefSum(genres[..|genres| - 1], prefs) + Get(prefs, genres[|genres| - 1])
  }

  function GenreScore(genres: seq<string>, prefs: map<string, real>): real {
    Max(0.0, PrefSum(genres, prefs) / (if |genres| > 1 then |genres| else 1) as real)
  }

  /** The genre loop of `score_anime`. */
  method ComputeGenreScore(genres: seq<string>, prefs: map<string, real>) returns (score: real)
    ensures score == GenreScore(genres, prefs)
  {
    score := 0.0;
    for i := 0 to |genres|
      invariant score == PrefSum(genres[..i], prefs)
    {
      assert genres[..i + 1][..i] == genres[..i];
      score := score + Get(prefs, genres[i]);
    }
    assert genres[..|genres|] == genres;
    var n := if |genres| > 1 then |genres| else 1;
    score := Max(0.0, score / n as real);
  }

  lemma {:induction false} PrefSumBounds(genres: seq<string>, prefs: map<string, real>)
    requires forall g :: g in prefs ==> -1.0 <= prefs[g] <= 1.0
    ensures -(|genres| as real) <= PrefSum(genres, prefs) <= |genres| as real
  {
    if genres != [] {
      PrefSumBounds(genres[..|genres| - 1], prefs);
    }
  }

  /** With weights in [-1,1] the genre score lies in [0,1], and it is 0 when
      the candidate's genres are disliked on balance. */
  lemma GenreScoreBounds(genres: seq<string>, prefs: map<string, real>)
    requires forall g :: g in prefs ==> -1.0 <= prefs[g] <= 1.0
    ensures 0.0 <= GenreScore(genres, prefs) <= 1.0
    ensures PrefSum(genres, prefs) <= 0.0 ==> GenreScore(genres, prefs) == 0.0
  {
    PrefSumBounds(genres, prefs);
    var s := PrefSum(genres, prefs);
    var n := (if |genres| > 1 then |genres| else 1) as real;
    if s > 0.0 {
      RatioBounds(s, n);
    } else {
      assert s / n * n == s;
    }
  }

  // ---------------------------------------------------------------------
  // Studio score
  // ---------------------------------------------------------------------

  predicate HasFavorite(studios: seq<string>, favorites: set<string>) {
    exists i :: 0 <= i < |studios| && studios[i] in favorites
  }

  /** The studio loop of `score_anime`: 1.0 as soon as one studio is a
      favourite, 0.0 when none is. */
  method ComputeStudioScore(studios: seq<string>, favorites: set<string>) returns (score: real)
    ensures HasFavorite(studios, favorites) ==> score == 1.0
    ensures !HasFavorite(studios, favorites) ==> score == 0.0
  {
    score := 0.0;
    var i := 0;
    while i < |studios|
      invariant 0 <= i <= |studios|
      invariant score == 0.0
      invariant forall j :: 0 <= j < i ==> studios[j] !in favorites
    {
      if studios[i] in favorites {
        score := 1.0;
        break;
      }
      i := i + 1;
    }
  }

  function StudioScore(studios: seq<string>, favorites: set<string>): real {
    if HasFavorite(studios, favorites) then 1.0 else 0.0
  }

  // ---------------------------------------------------------------------
  // Mood relevance
  // ---------------------------------------------------------------------

  /** The emotions a mood looks for. */
  function MoodEmotions(m: Preferences.Mood): seq<string> {
    match m
    case Happy => ["joy", "excitement", "comfort"]
    case Sad => ["sadness", "melancholy"]
    case Relaxed => ["comfort", "trust"]
    case Excited => ["excitement", "anticipation"]
    case Thoughtful => ["melancholy", "trust"]
    case Adventurous => ["excitement", "anticipation", "surprise"]
    case Romantic => ["joy", "anticipation", "trust"]
    case Mysterious => ["surprise", "anticipation", "tension"]
    case Any => []
  }

  /** The themes a mood looks for. */
  function MoodThemes(m: Preferences.Mood): seq<string> {
    match m
    case Happy => ["comedy", "slice_of_life"]
    case Sad => ["drama"]
    case Relaxed => ["slice_of_life", "iyashikei"]
    case Excited => ["action", "adventure", "sports"]
    case Thoughtful => ["psychological", "philosophical"]
    case Adventurous => ["adventure", "fantasy", "science_fiction"]
    case Romantic => ["romance"]
    case Mysterious => ["mystery", "supernatural", "horror"]
    case Any => []
  }

  /** `_calculate_mood_relevance`: any mood matches everything; otherwise
      0.6 of the mean emotion score plus 0.4 of the mean theme score. */
  function MoodRelevance(f: AnimeModel.Features, m: Preferences.Mood): (r: real)
    ensures m == Preferences.Any ==> r == 1.0
  {
    if m == Preferences.Any then 1.0
    else
      0.6 * Mean(AnimeModel.ValuesAt(MoodEmotions(m), f.emotionProfile))
        + 0.4 * Mean(AnimeModel.ValuesAt(MoodThemes(m), f.themes))
  }

  lemma ValuesAtBounds(ks: seq<string>, d: map<string, real>)
    requires forall k :: k in d ==> 0.0 <= d[k] <= 1.0
    ensures forall i :: 0 <= i < |AnimeModel.ValuesAt(ks, d)| ==> 0.0 <= AnimeModel.ValuesAt(ks, d)[i] <= 1.0
  {
    AnimeModel.ValuesAtSpec(ks, d);
  }

  /** Emotion and theme scores in [0,1] give a relevance in [0,1]. */
  lemma MoodRelevanceBounds(f: AnimeModel.Features, m: Preferences.Mood)
    requires forall e :: e in f.emotionProfile ==> 0.0 <= f.emotionProfile[e] <= 1.0
    requires forall t :: t in f.themes ==> 0.0 <= f.themes[t] <= 1.0
    ensures 0.0 <= MoodRelevance(f, m) <= 1.0
  {
    if m != Preferences.Any {
      ValuesAtBounds(MoodEmotions(m), f.emotionProfile);
      ValuesAtBounds(MoodThemes(m), f.themes);
      MeanBounds(AnimeModel.ValuesAt(MoodEmotions(m), f.emotionProfile));
      MeanBounds(AnimeModel.ValuesAt(MoodThemes(m), f.themes));
    }
  }

  /** Only the emotions and themes the mood lists matter: two items that agree
      on those are equally relevant. */
  lemma MoodRelevanceLocal(f: AnimeModel.Features, g: AnimeModel.Features, m: Preferences.Mood)
    requires forall e :: e in MoodEmotions(m) ==> Get(f.emotionProfile, e) == Get(g.emotionProfile, e)
    requires forall t :: t in MoodThemes(m) ==> Get(f.themes, t) == Get(g.themes, t)
    ensures MoodRelevance(f, m) == MoodRelevance(g, m)
  {
    AnimeModel.ValuesAtSpec(MoodEmotions(m), f.emotionProfile);
    AnimeModel.ValuesAtSpec(MoodEmotions(m), g.emotionProfile);
    AnimeModel.ValuesAtSpec(MoodThemes(m), f.themes);
    AnimeModel.ValuesAtSpec(MoodThemes(m), g.themes);
    assert AnimeModel.ValuesAt(MoodEmotions(m), f.emotionProfile) == AnimeModel.ValuesAt(MoodEmotions(m), g.emotionProfile);
    assert AnimeModel.ValuesAt(MoodThemes(m), f.themes) == AnimeModel.ValuesAt(MoodThemes(m), g.themes);
  }

  // ---------------------------------------------------------------------
  // Sentiment score
  // ---------------------------------------------------------------------

  /** What the score reads for a rated id: the positivity of the catalogue
      item, or nothing when the item is missing or has no sentiment. */
  function RatedPositivity(id: string, sentiments: map<string, map<string, real>>): real {
    if id in sentiments && sentiments[id] != map[] then Get(sentiments[id], "positivity") else 0.0
  }

  /** Sum of the positivities of the items rated 4 or 5, in rating order. */
  function PositivitySum(ids: seq<string>, ratings: map<string, Preferences.AnimeRating>,
                         sentiments: map<string, map<string, real>>): real
  {
    if ids == [] then 0.0
    else
      var id := ids[|ids| - 1];
      PositivitySum(ids[..|ids| - 1], ratings, sentiments)
        + (if id in ratings && ratings[id].score.Value() >= 4 then RatedPositivity(id, sentiments) else 0.0)
  }

  /** The sentiment part of `score_anime`. The sum is divided by the number
      of all ratings, loved or not. */
  function SentimentScore(candidate: map<string, real>, ratings: Dict<string, Preferences.AnimeRating>,
                          sentiments: map<string, map<string, real>>): (s: real)
    ensures candidate == map[] || ratings.keys == [] ==> s == 0.0
  {
    if candidate == map[] || ratings.keys == [] then 0.0
    else
      var userPositivity := PositivitySum(ratings.keys, ratings.entries, sentiments) / |ratings.keys| as real;
      1.0 - Abs(userPositivity - Get(candidate, "positivity"))
  }

  /** The sentiment loop of `score_anime`. */
  method ComputeSentimentScore(candidate: map<string, real>, ratings: Dict<string, Preferences.AnimeRating>,
                               sentiments: map<string, map<string, real>>) returns (score: real)
    ensures score == SentimentScore(candidate, ratings, sentiments)
  {
    score := 0.0;
    if candidate != map[] {
      var userPositivity := 0.0;
      var ids := ratings.keys;
      for i := 0 to |ids|
        invariant userPositivity == PositivitySum(ids[..i], ratings.entries, sentiments)
      {
        assert ids[..i + 1][..i] == ids[..i];
        var id := ids[i];
        if id in ratings.entries && ratings.entries[id].score.Value() >= 4 {
          if id in sentiments && sentiments[id] != map[] {
            userPositivity := userPositivity + Get(sentiments[id], "positivity");
          }
        }
      }
      assert ids[..|ids|] == ids;
      if |ids| > 0 {
        userPositivity := userPositivity / |ids| as real;
        score := 1.0 - Abs(userPositivity - Get(candidate, "positivity"));
      }
    }
  }

  /** Every positivity the score can read lies in [lo, 1]. */
  ghost predicate PositivitiesIn(candidate: map<string, real>, sentiments: map<string, map<string, real>>, lo: real) {
    && lo <= Get(candidate, "positivity") <= 1.0
    && forall id :: id in sentiments ==> lo <= Get(sentiments[id], "positivity") <= 1.0
  }

  lemma {:induction false} PositivitySumBounds(ids: seq<string>, ratings: map<string, Preferences.AnimeRating>,
                                               sentiments: map<string, map<string, real>>, lo: real)
    requires lo == -1.0 || lo == 0.0
    requires forall id :: id in sentiments ==> lo <= Get(sentiments[id], "positivity") <= 1.0
    ensures Low(lo, |ids| as real) <= PositivitySum(ids, ratings, sentiments) <= |ids| as real
  {
    if ids != [] {
      PositivitySumBounds(ids[..|ids| - 1], ratings, sentiments, lo);
    }
  }

  /** Positivities in [-1,1] give a sentiment score in [-1,1]; positivities in
      [0,1] give one in [0,1]. */
  lemma SentimentScoreBounds(candidate: map<string, real>, ratings: Dict<string, Preferences.AnimeRating>,
                             sentiments: map<string, map<string, real>>, lo: real)
    requires lo == -1.0 || lo == 0.0
    requires PositivitiesIn(candidate, sentiments, lo)
    ensures lo <= SentimentScore(candidate, ratings, sentiments) <= 1.0
  {
    if candidate != map[] && ratings.keys != [] {
      var n := |ratings.keys| as real;
      var sum := PositivitySum(ratings.keys, ratings.entries, sentiments);
      PositivitySumBounds(ratings.keys, ratings.entries, sentiments, lo);
      WeightedAverageBounds(sum, n, lo);
    }
  }

  lemma {:induction false} PositivitySumUnloved(ids: seq<string>, ratings: map<string, Preferences.AnimeRating>,
                                                sentiments: map<string, map<string, real>>)
    requires forall id :: id in ratings ==> ratings[id].score.Value() < 4
    ensures PositivitySum(ids, ratings, sentiments) == 0.0
  {
    if ids != [] {
      PositivitySumUnloved(ids[..|ids| - 1], ratings, sentiments);
    }
  }

  /** Without a rating of 4 or 5 the user's positivity is 0, however many
      ratings there are, so the score measures only the candidate's own
      positivity. */
  lemma SentimentWithoutLovedRatings(candidate: map<string, real>, ratings: Dict<string, Preferences.AnimeRating>,
                                     sentiments: map<string, map<string, real>>)
    requires candidate != map[] && ratings.keys != []
    requires forall id :: id in ratings.entries ==> ratings.entries[id].score.Value() < 4
    ensures SentimentScore(candidate, ratings, sentiments) == 1.0 - Abs(Get(candidate, "positivity"))
  {
    PositivitySumUnloved(ratings.keys, ratings.entries, sentiments);
  }

  // ---------------------------------------------------------------------
  // Colour score
  // ---------------------------------------------------------------------

  /** The two dicts `score_anime` builds from the colour preferences: later
      entries overwrite earlier ones. */
  function ColorDicts(prefs: seq<ColorPreferences.Preference>)
    : (r: (Dict<ColorPreferences.ColorPalette, real>, Dict<ColorPreferences.VisualStyle, real>))
    ensures r.0.Valid() && r.1.Valid()
  {
    if prefs == [] then (Empty(), Empty())
    else
      var d := ColorDicts(prefs[..|prefs| - 1]);
      match prefs[|prefs| - 1]
      case PalettePreference(c, w) => (d.0.Put(c, w), d.1)
      case StylePreference(s, w) => (d.0, d.1.Put(s, w))
  }

  /** The loop of `score_anime` that fills the two dicts. */
  method BuildColorDicts(prefs: seq<ColorPreferences.Preference>)
    returns (palettes: Dict<ColorPreferences.ColorPalette, real>, styles: Dict<ColorPreferences.VisualStyle, real>)
    ensures (palettes, styles) == ColorDicts(prefs)
  {
    palettes, styles := Empty(), Empty();
    for i := 0 to |prefs|
      invariant (palettes, styles) == ColorDicts(prefs[..i])
    {
      assert prefs[..i + 1][..i] == prefs[..i];
      match prefs[i]
      case PalettePreference(c, w) =>
        palettes := palettes.Put(c, w);
      case StylePreference(s, w) =>
        styles := styles.Put(s, w);
    }
    assert prefs[..|prefs|] == prefs;
  }

  predicate NamesPalette(p: ColorPreferences.Preference, c: ColorPreferences.ColorPalette) {
    p.PalettePreference? && p.palette == c
  }

  /** `prefs[i]` is the last preference naming `c`, and it has weight `w`. */
  predicate LastNaming(prefs: seq<ColorPreferences.Preference>, c: ColorPreferences.ColorPalette, i: int, w: real) {
    0 <= i < |prefs| && NamesPalette(prefs[i], c) && prefs[i].weight == w
      && forall j :: i < j < |prefs| ==> !NamesPalette(prefs[j], c)
  }

  lemma ColorDictsStep(prefs: seq<ColorPreferences.Preference>)
    requires prefs != []
    ensures var last := prefs[|prefs| - 1];
      var before := ColorDicts(prefs[..|prefs| - 1]).0.entries;
      ColorDicts(prefs).0.entries == if last.PalettePreference? then before[last.palette := last.weight] else before
  {
  }

  /** A palette is in the dict exactly when some preference names it, and it
      holds the weight of the last preference that does. */
  lemma {:induction false} ColorDictsLastWins(prefs: seq<ColorPreferences.Preference>, c: ColorPreferences.ColorPalette)
    ensures c in ColorDicts(prefs).0.entries <==> exists i :: 0 <= i < |prefs| && NamesPalette(prefs[i], c)
    ensures c in ColorDicts(prefs).0.entries ==> exists i :: LastNaming(prefs, c, i, ColorDicts(prefs).0.entries[c])
  {
    if prefs != [] {
      var init := prefs[..|prefs| - 1];
      var last := prefs[|prefs| - 1];
      var after := ColorDicts(prefs).0.entries;
      var before := ColorDicts(init).0.entries;
      ColorDictsStep(prefs);
      ColorDictsLastWins(init, c);
      if NamesPalette(last, c) {
        assert after[c] == last.weight;
        assert LastNaming(prefs, c, |prefs| - 1, after[c]);
      } else {
        assert c in after <==> c in before;
        if c in after {
          assert after[c] == before[c];
          var i :| LastNaming(init, c, i, before[c]);
          assert prefs[i] == init[i];
          forall j | i < j < |prefs| ensures !NamesPalette(prefs[j], c) {
            if j < |prefs| - 1 {
              assert prefs[j] == init[j];
            }
          }
          assert LastNaming(prefs, c, i, after[c]);
        }
        if exists i :: 0 <= i < |prefs| && NamesPalette(prefs[i], c) {
          var i :| 0 <= i < |prefs| && NamesPalette(prefs[i], c);
          assert init[i] == prefs[i];
        }
      }
    }
  }

  /** The colour part of `score_anime`, once the item's profile is known. */
  function ColorScore(prefs: seq<ColorPreferences.Preference>, profile: Option<ColorPreferences.VisualProfile>): real {
    if prefs == [] || profile.None? then 0.0
    else
      var d := ColorDicts(prefs);
      if d.0.keys != [] || d.1.keys != [] then ColorPreferences.PreferenceMatch(profile.value, d.0, d.1) else 0.0
  }

  /** The colour part of `score_anime`: the two dicts are filled from the
      preferences and matched against the profile when either is non-empty. */
  method ComputeColorScore(prefs: seq<ColorPreferences.Preference>, profile: Option<ColorPreferences.VisualProfile>)
    returns (score: real)
    ensures score == ColorScore(prefs, profile)
  {
    score := 0.0;
    if prefs != [] && profile.Some? {
      var palettes, styles := BuildColorDicts(prefs);
      if palettes.keys != [] || styles.keys != [] {
        score := ColorPreferences.CalculatePreferenceMatch(profile.value, palettes, styles);
      }
    }
  }

  /** A profile whose presence values lie in [0,1] gives a colour score in [0,1]. */
  lemma ColorScoreBounds(prefs: seq<ColorPreferences.Preference>, profile: Option<ColorPreferences.VisualProfile>)
    requires profile.Some? ==> (forall c :: 0.0 <= Get(profile.value.colorPalettes, c) <= 1.0)
    requires profile.Some? ==> (forall s :: 0.0 <= Get(profile.value.visualStyles, s) <= 1.0)
    ensures 0.0 <= ColorScore(prefs, profile) <= 1.0
  {
    if prefs != [] && profile.Some? {
      var d := ColorDicts(prefs);
      ColorPreferences.PreferenceMatchProperties(profile.value, d.0, d.1);
    }
  }

  // ---------------------------------------------------------------------
  // Weighted total
  // ---------------------------------------------------------------------

  datatype Signals = Signals(genre: real, studio: real, mood: real, sentiment: real, color: real)

  function TotalWeight(o: Options): real {
    o.genreWeight + o.studioWeight + o.moodWeight + o.sentimentWeight + o.colorWeight
  }

  function WeightedSum(o: Options, s: Signals): real {
    Mul(o.genreWeight, s.genre) + Mul(o.studioWeight, s.studio) + Mul(o.moodWeight, s.mood)
      + Mul(o.sentimentWeight, s.sentiment) + Mul(o.colorWeight, s.color)
  }

  /** The total of `score_anime`: the weighted mean of the five signals. The
      weights are not checked, so a zero weight sum raises. */
  function Total(o: Options, s: Signals): (r: Result<real, ColorPreferences.ZeroDivisionError>)
    ensures r.Err? <==> TotalWeight(o) == 0.0
  {
    if TotalWeight(o) == 0.0 then Err(ColorPreferences.ZeroDivisionError)
    else Ok(WeightedSum(o, s) / TotalWeight(o))
  }

  predicate WeightsNonNegative(o: Options) {
    o.genreWeight >= 0.0 && o.studioWeight >= 0.0 && o.moodWeight >= 0.0
      && o.sentimentWeight >= 0.0 && o.colorWeight >= 0.0
  }

  predicate SignalsIn(s: Signals, lo: real) {
    && lo <= s.genre <= 1.0 && lo <= s.studio <= 1.0 && lo <= s.mood <= 1.0
    && lo <= s.sentiment <= 1.0 && lo <= s.color <= 1.0
  }

  lemma ScaledBounds(w: real, x: real, lo: real)
    requires lo == -1.0 || lo == 0.0
    requires w >= 0.0 && lo <= x <= 1.0
    ensures Low(lo, w) <= Mul(w, x) <= w
  {
    if x >= 0.0 {
      ScaleBounds(w, x);
    } else {
      ScaleBounds(w, -x);
      assert w * (-x) == -(w * x);
    }
  }

  /** With non-negative weights of positive sum, the total of signals in
      [lo, 1] lies in [lo, 1]. */
  lemma TotalBounds(o: Options, s: Signals, lo: real)
    requires lo == -1.0 || lo == 0.0
    requires WeightsNonNegative(o) && TotalWeight(o) > 0.0
    requires SignalsIn(s, lo)
    ensures Total(o, s).Ok? && lo <= Total(o, s).value <= 1.0
  {
    ScaledBounds(o.genreWeight, s.genre, lo);
    ScaledBounds(o.studioWeight, s.studio, lo);
    ScaledBounds(o.moodWeight, s.mood, lo);
    ScaledBounds(o.sentimentWeight, s.sentiment, lo);
    ScaledBounds(o.colorWeight, s.color, lo);
    WeightedAverageBounds(WeightedSum(o, s), TotalWeight(o), lo);
  }

  /** Equal signals give that signal back, whatever the weights. */
  lemma TotalUniform(o: Options, v: real)
    requires TotalWeight(o) != 0.0
    ensures Total(o, Signals(v, v, v, v, v)) == Ok(v)
  {
    var w := TotalWeight(o);
    assert WeightedSum(o, Signals(v, v, v, v, v)) == w * v;
    MulDivCancel(w, v);
  }

  /** The default weights sum to 2.0, so the default total never raises. */
  lemma DefaultTotal(s: Signals)
    ensures TotalWeight(DefaultOptions) == 2.0
    ensures Total(DefaultOptions, s).Ok?
  {
  }

  /** Positivities range over [-1,1], so the sentiment signal and with it
      the total can be negative: the total is not confined to [0,1]. */
  lemma NegativeTotal()
    ensures SentimentScore(map["positivity" := -1.0],
      Dict(["a"], map["a" := Preferences.AnimeRating("a", Preferences.Favorite, 0.0, None)]),
      map["a" := map["positivity" := 1.0]]) == -1.0
    ensures Total(DefaultOptions, Signals(0.0, 0.0, 0.0, -1.0, 0.0)) == Ok(-0.25)
  {
    var ratings := Dict(["a"], map["a" := Preferences.AnimeRating("a", Preferences.Favorite, 0.0, None)]);
    assert PositivitySum(ratings.keys, ratings.entries, map["a" := map["positivity" := 1.0]]) == 1.0 by {
      assert ratings.keys[..0] == [];
    }
  }

  /** The same over all inputs: with non-negative weights, a positive
      sentiment weight and every other signal at 0, a negative sentiment
      signal gives a negative total. */
  lemma {:induction false} NegativeTotalAll(o: Options, x: real)
    requires WeightsNonNegative(o) && o.sentimentWeight > 0.0
    requires x < 0.0
    ensures Total(o, Signals(0.0, 0.0, 0.0, x, 0.0)).Ok?
    ensures Total(o, Signals(0.0, 0.0, 0.0, x, 0.0)).value < 0.0
  {
    var s := Signals(0.0, 0.0, 0.0, x, 0.0);
    var w, t := WeightedSum(o, s), TotalWeight(o);
    assert w == Mul(o.sentimentWeight, x);
    assert w < 0.0 by {
      assert o.sentimentWeight * -x > 0.0;
    }
    assert t > 0.0;
    assert w / t < 0.0 by {
      assert (w / t) * t == w;
    }
  }

  /** All five signals of one candidate. */
  function SignalsOf(genres: seq<string>, studios: seq<string>, f: AnimeModel.Features,
                     profile: Option<ColorPreferences.VisualProfile>,
                     genrePrefs: map<string, real>, favorites: set<string>, mood: Preferences.Mood,
                     ratings: Dict<string, Preferences.AnimeRating>, sentiments: map<string, map<string, real>>,
                     colorPrefs: seq<ColorPreferences.Preference>): Signals
  {
    Signals(GenreScore(genres, genrePrefs), StudioScore(studios, favorites), MoodRelevance(f, mood),
            SentimentScore(f.sentiment, ratings, sentiments), ColorScore(colorPrefs, profile))
  }

  /** The five signals of `score_anime`, once the item's visual profile is
      what it will be scored with. */
  method ComputeSignals(genres: seq<string>, studios: seq<string>, f: AnimeModel.Features,
                        profile: Option<ColorPreferences.VisualProfile>,
                        genrePrefs: map<string, real>, favorites: set<string>, mood: Preferences.Mood,
                        ratings: Dict<string, Preferences.AnimeRating>, sentiments: map<string, map<string, real>>,
                        colorPrefs: seq<ColorPreferences.Preference>)
    returns (s: Signals)
    ensures s == SignalsOf(genres, studios, f, profile, genrePrefs, favorites, mood, ratings, sentiments, colorPrefs)
  {
    var genreScore := ComputeGenreScore(genres, genrePrefs);
    var studioScore := ComputeStudioScore(studios, favorites);
    var moodScore := MoodRelevance(f, mood);
    var sentimentScore := ComputeSentimentScore(f.sentiment, ratings, sentiments);
    var colorScore := ComputeColorScore(colorPrefs, profile);
    s := Signals(genreScore, studioScore, moodScore, sentimentScore, colorScore);
  }

  /** Genre weights in [-1,1], emotion, theme and presence values in [0,1]
      and positivities in [lo, 1] put every signal in [lo, 1], so that for
      non-negative weights the total lies in [lo, 1]: in [0,1] when
      positivities are non-negative, in [-1,1] in general. */
  lemma SignalsBounds(genres: seq<string>, studios: seq<string>, f: AnimeModel.Features,
                      profile: Option<ColorPreferences.VisualProfile>,
                      genrePrefs: map<string, real>, favorites: set<string>, mood: Preferences.Mood,
                      ratings: Dict<string, Preferences.AnimeRating>, sentiments: map<string, map<string, real>>,
                      colorPrefs: seq<ColorPreferences.Preference>, lo: real)
    requires lo == -1.0 || lo == 0.0
    requires forall g :: g in genrePrefs ==> -1.0 <= genrePrefs[g] <= 1.0
    requires forall e :: e in f.emotionProfile ==> 0.0 <= f.emotionProfile[e] <= 1.0
    requires forall t :: t in f.themes ==> 0.0 <= f.themes[t] <= 1.0
    requires PositivitiesIn(f.sentiment, sentiments, lo)
    requires profile.Some? ==> (forall c :: 0.0 <= Get(profile.value.colorPalettes, c) <= 1.0)
    requires profile.Some? ==> (forall s :: 0.0 <= Get(profile.value.visualStyles, s) <= 1.0)
    ensures SignalsIn(SignalsOf(genres, studios, f, profile, genrePrefs, favorites, mood, ratings, sentiments, colorPrefs), lo)
  {
    GenreScoreBounds(genres, genrePrefs);
    MoodRelevanceBounds(f, mood);
    SentimentScoreBounds(f.sentiment, ratings, sentiments, lo);
    ColorScoreBounds(colorPrefs, profile);
  }

  // ---------------------------------------------------------------------
  // Cosine similarity of feature vectors
  // ---------------------------------------------------------------------

  function Zeros(n: nat): (z: seq<real>)
    ensures |z| == n && forall i :: 0 <= i < n ==> z[i] == 0.0
  {
    seq(n, i => 0.0)
  }

  /** Pads `v` with zeros up to length `n`. */
  function Pad(v: seq<real>, n: nat): (p: seq<real>)
    ensures |p| == if |v| < n then n else |v|
    ensures p[..|v|] == v
    ensures forall i :: |v| <= i < |p| ==> p[i] == 0.0
  {
    if |v| < n then v + Zeros(n - |v|) else v
  }

  function Mul(a: real, b: real): real { a * b }

  /** `sum(a * b for a, b in zip(u, v))` on vectors of equal length. */
  function Dot(u: seq<real>, v: seq<real>): real
    requires |u| == |v|
  {
    if u == [] then 0.0 else Dot(u[..|u| - 1], v[..|v| - 1]) + Mul(u[|u| - 1], v[|v| - 1])
  }

  /** Cosine similarity as `_compute_similarity` computes it: the shorter
      vector is padded with zeros, and a zero magnitude gives 0. */
  function Cosine(v1: seq<real>, v2: seq<real>, sqrt: real -> real): real {
    var n := if |v1| < |v2| then |v2| else |v1|;
    CosineOfPadded(Pad(v1, n), Pad(v2, n), sqrt)
  }

  function CosineOfPadded(a: seq<real>, b: seq<real>, sqrt: real -> real): real
    requires |a| == |b|
  {
    var m := Mul(sqrt(Dot(a, a)), sqrt(Dot(b, b)));
    if m == 0.0 then 0.0 else Dot(a, b) / m
  }

  lemma {:induction false} DotSymmetric(u: seq<real>, v: seq<real>)
    requires |u| == |v|
    ensures Dot(u, v) == Dot(v, u)
  {
    if u != [] {
      DotSymmetric(u[..|u| - 1], v[..|v| - 1]);
    }
  }

  lemma {:induction false} DotSelfNonNegative(u: seq<real>)
    ensures Dot(u, u) >= 0.0
  {
    if u != [] {
      DotSelfNonNegative(u[..|u| - 1]);
      Square(u[|u| - 1]);
    }
  }

  lemma PositiveProduct(a: real, b: real)
    requires a > 0.0 && b > 0.0
    ensures Mul(a, b) > 0.0
  {
  }

  lemma MulNegations(x: real)
    ensures Mul(-x, -x) == Mul(x, x)
  {
  }

  lemma Square(x: real)
    ensures Mul(x, x) >= 0.0
    ensures x != 0.0 ==> Mul(x, x) > 0.0
  {
    if x > 0.0 {
      PositiveProduct(x, x);
    } else if x < 0.0 {
      PositiveProduct(-x, -x);
      MulNegations(x);
    }
  }

  lemma {:induction false} DotSelfPositive(u: seq<real>, i: nat)
    requires i < |u| && u[i] != 0.0
    ensures Dot(u, u) > 0.0
  {
    var init := u[..|u| - 1];
    Square(u[|u| - 1]);
    if i == |u| - 1 {
      DotSelfNonNegative(init);
    } else {
      DotSelfPositive(init, i);
    }
  }

  lemma {:induction false} DotZero(u: seq<real>, v: seq<real>)
    requires |u| == |v|
    requires forall i :: 0 <= i < |u| ==> u[i] == 0.0
    ensures Dot(u, v) == 0.0
  {
    if u != [] {
      DotZero(u[..|u| - 1], v[..|v| - 1]);
    }
  }

  /** The similarity of `v1` to `v2` is that of `v2` to `v1`, the value cached
      under the reversed key. */
  lemma CosineSymmetric(v1: seq<real>, v2: seq<real>, sqrt: real -> real)
    ensures Cosine(v1, v2, sqrt) == Cosine(v2, v1, sqrt)
  {
    var n := if |v1| < |v2| then |v2| else |v1|;
    var a, b := Pad(v1, n), Pad(v2, n);
    DotSymmetric(a, b);
    assert Mul(sqrt(Dot(a, a)), sqrt(Dot(b, b))) == Mul(sqrt(Dot(b, b)), sqrt(Dot(a, a)));
  }

  lemma SqrtZero(sqrt: real -> real)
    requires IsSqrt(sqrt)
    ensures sqrt(0.0) == 0.0
  {
    var z := sqrt(0.0);
    assert Mul(z, z) == 0.0;
    Square(z);
  }

  /** A zero vector (the features of an item never analysed, say) is
      similar to nothing. */
  lemma CosineZero(v1: seq<real>, v2: seq<real>, sqrt: real -> real)
    requires IsSqrt(sqrt)
    requires forall i :: 0 <= i < |v1| ==> v1[i] == 0.0
    ensures Cosine(v1, v2, sqrt) == 0.0
  {
    var n := if |v1| < |v2| then |v2| else |v1|;
    var a := Pad(v1, n);
    assert forall i :: 0 <= i < |a| ==> a[i] == 0.0 by {
      forall i | 0 <= i < |a| ensures a[i] == 0.0 {
        if i < |v1| {
          assert a[..|v1|][i] == v1[i];
        }
      }
    }
    DotZero(a, a);
    SqrtZero(sqrt);
    assert Mul(0.0, sqrt(Dot(Pad(v2, n), Pad(v2, n)))) == 0.0;
  }

  /** A non-zero vector is fully similar to itself. */
  lemma CosineSelf(v: seq<real>, i: nat, sqrt: real -> real)
    requires IsSqrt(sqrt)
    requires i < |v| && v[i] != 0.0
    ensures Cosine(v, v, sqrt) == 1.0
  {
    assert Pad(v, |v|) == v;
    DotSelfPositive(v, i);
    var s := Dot(v, v);
    var m := sqrt(s);
    assert Mul(m, m) == s;
    assert s / s == 1.0;
  }

  // ---------------------------------------------------------------------
  // Demo visual profile
  // ---------------------------------------------------------------------

  /** `sum(ord(c) for c in title) % 100`. */
  function TitleHash(title: string): (h: nat)
    ensures h < 100
  {
    Sentiment.CodeSum(title) % 100
  }

  /** The five looks of demo mode. */
  const WarmLook := ColorPreferences.VisualProfile(
    map[ColorPreferences.Warm := 0.8, ColorPreferences.Vibrant := 0.6, ColorPreferences.Earthy := 0.5],
    map[ColorPreferences.Retro := 0.7, ColorPreferences.Detailed := 0.4],
    [ColorPreferences.Rgb(230, 120, 80), ColorPreferences.Rgb(210, 150, 100), ColorPreferences.Rgb(180, 120, 60),
     ColorPreferences.Rgb(200, 180, 120), ColorPreferences.Rgb(240, 200, 150)],
    0.7, 0.6, 0.5)

  const CoolLook := ColorPreferences.VisualProfile(
    map[ColorPreferences.Cool := 0.8, ColorPreferences.Muted := 0.5, ColorPreferences.Monochrome := 0.3],
    map[ColorPreferences.Modern := 0.8, ColorPreferences.Minimalist := 0.5],
    [ColorPreferences.Rgb(60, 100, 190), ColorPreferences.Rgb(80, 140, 210), ColorPreferences.Rgb(100, 160, 200),
     ColorPreferences.Rgb(180, 200, 220), ColorPreferences.Rgb(40, 80, 160)],
    0.5, 0.7, 0.6)

  const VibrantLook := ColorPreferences.VisualProfile(
    map[ColorPreferences.Vibrant := 0.9, ColorPreferences.Neon := 0.6, ColorPreferences.HighContrast := 0.7],
    map[ColorPreferences.Stylized := 0.9, ColorPreferences.Experimental := 0.6],
    [ColorPreferences.Rgb(240, 80, 100), ColorPreferences.Rgb(60, 200, 120), ColorPreferences.Rgb(240, 200, 40),
     ColorPreferences.Rgb(100, 80, 220), ColorPreferences.Rgb(220, 100, 220)],
    0.8, 0.9, 0.8)

  const DarkLook := ColorPreferences.VisualProfile(
    map[ColorPreferences.Dark := 0.9, ColorPreferences.Monochrome := 0.5, ColorPreferences.Muted := 0.4],
    map[ColorPreferences.Realistic := 0.7, ColorPreferences.Detailed := 0.6],
    [ColorPreferences.Rgb(40, 30, 50), ColorPreferences.Rgb(80, 60, 90), ColorPreferences.Rgb(30, 40, 60),
     ColorPreferences.Rgb(60, 40, 30), ColorPreferences.Rgb(20, 20, 30)],
    0.2, 0.4, 0.6)

  const PastelLook := ColorPreferences.VisualProfile(
    map[ColorPreferences.Pastel := 0.9, ColorPreferences.Vibrant := 0.3, ColorPreferences.Cool := 0.5],
    map[ColorPreferences.Chibi := 0.7, ColorPreferences.Watercolor := 0.6],
    [ColorPreferences.Rgb(220, 230, 250), ColorPreferences.Rgb(250, 220, 230), ColorPreferences.Rgb(230, 250, 220),
     ColorPreferences.Rgb(240, 240, 220), ColorPreferences.Rgb(220, 240, 240)],
    0.9, 0.3, 0.2)

  /** The made-up profile of demo mode: one of five looks, chosen by the
      title hash in steps of twenty. */
  function DemoVisualProfile(title: string): ColorPreferences.VisualProfile {
    var h := TitleHash(title);
    if h < 20 then WarmLook
    else if h < 40 then CoolLook
    else if h < 60 then VibrantLook
    else if h < 80 then DarkLook
    else PastelLook
  }

  /** Presence values in (0,1], five valid dominant colours, and brightness,
      saturation and contrast in [0,1]. */
  ghost predicate WellFormedLook(p: ColorPreferences.VisualProfile) {
    && (forall c :: c in p.colorPalettes ==> 0.0 < p.colorPalettes[c] <= 1.0)
    && (forall s :: s in p.visualStyles ==> 0.0 < p.visualStyles[s] <= 1.0)
    && |p.dominantColors| == 5
    && (forall i :: 0 <= i < 5 ==> ColorAnalysis.InRange(p.dominantColors[i]))
    && 0.0 <= p.brightness <= 1.0 && 0.0 <= p.saturation <= 1.0 && 0.0 <= p.contrast <= 1.0
  }

  lemma WarmLookWellFormed()
    ensures WellFormedLook(WarmLook)
  {
    var p := WarmLook;
    assert forall i :: 0 <= i < 5 ==> ColorAnalysis.InRange(p.dominantColors[i]);
  }

  lemma CoolLookWellFormed()
    ensures WellFormedLook(CoolLook)
  {
    var p := CoolLook;
    assert forall i :: 0 <= i < 5 ==> ColorAnalysis.InRange(p.dominantColors[i]);
  }

  lemma VibrantLookWellFormed()
    ensures WellFormedLook(VibrantLook)
  {
    var p := VibrantLook;
    assert forall i :: 0 <= i < 5 ==> ColorAnalysis.InRange(p.dominantColors[i]);
  }

  lemma DarkLookWellFormed()
    ensures WellFormedLook(DarkLook)
  {
    var p := DarkLook;
    assert forall i :: 0 <= i < 5 ==> ColorAnalysis.InRange(p.dominantColors[i]);
  }

  lemma PastelLookWellFormed()
    ensures WellFormedLook(PastelLook)
  {
    var p := PastelLook;
    assert forall i :: 0 <= i < 5 ==> ColorAnalysis.InRange(p.dominantColors[i]);
  }

  /** Every demo profile is well formed, so its colour score lies in [0,1]. */
  lemma DemoVisualProfileWellFormed(title: string)
    ensures WellFormedLook(DemoVisualProfile(title))
    ensures forall c :: 0.0 <= Get(DemoVisualProfile(title).colorPalettes, c) <= 1.0
    ensures forall s :: 0.0 <= Get(DemoVisualProfile(title).visualStyles, s) <= 1.0
  {
    var h := TitleHash(title);
    if h < 20 {
      WarmLookWellFormed();
    } else if h < 40 {
      CoolLookWellFormed();
    } else if h < 60 {
      VibrantLookWellFormed();
    } else if h < 80 {
      DarkLookWellFormed();
    } else {
      PastelLookWellFormed();
    }
  }

  // ---------------------------------------------------------------------
  // Explanations
  // ---------------------------------------------------------------------

  /** `[g for g in genres if g in prefs and prefs[g] > t]`. */
  function Above(genres: seq<string>, prefs: map<string, real>, t: real): (r: seq<string>)
    ensures |r| <= |genres|
    ensures forall g :: g in r <==> g in genres && g in prefs && prefs[g] > t
  {
    if genres == [] then []
    else
      var g := genres[|genres| - 1];
      var init := genres[..|genres| - 1];
      assert genres == init + [g];
      Above(init, prefs, t) + (if g in prefs && prefs[g] > t then [g] else [])
  }

  /** `[s for s in studios if s in favorites]`. */
  function Favored(studios: seq<string>, favorites: set<string>): (r: seq<string>)
    ensures |r| <= |studios|
    ensures forall s :: s in r <==> s in studios && s in favorites
  {
    if studios == [] then []
    else
      var s := studios[|studios| - 1];
      var init := studios[..|studios| - 1];
      assert studios == init + [s];
      Favored(init, favorites) + (if s in favorites then [s] else [])
  }

  /** The genre filter keeps the candidate's order: filtering a
      concatenation concatenates the filtered parts. */
  lemma {:induction false} AboveAppend(a: seq<string>, b: seq<string>, prefs: map<string, real>, t: real)
    ensures Above(a + b, prefs, t) == Above(a, prefs, t) + Above(b, prefs, t)
    decreases |b|
  {
    if b == [] {
      assert a + b == a;
    } else {
      var x := b[|b| - 1];
      var init := b[..|b| - 1];
      assert b == init + [x];
      assert a + b == (a + init) + [x];
      AboveSnoc(a + init, x, prefs, t);
      AboveSnoc(init, x, prefs, t);
      AboveAppend(a, init, prefs, t);
    }
  }

  /** One step of the filter: a genre appended is kept at the end or dropped. */
  lemma {:induction false} AboveSnoc(init: seq<string>, x: string, prefs: map<string, real>, t: real)
    ensures Above(init + [x], prefs, t) == Above(init, prefs, t) + (if x in prefs && prefs[x] > t then [x] else [])
  {
    var s := init + [x];
    assert s[|s| - 1] == x && s[..|s| - 1] == init;
  }

  /** A single genre is kept exactly when its weight exceeds the threshold. */
  lemma {:induction false} AboveSingle(g: string, prefs: map<string, real>, t: real)
    ensures Above([g], prefs, t) == (if g in prefs && prefs[g] > t then [g] else [])
  {
    assert [g][..0] == [];
  }

  /** The studio filter keeps the candidate's order in the same way. */
  lemma {:induction false} FavoredAppend(a: seq<string>, b: seq<string>, favorites: set<string>)
    ensures Favored(a + b, favorites) == Favored(a, favorites) + Favored(b, favorites)
    decreases |b|
  {
    if b == [] {
      assert a + b == a;
    } else {
      var x := b[|b| - 1];
      var init := b[..|b| - 1];
      var ab := a + b;
      assert ab[|ab| - 1] == x;
      assert ab[..|ab| - 1] == a + init;
      var q := if x in favorites then [x] else [];
      assert Favored(ab, favorites) == Favored(a + init, favorites) + q;
      assert Favored(b, favorites) == Favored(init, favorites) + q;
      FavoredAppend(a, init, favorites);
    }
  }

  /** A single studio is kept exactly when it is a favourite. */
  lemma {:induction false} FavoredSingle(s: string, favorites: set<string>)
    ensures Favored([s], favorites) == (if s in favorites then [s] else [])
  {
    assert [s][..0] == [];
  }

  function FirstTwo(xs: seq<string>): seq<string> {
    xs[..if |xs| < 2 then |xs| else 2]
  }

  function MoodPhrase(mood: Preferences.Mood): string {
    mood.Value() + " mood"
  }

  const MatchHead := "This anime "
  const MatchTail := ", which matches your preferences, and its tone aligns well with your "
  const FreshHead := "This anime offers a fresh perspective that complements your "
  const FreshTail := " with its unique blend of "

  /** The template explanation used without a language model. */
  function TemplateExplanation(genres: seq<string>, prefs: map<string, real>, mood: Preferences.Mood): string {
    var matching := Above(genres, prefs, 0.5);
    if matching != [] then
      MatchHead + GenreMatch(matching) + MatchTail + MoodPhrase(mood) + "."
    else
      FreshHead + MoodPhrase(mood) + FreshTail + Text.Join(" and ", FirstTwo(genres)) + "."
  }

  /** "has A" for one matching genre, "combines A and B" for more. */
  function GenreMatch(matching: seq<string>): string
    requires matching != []
  {
    if |matching| == 1 then "has " + matching[0] else "combines " + Text.Join(" and ", FirstTwo(matching))
  }

  const GenreHead := "Recommended because it's in your preferred genre ("
  const StudioHead := "Recommended because it's from a studio you like ("
  const StudioAfterGenre := ") and from a studio you like ("

  /** The explanation used when the language model fails. */
  function FallbackExplanation(genres: seq<string>, studios: seq<string>, prefs: map<string, real>,
                               favorites: set<string>): string
  {
    var gs := Above(genres, prefs, 0.0);
    var ss := Favored(studios, favorites);
    if gs != [] && ss != [] then GenreHead + gs[0] + StudioAfterGenre + ss[0] + ")."
    else if gs != [] then GenreHead + gs[0] + ")."
    else if ss != [] then StudioHead + ss[0] + ")."
    else "Recommended based on your viewing history and preferences."
  }

  /** `_generate_explanation`: the template without a language model or in
      demo mode, else the model's reply, else the fallback. */
  function Explanation(useTemplate: bool, reply: Result<string, string>, genres: seq<string>, studios: seq<string>,
                       prefs: map<string, real>, favorites: set<string>, mood: Preferences.Mood): (e: string)
    ensures !useTemplate && reply.Ok? ==> e == reply.value
  {
    if useTemplate then TemplateExplanation(genres, prefs, mood)
    else if reply.Ok? then reply.value
    else FallbackExplanation(genres, studios, prefs, favorites)
  }

  /** `sub` sits between two pieces of text. */
  lemma ContainsMiddle(a: string, sub: string, b: string)
    ensures Text.Contains(a + sub + b, sub)
  {
    Text.ContainsSelf(sub);
    Text.ContainsSuffix(a, sub, sub);
    Text.ContainsExtend(a + sub, sub, b);
  }

  /** The template names the user's mood. */
  lemma TemplateNamesMood(genres: seq<string>, prefs: map<string, real>, mood: Preferences.Mood)
    ensures Text.Contains(TemplateExplanation(genres, prefs, mood), MoodPhrase(mood))
  {
    var matching := Above(genres, prefs, 0.5);
    var mp := MoodPhrase(mood);
    if matching != [] {
      ContainsMiddle(MatchHead + GenreMatch(matching) + MatchTail, mp, ".");
    } else {
      ContainsMiddle(FreshHead, mp, FreshTail);
      Text.ContainsExtend(FreshHead + mp + FreshTail, mp, Text.Join(" and ", FirstTwo(genres)));
      Text.ContainsExtend(FreshHead + mp + FreshTail + Text.Join(" and ", FirstTwo(genres)), mp, ".");
    }
  }

  lemma GenreMatchNamesFirst(matching: seq<string>)
    requires matching != []
    ensures Text.Contains(GenreMatch(matching), matching[0])
  {
    var m0 := matching[0];
    Text.ContainsSelf(m0);
    if |matching| == 1 {
      Text.ContainsSuffix("has ", m0, m0);
    } else {
      var two := FirstTwo(matching);
      assert two[0] == m0 && |two| == 2;
      Text.ContainsExtend(m0, m0, " and ");
      Text.ContainsExtend(m0 + " and ", m0, Text.Join(" and ", two[1..]));
      Text.ContainsSuffix("combines ", Text.Join(" and ", two), m0);
    }
  }

  /** When the user likes one of the candidate's genres above 0.5, the
      template names the first such genre. */
  lemma TemplateNamesGenre(genres: seq<string>, prefs: map<string, real>, mood: Preferences.Mood)
    ensures var m := Above(genres, prefs, 0.5);
      m != [] ==> m[0] in genres && prefs[m[0]] > 0.5 && Text.Contains(TemplateExplanation(genres, prefs, mood), m[0])
  {
    var m := Above(genres, prefs, 0.5);
    if m != [] {
      assert m[0] in m;
      var gm := GenreMatch(m);
      GenreMatchNamesFirst(m);
      Text.ContainsSuffix(MatchHead, gm, m[0]);
      Text.ContainsExtend(MatchHead + gm, m[0], MatchTail);
      Text.ContainsExtend(MatchHead + gm + MatchTail, m[0], MoodPhrase(mood));
      Text.ContainsExtend(MatchHead + gm + MatchTail + MoodPhrase(mood), m[0], ".");
    }
  }

  /** The fallback names the first preferred genre, or else the first
      favourite studio, when there is one. */
  lemma FallbackNames(genres: seq<string>, studios: seq<string>, prefs: map<string, real>, favorites: set<string>)
    ensures var gs := Above(genres, prefs, 0.0);
      gs != [] ==> prefs[gs[0]] > 0.0 && Text.Contains(FallbackExplanation(genres, studios, prefs, favorites), gs[0])
    ensures var ss := Favored(studios, favorites);
      ss != [] ==> ss[0] in favorites && Text.Contains(FallbackExplanation(genres, studios, prefs, favorites), ss[0])
  {
    var gs := Above(genres, prefs, 0.0);
    var ss := Favored(studios, favorites);
    if gs != [] {
      assert gs[0] in gs;
      if ss != [] {
        ContainsMiddle(GenreHead, gs[0], StudioAfterGenre);
        Text.ContainsExtend(GenreHead + gs[0] + StudioAfterGenre, gs[0], ss[0]);
        Text.ContainsExtend(GenreHead + gs[0] + StudioAfterGenre + ss[0], gs[0], ").");
      } else {
        ContainsMiddle(GenreHead, gs[0], ").");
      }
    }
    if ss != [] {
      assert ss[0] in ss;
      if gs != [] {
        ContainsMiddle(GenreHead + gs[0] + StudioAfterGenre, ss[0], ").");
      } else {
        ContainsMiddle(StudioHead, ss[0], ").");
      }
    }
  }

  // ---------------------------------------------------------------------
  // Trailers
  // ---------------------------------------------------------------------

  /** A trailer lookup result: four optional strings. */
  datatype TrailerInfo = TrailerInfo(url: Option<string>, thumbnail: Option<string>,
                                     title: Option<string>, channel: Option<string>)

  const NoTrailer := TrailerInfo(None, None, None, None)

  function VideoIdChar(c: char): char {
    if Text.IsAlnum(c) then Text.LowerChar(c) else '_'
  }

  /** `"".join(c.lower() if c.isalnum() else "_" for c in title)[:10] + "_trailer"`. */
  function MockVideoId(title: string): string {
    var mapped := seq(|title|, i requires 0 <= i < |title| => VideoIdChar(title[i]));
    mapped[..if |mapped| < 10 then |mapped| else 10] + "_trailer"
  }

  /** The made-up trailer of demo mode. */
  function MockTrailer(title: string): TrailerInfo {
    var id := MockVideoId(title);
    TrailerInfo(Some("https://www.youtube.com/watch?v=" + id), Some("https://i.ytimg.com/vi/" + id + "/hqdefault.jpg"),
                Some(title + " Official Trailer"), Some("AnimeTrailers"))
  }

  predicate IdChar(c: char) { Text.IsLowerLetter(c) || Text.IsDigit(c) || c == '_' }

  /** The mock video id keeps at most ten characters of the title, each a
      lower-case letter, a digit or `_`, followed by `_trailer`. */
  lemma MockVideoIdShape(title: string)
    ensures var id := MockVideoId(title);
      && |id| == (if |title| < 10 then |title| else 10) + 8
      && id[|id| - 8..] == "_trailer"
      && (forall i :: 0 <= i < |id| ==> IdChar(id[i]))
      && (forall i :: 0 <= i < |id| - 8 ==> (Text.IsAlnum(title[i]) <==> id[i] != '_'))
  {
  }
}
