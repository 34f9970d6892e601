/** A user's preference profile: ratings, clamped genre and theme weights,
    the current mood, favourite studios and demographic weights, with the
    time of the last change, and the per-user store of profiles. The clock
    is a parameter (`now`) of every operation that reads it. */
module Preferences {
  import opened Common
  import opened PyDict
  import ColorPreferences

  // ---------------------------------------------------------------------
  // Rating scale and mood
  // ---------------------------------------------------------------------

  /** `RatingScale`: an int enum from 1 to 5. */
  datatype RatingScale = Dislike | Neutral | Like | Love | Favorite {
    function Value(): (v: int)
      ensures 1 <= v <= 5
    {
      match this
      case Dislike => 1
      case Neutral => 2
      case Like => 3
      case Love => 4
      case Favorite => 5
    }
  }

  /** The `ValueError` an enum constructor raises for a value it lacks. */
  datatype ValueError = InvalidRating(n: int) | InvalidMood(s: string)

  /** `RatingScale(n)`. */
  function RatingFromInt(n: int): (r: Result<RatingScale, ValueError>)
    ensures r.Ok? <==> 1 <= n <= 5
    ensures r.Ok? ==> r.value.Value() == n
    ensures r.Err? ==> r.error == InvalidRating(n)
  {
    if n == 1 then Ok(Dislike)
    else if n == 2 then Ok(Neutral)
    else if n == 3 then Ok(Like)
    else if n == 4 then Ok(Love)
    else if n == 5 then Ok(Favorite)
    else Err(InvalidRating(n))
  }

  /** Every rating converts back from its value. */
  lemma RatingRoundTrip(s: RatingScale)
    ensures RatingFromInt(s.Value()) == Ok(s)
  {
  }

  /** `Mood`: a string enum. */
  datatype Mood = Happy | Sad | Relaxed | Excited | Thoughtful | Adventurous | Romantic | Mysterious | Any {
    function Value(): string {
      match this
      case Happy => "happy"
      case Sad => "sad"
      case Relaxed => "relaxed"
      case Excited => "excited"
      case Thoughtful => "thoughtful"
      case Adventurous => "adventurous"
      case Romantic => "romantic"
      case Mysterious => "mysterious"
      case Any => "any"
    }
  }

  /** `Mood(s)`: the member whose value is `s`, or `ValueError`. */
  function MoodFromString(s: string): (r: Result<Mood, ValueError>)
    ensures r.Ok? ==> r.value.Value() == s
    ensures r.Err? ==> r.error == InvalidMood(s)
  {
    if s == "happy" then Ok(Happy)
    else if s == "sad" then Ok(Sad)
    else if s == "relaxed" then Ok(Relaxed)
    else if s == "excited" then Ok(Excited)
    else if s == "thoughtful" then Ok(Thoughtful)
    else if s == "adventurous" then Ok(Adventurous)
    else if s == "romantic" then Ok(Romantic)
    else if s == "mysterious" then Ok(Mysterious)
    else if s == "any" then Ok(Any)
    else Err(InvalidMood(s))
  }

  /** Every mood converts back from its value, and only the nine values are
      accepted. */
  lemma MoodRoundTrip(m: Mood, s: string)
    ensures MoodFromString(m.Value()) == Ok(m)
    ensures MoodFromString(s).Err? <==> forall m': Mood :: m'.Value() != s
  {
    if MoodFromString(s).Err? {
      forall m': Mood ensures m'.Value() != s {
        match m'
        case Happy =>
        case Sad =>
        case Relaxed =>
        case Excited =>
        case Thoughtful =>
        case Adventurous =>
        case Romantic =>
        case Mysterious =>
        case Any =>
      }
    }
  }

  /** `AnimeRating`. */
  datatype AnimeRating = AnimeRating(animeId: string, score: RatingScale, timestamp: real, notes: Option<string>)

  /** The `Union[RatingScale, int]` argument of `add_rating`. */
  datatype ScoreArg = ScaleArg(scale: RatingScale) | IntArg(n: int)

  /** The `Union[Mood, str]` argument of `set_mood`. */
  datatype MoodArg = MoodMember(mood: Mood) | MoodText(text: string)

  /** The conversion at the head of `add_rating`: an int goes through
      `RatingScale(score)`. */
  function ToScale(score: ScoreArg): (r: Result<RatingScale, ValueError>)
    ensures r.Ok? <==> score.ScaleArg? || 1 <= score.n <= 5
    ensures score.ScaleArg? ==> r == Ok(score.scale)
  {
    match score
    case ScaleArg(s) => Ok(s)
    case IntArg(n) => RatingFromInt(n)
  }

  /** The conversion at the head of `set_mood`. */
  function ToMood(mood: MoodArg): (r: Result<Mood, ValueError>)
    ensures mood.MoodMember? ==> r == Ok(mood.mood)
    ensures mood.MoodText? && r.Ok? ==> r.value.Value() == mood.text
  {
    match mood
    case MoodMember(m) => Ok(m)
    case MoodText(s) => MoodFromString(s)
  }

  // ---------------------------------------------------------------------
  // The feature vector
  // ---------------------------------------------------------------------

  predicate StartsWith(x: string, p: string) {
    |p| <= |x| && x[..|p|] == p
  }

  /** `{p + k: m[k] for k in ks}`, written key by key in the order of `ks`. */
  function Prefixed(p: string, ks: seq<string>, m: map<string, real>): map<string, real>
    requires forall k :: k in ks ==> k in m
  {
    if ks == [] then map[]
    else Prefixed(p, ks[..|ks| - 1], m)[p + ks[|ks| - 1] := m[ks[|ks| - 1]]]
  }

  /** `{p + s: 1.0 for s in studios}`. */
  function Flags(p: string, studios: set<string>): map<string, real> {
    map s | s in studios :: p + s := 1.0
  }

  /** The mood entry, present only when the mood is not `Mood.ANY`. */
  function MoodEntry(mood: Mood): map<string, real> {
    if mood != Any then map["mood_" + mood.Value() := 1.0] else map[]
  }

  /** The dictionary `get_feature_vector()` returns. */
  function FeatureVector(genres: Dict<string, real>, themes: Dict<string, real>, studios: set<string>,
                         demographics: Dict<string, real>, mood: Mood): map<string, real>
    requires genres.Valid() && themes.Valid() && demographics.Valid()
  {
    Prefixed("genre_", genres.keys, genres.entries)
      + Prefixed("theme_", themes.keys, themes.entries)
      + Flags("studio_", studios)
      + Prefixed("demographic_", demographics.keys, demographics.entries)
      + MoodEntry(mood)
  }

  /** The keys of `Prefixed(p, ks, m)` are exactly `p` followed by a member
      of `ks`, and each carries the value of its member. */
  lemma {:induction false} PrefixedKeys(p: string, ks: seq<string>, m: map<string, real>, x: string)
    requires forall k :: k in ks ==> k in m
    ensures x in Prefixed(p, ks, m) <==> StartsWith(x, p) && x[|p|..] in ks
    ensures x in Prefixed(p, ks, m) ==> Prefixed(p, ks, m)[x] == m[x[|p|..]]
  {
    if ks != [] {
      var init, last := ks[..|ks| - 1], ks[|ks| - 1];
      PrefixedKeys(p, init, m, x);
      assert ks == init + [last];
      var y := p + last;
      assert y[..|p|] == p && y[|p|..] == last;
      if StartsWith(x, p) && x[|p|..] == last {
        assert x == x[..|p|] + x[|p|..];
      }
    }
  }

  /** Distinct keys give distinct entries. */
  lemma {:induction false} PrefixedSize(p: string, ks: seq<string>, m: map<string, real>)
    requires forall k :: k in ks ==> k in m
    requires Distinct(ks)
    ensures |Prefixed(p, ks, m)| == |ks|
  {
    if ks != [] {
      var init, last := ks[..|ks| - 1], ks[|ks| - 1];
      DistinctInit(ks);
      PrefixedSize(p, init, m);
      var y := p + last;
      assert y[..|p|] == p && y[|p|..] == last;
      PrefixedKeys(p, init, m, y);
    }
  }

  lemma FlagsKeys(p: string, studios: set<string>, x: string)
    ensures x in Flags(p, studios) <==> StartsWith(x, p) && x[|p|..] in studios
    ensures x in Flags(p, studios) ==> Flags(p, studios)[x] == 1.0
  {
    if StartsWith(x, p) && x[|p|..] in studios {
      assert x == p + x[|p|..];
    }
    if x in Flags(p, studios) {
      var s :| s in studios && x == p + s;
      assert x[..|p|] == p && x[|p|..] == s;
    }
  }

  lemma {:induction false} FlagsSize(p: string, studios: set<string>)
    ensures |Flags(p, studios)| == |studios|
    decreases |studios|
  {
    if studios != {} {
      var s :| s in studios;
      var rest := studios - {s};
      FlagsSize(p, rest);
      var y := p + s;
      assert y[..|p|] == p && y[|p|..] == s;
      forall x ensures x in Flags(p, studios) <==> x in Flags(p, rest) || x == y {
        FlagsKeys(p, studios, x);
        FlagsKeys(p, rest, x);
        if x == y {
        } else if StartsWith(x, p) && x[|p|..] == s {
          assert x == x[..|p|] + x[|p|..];
        }
      }
      FlagsKeys(p, rest, y);
      assert Flags(p, studios).Keys == Flags(p, rest).Keys + {y};
    }
  }

  /** Keys with different first characters never collide. */
  lemma PrefixesDisjoint(x: string, p: string, q: string)
    requires |p| > 0 && |q| > 0 && p[0] != q[0]
    ensures !(StartsWith(x, p) && StartsWith(x, q))
  {
  }

  /** Every key of a map starts with `p`. */
  ghost predicate KeysStartWith(m: map<string, real>, p: string) {
    forall x :: x in m ==> StartsWith(x, p)
  }

  /** The five groups of the feature vector, each under its own prefix. */
  lemma GroupPrefixes(genres: Dict<string, real>, themes: Dict<string, real>, studios: set<string>,
                      demographics: Dict<string, real>, mood: Mood)
    requires genres.Valid() && themes.Valid() && demographics.Valid()
    ensures KeysStartWith(Prefixed("genre_", genres.keys, genres.entries), "genre_")
    ensures KeysStartWith(Prefixed("theme_", themes.keys, themes.entries), "theme_")
    ensures KeysStartWith(Flags("studio_", studios), "studio_")
    ensures KeysStartWith(Prefixed("demographic_", demographics.keys, demographics.entries), "demographic_")
    ensures KeysStartWith(MoodEntry(mood), "mood_")
  {
    forall x
      ensures x in Prefixed("genre_", genres.keys, genres.entries) ==> StartsWith(x, "genre_")
      ensures x in Prefixed("theme_", themes.keys, themes.entries) ==> StartsWith(x, "theme_")
      ensures x in Flags("studio_", studios) ==> StartsWith(x, "studio_")
      ensures x in Prefixed("demographic_", demographics.keys, demographics.entries) ==> StartsWith(x, "demographic_")
    {
      PrefixedKeys("genre_", genres.keys, genres.entries, x);
      PrefixedKeys("theme_", themes.keys, themes.entries, x);
      FlagsKeys("studio_", studios, x);
      PrefixedKeys("demographic_", demographics.keys, demographics.entries, x);
    }
    if mood != Any {
      var y := "mood_" + mood.Value();
      assert y[..5] == "mood_";
    }
  }

  /** Maps whose keys carry prefixes with different first characters have
      no key in common. */
  lemma PrefixedDisjoint(a: map<string, real>, p: string, b: map<string, real>, q: string)
    requires |p| > 0 && |q| > 0 && p[0] != q[0]
    requires KeysStartWith(a, p) && KeysStartWith(b, q)
    ensures a.Keys !! b.Keys
  {
    forall x | x in a && x in b ensures false {
      PrefixesDisjoint(x, p, q);
    }
  }

  lemma StartsWithConcat(p: string, k: string)
    ensures StartsWith(p + k, p) && (p + k)[|p|..] == k
  {
    assert (p + k)[..|p|] == p;
  }

  /** Each genre, theme, studio and demographic has its entry in the
      feature vector, with its weight (1.0 for a studio), and a mood other
      than `ANY` has the entry `mood_<value>` = 1.0. */
  lemma FeatureVectorEntries(genres: Dict<string, real>, themes: Dict<string, real>, studios: set<string>,
                             demographics: Dict<string, real>, mood: Mood, k: string)
    requires genres.Valid() && themes.Valid() && demographics.Valid()
    ensures var fv := FeatureVector(genres, themes, studios, demographics, mood);
            && (k in genres.entries ==> "genre_" + k in fv && fv["genre_" + k] == genres.entries[k])
            && (k in themes.entries ==> "theme_" + k in fv && fv["theme_" + k] == themes.entries[k])
            && (k in studios ==> "studio_" + k in fv && fv["studio_" + k] == 1.0)
            && (k in demographics.entries ==> "demographic_" + k in fv && fv["demographic_" + k] == demographics.entries[k])
            && (mood != Any ==> "mood_" + mood.Value() in fv && fv["mood_" + mood.Value()] == 1.0)
  {
    var g := Prefixed("genre_", genres.keys, genres.entries);
    var t := Prefixed("theme_", themes.keys, themes.entries);
    var st := Flags("studio_", studios);
    var d := Prefixed("demographic_", demographics.keys, demographics.entries);
    var mo := MoodEntry(mood);
    GroupPrefixes(genres, themes, studios, demographics, mood);
    var gk, tk, sk, dk := "genre_" + k, "theme_" + k, "studio_" + k, "demographic_" + k;
    StartsWithConcat("genre_", k);
    StartsWithConcat("theme_", k);
    StartsWithConcat("studio_", k);
    StartsWithConcat("demographic_", k);
    PrefixedKeys("genre_", genres.keys, genres.entries, gk);
    PrefixedKeys("theme_", themes.keys, themes.entries, tk);
    FlagsKeys("studio_", studios, sk);
    PrefixedKeys("demographic_", demographics.keys, demographics.entries, dk);
    PrefixesDisjoint(gk, "genre_", "theme_");
    PrefixesDisjoint(gk, "genre_", "studio_");
    PrefixesDisjoint(gk, "genre_", "demographic_");
    PrefixesDisjoint(gk, "genre_", "mood_");
    PrefixesDisjoint(tk, "theme_", "studio_");
    PrefixesDisjoint(tk, "theme_", "demographic_");
    PrefixesDisjoint(tk, "theme_", "mood_");
    PrefixesDisjoint(sk, "studio_", "demographic_");
    PrefixesDisjoint(sk, "studio_", "mood_");
    PrefixesDisjoint(dk, "demographic_", "mood_");
  }

  /** The groups never collide, so the vector has one entry per genre,
      theme, favourite studio and demographic, plus one for a mood other
      than `ANY`. */
  lemma FeatureVectorSize(genres: Dict<string, real>, themes: Dict<string, real>, studios: set<string>,
                          demographics: Dict<string, real>, mood: Mood)
    requires genres.Valid() && themes.Valid() && demographics.Valid()
    ensures |FeatureVector(genres, themes, studios, demographics, mood)| ==
            |genres.entries| + |themes.entries| + |studios| + |demographics.entries| + (if mood != Any then 1 else 0)
  {
    var g := Prefixed("genre_", genres.keys, genres.entries);
    var t := Prefixed("theme_", themes.keys, themes.entries);
    var st := Flags("studio_", studios);
    var d := Prefixed("demographic_", demographics.keys, demographics.entries);
    var mo := MoodEntry(mood);
    GroupSizes(genres, themes, studios, demographics, mood);
    GroupPrefixes(genres, themes, studios, demographics, mood);
    FiveDisjointSize(g, "genre_", t, "theme_", st, "studio_", d, "demographic_", mo, "mood_");
  }

  lemma GroupSizes(genres: Dict<string, real>, themes: Dict<string, real>, studios: set<string>,
                   demographics: Dict<string, real>, mood: Mood)
    requires genres.Valid() && themes.Valid() && demographics.Valid()
    ensures |Prefixed("genre_", genres.keys, genres.entries)| == |genres.entries|
    ensures |Prefixed("theme_", themes.keys, themes.entries)| == |themes.entries|
    ensures |Flags("studio_", studios)| == |studios|
    ensures |Prefixed("demographic_", demographics.keys, demographics.entries)| == |demographics.entries|
    ensures |MoodEntry(mood)| == if mood != Any then 1 else 0
  {
    PrefixedSize("genre_", genres.keys, genres.entries);
    PrefixedSize("theme_", themes.keys, themes.entries);
    FlagsSize("studio_", studios);
    PrefixedSize("demographic_", demographics.keys, demographics.entries);
    DistinctCard(genres.keys, genres.entries.Keys);
    DistinctCard(themes.keys, themes.entries.Keys);
    DistinctCard(demographics.keys, demographics.entries.Keys);
  }

  /** Five maps under prefixes with pairwise different first characters
      merge without overwriting. */
  lemma FiveDisjointSize(a: map<string, real>, pa: string, b: map<string, real>, pb: string,
                         c: map<string, real>, pc: string, d: map<string, real>, pd: string,
                         e: map<string, real>, pe: string)
    requires |pa| > 0 && |pb| > 0 && |pc| > 0 && |pd| > 0 && |pe| > 0
    requires pa[0] != pb[0] && pa[0] != pc[0] && pa[0] != pd[0] && pa[0] != pe[0]
    requires pb[0] != pc[0] && pb[0] != pd[0] && pb[0] != pe[0]
    requires pc[0] != pd[0] && pc[0] != pe[0] && pd[0] != pe[0]
    requires KeysStartWith(a, pa) && KeysStartWith(b, pb) && KeysStartWith(c, pc)
    requires KeysStartWith(d, pd) && KeysStartWith(e, pe)
    ensures |a + b + c + d + e| == |a| + |b| + |c| + |d| + |e|
  {
    PrefixedDisjoint(a, pa, b, pb);
    PrefixedDisjoint(a, pa, c, pc);
    PrefixedDisjoint(b, pb, c, pc);
    PrefixedDisjoint(a, pa, d, pd);
    PrefixedDisjoint(b, pb, d, pd);
    PrefixedDisjoint(c, pc, d, pd);
    PrefixedDisjoint(a, pa, e, pe);
    PrefixedDisjoint(b, pb, e, pe);
    PrefixedDisjoint(c, pc, e, pe);
    PrefixedDisjoint(d, pd, e, pe);
    FiveUnionSize(a, b, c, d, e);
  }

  /** Five pairwise disjoint maps: the union is as large as the sizes add up to. */
  lemma FiveUnionSize(a: map<string, real>, b: map<string, real>, c: map<string, real>, d: map<string, real>,
                      e: map<string, real>)
    requires a.Keys !! b.Keys && a.Keys !! c.Keys && b.Keys !! c.Keys
    requires a.Keys !! d.Keys && b.Keys !! d.Keys && c.Keys !! d.Keys
    requires a.Keys !! e.Keys && b.Keys !! e.Keys && c.Keys !! e.Keys && d.Keys !! e.Keys
    ensures |a + b + c + d + e| == |a| + |b| + |c| + |d| + |e|
  {
    FiveKeys(a, b, c, d, e);
    FiveSetSize(a.Keys, b.Keys, c.Keys, d.Keys, e.Keys);
  }

  lemma FiveKeys(a: map<string, real>, b: map<string, real>, c: map<string, real>, d: map<string, real>,
                 e: map<string, real>)
    ensures (a + b + c + d + e).Keys == a.Keys + b.Keys + c.Keys + d.Keys + e.Keys
  {
    UnionKeys(a, b);
    UnionKeys(a + b, c);
    UnionKeys(a + b + c, d);
    UnionKeys(a + b + c + d, e);
  }

  lemma FiveSetSize(a: set<string>, b: set<string>, c: set<string>, d: set<string>, e: set<string>)
    requires a !! b && a !! c && b !! c && a !! d && b !! d && c !! d && a !! e && b !! e && c !! e && d !! e
    ensures |a + b + c + d + e| == |a| + |b| + |c| + |d| + |e|
  {
    assert a + b !! c;
    assert a + b + c !! d;
    assert a + b + c + d !! e;
  }

  lemma UnionKeys(a: map<string, real>, b: map<string, real>)
    ensures (a + b).Keys == a.Keys + b.Keys
  {
  }


  // ---------------------------------------------------------------------
  // The profile
  // ---------------------------------------------------------------------

  /** `UserPreferences`. The user's colour and style preferences, which the
      recommendation engine reads when present, are an explicit field. */
  class UserPreferences {
    const userId: string
    var animeRatings: Dict<string, AnimeRating>
    var genrePreferences: Dict<string, real>
    var themePreferences: Dict<string, real>
    var currentMood: Mood
    var favoriteStudios: set<string>
    var targetDemographic: Dict<string, real>
    var lastUpdated: real
    var colorPreferences: seq<ColorPreferences.Preference>

    /** The dictionaries are well formed, each rating is stored under its
        own anime id, and every genre and theme weight written through the
        update methods lies in [-1, 1]. */
    ghost predicate Valid()
      reads this
    {
      && animeRatings.Valid() && genrePreferences.Valid() && themePreferences.Valid() && targetDemographic.Valid()
      && (forall id :: id in animeRatings.entries ==> animeRatings.entries[id].animeId == id)
      && (forall g :: g in genrePreferences.entries ==> -1.0 <= genrePreferences.entries[g] <= 1.0)
      && (forall t :: t in themePreferences.entries ==> -1.0 <= themePreferences.entries[t] <= 1.0)
    }

    /** `UserPreferences(user_id=...)`: everything empty, mood `ANY`. */
    constructor(userId: string, now: real)
      ensures Valid()
      ensures this.userId == userId && currentMood == Any && lastUpdated == now
      ensures animeRatings == Empty() && genrePreferences == Empty() && themePreferences == Empty()
      ensures targetDemographic == Empty() && favoriteStudios == {} && colorPreferences == []
    {
      this.userId := userId;
      animeRatings := Empty();
      genrePreferences := Empty();
      themePreferences := Empty();
      currentMood := Any;
      favoriteStudios := {};
      targetDemographic := Empty();
      lastUpdated := now;
      colorPreferences := [];
    }

    /** `add_rating(anime_id, score, notes)`: an out-of-range int raises
        before anything changes; otherwise the rating replaces any earlier
        one for the same id. */
    method AddRating(animeId: string, score: ScoreArg, notes: Option<string>, now: real)
      returns (r: Result<(), ValueError>)
      requires Valid()
      modifies this
      ensures Valid()
      ensures r.Err? <==> ToScale(score).Err?
      ensures r.Err? ==> animeRatings == old(animeRatings) && lastUpdated == old(lastUpdated)
      ensures r.Ok? ==> animeRatings == old(animeRatings).Put(animeId, AnimeRating(animeId, ToScale(score).value, now, notes))
      ensures r.Ok? ==> lastUpdated == now
      ensures genrePreferences == old(genrePreferences) && themePreferences == old(themePreferences)
      ensures currentMood == old(currentMood) && favoriteStudios == old(favoriteStudios)
      ensures targetDemographic == old(targetDemographic) && colorPreferences == old(colorPreferences)
    {
      var scale := ToScale(score);
      if scale.Err? {
        return Err(scale.error);
      }
      var rating := AnimeRating(animeId, scale.value, now, notes);
      animeRatings := animeRatings.Put(animeId, rating);
      lastUpdated := now;
      r := Ok(());
    }

    /** `update_genre_preference(genre, weight)`: stores the weight clamped
        to [-1, 1] under that genre only. */
    method UpdateGenrePreference(genre: string, weight: real, now: real)
      requires Valid()
      modifies this
      ensures Valid()
      ensures genrePreferences == old(genrePreferences).Put(genre, Clamp(weight, -1.0, 1.0))
      ensures lastUpdated == now
      ensures animeRatings == old(animeRatings) && themePreferences == old(themePreferences)
      ensures currentMood == old(currentMood) && favoriteStudios == old(favoriteStudios)
      ensures targetDemographic == old(targetDemographic) && colorPreferences == old(colorPreferences)
    {
      var clamped := Max(-1.0, Min(1.0, weight));
      genrePreferences := genrePreferences.Put(genre, clamped);
      lastUpdated := now;
    }

    /** `update_theme_preference(theme, weight)`. */
    method UpdateThemePreference(theme: string, weight: real, now: real)
      requires Valid()
      modifies this
      ensures Valid()
      ensures themePreferences == old(themePreferences).Put(theme, Clamp(weight, -1.0, 1.0))
      ensures lastUpdated == now
      ensures animeRatings == old(animeRatings) && genrePreferences == old(genrePreferences)
      ensures currentMood == old(currentMood) && favoriteStudios == old(favoriteStudios)
      ensures targetDemographic == old(targetDemographic) && colorPreferences == old(colorPreferences)
    {
      var clamped := Max(-1.0, Min(1.0, weight));
      themePreferences := themePreferences.Put(theme, clamped);
      lastUpdated := now;
    }

    /** `set_mood(mood)`: a string that names no mood raises before the
        assignment, leaving the profile as it was. */
    method SetMood(mood: MoodArg, now: real) returns (r: Result<(), ValueError>)
      requires Valid()
      modifies this
      ensures Valid()
      ensures r.Err? <==> ToMood(mood).Err?
      ensures r.Err? ==> currentMood == old(currentMood) && lastUpdated == old(lastUpdated)
      ensures r.Ok? ==> currentMood == ToMood(mood).value && lastUpdated == now
      ensures animeRatings == old(animeRatings) && genrePreferences == old(genrePreferences)
      ensures themePreferences == old(themePreferences) && favoriteStudios == old(favoriteStudios)
      ensures targetDemographic == old(targetDemographic) && colorPreferences == old(colorPreferences)
    {
      var m := ToMood(mood);
      if m.Err? {
        return Err(m.error);
      }
      currentMood := m.value;
      lastUpdated := now;
      r := Ok(());
    }

    /** `add_favorite_studio(studio)`. */
    method AddFavoriteStudio(studio: string, now: real)
      requires Valid()
      modifies this
      ensures Valid()
      ensures favoriteStudios == old(favoriteStudios) + {studio}
      ensures lastUpdated == now
      ensures animeRatings == old(animeRatings) && genrePreferences == old(genrePreferences)
      ensures themePreferences == old(themePreferences) && currentMood == old(currentMood)
      ensures targetDemographic == old(targetDemographic) && colorPreferences == old(colorPreferences)
    {
      favoriteStudios := favoriteStudios + {studio};
      lastUpdated := now;
    }

    /** `remove_favorite_studio(studio)`: a no-op, clock included, when the
        studio is not a favourite. */
    method RemoveFavoriteStudio(studio: string, now: real)
      requires Valid()
      modifies this
      ensures Valid()
      ensures favoriteStudios == old(favoriteStudios) - {studio}
      ensures studio in old(favoriteStudios) ==> lastUpdated == now
      ensures studio !in old(favoriteStudios) ==> lastUpdated == old(lastUpdated)
      ensures animeRatings == old(animeRatings) && genrePreferences == old(genrePreferences)
      ensures themePreferences == old(themePreferences) && currentMood == old(currentMood)
      ensures targetDemographic == old(targetDemographic) && colorPreferences == old(colorPreferences)
    {
      if studio in favoriteStudios {
        favoriteStudios := favoriteStudios - {studio};
        lastUpdated := now;
      }
    }

    /** `get_feature_vector()`: genre, theme, studio and demographic
        entries and the mood flag, under disjoint key prefixes. */
    method GetFeatureVector() returns (features: map<string, real>)
      requires Valid()
      ensures features == FeatureVector(genrePreferences, themePreferences, favoriteStudios,
                                        targetDemographic, currentMood)
    {
      features := BuildFeatureVector(genrePreferences, themePreferences, favoriteStudios, targetDemographic,
                                     currentMood);
    }
  }

  /** The body of `get_feature_vector`: genre, theme, studio and demographic
      entries in that order, then the mood flag unless the mood is `any`. */
  method BuildFeatureVector(genres: Dict<string, real>, themes: Dict<string, real>, studios: set<string>,
                            demographics: Dict<string, real>, mood: Mood)
    returns (features: map<string, real>)
    requires genres.Valid() && themes.Valid() && demographics.Valid()
    ensures features == FeatureVector(genres, themes, studios, demographics, mood)
  {
    ghost var g := Prefixed("genre_", genres.keys, genres.entries);
    ghost var t := Prefixed("theme_", themes.keys, themes.entries);
    ghost var st := Flags("studio_", studios);
    ghost var d := Prefixed("demographic_", demographics.keys, demographics.entries);
    ghost var mo := MoodEntry(mood);
    features := AddPrefixed(map[], "genre_", genres);
    EmptyUnion(g);
    assert features == g;
    features := AddPrefixed(features, "theme_", themes);
    features := AddFlags(features, "studio_", studios);
    features := AddPrefixed(features, "demographic_", demographics);
    assert features == g + t + st + d;
    ghost var before := features;
    if mood != Any {
      features := features["mood_" + mood.Value() := 1.0];
    }
    AddMood(before, mood);
  }

  /** Setting the mood flag, unless the mood is `any`, adds the mood entry. */
  lemma AddMood(m: map<string, real>, mood: Mood)
    ensures (if mood != Any then m["mood_" + mood.Value() := 1.0] else m) == m + MoodEntry(mood)
  {
    if mood != Any {
      UpdateUnion(m, map[], "mood_" + mood.Value(), 1.0);
    }
    assert m + map[] == m;
  }

  lemma EmptyUnion(m: map<string, real>)
    ensures map[] + m == m
  {
  }

  /** The studio loop of `get_feature_vector`: `features[p + s] = 1.0` for
      each favourite studio, in whatever order the set yields them. */
  method AddFlags(features: map<string, real>, p: string, studios: set<string>)
    returns (result: map<string, real>)
    ensures result == features + Flags(p, studios)
  {
    result := features;
    var rest := studios;
    ghost var done: set<string> := {};
    while rest != {}
      invariant rest !! done && rest + done == studios
      invariant result == features + Flags(p, done)
      decreases |rest|
    {
      var studio :| studio in rest;
      FlagsAdd(p, done, studio);
      UpdateUnion(features, Flags(p, done), p + studio, 1.0);
      result := result[p + studio := 1.0];
      rest := rest - {studio};
      done := done + {studio};
    }
  }

  lemma FlagsAdd(p: string, done: set<string>, s: string)
    ensures Flags(p, done + {s}) == Flags(p, done)[p + s := 1.0]
  {
    forall x ensures x in Flags(p, done + {s}) <==> x in Flags(p, done)[p + s := 1.0] {
      FlagsKeys(p, done + {s}, x);
      FlagsKeys(p, done, x);
      StartsWithConcat(p, s);
      if StartsWith(x, p) && x[|p|..] == s {
        assert x == x[..|p|] + x[|p|..];
      }
    }
  }

  /** Writing a key after a merge is writing it into the merged-in map. */
  lemma UpdateUnion(a: map<string, real>, b: map<string, real>, k: string, v: real)
    ensures (a + b)[k := v] == a + b[k := v]
  {
  }

  /** One of the dictionary loops of `get_feature_vector`:
      `features[p + k] = v` for each item of `d` in iteration order. */
  method AddPrefixed(features: map<string, real>, p: string, d: Dict<string, real>)
    returns (result: map<string, real>)
    requires d.Valid()
    ensures result == features + Prefixed(p, d.keys, d.entries)
  {
    result := features;
    for i := 0 to |d.keys|
      invariant result == features + Prefixed(p, d.keys[..i], d.entries)
    {
      assert d.keys[..i + 1][..i] == d.keys[..i];
      var k := d.keys[i];
      result := result[p + k := d.entries[k]];
    }
    assert d.keys[..|d.keys|] == d.keys;
  }

  // ---------------------------------------------------------------------
  // The per-user store
  // ---------------------------------------------------------------------

  /** `_preference_store` with `get_user_preferences`. */
  class PreferenceStore {
    var store: map<string, UserPreferences>

    ghost predicate Valid()
      reads this
    {
      forall id :: id in store ==> store[id].userId == id
    }

    constructor()
      ensures Valid() && store == map[]
    {
      store := map[];
    }

    /** `get_user_preferences(user_id)`: the stored profile, or a new
        default one that is stored and returned from then on. */
    method GetUserPreferences(userId: string, now: real) returns (prefs: UserPreferences)
      requires Valid()
      modifies this
      ensures Valid()
      ensures prefs.userId == userId && userId in store && store[userId] == prefs
      ensures userId in old(store) ==> prefs == old(store[userId]) && store == old(store)
      ensures userId !in old(store) ==> fresh(prefs) && store == old(store)[userId := prefs]
      ensures userId !in old(store) ==> prefs.Valid() && prefs.currentMood == Any && prefs.lastUpdated == now
    {
      if userId !in store {
        var created := new UserPreferences(userId, now);
        store := store[userId := created];
      }
      prefs := store[userId];
    }
  }
}
