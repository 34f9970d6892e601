/** An anime as the recommendation engine sees it: descriptive metadata,
    the numeric features extracted for it, an optional visual profile and a
    cache of similarity scores against other items. */
module AnimeModel {
  import opened Common
  import Text
  import ColorPreferences

  datatype AnimeType = Tv | Movie | Ova | Ona | Special | Music | UnknownType

  datatype AnimeStatus = Airing | Finished | NotYetAired | Canceled | UnknownStatus

  datatype AnimeSeason = Winter | Spring | Summer | Fall | UnknownSeason

  datatype Date = Date(year: int, month: int, day: int)

  /** The extracted features; every dict maps a tag to a weight. */
  datatype Features = Features(
    genres: map<string, real>,
    themes: map<string, real>,
    sentiment: map<string, real>,
    emotionProfile: map<string, real>,
    targetDemographic: map<string, real>,
    synopsisEmbedding: Option<seq<real>>,
    titleEmbedding: Option<seq<real>>)

  /** `AnimeFeatures()`: every dict empty, no embeddings. */
  const EmptyFeatures := Features(map[], map[], map[], map[], map[], None, None)

  // ---------------------------------------------------------------------
  // get_feature_vector
  // ---------------------------------------------------------------------

  /** `[d.get(k, 0.0) for k in ks]`. */
  function ValuesAt(ks: seq<string>, d: map<string, real>): seq<real> {
    if ks == [] then [] else ValuesAt(ks[..|ks| - 1], d) + [Get(d, ks[|ks| - 1])]
  }

  /** The values of `d`, in increasing order of their keys. */
  function SortedValues(d: map<string, real>): seq<real> {
    ValuesAt(Text.SortedKeys(d.Keys), d)
  }

  /** The flattened vector: genres, themes, sentiment, emotions and target
      demographics, each block in sorted-key order. */
  function FeatureVector(f: Features): seq<real> {
    SortedValues(f.genres) + SortedValues(f.themes) + SortedValues(f.sentiment)
      + SortedValues(f.emotionProfile) + SortedValues(f.targetDemographic)
  }

  lemma {:induction false} ValuesAtSpec(ks: seq<string>, d: map<string, real>)
    ensures |ValuesAt(ks, d)| == |ks|
    ensures forall i :: 0 <= i < |ks| ==> ValuesAt(ks, d)[i] == Get(d, ks[i])
  {
    if ks != [] {
      ValuesAtSpec(ks[..|ks| - 1], d);
    }
  }

  /** Position `i` of a dict's block holds the value of its `i`-th smallest key. */
  lemma SortedValuesSpec(d: map<string, real>)
    ensures |SortedValues(d)| == |d|
    ensures forall i :: 0 <= i < |d| ==>
      SortedValues(d)[i] == d[Text.SortedKeys(d.Keys)[i]]
  {
    var ks := Text.SortedKeys(d.Keys);
    ValuesAtSpec(ks, d);
    forall i | 0 <= i < |d| ensures SortedValues(d)[i] == d[ks[i]] {
      assert ks[i] in d.Keys;
    }
  }

  /** The vector has one entry per feature-dict entry. */
  lemma FeatureVectorLength(f: Features)
    ensures |FeatureVector(f)| ==
      |f.genres| + |f.themes| + |f.sentiment| + |f.emotionProfile| + |f.targetDemographic|
  {
    SortedValuesLength(f.genres);
    SortedValuesLength(f.themes);
    SortedValuesLength(f.sentiment);
    SortedValuesLength(f.emotionProfile);
    SortedValuesLength(f.targetDemographic);
  }

  lemma SortedValuesLength(d: map<string, real>)
    ensures |SortedValues(d)| == |d|
  {
    ValuesAtSpec(Text.SortedKeys(d.Keys), d);
  }

  /** Default features flatten to the empty vector. */
  lemma EmptyFeatureVector()
    ensures FeatureVector(EmptyFeatures) == []
  {
    FeatureVectorLength(EmptyFeatures);
  }

  /** `for k in sorted(d.keys()): vector.append(d.get(k, 0.0))`. */
  method AppendSortedValues(vector: seq<real>, d: map<string, real>) returns (r: seq<real>)
    ensures r == vector + SortedValues(d)
  {
    var keys := Text.SortedKeys(d.Keys);
    r := vector;
    for i := 0 to |keys|
      invariant r == vector + ValuesAt(keys[..i], d)
    {
      assert keys[..i + 1][..i] == keys[..i];
      r := r + [Get(d, keys[i])];
    }
    assert keys[..|keys|] == keys;
  }

  // ---------------------------------------------------------------------
  // Anime
  // ---------------------------------------------------------------------

  class Anime {
    const id: string
    const title: string
    const alternativeTitles: map<string, string>
    const animeType: AnimeType
    const episodes: Option<int>
    const status: AnimeStatus
    const airedFrom: Option<Date>
    const airedTo: Option<Date>
    const season: Option<AnimeSeason>
    const year: Option<int>
    const synopsis: Option<string>
    const genres: seq<string>
    const themes: seq<string>
    const studios: seq<string>
    const malId: Option<int>
    const anilistId: Option<int>
    const imageUrl: Option<string>
    /** Written by the sentiment analysis step of the engine. */
    var features: Features
    /** Filled in lazily when the engine scores colour preferences. */
    var visualProfile: Option<ColorPreferences.VisualProfile>
    /** Similarity scores, keyed `"<this id>:<other id>"`. */
    var similarityCache: map<string, real>

    /** `Anime(id=..., title=..., ...)`: every field but `id` and `title` has
        the default the model declares. */
    constructor(
      id: string, title: string,
      alternativeTitles: map<string, string> := map[],
      animeType: AnimeType := UnknownType,
      episodes: Option<int> := None,
      status: AnimeStatus := UnknownStatus,
      airedFrom: Option<Date> := None,
      airedTo: Option<Date> := None,
      season: Option<AnimeSeason> := None,
      year: Option<int> := None,
      synopsis: Option<string> := None,
      genres: seq<string> := [],
      themes: seq<string> := [],
      studios: seq<string> := [],
      malId: Option<int> := None,
      anilistId: Option<int> := None,
      features: Features := EmptyFeatures,
      visualProfile: Option<ColorPreferences.VisualProfile> := None,
      imageUrl: Option<string> := None)
      ensures this.id == id && this.title == title && this.alternativeTitles == alternativeTitles
      ensures this.animeType == animeType && this.episodes == episodes && this.status == status
      ensures this.airedFrom == airedFrom && this.airedTo == airedTo
      ensures this.season == season && this.year == year && this.synopsis == synopsis
      ensures this.genres == genres && this.themes == themes && this.studios == studios
      ensures this.malId == malId && this.anilistId == anilistId && this.imageUrl == imageUrl
      ensures this.features == features && this.visualProfile == visualProfile
      ensures this.similarityCache == map[]
    {
      this.id := id;
      this.title := title;
      this.alternativeTitles := alternativeTitles;
      this.animeType := animeType;
      this.episodes := episodes;
      this.status := status;
      this.airedFrom := airedFrom;
      this.airedTo := airedTo;
      this.season := season;
      this.year := year;
      this.synopsis := synopsis;
      this.genres := genres;
      this.themes := themes;
      this.studios := studios;
      this.malId := malId;
      this.anilistId := anilistId;
      this.imageUrl := imageUrl;
      this.features := features;
      this.visualProfile := visualProfile;
      this.similarityCache := map[];
    }

    /** `get_feature_vector()`: the flattened features. It reads the feature
        dicts only, never the `genres`/`themes` lists of the item. */
    method GetFeatureVector() returns (vector: seq<real>)
      ensures vector == FeatureVector(features)
    {
      var f := features;
      vector := AppendSortedValues([], f.genres);
      assert vector == SortedValues(f.genres);
      vector := AppendSortedValues(vector, f.themes);
      vector := AppendSortedValues(vector, f.sentiment);
      vector := AppendSortedValues(vector, f.emotionProfile);
      vector := AppendSortedValues(vector, f.targetDemographic);
    }
  }

  /** A freshly built item has default type, status and features, no visual
      profile, and therefore an empty feature vector, whatever its genres. */
  method NewAnimeDefaults(id: string, title: string, genres: seq<string>) returns (vector: seq<real>)
    ensures vector == []
  {
    var a := new Anime(id, title, genres := genres);
    assert a.animeType == UnknownType && a.status == UnknownStatus && a.visualProfile == None;
    EmptyFeatureVector();
    vector := a.GetFeatureVector();
  }
}
