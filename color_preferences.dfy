/** Colour and visual-style preferences: the palette and style vocabularies,
    an item's visual profile, and the processor that compares two profiles,
    matches a profile against a user's weighted preferences and combines the
    profiles of several screenshots. */
module ColorPreferences {
  import opened Common
  import opened PyDict

  datatype ColorPalette =
    | Vibrant | Pastel | Dark | Monochrome | HighContrast
    | Muted | Neon | Warm | Cool | Earthy

  /** The members of `ColorPalette` in declaration order, the order in which
      Python iterates the enum. */
  const AllPalettes: seq<ColorPalette> :=
    [Vibrant, Pastel, Dark, Monochrome, HighContrast, Muted, Neon, Warm, Cool, Earthy]

  datatype VisualStyle =
    | Realistic | Stylized | Minimalist | Detailed | Sketch
    | Watercolor | Chibi | Retro | Modern | Experimental

  const AllStyles: seq<VisualStyle> :=
    [Realistic, Stylized, Minimalist, Detailed, Sketch, Watercolor, Chibi, Retro, Modern, Experimental]

  lemma AllPalettesComplete(p: ColorPalette)
    ensures p in AllPalettes
  {
    match p
    case Vibrant => case Pastel => case Dark => case Monochrome => case HighContrast =>
    case Muted => case Neon => case Warm => case Cool => case Earthy =>
  }

  lemma AllStylesComplete(s: VisualStyle)
    ensures s in AllStyles
  {
    match s
    case Realistic => case Stylized => case Minimalist => case Detailed => case Sketch =>
    case Watercolor => case Chibi => case Retro => case Modern => case Experimental =>
  }

  /** An RGB colour as the integer triple the source uses. */
  datatype Rgb = Rgb(r: int, g: int, b: int)

  /** `ColorPreference` and `VisualStylePreference`: a user's weight, from
      -1 (dislike) to 1 (like), for one palette or one style. */
  datatype Preference =
    | PalettePreference(palette: ColorPalette, weight: real)
    | StylePreference(style: VisualStyle, weight: real)

  /** `AnimeVisualProfile`: presence of each palette and style, dominant
      colours, and overall brightness, saturation and contrast. */
  datatype VisualProfile = VisualProfile(
    colorPalettes: map<ColorPalette, real>,
    visualStyles: map<VisualStyle, real>,
    dominantColors: seq<Rgb>,
    brightness: real,
    saturation: real,
    contrast: real)

  /** `AnimeVisualProfile()` with every field at its default. */
  const EmptyProfile := VisualProfile(map[], map[], [], 0.0, 0.0, 0.0)

  // ---------------------------------------------------------------------
  // calculate_visual_similarity
  // ---------------------------------------------------------------------

  /** The similarity term of one palette or style: counted only when either
      profile has it with a positive value. */
  predicate Counted<K>(m1: map<K, real>, m2: map<K, real>, k: K) {
    Get(m1, k) > 0.0 || Get(m2, k) > 0.0
  }

  function Term<K>(m1: map<K, real>, m2: map<K, real>, k: K): real {
    if Counted(m1, m2, k) then 1.0 - Abs(Get(m1, k) - Get(m2, k)) else 0.0
  }

  /** Sum of the similarity terms over the members `ks`. */
  function PartSum<K>(ks: seq<K>, m1: map<K, real>, m2: map<K, real>): real {
    if ks == [] then 0.0 else PartSum(ks[..|ks| - 1], m1, m2) + Term(m1, m2, ks[|ks| - 1])
  }

  /** Number of members of `ks` counted. */
  function PartCount<K>(ks: seq<K>, m1: map<K, real>, m2: map<K, real>): nat {
    if ks == [] then 0 else PartCount(ks[..|ks| - 1], m1, m2) + (if Counted(m1, m2, ks[|ks| - 1]) then 1 else 0)
  }

  /** The mean term over the counted members; with none counted the sum is
      left undivided, and it is 0 (`PartZero`). */
  function PartSimilarity<K>(ks: seq<K>, m1: map<K, real>, m2: map<K, real>): real {
    if PartCount(ks, m1, m2) > 0 then PartSum(ks, m1, m2) / PartCount(ks, m1, m2) as real else PartSum(ks, m1, m2)
  }

  function PropertySimilarity(p1: VisualProfile, p2: VisualProfile): real {
    ((1.0 - Abs(p1.brightness - p2.brightness)) +
     (1.0 - Abs(p1.saturation - p2.saturation)) +
     (1.0 - Abs(p1.contrast - p2.contrast))) / 3.0
  }

  /** The similarity of two profiles: 0.4 palette, 0.4 style, 0.2 overall
      properties. */
  function VisualSimilarity(p1: VisualProfile, p2: VisualProfile): real {
    0.4 * PartSimilarity(AllPalettes, p1.colorPalettes, p2.colorPalettes) +
    0.4 * PartSimilarity(AllStyles, p1.visualStyles, p2.visualStyles) +
    0.2 * PropertySimilarity(p1, p2)
  }

  /** One of the two accumulator loops of `calculate_visual_similarity`:
      sum the counted terms over the members `ks`, then take the mean. */
  method ComputePartSimilarity<K>(ks: seq<K>, m1: map<K, real>, m2: map<K, real>) returns (similarity: real)
    ensures similarity == PartSimilarity(ks, m1, m2)
  {
    similarity := 0.0;
    var count := 0;
    for i := 0 to |ks|
      invariant similarity == PartSum(ks[..i], m1, m2)
      invariant count == PartCount(ks[..i], m1, m2)
    {
      assert ks[..i + 1][..i] == ks[..i];
      var value1 := Get(m1, ks[i]);
      var value2 := Get(m2, ks[i]);
      if value1 > 0.0 || value2 > 0.0 {
        similarity := similarity + (1.0 - Abs(value1 - value2));
        count := count + 1;
      }
    }
    assert ks[..|ks|] == ks;
    if count > 0 {
      similarity := similarity / count as real;
    }
  }

  /** `calculate_visual_similarity(profile1, profile2)`. */
  method CalculateVisualSimilarity(p1: VisualProfile, p2: VisualProfile) returns (similarity: real)
    ensures similarity == VisualSimilarity(p1, p2)
  {
    var paletteSimilarity := ComputePartSimilarity(AllPalettes, p1.colorPalettes, p2.colorPalettes);
    var styleSimilarity := ComputePartSimilarity(AllStyles, p1.visualStyles, p2.visualStyles);
    var propertySimilarity := (
      (1.0 - Abs(p1.brightness - p2.brightness)) +
      (1.0 - Abs(p1.saturation - p2.saturation)) +
      (1.0 - Abs(p1.contrast - p2.contrast))) / 3.0;
    similarity := 0.4 * paletteSimilarity + 0.4 * styleSimilarity + 0.2 * propertySimilarity;
  }

  lemma {:induction false} PartSymmetric<K>(ks: seq<K>, m1: map<K, real>, m2: map<K, real>)
    ensures PartSum(ks, m1, m2) == PartSum(ks, m2, m1)
    ensures PartCount(ks, m1, m2) == PartCount(ks, m2, m1)
  {
    if ks != [] {
      PartSymmetric(ks[..|ks| - 1], m1, m2);
    }
  }

  /** With no member counted, the sum is 0. */
  lemma {:induction false} PartZero<K>(ks: seq<K>, m1: map<K, real>, m2: map<K, real>)
    ensures PartCount(ks, m1, m2) == 0 ==> PartSum(ks, m1, m2) == 0.0
  {
    if ks != [] {
      PartZero(ks[..|ks| - 1], m1, m2);
    }
  }

  /** Visual similarity does not depend on the order of its arguments. */
  lemma VisualSimilaritySymmetric(p1: VisualProfile, p2: VisualProfile)
    ensures VisualSimilarity(p1, p2) == VisualSimilarity(p2, p1)
  {
    PartSymmetric(AllPalettes, p1.colorPalettes, p2.colorPalettes);
    PartSymmetric(AllStyles, p1.visualStyles, p2.visualStyles);
  }

  /** Against itself every counted term is 1, and a member is counted exactly
      when the profile gives it a positive value. */
  lemma {:induction false} PartSelf<K>(ks: seq<K>, m: map<K, real>)
    ensures PartSum(ks, m, m) == PartCount(ks, m, m) as real
    ensures PartCount(ks, m, m) > 0 <==> exists k :: k in ks && Get(m, k) > 0.0
  {
    if ks != [] {
      var init := ks[..|ks| - 1];
      PartSelf(init, m);
      assert ks == init + [ks[|ks| - 1]];
      if exists k :: k in ks && Get(m, k) > 0.0 {
        var k :| k in ks && Get(m, k) > 0.0;
        if k != ks[|ks| - 1] {
          assert k in init;
        }
      }
    }
  }

  /** A profile compared with itself scores 1 when it has some positive
      palette and some positive style, and 0.2 when it has neither. */
  lemma SelfSimilarity(p: VisualProfile)
    ensures ((exists c :: c in AllPalettes && Get(p.colorPalettes, c) > 0.0) &&
             (exists s :: s in AllStyles && Get(p.visualStyles, s) > 0.0)) ==> VisualSimilarity(p, p) == 1.0
    ensures ((forall c :: Get(p.colorPalettes, c) <= 0.0) &&
             (forall s :: Get(p.visualStyles, s) <= 0.0)) ==> VisualSimilarity(p, p) == 0.2
  {
    PartSelfSimilarity(AllPalettes, p.colorPalettes);
    PartSelfSimilarity(AllStyles, p.visualStyles);
    assert PropertySimilarity(p, p) == 1.0;
  }

  /** One part compared with itself: 1 when some member is present, 0
      when none is. */
  lemma PartSelfSimilarity<K>(ks: seq<K>, m: map<K, real>)
    ensures (exists k :: k in ks && Get(m, k) > 0.0) ==> PartSimilarity(ks, m, m) == 1.0
    ensures (forall k :: Get(m, k) <= 0.0) ==> PartSimilarity(ks, m, m) == 0.0
  {
    PartSelf(ks, m);
    var n := PartCount(ks, m, m);
    if n > 0 {
      assert n as real / n as real == 1.0;
    }
  }

  lemma {:induction false} PartBounds<K>(ks: seq<K>, m1: map<K, real>, m2: map<K, real>)
    requires forall k :: 0.0 <= Get(m1, k) <= 1.0 && 0.0 <= Get(m2, k) <= 1.0
    ensures 0.0 <= PartSum(ks, m1, m2) <= PartCount(ks, m1, m2) as real
    ensures 0.0 <= PartSimilarity(ks, m1, m2) <= 1.0
  {
    if ks != [] {
      PartBounds(ks[..|ks| - 1], m1, m2);
    }
    var n := PartCount(ks, m1, m2);
    if n > 0 {
      RatioBounds(PartSum(ks, m1, m2), n as real);
    }
  }

  /** With every presence value and overall property in [0,1], the
      similarity is in [0,1]. */
  lemma VisualSimilarityBounds(p1: VisualProfile, p2: VisualProfile)
    requires forall c :: 0.0 <= Get(p1.colorPalettes, c) <= 1.0 && 0.0 <= Get(p2.colorPalettes, c) <= 1.0
    requires forall s :: 0.0 <= Get(p1.visualStyles, s) <= 1.0 && 0.0 <= Get(p2.visualStyles, s) <= 1.0
    requires 0.0 <= p1.brightness <= 1.0 && 0.0 <= p1.saturation <= 1.0 && 0.0 <= p1.contrast <= 1.0
    requires 0.0 <= p2.brightness <= 1.0 && 0.0 <= p2.saturation <= 1.0 && 0.0 <= p2.contrast <= 1.0
    ensures 0.0 <= VisualSimilarity(p1, p2) <= 1.0
  {
    PartBounds(AllPalettes, p1.colorPalettes, p2.colorPalettes);
    PartBounds(AllStyles, p1.visualStyles, p2.visualStyles);
  }

  // ---------------------------------------------------------------------
  // calculate_preference_match
  // ---------------------------------------------------------------------

  /** How well a presence value meets a preference: a negative preference
      asks for absence. */
  function MatchValue(pref: real, presence: real): real {
    if pref < 0.0 then 1.0 - presence else presence
  }

  /** The weighted match of the preference for `k`: |w| · match. */
  function Contribution<K>(prefs: map<K, real>, presence: map<K, real>, k: K): real {
    Abs(Get(prefs, k)) * MatchValue(Get(prefs, k), Get(presence, k))
  }

  /** A zero preference contributes nothing. */
  lemma ContributionOfZero<K>(prefs: map<K, real>, presence: map<K, real>, k: K)
    requires Abs(Get(prefs, k)) == 0.0
    ensures Contribution(prefs, presence, k) == 0.0
  {
  }

  /** `Contribution` at a key the preferences hold. */
  lemma ContributionAt<K>(prefs: map<K, real>, presence: map<K, real>, k: K)
    requires k in prefs
    ensures Contribution(prefs, presence, k) == Abs(prefs[k]) * MatchValue(prefs[k], Get(presence, k))
  {
  }

  lemma ContributionBounds<K>(prefs: map<K, real>, presence: map<K, real>, k: K)
    requires 0.0 <= Get(presence, k) <= 1.0
    ensures 0.0 <= Contribution(prefs, presence, k) <= Abs(Get(prefs, k))
  {
    var w, f := Abs(Get(prefs, k)), MatchValue(Get(prefs, k), Get(presence, k));
    MatchValueBounds(Get(prefs, k), Get(presence, k));
    ScaleBounds(w, f);
    assert Contribution(prefs, presence, k) == w * f;
  }

  lemma MatchValueBounds(pref: real, presence: real)
    requires 0.0 <= presence <= 1.0
    ensures 0.0 <= MatchValue(pref, presence) <= 1.0
  {
  }

  /** Σ |w| over the preferences listed in `ks`. */
  function WeightSum<K>(ks: seq<K>, prefs: map<K, real>): real {
    if ks == [] then 0.0 else WeightSum(ks[..|ks| - 1], prefs) + Abs(Get(prefs, ks[|ks| - 1]))
  }

  /** Σ |w| · match over the preferences listed in `ks`. */
  function WeightedMatch<K>(ks: seq<K>, prefs: map<K, real>, presence: map<K, real>): real {
    if ks == [] then 0.0
    else
      var k := ks[|ks| - 1];
      WeightedMatch(ks[..|ks| - 1], prefs, presence) + Contribution(prefs, presence, k)
  }

  /** One side's score: the |w|-weighted mean match. */
  function SideMatch<K>(ks: seq<K>, prefs: map<K, real>, presence: map<K, real>): real {
    if WeightSum(ks, prefs) > 0.0 then WeightedMatch(ks, prefs, presence) / WeightSum(ks, prefs)
    else WeightedMatch(ks, prefs, presence)
  }

  /** The match of a profile against palette and style preferences: both
      sides 0.6/0.4, one side alone, or the neutral 0.5. */
  function PreferenceMatch(profile: VisualProfile, colorPrefs: Dict<ColorPalette, real>,
                           stylePrefs: Dict<VisualStyle, real>): real
  {
    var pw := WeightSum(colorPrefs.keys, colorPrefs.entries);
    var sw := WeightSum(stylePrefs.keys, stylePrefs.entries);
    var pm := SideMatch(colorPrefs.keys, colorPrefs.entries, profile.colorPalettes);
    var sm := SideMatch(stylePrefs.keys, stylePrefs.entries, profile.visualStyles);
    if pw > 0.0 && sw > 0.0 then 0.6 * pm + 0.4 * sm
    else if pw > 0.0 then pm
    else if sw > 0.0 then sm
    else 0.5
  }

  /** How both running sums of `ComputeSideMatch` grow by one key. */
  lemma SideStep<K>(ks: seq<K>, i: nat, prefs: map<K, real>, presence: map<K, real>)
    requires i < |ks|
    ensures WeightSum(ks[..i + 1], prefs) == WeightSum(ks[..i], prefs) + Abs(Get(prefs, ks[i]))
    ensures WeightedMatch(ks[..i + 1], prefs, presence) ==
            WeightedMatch(ks[..i], prefs, presence) + Contribution(prefs, presence, ks[i])
  {
    assert ks[..i + 1][..i] == ks[..i];
  }

  /** One of the two accumulator loops of `calculate_preference_match`:
      the |w|-weighted mean match over the preferences in iteration order,
      and the weight sum. */
  method ComputeSideMatch<K>(ks: seq<K>, prefs: map<K, real>, presence: map<K, real>)
    returns (matchScore: real, weightSum: real)
    requires forall k :: k in ks ==> k in prefs
    ensures weightSum == WeightSum(ks, prefs)
    ensures matchScore == SideMatch(ks, prefs, presence)
  {
    matchScore := 0.0;
    weightSum := 0.0;
    for i := 0 to |ks|
      invariant weightSum == WeightSum(ks[..i], prefs)
      invariant matchScore == WeightedMatch(ks[..i], prefs, presence)
    {
      SideStep(ks, i, prefs, presence);
      var prefValue := prefs[ks[i]];
      var weight := Abs(prefValue);
      weightSum := weightSum + weight;
      var profileValue := Get(presence, ks[i]);
      var matchValue := MatchValue(prefValue, profileValue);
      ContributionAt(prefs, presence, ks[i]);
      matchScore := matchScore + weight * matchValue;
    }
    assert ks[..|ks|] == ks;
    if weightSum > 0.0 {
      matchScore := matchScore / weightSum;
    }
  }

  /** `calculate_preference_match(profile, color_preferences, style_preferences)`. */
  method CalculatePreferenceMatch(profile: VisualProfile, colorPrefs: Dict<ColorPalette, real>,
                                  stylePrefs: Dict<VisualStyle, real>) returns (score: real)
    requires colorPrefs.Valid() && stylePrefs.Valid()
    ensures score == PreferenceMatch(profile, colorPrefs, stylePrefs)
  {
    var paletteMatch, paletteWeightSum := ComputeSideMatch(colorPrefs.keys, colorPrefs.entries, profile.colorPalettes);
    var styleMatch, styleWeightSum := ComputeSideMatch(stylePrefs.keys, stylePrefs.entries, profile.visualStyles);
    if paletteWeightSum > 0.0 && styleWeightSum > 0.0 {
      score := 0.6 * paletteMatch + 0.4 * styleMatch;
    } else if paletteWeightSum > 0.0 {
      score := paletteMatch;
    } else if styleWeightSum > 0.0 {
      score := styleMatch;
    } else {
      score := 0.5;
    }
  }

  /** A side takes part exactly when it has a non-zero preference, and
      otherwise contributes nothing. */
  lemma {:induction false} WeightSumPositive<K>(ks: seq<K>, prefs: map<K, real>, presence: map<K, real>)
    ensures WeightSum(ks, prefs) >= 0.0
    ensures WeightSum(ks, prefs) > 0.0 <==> exists k :: k in ks && Get(prefs, k) != 0.0
    ensures WeightSum(ks, prefs) == 0.0 ==> WeightedMatch(ks, prefs, presence) == 0.0
  {
    WeightSumNonNegative(ks, prefs);
    WeightSumPositiveIff(ks, prefs);
    if WeightSum(ks, prefs) == 0.0 {
      WeightSumZeroMatch(ks, prefs, presence);
    }
  }

  lemma {:induction false} WeightSumNonNegative<K>(ks: seq<K>, prefs: map<K, real>)
    ensures WeightSum(ks, prefs) >= 0.0
  {
    if ks != [] {
      WeightSumNonNegative(ks[..|ks| - 1], prefs);
    }
  }

  lemma {:induction false} WeightSumPositiveIff<K>(ks: seq<K>, prefs: map<K, real>)
    ensures WeightSum(ks, prefs) > 0.0 <==> exists k :: k in ks && Get(prefs, k) != 0.0
  {
    if ks != [] {
      var init, last := ks[..|ks| - 1], ks[|ks| - 1];
      WeightSumPositiveIff(init, prefs);
      WeightSumNonNegative(init, prefs);
      if Get(prefs, last) != 0.0 {
        assert last in ks;
      } else {
        assert WeightSum(ks, prefs) == WeightSum(init, prefs);
        if exists k :: k in ks && Get(prefs, k) != 0.0 {
          var k :| k in ks && Get(prefs, k) != 0.0;
          var j :| 0 <= j < |ks| && ks[j] == k;
          assert j < |init| && init[j] == k;
        }
        if exists k :: k in init && Get(prefs, k) != 0.0 {
          var k :| k in init && Get(prefs, k) != 0.0;
          var j :| 0 <= j < |init| && init[j] == k;
          assert ks[j] == k;
        }
      }
    }
  }

  lemma {:induction false} WeightSumZeroMatch<K>(ks: seq<K>, prefs: map<K, real>, presence: map<K, real>)
    requires WeightSum(ks, prefs) == 0.0
    ensures WeightedMatch(ks, prefs, presence) == 0.0
  {
    if ks != [] {
      var init, last := ks[..|ks| - 1], ks[|ks| - 1];
      WeightSumNonNegative(init, prefs);
      assert WeightSum(init, prefs) == 0.0;
      WeightSumZeroMatch(init, prefs, presence);
      ContributionOfZero(prefs, presence, last);
    }
  }

  lemma {:induction false} WeightedMatchBounds<K>(ks: seq<K>, prefs: map<K, real>, presence: map<K, real>)
    requires forall k :: 0.0 <= Get(presence, k) <= 1.0
    ensures 0.0 <= WeightedMatch(ks, prefs, presence) <= WeightSum(ks, prefs)
  {
    if ks != [] {
      var k := ks[|ks| - 1];
      var init := ks[..|ks| - 1];
      WeightedMatchBounds(init, prefs, presence);
      var w := Abs(Get(prefs, k));
      ContributionBounds(prefs, presence, k);
      assert WeightedMatch(ks, prefs, presence) == WeightedMatch(init, prefs, presence) + Contribution(prefs, presence, k);
      assert WeightSum(ks, prefs) == WeightSum(init, prefs) + w;
    }
  }

  lemma SideMatchBounds<K>(ks: seq<K>, prefs: map<K, real>, presence: map<K, real>)
    requires forall k :: 0.0 <= Get(presence, k) <= 1.0
    ensures 0.0 <= SideMatch(ks, prefs, presence) <= 1.0
  {
    WeightedMatchBounds(ks, prefs, presence);
    WeightSumPositive(ks, prefs, presence);
    var ws := WeightSum(ks, prefs);
    if ws > 0.0 {
      RatioBounds(WeightedMatch(ks, prefs, presence), ws);
    }
  }

  /** Precedence and range: palette and style together weigh 0.6/0.4, a side
      without any non-zero preference drops out, no preference at all gives
      0.5, and with presence values in [0,1] the match is in [0,1]. */
  lemma PreferenceMatchProperties(profile: VisualProfile, colorPrefs: Dict<ColorPalette, real>,
                                  stylePrefs: Dict<VisualStyle, real>)
    ensures var hasPalette := exists c :: c in colorPrefs.keys && Get(colorPrefs.entries, c) != 0.0;
      var hasStyle := exists s :: s in stylePrefs.keys && Get(stylePrefs.entries, s) != 0.0;
      var pm := SideMatch(colorPrefs.keys, colorPrefs.entries, profile.colorPalettes);
      var sm := SideMatch(stylePrefs.keys, stylePrefs.entries, profile.visualStyles);
      && (hasPalette && hasStyle ==> PreferenceMatch(profile, colorPrefs, stylePrefs) == 0.6 * pm + 0.4 * sm)
      && (hasPalette && !hasStyle ==> PreferenceMatch(profile, colorPrefs, stylePrefs) == pm)
      && (!hasPalette && hasStyle ==> PreferenceMatch(profile, colorPrefs, stylePrefs) == sm)
      && (!hasPalette && !hasStyle ==> PreferenceMatch(profile, colorPrefs, stylePrefs) == 0.5)
    ensures (forall c :: 0.0 <= Get(profile.colorPalettes, c) <= 1.0) &&
            (forall s :: 0.0 <= Get(profile.visualStyles, s) <= 1.0) ==>
            0.0 <= PreferenceMatch(profile, colorPrefs, stylePrefs) <= 1.0
  {
    WeightSumPositive(colorPrefs.keys, colorPrefs.entries, profile.colorPalettes);
    WeightSumPositive(stylePrefs.keys, stylePrefs.entries, profile.visualStyles);
    if (forall c :: 0.0 <= Get(profile.colorPalettes, c) <= 1.0) &&
       (forall s :: 0.0 <= Get(profile.visualStyles, s) <= 1.0) {
      SideMatchBounds(colorPrefs.keys, colorPrefs.entries, profile.colorPalettes);
      SideMatchBounds(stylePrefs.keys, stylePrefs.entries, profile.visualStyles);
    }
  }

  /** A single non-zero palette preference and no style preference score the
      presence of that palette, or its absence for a negative weight; so a
      weight of -1.0 against a presence of 1.0 scores 0. */
  lemma SinglePalettePreference(profile: VisualProfile, c: ColorPalette, w: real, stylePrefs: Dict<VisualStyle, real>)
    requires w != 0.0
    requires forall s :: s in stylePrefs.keys ==> Get(stylePrefs.entries, s) == 0.0
    ensures PreferenceMatch(profile, Dict([c], map[c := w]), stylePrefs) ==
            MatchValue(w, Get(profile.colorPalettes, c))
    ensures w == -1.0 && Get(profile.colorPalettes, c) == 1.0 ==>
            PreferenceMatch(profile, Dict([c], map[c := w]), stylePrefs) == 0.0
  {
    WeightSumPositive(stylePrefs.keys, stylePrefs.entries, profile.visualStyles);
    var ks := [c];
    assert ks[..0] == [];
    var a := Abs(w);
    var mv := MatchValue(w, Get(profile.colorPalettes, c));
    assert WeightSum(ks, map[c := w]) == a;
    assert WeightedMatch(ks, map[c := w], profile.colorPalettes) == a * mv;
    MulDivCancel(a, mv);
  }

  // ---------------------------------------------------------------------
  // analyze_image and extract_palette_from_screenshots
  // ---------------------------------------------------------------------

  /** `analyze_image(image_data)`: a placeholder that returns the empty
      profile whatever the image. */
  function AnalyzeImage(imageData: seq<bv8>): VisualProfile {
    EmptyProfile
  }

  /** Raised by `extract_palette_from_screenshots([])`, which divides by the
      number of profiles. */
  datatype ZeroDivisionError = ZeroDivisionError

  lemma EnumsDistinct()
    ensures Distinct(AllPalettes) && Distinct(AllStyles)
  {
  }

  /** Adds the values `m` holds for the members `ks` into the running sums
      (`sums[k] = sums.get(k, 0.0) + value`). */
  function AddProfile<K>(sums: map<K, real>, m: map<K, real>, ks: seq<K>): map<K, real> {
    if ks == [] then sums
    else
      var k := ks[|ks| - 1];
      var s := AddProfile(sums, m, ks[..|ks| - 1]);
      if k in m then s[k := Get(s, k) + m[k]] else s
  }

  /** The per-key sums over the first profiles. */
  function SumMaps<K>(profiles: seq<VisualProfile>, sel: VisualProfile -> map<K, real>, ks: seq<K>): map<K, real> {
    if profiles == [] then map[]
    else AddProfile(SumMaps(profiles[..|profiles| - 1], sel, ks), sel(profiles[|profiles| - 1]), ks)
  }

  /** Each sum divided by the number of profiles. */
  function DivideAll<K>(sums: map<K, real>, n: real, ks: seq<K>): map<K, real>
    requires n > 0.0
  {
    if ks == [] then map[]
    else
      var k := ks[|ks| - 1];
      var d := DivideAll(sums, n, ks[..|ks| - 1]);
      if k in sums then d[k := sums[k] / n] else d
  }

  /** Σ over the profiles of the value of `k`, an absent key counting as 0. */
  function SumAt<K>(profiles: seq<VisualProfile>, sel: VisualProfile -> map<K, real>, k: K): real {
    if profiles == [] then 0.0 else SumAt(profiles[..|profiles| - 1], sel, k) + Get(sel(profiles[|profiles| - 1]), k)
  }

  function SumBrightness(ps: seq<VisualProfile>): real {
    if ps == [] then 0.0 else SumBrightness(ps[..|ps| - 1]) + ps[|ps| - 1].brightness
  }

  function SumSaturation(ps: seq<VisualProfile>): real {
    if ps == [] then 0.0 else SumSaturation(ps[..|ps| - 1]) + ps[|ps| - 1].saturation
  }

  function SumContrast(ps: seq<VisualProfile>): real {
    if ps == [] then 0.0 else SumContrast(ps[..|ps| - 1]) + ps[|ps| - 1].contrast
  }

  /** All dominant colours of the profiles, in order. */
  function AllColors(ps: seq<VisualProfile>): seq<Rgb> {
    if ps == [] then [] else AllColors(ps[..|ps| - 1]) + ps[|ps| - 1].dominantColors
  }

  function PalettesOf(p: VisualProfile): map<ColorPalette, real> { p.colorPalettes }
  function StylesOf(p: VisualProfile): map<VisualStyle, real> { p.visualStyles }

  /** The profile `extract_palette_from_screenshots` builds from the
      profiles of its screenshots, or the division by zero of an empty list. */
  function Combined(ps: seq<VisualProfile>): Result<VisualProfile, ZeroDivisionError> {
    if ps == [] then Err(ZeroDivisionError)
    else
      var n := |ps| as real;
      var colors := AllColors(ps);
      Ok(VisualProfile(
        DivideAll(SumMaps(ps, PalettesOf, AllPalettes), n, AllPalettes),
        DivideAll(SumMaps(ps, StylesOf, AllStyles), n, AllStyles),
        if |colors| <= 5 then colors else colors[..5],
        SumBrightness(ps) / n, SumSaturation(ps) / n, SumContrast(ps) / n))
  }

  /** The two loops of one dict in `extract_palette_from_screenshots`: sum
      per key over the profiles, then divide by their number. Keys are
      visited in the enum's order. */
  method AverageMaps<K>(ps: seq<VisualProfile>, sel: VisualProfile -> map<K, real>, ks: seq<K>)
    returns (averaged: map<K, real>)
    requires |ps| > 0
    ensures averaged == DivideAll(SumMaps(ps, sel, ks), |ps| as real, ks)
  {
    var sums: map<K, real> := map[];
    for i := 0 to |ps|
      invariant sums == SumMaps(ps[..i], sel, ks)
    {
      assert ps[..i + 1][..i] == ps[..i];
      var m := sel(ps[i]);
      var before := sums;
      for j := 0 to |ks|
        invariant sums == AddProfile(before, m, ks[..j])
      {
        assert ks[..j + 1][..j] == ks[..j];
        if ks[j] in m {
          sums := sums[ks[j] := Get(sums, ks[j]) + m[ks[j]]];
        }
      }
      assert ks[..|ks|] == ks;
    }
    assert ps[..|ps|] == ps;
    averaged := map[];
    for j := 0 to |ks|
      invariant averaged == DivideAll(sums, |ps| as real, ks[..j])
    {
      assert ks[..j + 1][..j] == ks[..j];
      if ks[j] in sums {
        averaged := averaged[ks[j] := sums[ks[j]] / |ps| as real];
      }
    }
    assert ks[..|ks|] == ks;
  }

  /** The combining part of `extract_palette_from_screenshots`. */
  method CombineProfiles(ps: seq<VisualProfile>) returns (r: Result<VisualProfile, ZeroDivisionError>)
    ensures r == Combined(ps)
  {
    if |ps| == 0 {
      return Err(ZeroDivisionError);
    }
    var palettes := AverageMaps(ps, PalettesOf, AllPalettes);
    var styles := AverageMaps(ps, StylesOf, AllStyles);
    var brightness, saturation, contrast := 0.0, 0.0, 0.0;
    var colors: seq<Rgb> := [];
    for i := 0 to |ps|
      invariant brightness == SumBrightness(ps[..i])
      invariant saturation == SumSaturation(ps[..i])
      invariant contrast == SumContrast(ps[..i])
      invariant colors == AllColors(ps[..i])
    {
      assert ps[..i + 1][..i] == ps[..i];
      brightness := brightness + ps[i].brightness;
      saturation := saturation + ps[i].saturation;
      contrast := contrast + ps[i].contrast;
      colors := colors + ps[i].dominantColors;
    }
    assert ps[..|ps|] == ps;
    if |colors| > 0 {
      colors := colors[..if |colors| <= 5 then |colors| else 5];
    }
    assert colors == if |AllColors(ps)| <= 5 then AllColors(ps) else AllColors(ps)[..5];
    var n := |ps| as real;
    r := Ok(VisualProfile(palettes, styles, colors, brightness / n, saturation / n, contrast / n));
  }

  /** `extract_palette_from_screenshots(screenshots)`. */
  method ExtractPaletteFromScreenshots(screenshots: seq<seq<bv8>>) returns (r: Result<VisualProfile, ZeroDivisionError>)
    ensures screenshots == [] ==> r == Err(ZeroDivisionError)
    ensures screenshots != [] ==> r == Ok(EmptyProfile)
  {
    var profiles := seq(|screenshots|, i requires 0 <= i < |screenshots| => AnalyzeImage(screenshots[i]));
    r := CombineProfiles(profiles);
    if screenshots != [] {
      CombineUniform(profiles, EmptyProfile);
      assert r.value.colorPalettes == map[] && r.value.visualStyles == map[];
    }
  }

  lemma {:induction false} AddProfileSpec<K>(sums: map<K, real>, m: map<K, real>, ks: seq<K>, k: K)
    requires Distinct(ks)
    ensures k in AddProfile(sums, m, ks) <==> k in sums || (k in ks && k in m)
    ensures Get(AddProfile(sums, m, ks), k) == Get(sums, k) + (if k in ks && k in m then m[k] else 0.0)
  {
    if ks != [] {
      var init := ks[..|ks| - 1];
      DistinctInit(ks);
      AddProfileSpec(sums, m, init, k);
      assert ks == init + [ks[|ks| - 1]];
    }
  }

  lemma {:induction false} SumMapsSpec<K>(ps: seq<VisualProfile>, sel: VisualProfile -> map<K, real>, ks: seq<K>, k: K)
    requires Distinct(ks) && k in ks
    ensures k in SumMaps(ps, sel, ks) <==> exists i :: 0 <= i < |ps| && k in sel(ps[i])
    ensures Get(SumMaps(ps, sel, ks), k) == SumAt(ps, sel, k)
  {
    if ps != [] {
      var init := ps[..|ps| - 1];
      SumMapsSpec(init, sel, ks, k);
      AddProfileSpec(SumMaps(init, sel, ks), sel(ps[|ps| - 1]), ks, k);
      if exists i :: 0 <= i < |ps| && k in sel(ps[i]) {
        var i :| 0 <= i < |ps| && k in sel(ps[i]);
        if i < |ps| - 1 {
          assert init[i] == ps[i];
        }
      }
      if exists i :: 0 <= i < |init| && k in sel(init[i]) {
        var i :| 0 <= i < |init| && k in sel(init[i]);
        assert ps[i] == init[i];
      }
    }
  }

  lemma {:induction false} DivideAllSpec<K>(sums: map<K, real>, n: real, ks: seq<K>, k: K)
    requires n > 0.0
    ensures k in DivideAll(sums, n, ks) <==> k in sums && k in ks
    ensures k in DivideAll(sums, n, ks) ==> DivideAll(sums, n, ks)[k] == sums[k] / n
  {
    if ks != [] {
      DivideAllSpec(sums, n, ks[..|ks| - 1], k);
      assert ks == ks[..|ks| - 1] + [ks[|ks| - 1]];
    }
  }

  /** Combining averages every palette over all the profiles, an absent
      palette counting as 0; a palette appears in the result exactly when
      some profile has it. The same holds for styles. */
  lemma CombinedPalettes(ps: seq<VisualProfile>, c: ColorPalette, s: VisualStyle)
    requires ps != []
    ensures c in Combined(ps).value.colorPalettes <==> exists i :: 0 <= i < |ps| && c in ps[i].colorPalettes
    ensures c in Combined(ps).value.colorPalettes ==>
            Combined(ps).value.colorPalettes[c] == SumAt(ps, PalettesOf, c) / |ps| as real
    ensures s in Combined(ps).value.visualStyles <==> exists i :: 0 <= i < |ps| && s in ps[i].visualStyles
    ensures s in Combined(ps).value.visualStyles ==>
            Combined(ps).value.visualStyles[s] == SumAt(ps, StylesOf, s) / |ps| as real
  {
    EnumsDistinct();
    AllPalettesComplete(c);
    AllStylesComplete(s);
    var n := |ps| as real;
    SumMapsSpec(ps, PalettesOf, AllPalettes, c);
    DivideAllSpec(SumMaps(ps, PalettesOf, AllPalettes), n, AllPalettes, c);
    SumMapsSpec(ps, StylesOf, AllStyles, s);
    DivideAllSpec(SumMaps(ps, StylesOf, AllStyles), n, AllStyles, s);
  }

  lemma {:induction false} SumAtBounds<K>(ps: seq<VisualProfile>, sel: VisualProfile -> map<K, real>, k: K)
    requires forall i :: 0 <= i < |ps| ==> 0.0 <= Get(sel(ps[i]), k) <= 1.0
    ensures 0.0 <= SumAt(ps, sel, k) <= |ps| as real
  {
    if ps != [] {
      SumAtBounds(ps[..|ps| - 1], sel, k);
    }
  }

  /** Averages of presence values in [0,1] stay in [0,1], and the combined
      profile keeps at most five dominant colours, the first five in order. */
  lemma CombinedBounds(ps: seq<VisualProfile>, c: ColorPalette)
    requires ps != []
    requires forall i :: 0 <= i < |ps| ==> 0.0 <= Get(ps[i].colorPalettes, c) <= 1.0
    ensures 0.0 <= Get(Combined(ps).value.colorPalettes, c) <= 1.0
    ensures |Combined(ps).value.dominantColors| <= 5
    ensures Combined(ps).value.dominantColors <= AllColors(ps)
  {
    CombinedPalettes(ps, c, Realistic);
    if c in Combined(ps).value.colorPalettes {
      SumAtBounds(ps, PalettesOf, c);
      RatioBounds(SumAt(ps, PalettesOf, c), |ps| as real);
    }
  }

  lemma MulSucc(m: nat, v: real)
    ensures m as real * v + v == (m + 1) as real * v
  {
  }

  lemma {:induction false} SumAtUniform<K>(ps: seq<VisualProfile>, sel: VisualProfile -> map<K, real>, p: VisualProfile, k: K)
    requires forall i :: 0 <= i < |ps| ==> ps[i] == p
    ensures SumAt(ps, sel, k) == |ps| as real * Get(sel(p), k)
  {
    if ps != [] {
      SumAtUniform(ps[..|ps| - 1], sel, p, k);
      MulSucc(|ps| - 1, Get(sel(p), k));
    }
  }

  lemma {:induction false} SumBrightnessUniform(ps: seq<VisualProfile>, p: VisualProfile)
    requires forall i :: 0 <= i < |ps| ==> ps[i] == p
    ensures SumBrightness(ps) == |ps| as real * p.brightness
  {
    if ps != [] {
      var init := ps[..|ps| - 1];
      SumBrightnessUniform(init, p);
      MulSucc(|init|, p.brightness);
    }
  }

  lemma {:induction false} SumSaturationUniform(ps: seq<VisualProfile>, p: VisualProfile)
    requires forall i :: 0 <= i < |ps| ==> ps[i] == p
    ensures SumSaturation(ps) == |ps| as real * p.saturation
  {
    if ps != [] {
      var init := ps[..|ps| - 1];
      SumSaturationUniform(init, p);
      MulSucc(|init|, p.saturation);
    }
  }

  lemma {:induction false} SumContrastUniform(ps: seq<VisualProfile>, p: VisualProfile)
    requires forall i :: 0 <= i < |ps| ==> ps[i] == p
    ensures SumContrast(ps) == |ps| as real * p.contrast
  {
    if ps != [] {
      var init := ps[..|ps| - 1];
      SumContrastUniform(init, p);
      MulSucc(|init|, p.contrast);
    }
  }

  lemma {:induction false} AllColorsUniform(ps: seq<VisualProfile>, p: VisualProfile)
    requires forall i :: 0 <= i < |ps| ==> ps[i] == p
    requires p.dominantColors == []
    ensures AllColors(ps) == []
  {
    if ps != [] {
      AllColorsUniform(ps[..|ps| - 1], p);
    }
  }

  lemma AverageUniform<K(!new)>(ps: seq<VisualProfile>, sel: VisualProfile -> map<K, real>, ks: seq<K>, p: VisualProfile)
    requires ps != [] && forall i :: 0 <= i < |ps| ==> ps[i] == p
    requires Distinct(ks) && forall k :: k in sel(p) ==> k in ks
    ensures DivideAll(SumMaps(ps, sel, ks), |ps| as real, ks) == sel(p)
  {
    var r := DivideAll(SumMaps(ps, sel, ks), |ps| as real, ks);
    forall k ensures (k in r <==> k in sel(p)) && (k in sel(p) ==> r[k] == sel(p)[k]) {
      DivideAllSpec(SumMaps(ps, sel, ks), |ps| as real, ks, k);
      if k in ks {
        AverageUniformAt(ps, sel, ks, p, k);
      }
    }
    assert r.Keys == sel(p).Keys;
  }

  /** `AverageUniform` at one key. */
  lemma AverageUniformAt<K>(ps: seq<VisualProfile>, sel: VisualProfile -> map<K, real>, ks: seq<K>, p: VisualProfile, k: K)
    requires ps != [] && forall i :: 0 <= i < |ps| ==> ps[i] == p
    requires Distinct(ks) && k in ks
    ensures k in DivideAll(SumMaps(ps, sel, ks), |ps| as real, ks) <==> k in sel(p)
    ensures k in sel(p) ==> DivideAll(SumMaps(ps, sel, ks), |ps| as real, ks)[k] == sel(p)[k]
  {
    var n := |ps| as real;
    var sums := SumMaps(ps, sel, ks);
    DivideAllSpec(sums, n, ks, k);
    SumMapsSpec(ps, sel, ks, k);
    SumAtUniform(ps, sel, p, k);
    if k in sel(p) {
      assert k in sel(ps[0]);
      var x := sel(p)[k];
      assert Get(sel(p), k) == x;
      assert k in sums && sums[k] == Get(sums, k) == n * x;
      UniformMean(sums[k], n, x);
    }
  }

  lemma UniformMean(sum: real, n: real, v: real)
    requires n > 0.0 && sum == n * v
    ensures sum / n == v
  {
    MulDivCancel(n, v);
  }

  lemma CombineUniformPalettes(ps: seq<VisualProfile>, p: VisualProfile)
    requires ps != [] && forall i :: 0 <= i < |ps| ==> ps[i] == p
    ensures DivideAll(SumMaps(ps, PalettesOf, AllPalettes), |ps| as real, AllPalettes) == p.colorPalettes
  {
    EnumsDistinct();
    forall c | c in PalettesOf(p) ensures c in AllPalettes {
      AllPalettesComplete(c);
    }
    AverageUniform(ps, PalettesOf, AllPalettes, p);
  }

  lemma CombineUniformStyles(ps: seq<VisualProfile>, p: VisualProfile)
    requires ps != [] && forall i :: 0 <= i < |ps| ==> ps[i] == p
    ensures DivideAll(SumMaps(ps, StylesOf, AllStyles), |ps| as real, AllStyles) == p.visualStyles
  {
    EnumsDistinct();
    forall s | s in StylesOf(p) ensures s in AllStyles {
      AllStylesComplete(s);
    }
    AverageUniform(ps, StylesOf, AllStyles, p);
  }

  /** Combining copies of one profile gives back its palettes, styles and
      overall properties. */
  lemma CombineUniform(ps: seq<VisualProfile>, p: VisualProfile)
    requires ps != [] && forall i :: 0 <= i < |ps| ==> ps[i] == p
    ensures Combined(ps).value.colorPalettes == p.colorPalettes
    ensures Combined(ps).value.visualStyles == p.visualStyles
    ensures Combined(ps).value.brightness == p.brightness
    ensures Combined(ps).value.saturation == p.saturation
    ensures Combined(ps).value.contrast == p.contrast
    ensures p.dominantColors == [] ==> Combined(ps).value.dominantColors == []
  {
    var n := |ps| as real;
    SumBrightnessUniform(ps, p);
    SumSaturationUniform(ps, p);
    SumContrastUniform(ps, p);
    if p.dominantColors == [] {
      AllColorsUniform(ps, p);
    }
    UniformMean(SumBrightness(ps), n, p.brightness);
    UniformMean(SumSaturation(ps), n, p.saturation);
    UniformMean(SumContrast(ps), n, p.contrast);
    CombineUniformPalettes(ps, p);
    CombineUniformStyles(ps, p);
  }
}
