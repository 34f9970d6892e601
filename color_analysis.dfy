/** Colour analysis of thumbnails: the brightness and saturation of an RGB
    colour, the palette classifier over a list of dominant colours, and the
    terminal escape sequences that paint a colour. Downloading the image and
    extracting its dominant colours are outside the model. */
module ColorAnalysis {
  import opened Common
  import opened ColorPreferences
  import Text

  predicate InRange(c: Rgb) {
    0 <= c.r <= 255 && 0 <= c.g <= 255 && 0 <= c.b <= 255
  }

  /** `get_color_brightness(color)`: the BT.601 luma weights over 255. */
  function Brightness(c: Rgb): (v: real)
    ensures InRange(c) ==> 0.0 <= v <= 1.0
    ensures c.r == c.g == c.b ==> v == c.r as real / 255.0
  {
    (0.299 * c.r as real + 0.587 * c.g as real + 0.114 * c.b as real) / 255.0
  }

  function MaxChannel(c: Rgb): (m: int)
    ensures m >= c.r && m >= c.g && m >= c.b && (m == c.r || m == c.g || m == c.b)
  {
    if c.r >= c.g && c.r >= c.b then c.r else if c.g >= c.b then c.g else c.b
  }

  function MinChannel(c: Rgb): (m: int)
    ensures m <= c.r && m <= c.g && m <= c.b && (m == c.r || m == c.g || m == c.b)
  {
    if c.r <= c.g && c.r <= c.b then c.r else if c.g <= c.b then c.g else c.b
  }

  /** `get_color_saturation(color)`: 0 for black, otherwise the spread of
      the channels relative to the largest. */
  function Saturation(c: Rgb): (v: real)
    ensures MaxChannel(c) == 0 ==> v == 0.0
    ensures c.r >= 0 && c.g >= 0 && c.b >= 0 ==> 0.0 <= v <= 1.0
    ensures c.r == c.g == c.b ==> v == 0.0
  {
    var maximum := MaxChannel(c);
    var minimum := MinChannel(c);
    if maximum == 0 then 0.0
    else
      var v := (maximum - minimum) as real / maximum as real;
      if maximum > 0 && minimum >= 0 then
        RatioBounds((maximum - minimum) as real, maximum as real);
        v
      else v
  }

  // ---------------------------------------------------------------------
  // Statistics over the colour list
  // ---------------------------------------------------------------------

  function SumBrightness(cs: seq<Rgb>): real {
    if cs == [] then 0.0 else SumBrightness(cs[..|cs| - 1]) + Brightness(cs[|cs| - 1])
  }

  function SumSaturation(cs: seq<Rgb>): real {
    if cs == [] then 0.0 else SumSaturation(cs[..|cs| - 1]) + Saturation(cs[|cs| - 1])
  }

  function MaxBrightness(cs: seq<Rgb>): (m: real)
    requires cs != []
    ensures forall i :: 0 <= i < |cs| ==> Brightness(cs[i]) <= m
    ensures exists i :: 0 <= i < |cs| && Brightness(cs[i]) == m
  {
    if |cs| == 1 then Brightness(cs[0])
    else
      var m := MaxBrightness(cs[..|cs| - 1]);
      assert forall i :: 0 <= i < |cs| - 1 ==> cs[..|cs| - 1][i] == cs[i];
      Max(m, Brightness(cs[|cs| - 1]))
  }

  function MinBrightness(cs: seq<Rgb>): (m: real)
    requires cs != []
    ensures forall i :: 0 <= i < |cs| ==> m <= Brightness(cs[i])
    ensures exists i :: 0 <= i < |cs| && Brightness(cs[i]) == m
  {
    if |cs| == 1 then Brightness(cs[0])
    else
      var m := MinBrightness(cs[..|cs| - 1]);
      assert forall i :: 0 <= i < |cs| - 1 ==> cs[..|cs| - 1][i] == cs[i];
      Min(m, Brightness(cs[|cs| - 1]))
  }

  function AbsInt(x: int): nat {
    if x < 0 then -x else x
  }

  /** `abs(r - g) + abs(g - b) + abs(b - r)`. */
  function Spread(c: Rgb): nat {
    AbsInt(c.r - c.g) + AbsInt(c.g - c.b) + AbsInt(c.b - c.r)
  }

  function SumSpread(cs: seq<Rgb>): nat {
    if cs == [] then 0 else SumSpread(cs[..|cs| - 1]) + Spread(cs[|cs| - 1])
  }

  predicate IsNeon(c: Rgb, avgSaturation: real) {
    MaxChannel(c) > 200 && avgSaturation > 0.8
  }

  predicate IsWarm(c: Rgb) {
    c.r > (if c.g >= c.b then c.g else c.b) + 50 || (c.r > 150 && c.g > 150 && c.b < 100)
  }

  predicate IsCool(c: Rgb) {
    c.b > (if c.r >= c.g then c.r else c.g) + 50 || c.g > (if c.r >= c.b then c.r else c.b) + 50
  }

  predicate IsEarthy(c: Rgb, avgSaturation: real) {
    c.r > c.b + 20 && c.g > c.b + 20 && avgSaturation < 0.6
  }

  /** The per-colour tests of the neon, warm, cool and earthy loops; the
      neon and earthy tests also read the average saturation. */
  datatype Test = NeonTest(avgSaturation: real) | WarmTest | CoolTest | EarthyTest(avgSaturation: real)

  predicate Passes(t: Test, c: Rgb) {
    match t
    case NeonTest(s) => IsNeon(c, s)
    case WarmTest => IsWarm(c)
    case CoolTest => IsCool(c)
    case EarthyTest(s) => IsEarthy(c, s)
  }

  /** The number of colours that pass `test`. */
  function Count(cs: seq<Rgb>, test: Test): (n: nat)
    ensures n <= |cs|
  {
    if cs == [] then 0
    else Count(cs[..|cs| - 1], test) + (if Passes(test, cs[|cs| - 1]) then 1 else 0)
  }

  /** The averages and spreads the classifier thresholds. */
  datatype Stats = Stats(brightness: real, saturation: real, contrast: real, variance: real)

  function StatsOf(cs: seq<Rgb>): Stats
    requires cs != []
  {
    var n := |cs| as real;
    Stats(SumBrightness(cs) / n, SumSaturation(cs) / n,
          if |cs| >= 2 then MaxBrightness(cs) - MinBrightness(cs) else 0.0,
          SumSpread(cs) as real / n)
  }

  /** The threshold rules of `determine_color_palette`, one per palette,
      over the statistics of the colours. */
  function VibrantScore(st: Stats): real {
    if st.saturation > 0.7 && st.brightness > 0.5 then Min(1.0, st.saturation * 1.2) else 0.0
  }

  function PastelScore(st: Stats): real {
    if st.saturation < 0.5 && st.brightness > 0.7 then Min(1.0, (1.0 - st.saturation) * st.brightness * 1.5) else 0.0
  }

  function DarkScore(st: Stats): real {
    if st.brightness < 0.3 then Min(1.0, (1.0 - st.brightness) * 2.0) else 0.0
  }

  function MonochromeScore(st: Stats): real {
    if st.variance < 100.0 then Min(1.0, (300.0 - st.variance) / 300.0) else 0.0
  }

  function HighContrastScore(st: Stats): real {
    if st.contrast > 0.7 then Min(1.0, st.contrast * 1.2) else 0.0
  }

  function MutedScore(st: Stats): real {
    if st.saturation < 0.4 && st.brightness < 0.7 then Min(1.0, (1.0 - st.saturation) * (1.0 - st.brightness) * 2.0) else 0.0
  }

  /** The score `determine_color_palette(colors)` gives palette `p`. */
  function Score(cs: seq<Rgb>, p: ColorPalette): real {
    if cs == [] then 0.0
    else
      var st := StatsOf(cs);
      match p
      case Vibrant => VibrantScore(st)
      case Pastel => PastelScore(st)
      case Dark => DarkScore(st)
      case Monochrome => MonochromeScore(st)
      case HighContrast => HighContrastScore(st)
      case Muted => MutedScore(st)
      case Neon => Min(1.0, 0.2 * Count(cs, NeonTest(st.saturation)) as real)
      case Warm => Min(1.0, 0.2 * Count(cs, WarmTest) as real)
      case Cool => Min(1.0, 0.2 * Count(cs, CoolTest) as real)
      case Earthy => Min(1.0, 0.2 * Count(cs, EarthyTest(st.saturation)) as real)
  }

  /** The dictionary `determine_color_palette(colors)` returns. */
  function PaletteScores(cs: seq<Rgb>): map<ColorPalette, real> {
    map[Vibrant := Score(cs, Vibrant), Pastel := Score(cs, Pastel), Dark := Score(cs, Dark),
        Monochrome := Score(cs, Monochrome), HighContrast := Score(cs, HighContrast),
        Muted := Score(cs, Muted), Neon := Score(cs, Neon), Warm := Score(cs, Warm),
        Cool := Score(cs, Cool), Earthy := Score(cs, Earthy)]
  }

  /** How each running total of `ComputeStats` grows by one colour. */
  lemma StatsStep(colors: seq<Rgb>, i: nat)
    requires i < |colors|
    ensures SumBrightness(colors[..i + 1]) == SumBrightness(colors[..i]) + Brightness(colors[i])
    ensures SumSaturation(colors[..i + 1]) == SumSaturation(colors[..i]) + Saturation(colors[i])
    ensures SumSpread(colors[..i + 1]) == SumSpread(colors[..i]) + Spread(colors[i])
    ensures i > 0 ==> MaxBrightness(colors[..i + 1]) == Max(MaxBrightness(colors[..i]), Brightness(colors[i]))
    ensures i > 0 ==> MinBrightness(colors[..i + 1]) == Min(MinBrightness(colors[..i]), Brightness(colors[i]))
  {
    assert colors[..i + 1][..i] == colors[..i];
  }

  /** `sum(get_color_brightness(c) for c in colors)`. */
  method BrightnessTotal(colors: seq<Rgb>) returns (total: real)
    ensures total == SumBrightness(colors)
  {
    total := 0.0;
    for i := 0 to |colors|
      invariant total == SumBrightness(colors[..i])
    {
      StatsStep(colors, i);
      total := total + Brightness(colors[i]);
    }
    assert colors[..|colors|] == colors;
  }

  /** `sum(get_color_saturation(c) for c in colors)`. */
  method SaturationTotal(colors: seq<Rgb>) returns (total: real)
    ensures total == SumSaturation(colors)
  {
    total := 0.0;
    for i := 0 to |colors|
      invariant total == SumSaturation(colors[..i])
    {
      StatsStep(colors, i);
      total := total + Saturation(colors[i]);
    }
    assert colors[..|colors|] == colors;
  }

  /** The sum of `abs(r - g) + abs(g - b) + abs(b - r)` over the colours. */
  method SpreadTotal(colors: seq<Rgb>) returns (total: nat)
    ensures total == SumSpread(colors)
  {
    total := 0;
    for i := 0 to |colors|
      invariant total == SumSpread(colors[..i])
    {
      StatsStep(colors, i);
      total := total + Spread(colors[i]);
    }
    assert colors[..|colors|] == colors;
  }

  /** `max(brightnesses) - min(brightnesses)`. */
  method BrightnessRange(colors: seq<Rgb>) returns (range: real)
    requires colors != []
    ensures range == MaxBrightness(colors) - MinBrightness(colors)
  {
    var maxB, minB := Brightness(colors[0]), Brightness(colors[0]);
    assert colors[..1] == [colors[0]];
    for i := 1 to |colors|
      invariant maxB == MaxBrightness(colors[..i]) && minB == MinBrightness(colors[..i])
    {
      StatsStep(colors, i);
      maxB := Max(maxB, Brightness(colors[i]));
      minB := Min(minB, Brightness(colors[i]));
    }
    assert colors[..|colors|] == colors;
    range := maxB - minB;
  }

  /** The averages and the contrast `determine_color_palette` computes
      before applying its thresholds. */
  method ComputeStats(colors: seq<Rgb>) returns (st: Stats)
    requires colors != []
    ensures st == StatsOf(colors)
  {
    var n := |colors| as real;
    var brightnessSum := BrightnessTotal(colors);
    var saturationSum := SaturationTotal(colors);
    var contrast := 0.0;
    if |colors| >= 2 {
      contrast := BrightnessRange(colors);
    }
    var spreadSum := SpreadTotal(colors);
    st := Stats(brightnessSum / n, saturationSum / n, contrast, spreadSum as real / n);
  }

  /** One of the counting loops: 0.2 for every colour passing `test`. */
  method CountScore(colors: seq<Rgb>, test: Test) returns (score: real)
    ensures score == 0.2 * Count(colors, test) as real
  {
    score := 0.0;
    for i := 0 to |colors|
      invariant score == 0.2 * Count(colors[..i], test) as real
    {
      assert colors[..i + 1][..i] == colors[..i];
      if Passes(test, colors[i]) {
        score := score + 0.2;
      }
    }
    assert colors[..|colors|] == colors;
  }

  /** `determine_color_palette(colors)`. */
  method DetermineColorPalette(colors: seq<Rgb>) returns (scores: map<ColorPalette, real>)
    ensures forall p :: p in scores && scores[p] == Score(colors, p)
  {
    if |colors| == 0 {
      forall p: ColorPalette ensures p in AllPalettes {
        AllPalettesComplete(p);
      }
      return map p: ColorPalette | p in AllPalettes :: 0.0;
    }
    var st := ComputeStats(colors);
    var neon := CountScore(colors, NeonTest(st.saturation));
    var warm := CountScore(colors, WarmTest);
    var cool := CountScore(colors, CoolTest);
    var earthy := CountScore(colors, EarthyTest(st.saturation));
    scores := map[Vibrant := VibrantScore(st), Pastel := PastelScore(st), Dark := DarkScore(st),
                  Monochrome := MonochromeScore(st), HighContrast := HighContrastScore(st),
                  Muted := MutedScore(st), Neon := Min(1.0, neon), Warm := Min(1.0, warm),
                  Cool := Min(1.0, cool), Earthy := Min(1.0, earthy)];
    assert st == StatsOf(colors);
    assert VibrantScore(st) == Score(colors, Vibrant);
    assert PastelScore(st) == Score(colors, Pastel);
    assert DarkScore(st) == Score(colors, Dark);
    assert MonochromeScore(st) == Score(colors, Monochrome);
    assert HighContrastScore(st) == Score(colors, HighContrast);
    assert MutedScore(st) == Score(colors, Muted);
    assert Min(1.0, neon) == Score(colors, Neon);
    assert Min(1.0, warm) == Score(colors, Warm);
    assert Min(1.0, cool) == Score(colors, Cool);
    assert Min(1.0, earthy) == Score(colors, Earthy);
    assert scores == PaletteScores(colors);
    forall p ensures p in scores && scores[p] == Score(colors, p) {
      PaletteScoresComplete(colors, p);
    }
  }

  /** Every palette has a score and an empty list scores 0 everywhere. */
  lemma PaletteScoresComplete(cs: seq<Rgb>, p: ColorPalette)
    ensures p in PaletteScores(cs) && PaletteScores(cs)[p] == Score(cs, p)
    ensures cs == [] ==> Score(cs, p) == 0.0
  {
    match p
    case Vibrant =>
    case Pastel =>
    case Dark =>
    case Monochrome =>
    case HighContrast =>
    case Muted =>
    case Neon =>
    case Warm =>
    case Cool =>
    case Earthy =>
  }

  lemma PositiveProduct(x: real, y: real)
    requires x > 0.0 && y > 0.0
    ensures x * y > 0.0
  {
  }

  lemma PastelBounds(st: Stats)
    ensures 0.0 <= PastelScore(st) <= 1.0
  {
    if st.saturation < 0.5 && st.brightness > 0.7 {
      PositiveProduct(1.0 - st.saturation, st.brightness);
      PositiveProduct((1.0 - st.saturation) * st.brightness, 1.5);
    }
  }

  lemma MutedBounds(st: Stats)
    ensures 0.0 <= MutedScore(st) <= 1.0
  {
    if st.saturation < 0.4 && st.brightness < 0.7 {
      var a, c := 1.0 - st.saturation, 1.0 - st.brightness;
      PositiveProduct(a, c);
      assert a * c * 2.0 > 0.0;
      assert MutedScore(st) == Min(1.0, a * c * 2.0);
    }
  }

  /** The threshold rules give scores in [0,1] for any statistics with a
      non-negative colour spread. */
  lemma ThresholdBounds(st: Stats)
    requires st.variance >= 0.0
    ensures 0.0 <= VibrantScore(st) <= 1.0 && 0.0 <= PastelScore(st) <= 1.0
    ensures 0.0 <= DarkScore(st) <= 1.0 && 0.0 <= MonochromeScore(st) <= 1.0
    ensures 0.0 <= HighContrastScore(st) <= 1.0 && 0.0 <= MutedScore(st) <= 1.0
  {
    PastelBounds(st);
    MutedBounds(st);
  }

  /** Every score is in [0,1], whatever the colours. */
  lemma ScoreBounds(cs: seq<Rgb>, p: ColorPalette)
    ensures 0.0 <= Score(cs, p) <= 1.0
  {
    if cs != [] {
      ThresholdBounds(StatsOf(cs));
    }
  }

  /** High contrast is scored only when the brightness spread of two or
      more colours exceeds 0.7, so a single colour never scores it. */
  lemma HighContrastNeedsSpread(cs: seq<Rgb>)
    ensures Score(cs, HighContrast) > 0.0 ==>
            |cs| >= 2 && MaxBrightness(cs) - MinBrightness(cs) > 0.7
    ensures |cs| <= 1 ==> Score(cs, HighContrast) == 0.0
  {
  }

  lemma {:induction false} CountNone(cs: seq<Rgb>, test: Test)
    requires forall i :: 0 <= i < |cs| ==> !Passes(test, cs[i])
    ensures Count(cs, test) == 0
  {
    if cs != [] {
      CountNone(cs[..|cs| - 1], test);
    }
  }

  lemma {:induction false} CountAll(cs: seq<Rgb>, test: Test)
    requires forall i :: 0 <= i < |cs| ==> Passes(test, cs[i])
    ensures Count(cs, test) == |cs|
  {
    if cs != [] {
      CountAll(cs[..|cs| - 1], test);
    }
  }

  /** Each warm colour adds 0.2 to the warm score, up to 1: five warm
      colours make the palette fully warm, and without a warm colour the
      score is 0. */
  lemma WarmScore(cs: seq<Rgb>)
    ensures |cs| >= 5 && (forall i :: 0 <= i < |cs| ==> IsWarm(cs[i])) ==> Score(cs, Warm) == 1.0
    ensures (forall i :: 0 <= i < |cs| ==> !IsWarm(cs[i])) ==> Score(cs, Warm) == 0.0
  {
    if forall i :: 0 <= i < |cs| ==> IsWarm(cs[i]) {
      CountAll(cs, WarmTest);
    }
    if forall i :: 0 <= i < |cs| ==> !IsWarm(cs[i]) {
      CountNone(cs, WarmTest);
    }
  }

  /** The same for cool colours. */
  lemma CoolScore(cs: seq<Rgb>)
    ensures |cs| >= 5 && (forall i :: 0 <= i < |cs| ==> IsCool(cs[i])) ==> Score(cs, Cool) == 1.0
    ensures (forall i :: 0 <= i < |cs| ==> !IsCool(cs[i])) ==> Score(cs, Cool) == 0.0
  {
    if forall i :: 0 <= i < |cs| ==> IsCool(cs[i]) {
      CountAll(cs, CoolTest);
    }
    if forall i :: 0 <= i < |cs| ==> !IsCool(cs[i]) {
      CountNone(cs, CoolTest);
    }
  }

  /** Neon needs an average saturation above 0.8: below it the neon score
      is 0 whatever the channels. */
  lemma NeonNeedsSaturation(cs: seq<Rgb>)
    requires cs != [] && StatsOf(cs).saturation <= 0.8
    ensures Score(cs, Neon) == 0.0
  {
    var s := StatsOf(cs).saturation;
    CountNone(cs, NeonTest(s));
  }

  /** Earthy needs an average saturation below 0.6. */
  lemma EarthyNeedsLowSaturation(cs: seq<Rgb>)
    requires cs != [] && StatsOf(cs).saturation >= 0.6
    ensures Score(cs, Earthy) == 0.0
  {
    var s := StatsOf(cs).saturation;
    CountNone(cs, EarthyTest(s));
  }

  // ---------------------------------------------------------------------
  // Terminal colours
  // ---------------------------------------------------------------------

  const ESC: char := 27 as char

  /** An SGR control sequence `ESC [ p1;p2;... m` with the given parameters. */
  function Sgr(params: seq<string>): string {
    [ESC, '['] + Text.Join(";", params) + "m"
  }

  /** `rgb_to_ansi(r, g, b)`: the 24-bit foreground colour sequence. */
  function RgbToAnsi(r: int, g: int, b: int): string {
    [ESC] + "[38;2;" + Text.IntToString(r) + ";" + Text.IntToString(g) + ";" + Text.IntToString(b) + "m"
  }

  /** `rgb_to_ansi_bg(r, g, b)`: the 24-bit background colour sequence. */
  function RgbToAnsiBg(r: int, g: int, b: int): string {
    [ESC] + "[48;2;" + Text.IntToString(r) + ";" + Text.IntToString(g) + ";" + Text.IntToString(b) + "m"
  }

  /** Reads a 24-bit colour SGR sequence back: the selector (38 foreground,
      48 background) and the three channels. */
  function ParseSgrColor(s: string): Option<(nat, nat, nat, nat)> {
    if |s| < 3 || s[0] != ESC || s[1] != '[' || s[|s| - 1] != 'm' then None
    else
      var parts := Text.Split(s[2..|s| - 1], ';');
      if |parts| != 5 || parts[1] != "2" || !(forall i :: 0 <= i < 5 ==> Text.AllDigits(parts[i])) then None
      else Some((Text.ParseNat(parts[0]), Text.ParseNat(parts[2]), Text.ParseNat(parts[3]), Text.ParseNat(parts[4])))
  }

  lemma JoinFive(a: string, b: string, c: string, d: string, e: string)
    ensures Text.Join(";", [a, b, c, d, e]) == a + ";" + b + ";" + c + ";" + d + ";" + e
  {
    assert [d, e][1..] == [e];
    assert [c, d, e][1..] == [d, e];
    assert [b, c, d, e][1..] == [c, d, e];
    assert [a, b, c, d, e][1..] == [b, c, d, e];
    var j2 := Text.Join(";", [d, e]);
    var j3 := Text.Join(";", [c, d, e]);
    var j4 := Text.Join(";", [b, c, d, e]);
    assert j2 == d + ";" + e;
    assert j3 == c + ";" + j2;
    assert j4 == b + ";" + j3;
    assert Text.Join(";", [a, b, c, d, e]) == a + ";" + j4;
  }

  /** The colour sequences are SGR sequences (section 8.3.117 of ECMA-48)
      with the parameters 38 or 48, then 2, then the three channels. */
  lemma AnsiIsSgr(r: int, g: int, b: int)
    ensures RgbToAnsi(r, g, b) == Sgr(["38", "2", Text.IntToString(r), Text.IntToString(g), Text.IntToString(b)])
    ensures RgbToAnsiBg(r, g, b) == Sgr(["48", "2", Text.IntToString(r), Text.IntToString(g), Text.IntToString(b)])
  {
    var x, y, z := Text.IntToString(r), Text.IntToString(g), Text.IntToString(b);
    SgrColorShape("38", x, y, z);
    SgrColorShape("48", x, y, z);
    assert [ESC] + "[38;2;" == [ESC, '['] + "38" + ";2;";
    assert [ESC] + "[48;2;" == [ESC, '['] + "48" + ";2;";
  }

  /** A 24-bit colour SGR sequence spelled out. */
  lemma SgrColorShape(sel: string, x: string, y: string, z: string)
    ensures Sgr([sel, "2", x, y, z]) == [ESC, '['] + sel + ";2;" + x + ";" + y + ";" + z + "m"
  {
    JoinFive(sel, "2", x, y, z);
  }

  lemma {:induction false} SgrColorRoundTrip(selector: nat, r: nat, g: nat, b: nat)
    ensures ParseSgrColor(Sgr([Text.NatToString(selector), "2", Text.NatToString(r), Text.NatToString(g), Text.NatToString(b)]))
            == Some((selector, r, g, b))
  {
    var parts := [Text.NatToString(selector), "2", Text.NatToString(r), Text.NatToString(g), Text.NatToString(b)];
    var s := Sgr(parts);
    var body := Text.Join(";", parts);
    assert s[2..|s| - 1] == body;
    assert forall i :: 0 <= i < 5 ==> Text.AllDigits(parts[i]);
    assert forall i :: 0 <= i < 5 ==> ';' !in parts[i];
    Text.SplitJoin(parts, ';');
    Text.ParseNatToString(selector);
    Text.ParseNatToString(r);
    Text.ParseNatToString(g);
    Text.ParseNatToString(b);
  }

  /** The sequences carry their channels: parsing one back gives selector
      38 (foreground) or 48 (background) and the same channel values. */
  lemma AnsiRoundTrip(r: nat, g: nat, b: nat)
    ensures ParseSgrColor(RgbToAnsi(r, g, b)) == Some((38, r, g, b))
    ensures ParseSgrColor(RgbToAnsiBg(r, g, b)) == Some((48, r, g, b))
  {
    AnsiIsSgr(r, g, b);
    assert Text.NatToString(38) == "38";
    assert Text.NatToString(48) == "48";
    SgrColorRoundTrip(38, r, g, b);
    SgrColorRoundTrip(48, r, g, b);
  }
}
