/** Sentiment analysis of synopses: the reply handling of the language-model
    analyser (locating the JSON object in the reply, filling in defaults, the
    lenient second attempt and the error it raises), the deterministic mock
    analyser used in demo mode, and the process-wide analyser singleton.
    The language model and the JSON decoder are parameters. */
module Sentiment {
  import opened Common
  import Text
  import Errors

  datatype SentimentResult = SentimentResult(
    positivity: real,
    intensity: real,
    emotions: map<string, real>,
    themes: map<string, real>,
    targetAudience: map<string, real>,
    rawAnalysis: string)

  // ---------------------------------------------------------------------
  // Locating the JSON object in a reply
  // ---------------------------------------------------------------------

  /** `s[s.find('{') : s.rfind('}') + 1]` when that is a proper span. */
  function JsonSpan(s: string): Option<string> {
    var start := Text.Find(s, '{');
    var end := Text.RFind(s, '}') + 1;
    if start != -1 && end > start then Some(s[start..end]) else None
  }

  predicate BracePair(s: string) {
    exists i, j :: 0 <= i < j < |s| && s[i] == '{' && s[j] == '}'
  }

  /** `t` is `s[a..b]`, with no '{' before it and no '}' after it. */
  predicate SpanAt(s: string, t: string, a: int, b: int) {
    0 <= a < b <= |s| && t == s[a..b] && '{' !in s[..a] && '}' !in s[b..]
  }

  /** A span exists exactly when some '{' precedes some '}'; it then runs
      from the first '{' to the last '}', both included. */
  lemma JsonSpanSpec(s: string)
    ensures JsonSpan(s).Some? <==> BracePair(s)
    ensures JsonSpan(s).Some? ==> exists a, b :: SpanAt(s, JsonSpan(s).value, a, b)
    ensures JsonSpan(s).Some? ==> var t := JsonSpan(s).value;
      |t| >= 2 && t[0] == '{' && t[|t| - 1] == '}'
  {
    var start := Text.Find(s, '{');
    var last := Text.RFind(s, '}');
    if start != -1 && last + 1 > start {
      JsonSpanFound(s, start, last);
      assert SpanAt(s, JsonSpan(s).value, start, last + 1);
    } else {
      JsonSpanMissing(s, start, last);
    }
  }

  lemma JsonSpanFound(s: string, start: int, last: int)
    requires start == Text.Find(s, '{') && last == Text.RFind(s, '}')
    requires start != -1 && last + 1 > start
    ensures BracePair(s)
    ensures SpanAt(s, s[start..last + 1], start, last + 1)
  {
    assert s[start] == '{' && s[last] == '}';
  }

  lemma JsonSpanMissing(s: string, start: int, last: int)
    requires start == Text.Find(s, '{') && last == Text.RFind(s, '}')
    requires !(start != -1 && last + 1 > start)
    ensures !BracePair(s)
  {
    forall i, j | 0 <= i < j < |s| && s[i] == '{' ensures s[j] != '}' {
      if start != -1 && j > last {
        assert s[last + 1..][j - last - 1] == s[j];
      }
    }
  }

  // ---------------------------------------------------------------------
  // SentimentAnalyzer.analyze
  // ---------------------------------------------------------------------

  /** What `json.loads` returns: an object, whose keys of interest may be
      absent, or some other JSON value (named by its Python type). */
  datatype JsonValue =
    | JsonObject(
        positivity: Option<real>,
        intensity: Option<real>,
        emotions: Option<map<string, real>>,
        themes: Option<map<string, real>>,
        targetAudience: Option<map<string, real>>)
    | JsonOther(typeName: string)

  /** `SentimentResult(positivity=data.get("positivity", 0.0), ...)`. */
  function FromObject(data: JsonValue, response: string): (r: SentimentResult)
    requires data.JsonObject?
    ensures data.positivity.None? ==> r.positivity == 0.0
    ensures data.intensity.None? ==> r.intensity == 0.0
    ensures data.emotions.None? ==> r.emotions == map[]
    ensures data.themes.None? ==> r.themes == map[]
    ensures data.targetAudience.None? ==> r.targetAudience == map[]
    ensures data.positivity.Some? ==> r.positivity == data.positivity.value
    ensures data.intensity.Some? ==> r.intensity == data.intensity.value
    ensures data.emotions.Some? ==> r.emotions == data.emotions.value
    ensures data.themes.Some? ==> r.themes == data.themes.value
    ensures data.targetAudience.Some? ==> r.targetAudience == data.targetAudience.value
    ensures r.rawAnalysis == response
  {
    SentimentResult(
      data.positivity.GetOr(0.0), data.intensity.GetOr(0.0),
      data.emotions.GetOr(map[]), data.themes.GetOr(map[]), data.targetAudience.GetOr(map[]),
      response)
  }

  predicate IsControl(c: char) { c as int <= 0x1F || c as int == 0x7F }

  /** The lenient clean-up: control characters removed, single quotes
      turned into double quotes. */
  function Clean(s: string): (r: string)
    ensures |r| <= |s|
    ensures forall i :: 0 <= i < |r| ==> !IsControl(r[i]) && r[i] != '\''
  {
    if s == [] then []
    else
      var rest := Clean(s[1..]);
      if IsControl(s[0]) then rest
      else if s[0] == '\'' then ['"'] + rest
      else [s[0]] + rest
  }

  /** The message of an `AttributeError` raised by `data.get` on a non-object. */
  function NoGetMessage(typeName: string): string {
    "'" + typeName + "' object has no attribute 'get'"
  }

  function Failure(message: string): (e: Errors.Error)
    ensures e.cls == Errors.AnalysisError && e.code == Some("ANALYSIS_ERROR")
  {
    Errors.NewAnalysisError("Error in sentiment analysis: " + message, None, None, None)
  }

  /** The text the first attempt decodes: the span, or the whole reply. */
  function FirstAttempt(response: string): string {
    match JsonSpan(response)
    case Some(t) => t
    case None => response
  }

  /** `analyze(text)`, given the model's reply (or the message of the
      exception the client raised) and a JSON decoder returning a value or
      the message of its `JSONDecodeError`. */
  function Analyze(reply: Result<string, string>, decode: string -> Result<JsonValue, string>)
    : (r: Result<SentimentResult, Errors.Error>)
    ensures r.Err? ==> r.error.cls == Errors.AnalysisError && r.error.code == Some("ANALYSIS_ERROR")
    ensures reply.Err? ==> r.Err?
    ensures r.Ok? ==> reply.Ok? && r.value.rawAnalysis == reply.value
    ensures reply.Ok? && decode(FirstAttempt(reply.value)).Ok? ==>
      var data := decode(FirstAttempt(reply.value)).value;
      (data.JsonObject? ==> r == Ok(FromObject(data, reply.value))) && (data.JsonOther? ==> r.Err?)
    ensures reply.Ok? && decode(FirstAttempt(reply.value)).Err? ==>
      var span := JsonSpan(Clean(reply.value));
      if span.Some? && decode(span.value).Ok? && decode(span.value).value.JsonObject?
      then r == Ok(FromObject(decode(span.value).value, reply.value))
      else r.Err?
  {
    match reply
    case Err(e) => Err(Failure(e))
    case Ok(response) =>
      match decode(FirstAttempt(response))
      case Ok(data) =>
        if data.JsonObject? then Ok(FromObject(data, response))
        else Err(Failure(NoGetMessage(data.typeName)))
      case Err(decodeError) =>
        var span := JsonSpan(Clean(response));
        if span.Some? && decode(span.value).Ok? && decode(span.value).value.JsonObject? then
          Ok(FromObject(decode(span.value).value, response))
        else
          Err(Failure("Failed to parse sentiment analysis response: " + decodeError))
  }

  // ---------------------------------------------------------------------
  // MockSentimentAnalyzer.analyze
  // ---------------------------------------------------------------------

  /** Sum of the code points of a string. */
  function CodeSum(s: string): nat {
    if s == [] then 0 else CodeSum(s[..|s| - 1]) + s[|s| - 1] as int
  }

  /** `sum(ord(c) for c in text[:100])`. */
  function TextHash(text: string): nat {
    CodeSum(text[..if |text| < 100 then |text| else 100])
  }

  /** Only the first hundred characters enter the hash. */
  lemma TextHashPrefix(s: string, t: string)
    requires |s| >= 100 && |t| >= 100 && s[..100] == t[..100]
    ensures TextHash(s) == TextHash(t)
  {
  }

  predicate HasAny(text: string, words: seq<string>) {
    exists i :: 0 <= i < |words| && Text.Contains(Text.Lower(text), words[i])
  }

  const PositiveWords: seq<string> := ["happy", "fun", "exciting"]
  const NegativeWords: seq<string> := ["sad", "tragic", "dark"]

  function MockPositivity(text: string): (p: real)
    ensures HasAny(text, PositiveWords) <==> p == 0.8
    ensures !HasAny(text, PositiveWords) && HasAny(text, NegativeWords) <==> p == -0.5
    ensures p == 0.8 || p == -0.5 || p == 0.2
  {
    var lower := Text.Lower(text);
    assert HasAny(text, PositiveWords) <==>
      Text.Contains(lower, "happy") || Text.Contains(lower, "fun") || Text.Contains(lower, "exciting") by {
      assert PositiveWords[0] == "happy" && PositiveWords[1] == "fun" && PositiveWords[2] == "exciting";
    }
    assert HasAny(text, NegativeWords) <==>
      Text.Contains(lower, "sad") || Text.Contains(lower, "tragic") || Text.Contains(lower, "dark") by {
      assert NegativeWords[0] == "sad" && NegativeWords[1] == "tragic" && NegativeWords[2] == "dark";
    }
    if Text.Contains(lower, "happy") || Text.Contains(lower, "fun") || Text.Contains(lower, "exciting") then 0.8
    else if Text.Contains(lower, "sad") || Text.Contains(lower, "tragic") || Text.Contains(lower, "dark") then -0.5
    else 0.2
  }

  function MockIntensity(text: string): (v: real)
    ensures 0.5 <= v <= 1.0
  {
    Min(0.5 + Text.CountChar(text, '!') as real * 0.1 + Text.CountChar(text, '?') as real * 0.05, 1.0)
  }

  /** Decimal digit `k` of the hash (0 for the units). */
  function HashDigit(h: nat, k: nat): (d: nat)
    ensures d < 10
  {
    if k == 0 then h % 10 else HashDigit(h / 10, k - 1)
  }

  function MockEmotions(positivity: real, h: nat): (m: map<string, real>)
    ensures m.Keys == {"joy", "sadness", "anger", "fear", "surprise"}
    ensures forall k :: k in m ==> 0.0 <= m[k] <= 1.0
  {
    map[
      "joy" := Clamp(0.5 + positivity * 0.3 + HashDigit(h, 0) as real * 0.02, 0.0, 1.0),
      "sadness" := Clamp(0.5 - positivity * 0.3 + HashDigit(h, 1) as real * 0.02, 0.0, 1.0),
      "anger" := Clamp(0.2 + HashDigit(h, 2) as real * 0.03, 0.0, 1.0),
      "fear" := Clamp(0.3 + HashDigit(h, 3) as real * 0.03, 0.0, 1.0),
      "surprise" := Clamp(0.4 + HashDigit(h, 4) as real * 0.04, 0.0, 1.0)]
  }

  function MockThemes(text: string): (m: map<string, real>)
    ensures m.Keys == {"adventure", "romance", "comedy", "action", "drama"}
  {
    var lower := Text.Lower(text);
    map[
      "adventure" := if Text.Contains(lower, "adventure") then 0.7 else 0.3,
      "romance" := if Text.Contains(lower, "love") || Text.Contains(lower, "romance") then 0.8 else 0.2,
      "comedy" := if Text.Contains(lower, "funny") || Text.Contains(lower, "comedy") then 0.6 else 0.4,
      "action" := if Text.Contains(lower, "battle") || Text.Contains(lower, "fight") then 0.7 else 0.3,
      "drama" := if Text.Contains(lower, "drama") || Text.Contains(lower, "emotional") then 0.6 else 0.4]
  }

  /** Every theme weight of the mock lies strictly between 0 and 1. */
  lemma MockThemesRange(text: string)
    ensures forall k :: k in MockThemes(text) ==> 0.0 < MockThemes(text)[k] < 1.0
  {
    var m := MockThemes(text);
    forall k | k in m ensures 0.0 < m[k] < 1.0 {
      assert k in {"adventure", "romance", "comedy", "action", "drama"};
    }
  }

  const MockAudience: map<string, real> :=
    map["children" := 0.3, "teens" := 0.6, "adults" := 0.5, "family" := 0.4]

  const MockRawAnalysis := "[Demo Mode] Mock sentiment analysis generated for demo purposes."

  /** The mock analyser: a function of the text alone. */
  function MockAnalyze(text: string): (r: SentimentResult)
    ensures r.positivity == MockPositivity(text) && r.intensity == MockIntensity(text)
    ensures r.emotions.Keys == {"joy", "sadness", "anger", "fear", "surprise"}
    ensures r.themes.Keys == {"adventure", "romance", "comedy", "action", "drama"}
    ensures r.targetAudience == MockAudience && r.rawAnalysis == MockRawAnalysis
    ensures forall k :: k in r.emotions ==> 0.0 <= r.emotions[k] <= 1.0
    ensures forall k :: k in r.themes ==> 0.0 < r.themes[k] < 1.0
  {
    var p := MockPositivity(text);
    MockThemesRange(text);
    SentimentResult(p, MockIntensity(text), MockEmotions(p, TextHash(text)), MockThemes(text),
      MockAudience, MockRawAnalysis)
  }

  /** The clamps on the mock emotions never bind: each raw value already
      lies in [0.2, 0.92], so every emotion equals its unclamped formula. */
  lemma MockEmotionsUnclamped(text: string)
    ensures var e, p, h := MockAnalyze(text).emotions, MockPositivity(text), TextHash(text);
      && e["joy"] == 0.5 + p * 0.3 + HashDigit(h, 0) as real * 0.02
      && e["sadness"] == 0.5 - p * 0.3 + HashDigit(h, 1) as real * 0.02
      && e["anger"] == 0.2 + HashDigit(h, 2) as real * 0.03
      && e["fear"] == 0.3 + HashDigit(h, 3) as real * 0.03
      && e["surprise"] == 0.4 + HashDigit(h, 4) as real * 0.04
    ensures forall k :: k in MockAnalyze(text).emotions ==> 0.2 <= MockAnalyze(text).emotions[k] <= 0.92
  {
    var p, h := MockPositivity(text), TextHash(text);
    var d0, d1, d2, d3, d4 := HashDigit(h, 0), HashDigit(h, 1), HashDigit(h, 2), HashDigit(h, 3), HashDigit(h, 4);
    assert 0.0 <= d0 as real * 0.02 <= 0.18;
    assert 0.0 <= d1 as real * 0.02 <= 0.18;
    assert 0.0 <= d2 as real * 0.03 <= 0.27;
    assert 0.0 <= d3 as real * 0.03 <= 0.27;
    assert 0.0 <= d4 as real * 0.04 <= 0.36;
    assert -0.15 <= p * 0.3 <= 0.24;
  }

  // ---------------------------------------------------------------------
  // get_sentiment_analyzer
  // ---------------------------------------------------------------------

  /** An analyser instance: the mock, or the language-model analyser. */
  class Analyzer {
    const mock: bool

    constructor(mock: bool)
      ensures this.mock == mock
    {
      this.mock := mock;
    }
  }

  /** The module-level `_sentiment_analyzer` slot. */
  class AnalyzerSingleton {
    var instance: Analyzer?

    constructor()
      ensures instance == null
    {
      instance := null;
    }

    /** `get_sentiment_analyzer(demo_mode)`. `clientAvailable` is whether
        building the language-model client succeeds. Once an instance exists
        it is returned on every call, whatever `demoMode` says. */
    method Get(demoMode: bool, clientAvailable: bool) returns (a: Analyzer)
      modifies this
      ensures old(instance) != null ==> a == old(instance) && instance == old(instance)
      ensures old(instance) == null ==> fresh(a) && instance == a && a.mock == (demoMode || !clientAvailable)
    {
      if instance != null {
        return instance;
      }
      a := new Analyzer(demoMode || !clientAvailable);
      instance := a;
    }
  }

  /** The second call returns the first call's instance. */
  method SingletonStable(s: AnalyzerSingleton, demo1: bool, demo2: bool, client: bool)
    returns (a1: Analyzer, a2: Analyzer)
    modifies s
    ensures a1 == a2
  {
    a1 := s.Get(demo1, client);
    a2 := s.Get(demo2, client);
  }

  /** The analysis a given analyser produces for a text. */
  function AnalyzeWith(mock: bool, text: string, reply: Result<string, string>,
                       decode: string -> Result<JsonValue, string>): (r: Result<SentimentResult, Errors.Error>)
    ensures mock ==> r == Ok(MockAnalyze(text))
    ensures !mock ==> r == Analyze(reply, decode)
  {
    if mock then Ok(MockAnalyze(text)) else Analyze(reply, decode)
  }
}
