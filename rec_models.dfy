/** The recommendation records the engine returns, and their dict form.
    The item inside a recommendation is a type parameter `A`, with its own
    encoder and decoder passed in: the item class of the repository defines
    neither a `to_dict` nor a `from_dict`. */
module Recommendations {
  import opened Common
  import opened Values
  import Text

  datatype Recommendation<A> = Recommendation(
    anime: A,
    score: real,
    rationale: string,
    matchFactors: map<string, real>,
    trailerUrl: Option<string>,
    trailerTitle: Option<string>,
    trailerChannel: Option<string>,
    trailerThumbnail: Option<string>)
  {
    /** `to_dict()`: exactly eight keys, each holding its field. */
    function ToDict(encode: A -> Value): (d: map<string, Value>)
      ensures d.Keys == RecommendationKeys
      ensures d["anime"] == encode(anime) && d["score"] == VReal(score)
      ensures d["rationale"] == VStr(rationale) && d["match_factors"] == VDict(EncodeFactors(matchFactors))
      ensures d["trailer_url"] == OptStr(trailerUrl) && d["trailer_title"] == OptStr(trailerTitle)
      ensures d["trailer_channel"] == OptStr(trailerChannel)
      ensures d["trailer_thumbnail"] == OptStr(trailerThumbnail)
    {
      map[
        "anime" := encode(anime),
        "score" := VReal(score),
        "rationale" := VStr(rationale),
        "match_factors" := VDict(EncodeFactors(matchFactors)),
        "trailer_url" := OptStr(trailerUrl),
        "trailer_title" := OptStr(trailerTitle),
        "trailer_channel" := OptStr(trailerChannel),
        "trailer_thumbnail" := OptStr(trailerThumbnail)]
    }
  }

  /** Why `from_dict` raises: no truthy "anime" (the required field would be
      `None`), an item the decoder rejects, a value of the wrong type, or an
      entry that is not a dict. */
  datatype FromDictError = MissingAnime | BadAnime(message: string) | WrongType(key: string) | NotADict

  // ---------------------------------------------------------------------
  // Recommendation.to_dict / from_dict
  // ---------------------------------------------------------------------

  function OptStr(s: Option<string>): Value {
    match s
    case Some(x) => VStr(x)
    case None => VNone
  }

  function EncodeFactors(m: map<string, real>): (d: map<string, Value>)
    ensures d.Keys == m.Keys
    ensures forall k :: k in d ==> d[k] == VReal(m[k])
  {
    map k | k in m :: VReal(m[k])
  }

  const RecommendationKeys: set<string> := {
    "anime", "score", "rationale", "match_factors",
    "trailer_url", "trailer_title", "trailer_channel", "trailer_thumbnail"}

  predicate IsNumber(v: Value) { v.VReal? || v.VInt? }

  function Number(v: Value): real
    requires IsNumber(v)
  {
    if v.VReal? then v.r else v.i as real
  }

  /** `data.get(key, default)` for a float field. */
  function GetNumber(data: map<string, Value>, key: string, default: real): Result<real, FromDictError> {
    if key !in data then Ok(default)
    else if IsNumber(data[key]) then Ok(Number(data[key]))
    else Err(WrongType(key))
  }

  /** `data.get(key, default)` for a str field. */
  function GetString(data: map<string, Value>, key: string, default: string): Result<string, FromDictError> {
    if key !in data then Ok(default)
    else if data[key].VStr? then Ok(data[key].s)
    else Err(WrongType(key))
  }

  /** `data.get(key)` for an optional str field: absent and `None` are both `None`. */
  function GetOptString(data: map<string, Value>, key: string): Result<Option<string>, FromDictError> {
    if key !in data || data[key].VNone? then Ok(None)
    else if data[key].VStr? then Ok(Some(data[key].s))
    else Err(WrongType(key))
  }

  /** `data.get("match_factors", {})`. */
  function GetFactors(data: map<string, Value>): Result<map<string, real>, FromDictError> {
    if "match_factors" !in data then Ok(map[])
    else if !data["match_factors"].VDict? then Err(WrongType("match_factors"))
    else
      var f := data["match_factors"].fields;
      if forall k :: k in f ==> IsNumber(f[k]) then Ok(map k | k in f :: Number(f[k]))
      else Err(WrongType("match_factors"))
  }

  /** `Recommendation.from_dict(data)`. */
  function FromDict<A>(data: map<string, Value>, decode: Value -> Result<A, string>)
    : (r: Result<Recommendation<A>, FromDictError>)
    ensures ("anime" !in data || !Truthy(data["anime"])) ==> r == Err(MissingAnime)
    ensures r.Ok? ==> "anime" in data && decode(data["anime"]) == Ok(r.value.anime)
    ensures r.Ok? && "score" !in data ==> r.value.score == 0.0
    ensures r.Ok? && "rationale" !in data ==> r.value.rationale == ""
    ensures r.Ok? && "match_factors" !in data ==> r.value.matchFactors == map[]
    ensures r.Ok? && "trailer_url" !in data ==> r.value.trailerUrl == None
    ensures r.Ok? && "trailer_title" !in data ==> r.value.trailerTitle == None
    ensures r.Ok? && "trailer_channel" !in data ==> r.value.trailerChannel == None
    ensures r.Ok? && "trailer_thumbnail" !in data ==> r.value.trailerThumbnail == None
  {
    if "anime" !in data || !Truthy(data["anime"]) then Err(MissingAnime)
    else
      match decode(data["anime"])
      case Err(m) => Err(BadAnime(m))
      case Ok(anime) =>
        var score := GetNumber(data, "score", 0.0);
        var rationale := GetString(data, "rationale", "");
        var factors := GetFactors(data);
        var url := GetOptString(data, "trailer_url");
        var title := GetOptString(data, "trailer_title");
        var channel := GetOptString(data, "trailer_channel");
        var thumbnail := GetOptString(data, "trailer_thumbnail");
        if score.Err? then Err(score.error)
        else if rationale.Err? then Err(rationale.error)
        else if factors.Err? then Err(factors.error)
        else if url.Err? then Err(url.error)
        else if title.Err? then Err(title.error)
        else if channel.Err? then Err(channel.error)
        else if thumbnail.Err? then Err(thumbnail.error)
        else Ok(Recommendation(anime, score.value, rationale.value, factors.value,
                               url.value, title.value, channel.value, thumbnail.value))
  }

  /** A dict holding nothing but a decodable item gives the defaults. */
  lemma FromDictDefaults<A>(item: Value, decode: Value -> Result<A, string>)
    requires Truthy(item) && decode(item).Ok?
    ensures FromDict(map["anime" := item], decode) ==
      Ok(Recommendation(decode(item).value, 0.0, "", map[], None, None, None, None))
  {
  }

  lemma FactorsRoundTrip(m: map<string, real>)
    ensures GetFactors(map["match_factors" := VDict(EncodeFactors(m))]) == Ok(m)
  {
    var f := EncodeFactors(m);
    assert forall k :: k in f ==> IsNumber(f[k]);
    var back := map k | k in f :: Number(f[k]);
    assert back == m;
  }

  /** `from_dict(to_dict(r))` gives back every field but the item, which
      goes through the item's own encoder and decoder. */
  lemma RoundTrip<A>(r: Recommendation<A>, encode: A -> Value, decode: Value -> Result<A, string>)
    requires Truthy(encode(r.anime)) && decode(encode(r.anime)).Ok?
    ensures FromDict(r.ToDict(encode), decode) == Ok(r.(anime := decode(encode(r.anime)).value))
  {
    var d := r.ToDict(encode);
    FactorsRoundTrip(r.matchFactors);
    assert GetFactors(d) == GetFactors(map["match_factors" := VDict(EncodeFactors(r.matchFactors))]);
  }

  // ---------------------------------------------------------------------
  // RecommendationList
  // ---------------------------------------------------------------------

  /** `[Recommendation.from_dict(x) for x in items]`, stopping at the first
      entry that raises. */
  function FromDicts<A>(items: seq<Value>, decode: Value -> Result<A, string>)
    : (r: Result<seq<Recommendation<A>>, FromDictError>)
    ensures r.Ok? ==> |r.value| == |items|
    ensures r.Ok? ==> forall i :: 0 <= i < |items| ==>
      items[i].VDict? && FromDict(items[i].fields, decode) == Ok(r.value[i])
    ensures (forall i :: 0 <= i < |items| ==>
      items[i].VDict? && FromDict(items[i].fields, decode).Ok?) ==> r.Ok?
  {
    if items == [] then Ok([])
    else
      var init := FromDicts(items[..|items| - 1], decode);
      var last := items[|items| - 1];
      if init.Err? then init
      else if !last.VDict? then Err(NotADict)
      else
        match FromDict(last.fields, decode)
        case Err(e) => Err(e)
        case Ok(rec) => Ok(init.value + [rec])
  }

  /** What a `for` loop over a value visits: a list its elements, a string
      its characters, a dict its keys (in sorted order here, as the key order
      of nested dicts is not tracked); any other value is not iterable. */
  function Iterate(v: Value): (r: Option<seq<Value>>)
    ensures v.VList? ==> r == Some(v.items)
    ensures v.VStr? ==> r.Some? && |r.value| == |v.s|
    ensures v.VStr? ==> forall i :: 0 <= i < |v.s| ==> r.value[i] == VStr([v.s[i]])
    ensures v.VDict? ==> r.Some? && |r.value| == |v.fields|
    ensures v.VDict? ==> forall x: Value :: x in r.value <==> x.VStr? && x.s in v.fields
    ensures r.None? <==> v.VNone? || v.VBool? || v.VInt? || v.VReal?
  {
    match v
    case VList(items) => Some(items)
    case VStr(t) => Some(seq(|t|, i requires 0 <= i < |t| => VStr([t[i]])))
    case VDict(m) =>
      var ks := Text.SortedKeys(m.Keys);
      var r := seq(|ks|, i requires 0 <= i < |ks| => VStr(ks[i]));
      assert forall x: Value :: x in r <==> x.VStr? && x.s in m by {
        forall x: Value | x.VStr? && x.s in m ensures x in r {
          var i :| 0 <= i < |ks| && ks[i] == x.s;
          assert r[i] == x;
        }
      }
      Some(r)
    case _ => None
  }

  /** The entries `from_dict` iterates: `data.get("recommendations", [])`. */
  function ListItems(data: map<string, Value>): (r: Result<seq<Value>, FromDictError>)
    ensures "recommendations" !in data ==> r == Ok([])
    ensures "recommendations" in data ==>
      (r.Ok? <==> Iterate(data["recommendations"]).Some?)
      && (r.Ok? ==> r.value == Iterate(data["recommendations"]).value)
  {
    if "recommendations" !in data then Ok([])
    else
      match Iterate(data["recommendations"])
      case Some(items) => Ok(items)
      case None => Err(WrongType("recommendations"))
  }

  /** An empty list, string or dict under "recommendations" iterates to
      nothing, so the list decodes as empty; a non-empty string or dict
      iterates to strings, and decoding fails at the first of them. */
  lemma {:induction false} IterableRecommendations<A>(data: map<string, Value>, decode: Value -> Result<A, string>)
    requires "recommendations" in data
    ensures var v := data["recommendations"];
      (v == VList([]) || v == VStr("") || v == VDict(map[])) ==> ListItems(data) == Ok([])
    ensures var v := data["recommendations"];
      ((v.VStr? && v.s != "") || (v.VDict? && v.fields != map[])) ==>
        ListItems(data).Ok? && FromDicts(ListItems(data).value, decode).Err?
  {
    var v := data["recommendations"];
    if (v.VStr? && v.s != "") || (v.VDict? && v.fields != map[]) {
      var items := ListItems(data).value;
      assert |items| > 0;
      assert items[0] in items;
      assert !items[0].VDict?;
    }
  }

  class RecommendationList<A> {
    var recommendations: seq<Recommendation<A>>

    constructor()
      ensures recommendations == []
    {
      recommendations := [];
    }

    /** `add_recommendation(r)`: appends at the end. */
    method AddRecommendation(r: Recommendation<A>)
      modifies this
      ensures recommendations == old(recommendations) + [r]
    {
      recommendations := recommendations + [r];
    }

    /** `to_dict()`. */
    function ToDict(encode: A -> Value): (d: map<string, Value>)
      reads this
      ensures d.Keys == {"recommendations"} && d["recommendations"].VList?
      ensures |d["recommendations"].items| == |recommendations|
      ensures forall i :: 0 <= i < |recommendations| ==>
        d["recommendations"].items[i] == VDict(recommendations[i].ToDict(encode))
    {
      map["recommendations" := VList(seq(|recommendations|, i requires 0 <= i < |recommendations| reads this =>
        VDict(recommendations[i].ToDict(encode))))]
    }
  }

  /** `RecommendationList.from_dict(data)`: the entries decoded in order. */
  method ListFromDict<A>(data: map<string, Value>, decode: Value -> Result<A, string>)
    returns (r: Result<RecommendationList<A>, FromDictError>)
    ensures ListItems(data).Err? ==> r == Err(ListItems(data).error)
    ensures ListItems(data).Ok? ==> (r.Ok? <==> FromDicts(ListItems(data).value, decode).Ok?)
    ensures r.Ok? ==> fresh(r.value) && r.value.recommendations == FromDicts(ListItems(data).value, decode).value
  {
    var items := ListItems(data);
    if items.Err? {
      return Err(items.error);
    }
    var list := new RecommendationList();
    var xs := items.value;
    for i := 0 to |xs|
      invariant FromDicts(xs[..i], decode).Ok?
      invariant list.recommendations == FromDicts(xs[..i], decode).value
    {
      assert xs[..i + 1][..i] == xs[..i];
      if !xs[i].VDict? {
        assert FromDicts(xs[..i + 1], decode) == Err(NotADict);
        FromDictsPrefix(xs, i + 1, decode);
        return Err(NotADict);
      }
      var rec := FromDict(xs[i].fields, decode);
      if rec.Err? {
        FromDictsPrefix(xs, i + 1, decode);
        return Err(rec.error);
      }
      list.AddRecommendation(rec.value);
    }
    assert xs[..|xs|] == xs;
    r := Ok(list);
  }

  /** Once a prefix fails, the whole list fails. */
  lemma {:induction false} FromDictsPrefix<A>(xs: seq<Value>, n: nat, decode: Value -> Result<A, string>)
    requires n <= |xs| && FromDicts(xs[..n], decode).Err?
    ensures FromDicts(xs, decode).Err?
    decreases |xs| - n
  {
    if n < |xs| {
      assert xs[..n + 1][..n] == xs[..n];
      FromDictsPrefix(xs, n + 1, decode);
    } else {
      assert xs[..n] == xs;
    }
  }
}
