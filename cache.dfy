/** The in-memory response cache of the API layer: entries keyed by the text
    built from the url and the parameters, each with an absolute expiry time. The clock
    reading `time.time()` is the parameter `now` of every operation that
    reads it. */
module Cache {
  import opened Common
  import opened Values
  import opened PyDict
  import Text

  /** The key of an entry: the text `_generate_key` hashes. SHA-256 is taken
      to be injective, so two requests share an entry exactly when they build
      the same text. */
  type CacheKey = string

  /** `json.dumps` applied to a sorted item list. The JSON text itself is not
      modelled: it is a parameter, and the lemmas that need distinct item
      lists to give distinct texts require it to be injective. */
  type Dumps = seq<(string, Value)> -> string

  ghost predicate Injective(dumps: Dumps) {
    forall a, b :: dumps(a) == dumps(b) ==> a == b
  }

  /** `CacheEntry(data, expires_at)`. */
  datatype Entry = Entry(data: Value, expiresAt: real)

  /** The items of `d` in the order of their names: `sorted(d.items())`. */
  function SortedItems(d: map<string, Value>): (r: seq<(string, Value)>)
    ensures |r| == |d|
    ensures forall i :: 0 <= i < |r| ==> r[i].0 in d && r[i].1 == d[r[i].0]
    ensures forall k :: k in d ==> exists i :: 0 <= i < |r| && r[i].0 == k
  {
    var ks := Text.SortedKeys(d.Keys);
    var r := seq(|ks|, i requires 0 <= i < |ks| => (ks[i], d[ks[i]]));
    assert forall k :: k in d ==> exists i :: 0 <= i < |r| && r[i].0 == k by {
      forall k | k in d ensures exists i :: 0 <= i < |r| && r[i].0 == k {
        var i :| 0 <= i < |ks| && ks[i] == k;
        assert r[i].0 == k;
      }
    }
    r
  }

  /** The parameters a call passes, with `None` read as no parameters. */
  function Params(params: Option<Dict<string, Value>>): map<string, Value> {
    if params.Some? then params.value.entries else map[]
  }

  /** Equal sorted item lists come from equal parameter dicts. */
  lemma {:induction false} SortedItemsInjective(d1: map<string, Value>, d2: map<string, Value>)
    requires SortedItems(d1) == SortedItems(d2)
    ensures d1 == d2
  {
    var r := SortedItems(d1);
    forall k | k in d1 ensures k in d2 && d2[k] == d1[k] {
      var i :| 0 <= i < |r| && r[i].0 == k;
    }
    forall k | k in d2 ensures k in d1 {
      var i :| 0 <= i < |r| && r[i].0 == k;
    }
    assert d1.Keys == d2.Keys;
  }

  /** The parts `_generate_key` joins: the url, then the JSON text of the
      sorted items when the dict is non-empty. */
  function KeyParts(dumps: Dumps, url: string, params: Option<Dict<string, Value>>): (parts: seq<string>)
    ensures 1 <= |parts| <= 2 && parts[0] == url
    ensures |parts| == 2 <==> Params(params) != map[]
    ensures |parts| == 2 ==> parts[1] == dumps(SortedItems(Params(params)))
  {
    if params.Some? && params.value.entries != map[] then [url, dumps(SortedItems(params.value.entries))]
    else [url]
  }

  /** `_generate_key(url, params)`: the parts joined with an unescaped `|`. */
  function GenerateKey(dumps: Dumps, url: string, params: Option<Dict<string, Value>>): (k: CacheKey)
    ensures Params(params) == map[] ==> k == url
    ensures Params(params) != map[] ==> k == url + "|" + dumps(SortedItems(Params(params)))
  {
    Text.Join("|", KeyParts(dumps, url, params))
  }

  /** Equal requests get equal keys, whatever order the parameter dicts were
      built in, and `None` and `{}` give the same key. */
  lemma {:induction false} SameRequestSameKey(dumps: Dumps, u1: string, p1: Option<Dict<string, Value>>,
                                              u2: string, p2: Option<Dict<string, Value>>)
    requires u1 == u2 && Params(p1) == Params(p2)
    ensures GenerateKey(dumps, u1, p1) == GenerateKey(dumps, u2, p2)
  {
  }

  /** A key without parameters is its url, so it holds `|` only if the url does. */
  lemma {:induction false} BareKeyNoBar(dumps: Dumps, u: string, p: Option<Dict<string, Value>>)
    requires '|' !in u && Params(p) == map[]
    ensures '|' !in GenerateKey(dumps, u, p)
  {
  }

  /** In `u1|j1`, the character after `u1` is the separator; in a longer
      `u2|j2` it is a character of `u2`. */
  lemma {:induction false} BarAt(u1: string, j1: string, u2: string, j2: string)
    requires |u1| < |u2|
    ensures (u1 + "|" + j1)[|u1|] == '|' && (u2 + "|" + j2)[|u1|] == u2[|u1|]
  {
  }

  /** Splitting a joined text at its first `|` gives back both halves. */
  lemma {:induction false} SplitAtBar(u1: string, j1: string, u2: string, j2: string)
    requires '|' !in u1 && '|' !in u2
    requires u1 + "|" + j1 == u2 + "|" + j2
    ensures u1 == u2 && j1 == j2
  {
    var t := u1 + "|" + j1;
    if |u1| < |u2| {
      BarAt(u1, j1, u2, j2);
      assert false;
    } else if |u2| < |u1| {
      BarAt(u2, j2, u1, j1);
      assert false;
    }
    assert u1 == t[..|u1|] && u2 == t[..|u2|];
    assert j1 == t[|u1| + 1..];
  }

  /** For urls without `|` and an injective `json.dumps`, two calls address
      the same entry exactly when they name the same url and the same
      parameters. */
  lemma {:induction false} SameKeyIff(dumps: Dumps, u1: string, p1: Option<Dict<string, Value>>,
                                      u2: string, p2: Option<Dict<string, Value>>)
    requires Injective(dumps)
    requires '|' !in u1 && '|' !in u2
    ensures GenerateKey(dumps, u1, p1) == GenerateKey(dumps, u2, p2) <==> u1 == u2 && Params(p1) == Params(p2)
  {
    var k1, k2 := GenerateKey(dumps, u1, p1), GenerateKey(dumps, u2, p2);
    if u1 == u2 && Params(p1) == Params(p2) {
      SameRequestSameKey(dumps, u1, p1, u2, p2);
    }
    if k1 == k2 {
      var e1, e2 := Params(p1) == map[], Params(p2) == map[];
      if e1 && !e2 {
        BareKeyNoBar(dumps, u1, p1);
      } else if !e1 && e2 {
        BareKeyNoBar(dumps, u2, p2);
      } else if !e1 && !e2 {
        var s1, s2 := SortedItems(Params(p1)), SortedItems(Params(p2));
        SplitAtBar(u1, dumps(s1), u2, dumps(s2));
        SortedItemsInjective(Params(p1), Params(p2));
      }
    }
  }

  /** The join is not escaped: a url that already ends in `|` and a JSON text,
      passed without parameters, builds the same key as the shorter url with
      those parameters, so the two requests share one entry. */
  lemma {:induction false} KeyCollision(dumps: Dumps, url: string, params: Dict<string, Value>)
    requires params.entries != map[]
    ensures var long := url + "|" + dumps(SortedItems(params.entries));
      GenerateKey(dumps, long, None) == GenerateKey(dumps, url, Some(params))
      && long != url
  {
  }

  /** `ttl or self.default_ttl`: a missing or zero TTL falls back to the default. */
  function EffectiveTtl(ttl: Option<int>, defaultTtl: int): (t: int)
    ensures ttl.Some? && ttl.value != 0 ==> t == ttl.value
    ensures ttl.None? || ttl.value == 0 ==> t == defaultTtl
  {
    if TruthyInt(ttl) then ttl.value else defaultTtl
  }

  /** What `get` returns: the data of a live entry, otherwise nothing. */
  function Lookup(c: map<CacheKey, Entry>, k: CacheKey, now: real): (r: Option<Value>)
    ensures r.Some? <==> k in c && now < c[k].expiresAt
    ensures r.Some? ==> r.value == c[k].data
  {
    if k in c && now < c[k].expiresAt then Some(c[k].data) else None
  }

  /** The entries after `get`: an entry found expired is deleted. */
  function AfterLookup(c: map<CacheKey, Entry>, k: CacheKey, now: real): (c': map<CacheKey, Entry>)
    ensures Lookup(c, k, now).Some? ==> c' == c
    ensures Lookup(c, k, now).None? ==> c' == c - {k}
  {
    if k in c && now < c[k].expiresAt then c else c - {k}
  }

  /** A `get` never returns an expired entry and leaves no expired entry
      under its key. */
  lemma {:induction false} LookupNeverStale(c: map<CacheKey, Entry>, k: CacheKey, now: real)
    ensures Lookup(c, k, now).Some? ==> now < c[k].expiresAt
    ensures k in AfterLookup(c, k, now) ==> now < AfterLookup(c, k, now)[k].expiresAt
    ensures forall k' :: k' != k ==> (k' in AfterLookup(c, k, now) <==> k' in c)
  {
  }

  class ResponseCache {
    var cache: map<CacheKey, Entry>
    const defaultTtl: int
    /** The `json.dumps` the keys are built with. */
    const dumps: Dumps

    /** `ResponseCache(default_ttl=300)`. */
    constructor(defaultTtl: int, dumps: Dumps)
      ensures this.defaultTtl == defaultTtl && this.dumps == dumps && cache == map[]
    {
      this.defaultTtl := defaultTtl;
      this.dumps := dumps;
      cache := map[];
    }

    /** `get(url, params)` at time `now`. */
    method Get(url: string, params: Option<Dict<string, Value>>, now: real) returns (r: Option<Value>)
      modifies this
      ensures r == Lookup(old(cache), GenerateKey(dumps, url, params), now)
      ensures cache == AfterLookup(old(cache), GenerateKey(dumps, url, params), now)
    {
      var key := GenerateKey(dumps, url, params);
      if key in cache && now < cache[key].expiresAt {
        r := Some(cache[key].data);
      } else {
        r := None;
        if key in cache {
          cache := cache - {key};
        }
      }
    }

    /** `set(url, params, data, ttl)` at time `now`. */
    method Set(url: string, params: Option<Dict<string, Value>>, data: Value, ttl: Option<int>, now: real)
      modifies this
      ensures cache == old(cache)[GenerateKey(dumps, url, params) := Entry(data, now + EffectiveTtl(ttl, defaultTtl) as real)]
    {
      var key := GenerateKey(dumps, url, params);
      cache := cache[key := Entry(data, now + EffectiveTtl(ttl, defaultTtl) as real)];
    }

    /** `clear()`. */
    method Clear()
      modifies this
      ensures cache == map[]
    {
      cache := map[];
    }

    /** `remove(url, params)`: deletes that entry only; absent is a no-op. */
    method Remove(url: string, params: Option<Dict<string, Value>>)
      modifies this
      ensures cache == old(cache) - {GenerateKey(dumps, url, params)}
    {
      var key := GenerateKey(dumps, url, params);
      cache := cache - {key};
    }

    /** `set_ttl(url, params, ttl)` at time `now`: re-times an existing entry,
        never inserts one. */
    method SetTtl(url: string, params: Option<Dict<string, Value>>, ttl: int, now: real)
      modifies this
      ensures cache.Keys == old(cache).Keys
      ensures var key := GenerateKey(dumps, url, params);
        key in cache ==> cache == old(cache)[key := Entry(old(cache)[key].data, now + ttl as real)]
      ensures GenerateKey(dumps, url, params) !in old(cache) ==> cache == old(cache)
    {
      var key := GenerateKey(dumps, url, params);
      if key in cache {
        cache := cache[key := Entry(cache[key].data, now + ttl as real)];
      }
    }
  }

  /** A `set` followed by a `get` of the same request returns the stored data
      until the TTL has run out, and nothing from then on; the parameters may
      be given as any dict with the same items. */
  lemma {:induction false} SetThenGet(dumps: Dumps, c: map<CacheKey, Entry>, url: string,
                                      p1: Option<Dict<string, Value>>, p2: Option<Dict<string, Value>>,
                                      data: Value, ttl: Option<int>, defaultTtl: int, now: real, later: real)
    requires Params(p1) == Params(p2)
    ensures var c' := c[GenerateKey(dumps, url, p1) := Entry(data, now + EffectiveTtl(ttl, defaultTtl) as real)];
      && (later < now + EffectiveTtl(ttl, defaultTtl) as real ==> Lookup(c', GenerateKey(dumps, url, p2), later) == Some(data))
      && (later >= now + EffectiveTtl(ttl, defaultTtl) as real ==> Lookup(c', GenerateKey(dumps, url, p2), later) == None)
  {
    SameRequestSameKey(dumps, url, p1, url, p2);
  }

  /** Of two colliding requests, a `get` of one reads what a `set` of the
      other stored. */
  lemma {:induction false} CollisionReadsOther(dumps: Dumps, c: map<CacheKey, Entry>, url: string,
                                               params: Dict<string, Value>, data: Value, ttl: Option<int>,
                                               defaultTtl: int, now: real, later: real)
    requires params.entries != map[]
    requires later < now + EffectiveTtl(ttl, defaultTtl) as real
    ensures var long := url + "|" + dumps(SortedItems(params.entries));
      var c' := c[GenerateKey(dumps, long, None) := Entry(data, now + EffectiveTtl(ttl, defaultTtl) as real)];
      Lookup(c', GenerateKey(dumps, url, Some(params)), later) == Some(data)
  {
    KeyCollision(dumps, url, params);
  }
}
