# ani-sage recommendation core, modelled in Dafny

This project models the recommendation core of ani-sage, an anime recommender, and proves properties of that model.

The heart of the model is the multi-signal scorer and ranker of `src/ai/recommendation/engine.py`. It fuses five relevance signals into one weighted average:

- genre affinity;
- studio match;
- mood relevance, through each mood's emotions and themes;
- sentiment similarity with the items the user loved;
- colour and visual-style match.

Around that score the engine keeps an id-keyed catalogue. It memoises cosine similarity in both items' caches and caches trailer lookups. It excludes rated items, sorts stably by score and cuts the list to a limit. In demo mode it makes up trailers and visual profiles from the title.

The supporting pieces are modelled as well:

- the user's preference profile and the per-user profile store;
- the colour-preference matcher and the visual similarity of two profiles;
- the palette classifier over RGB colours, and the terminal colour escapes;
- an item's feature vector;
- the recommendation records and their dict form;
- the reply handling of the sentiment analyser, its mock and its singleton;
- the TTL response cache and the token-bucket rate limiter of the API layer;
- the simplified engine of the offline demo script;
- the two error hierarchies.

Every file of the model is one Dafny module:

| module | models |
|---|---|
| `AnimeModel` (`anime.dfy`) | `src/ai/models/anime.py` |
| `Recommendations` (`rec_models.dfy`) | `src/ai/recommendation/models.py` |
| `Scoring` (`scoring.dfy`), `Engine` (`engine.dfy`) | `src/ai/recommendation/engine.py` |
| `Preferences` (`user_preferences.dfy`) | `src/ai/preferences/user_preferences.py` |
| `ColorPreferences` (`color_preferences.dfy`) | `src/ai/preferences/color_preferences.py` |
| `ColorAnalysis` (`color_analysis.dfy`) | `src/api/media/color_analysis.py` |
| `Sentiment` (`sentiment.dfy`) | `src/ai/sentiment/analyzer.py` |
| `Cache` (`cache.dfy`) | `src/api/core/cache.py` |
| `RateLimit` (`rate_limit.dfy`) | `src/api/core/rate_limit.py` |
| `Errors` (`errors.dfy`) | `src/utils/errors.py` |
| `ApiErrors` (`api_errors.dfy`) | `src/api/core/errors.py` |
| `Demo` (`demo.dfy`) | `scripts/demo_recommendations.py` |
| `Common`, `PyDict`, `Text`, `Ranking`, `Values` | Python's `min`/`max`/`abs`, insertion-ordered `dict`, string operations, `list.sort` with slicing, and JSON-like values |

Classes model the objects whose fields the source updates in place. These are the engine, the item (its features, visual profile and similarity cache), the preference profile and its store, the response cache, the rate limiter, the analyser singleton and the demo engine. Each of their methods is proved against a function of the old state. Pure code is modelled as functions over datatypes.

Scores are exact `real`s. Everything the core reads from outside the program is an explicit input:

- Clock readings are a parameter `now`. The rate limiter's `acquire` takes the sequence of readings its refills see.
- The language model's reply is a parameter, and so are the trailer search, the thumbnail analysis and the sentiment analysis.
- Python's `math.sqrt` is a function parameter. A precondition says that it is the non-negative square root.
- The SHA-256 of the cache key is taken to be injective, so the key is the text it hashes: the url, then `|` and the `json.dumps` text of the sorted parameters when there are any. `json.dumps` is a function parameter; the lemmas that need distinct parameter lists to give distinct texts require it to be injective.

## Model

| member | source | states |
|---|---|---|
| Errors.NewError | src/utils/errors.py:30-41 | `AniSageError(message, code, details, level)` keeps message, code and level, has no status code, and turns a missing `details` into the empty dict |
| Errors.DefaultError | src/utils/errors.py:30-50 | with every default the details are empty, the level is "ERROR", the code is `None`, so `to_dict()["error"]` is the class name "AniSageError" |
| Errors.ToDict | src/utils/errors.py:43-50 | exactly the four keys error, message, details, level; "error" is the code when it is a non-empty string and the class name otherwise; the other three pass the fields through |
| Errors.NewApiError | src/utils/errors.py:71-81 | class APIError, level "ERROR", code passed through, `details or {}`, and the status code kept |
| Errors.NewValidationError | src/utils/errors.py:84-90 | fails (indexing `None`) exactly when a non-empty field meets an explicit `details=None`; otherwise code "VALIDATION_ERROR", level "WARNING", `details["field"]` set to the field exactly when one is given, every other key of the given details kept unchanged and nothing else added |
| Errors.NewAnalysisError | src/utils/errors.py:93-105 | code defaults to "ANALYSIS_ERROR" (an empty code too), level "ERROR"; `details["model"]` is the model exactly when one is given; every other key is the given details' own |
| ApiErrors.NewApiError | src/api/core/errors.py:13-29 | code is the given one when non-empty and "API_ERROR" otherwise; `details or {}` |
| ApiErrors.FixedCode | src/api/core/errors.py:32-106 | every subclass has a non-empty fixed code distinct from the base class default "API_ERROR" |
| ApiErrors.NewFixedError | src/api/core/errors.py:32-52 | AuthenticationError, ValidationError, QuotaExceededError and NetworkError carry the codes AUTH_ERROR, VALIDATION_ERROR, QUOTA_EXCEEDED_ERROR and NETWORK_ERROR and keep the given details |
| ApiErrors.NewRateLimitError | src/api/core/errors.py:54-66 | code RATE_LIMIT_ERROR; `retry_after` is recorded exactly when it is non-zero (0 and `None` are omitted); every other detail key is the caller's own |
| ApiErrors.NewResourceNotFoundError | src/api/core/errors.py:91-106 | code RESOURCE_NOT_FOUND; `resource_type` and `resource_id` are added exactly when each is given; every other detail key is the caller's own |
| Cache.SortedItems | src/api/core/cache.py:24 | the sorted item list has one item per parameter, each carrying that parameter's value, and every parameter appears in it |
| Cache.KeyParts | src/api/core/cache.py:21-25 | the parts are the url, followed by the JSON text of the sorted items exactly when the parameter dict is non-empty (`None` and `{}` add nothing) |
| Cache.GenerateKey | src/api/core/cache.py:19-28 | the key is the url alone without parameters, and otherwise the url, a bar separator and the JSON text of the sorted items |
| Cache.SortedItemsInjective | src/api/core/cache.py:24-25 | two parameter dicts with the same sorted item list are the same dict |
| Cache.SameRequestSameKey | src/api/core/cache.py:19-28 | the same url with equal parameters gives the same key, whatever order the dicts were built in; `None` and `{}` give the same key |
| Cache.SameKeyIff | src/api/core/cache.py:19-28 | for urls without a bar and an injective `json.dumps`, two calls get the same key exactly when they pass the same url and the same parameters |
| Cache.KeyCollision | src/api/core/cache.py:21-27 | the unescaped join: a url made of `u`, a bar and the JSON text of some items, passed without parameters, gets the same key as `u` with those parameters, although the urls differ |
| Cache.CollisionReadsOther | src/api/core/cache.py:30-53 | of two colliding requests, a `get` of one returns, before expiry, the data a `set` of the other stored |
| Cache.EffectiveTtl | src/api/core/cache.py:52 | `ttl or default_ttl`: a given non-zero TTL is used, `None` or 0 falls back to the default |
| Cache.Lookup | src/api/core/cache.py:30-36 | data comes back exactly when an entry exists and the clock is before its expiry, and it is that entry's data |
| Cache.AfterLookup | src/api/core/cache.py:38-41 | a hit leaves the entries unchanged; a miss deletes the entry under that key, if any, and nothing else |
| Cache.LookupNeverStale | src/api/core/cache.py:30-41 | `get` never returns expired data, leaves no expired entry under its key and touches no other key |
| Cache.ResponseCache.constructor | src/api/core/cache.py:15-17 | an empty cache with the given default TTL |
| Cache.ResponseCache.Get | src/api/core/cache.py:30-41 | returns the lookup result and leaves the entries as the lookup prescribes (expired entry deleted) |
| Cache.ResponseCache.Set | src/api/core/cache.py:43-53 | stores the data under the request's key, expiring at now plus the effective TTL; every other entry is unchanged |
| Cache.ResponseCache.Clear | src/api/core/cache.py:55-57 | no entries remain |
| Cache.ResponseCache.Remove | src/api/core/cache.py:59-62 | deletes that key only; an absent key is a no-op |
| Cache.ResponseCache.SetTtl | src/api/core/cache.py:64-69 | never adds or removes a key; an existing entry keeps its data and expires at now plus the TTL, the others are unchanged; without an entry for the request nothing changes |
| Cache.SetThenGet | src/api/core/cache.py:30-53 | after `set`, a `get` of the same url with equal parameters (any dict order) returns the data before expiry and nothing at or after it |
| RateLimit.Refill | src/api/core/rate_limit.py:22-29 | the refill time becomes `now`; tokens become `min(burst, tokens + elapsed·rate)`, so never more than `burst` |
| RateLimit.RefillMonotone | src/api/core/rate_limit.py:22-29 | when the clock has not gone back, the rate is non-negative and the bucket is within `burst`, a refill never loses tokens |
| RateLimit.AcquireRun | src/api/core/rate_limit.py:31-40 | when `acquire` returns, the bucket is non-negative, and without a refill it dropped by exactly `n`; when it has not returned, fewer than `n` tokens are available |
| RateLimit.AcquireOverBurstNeverReturns | src/api/core/rate_limit.py:28-38 | a request for more than `burst` tokens from a bucket within `burst` never returns, however far the clock advances |
| RateLimit.AcquireKeepsBound | src/api/core/rate_limit.py:28-40 | a bucket within `burst` stays within `burst` through `acquire` |
| RateLimit.AcquireReturnsWhenRefilled | src/api/core/rate_limit.py:31-40 | at a positive rate, a request within `burst` returns at the first refill that has accrued enough tokens |
| RateLimit.EndpointBurst | src/api/core/rate_limit.py:51-52 | `burst or int(rate * 2)`: a given non-zero burst is used, `None` or 0 gives the truncated double rate |
| RateLimit.RateLimiter.constructor | src/api/core/rate_limit.py:8-20 | the bucket starts full (`tokens == burst`) at the clock reading, with no endpoint limits |
| RateLimit.RateLimiter.AddTokens | src/api/core/rate_limit.py:22-29 | the bucket becomes its refill at `now`; endpoint limits are untouched |
| RateLimit.RateLimiter.Acquire | src/api/core/rate_limit.py:31-40 | the outcome and the new bucket are those of the run from the old bucket over the clock readings; endpoint limits are untouched |
| RateLimit.RateLimiter.SetEndpointLimit | src/api/core/rate_limit.py:42-54 | the endpoint's entry is replaced by one whose burst and tokens are both the effective burst, stamped `now`; the global bucket and other endpoints are untouched |
| RateLimit.RateLimiter.RemoveEndpointLimit | src/api/core/rate_limit.py:56-58 | that endpoint's entry is gone, an absent one is a no-op, the rest is untouched |
| Preferences.RatingScale.Value | src/ai/preferences/user_preferences.py:19-25 | every rating's value lies in 1..5 |
| Preferences.RatingFromInt | src/ai/preferences/user_preferences.py:19-25 | `RatingScale(n)` succeeds exactly for 1..5, with the member whose value is `n`, and raises `ValueError` otherwise |
| Preferences.RatingRoundTrip | src/ai/preferences/user_preferences.py:19-25 | converting a rating's value back gives the same rating |
| Preferences.MoodFromString | src/ai/preferences/user_preferences.py:28-38 | `Mood(s)` gives a member whose value is `s`, or `ValueError` naming `s` |
| Preferences.MoodRoundTrip | src/ai/preferences/user_preferences.py:28-38 | every mood converts back from its value, and a string is refused exactly when no mood has it as value |
| Preferences.ToScale | src/ai/preferences/user_preferences.py:111-112 | an int score is converted, and fails exactly outside 1..5; a rating member passes unchanged |
| Preferences.ToMood | src/ai/preferences/user_preferences.py:159-160 | a mood member passes unchanged; a string converts to the mood with that value |
| Preferences.UserPreferences.constructor | src/ai/preferences/user_preferences.py:55-101 | a new profile has no ratings, weights, studios or demographics, mood `ANY`, and `last_updated` the clock reading |
| Preferences.UserPreferences.AddRating | src/ai/preferences/user_preferences.py:103-123 | an int outside 1..5 raises and nothing changes; otherwise the rating (converted score, clock, notes) replaces any earlier one for that id and keeps the others, `last_updated` becomes the clock reading, and no other field changes |
| Preferences.UserPreferences.UpdateGenrePreference | src/ai/preferences/user_preferences.py:125-137 | the genre's weight becomes the weight clamped to [-1, 1], other genres keep theirs, `last_updated` becomes the clock reading, and no other field changes; the profile invariant (all weights in [-1, 1]) is kept |
| Preferences.UserPreferences.UpdateThemePreference | src/ai/preferences/user_preferences.py:139-151 | the same for the theme weights |
| Preferences.UserPreferences.SetMood | src/ai/preferences/user_preferences.py:153-164 | a string naming no mood raises before the assignment and leaves mood and clock as they were; otherwise the mood is set and `last_updated` becomes the clock reading; no other field changes |
| Preferences.UserPreferences.AddFavoriteStudio | src/ai/preferences/user_preferences.py:166-174 | the studio is in the set afterwards (adding it twice is the same as once); `last_updated` becomes the clock reading |
| Preferences.UserPreferences.RemoveFavoriteStudio | src/ai/preferences/user_preferences.py:176-185 | the studio is not in the set afterwards; only a studio that was present moves `last_updated`; removing an absent one changes nothing |
| Preferences.UserPreferences.GetFeatureVector | src/ai/preferences/user_preferences.py:187-215 | returns the feature vector of the profile's current weights, studios, demographics and mood |
| Preferences.BuildFeatureVector | src/ai/preferences/user_preferences.py:193-215 | the five loops (genres, themes, studios, demographics, then the mood flag) build exactly the feature vector |
| Preferences.AddPrefixed | src/ai/preferences/user_preferences.py:196-201 | one dictionary loop adds `prefix + key` with that key's weight for every key in iteration order |
| Preferences.AddFlags | src/ai/preferences/user_preferences.py:204-205 | the studio loop adds `studio_<s>` = 1.0 for every favourite, whatever order the set is walked in |
| Preferences.PrefixedKeys | src/ai/preferences/user_preferences.py:196-209 | a prefixed group has exactly the keys `prefix + k` for its own keys, each with k's weight |
| Preferences.PrefixedSize | src/ai/preferences/user_preferences.py:196-209 | a prefixed group has one entry per key |
| Preferences.FlagsKeys | src/ai/preferences/user_preferences.py:204-205 | the studio group has exactly the keys `studio_<s>` for favourite studios, each 1.0 |
| Preferences.FlagsSize | src/ai/preferences/user_preferences.py:204-205 | the studio group has one entry per favourite studio |
| Preferences.GroupPrefixes | src/ai/preferences/user_preferences.py:196-213 | every key of each group starts with that group's prefix `genre_`, `theme_`, `studio_`, `demographic_` or `mood_` |
| Preferences.FeatureVectorEntries | src/ai/preferences/user_preferences.py:193-215 | each genre, theme and demographic appears under its prefixed key with its weight, each favourite studio with 1.0, and a mood other than `ANY` as `mood_<value>` = 1.0 |
| Preferences.FeatureVectorSize | src/ai/preferences/user_preferences.py:193-215 | because the prefixes never collide, the vector's size is the number of genres + themes + studios + demographics, plus one exactly when the mood is not `ANY` |
| Preferences.PreferenceStore.constructor | src/ai/preferences/user_preferences.py:219 | the store starts empty |
| Preferences.PreferenceStore.GetUserPreferences | src/ai/preferences/user_preferences.py:222-237 | a known id returns the stored profile and leaves the store alone; an unknown id creates a fresh default profile (mood `ANY`), stores it under that id only and returns it, so later calls return that same object |
| PyDict.Dict.Get | src/ai/recommendation/engine.py:703 | `d.get(k)` finds a value exactly for a stored key, and it is that key's value |
| PyDict.Dict.Put | src/ai/recommendation/engine.py:192-199 | `d[k] = v`: the key maps to `v` afterwards; an existing key keeps its place in the iteration order, a new key goes last; the dict stays well formed |
| Text.SortedKeys | src/ai/models/anime.py:137-153 | `sorted(d.keys())`: every key exactly once, in strictly increasing code-point order |
| Text.Lower | src/ai/sentiment/analyzer.py:220-244 | `s.lower()` (ASCII letters): same length, each character folded on its own |
| Text.CountChar | src/ai/sentiment/analyzer.py:226 | `s.count(c)` is at most the length of `s` |
| Text.Find | src/ai/sentiment/analyzer.py:138 | `s.find(c)` is -1 exactly when `c` is absent, and otherwise the first index holding `c` |
| Text.RFind | src/ai/sentiment/analyzer.py:139 | `s.rfind(c)` is -1 exactly when `c` is absent, and otherwise the last index holding `c` |
| Text.SplitJoin | src/api/media/color_analysis.py:242-266 | splitting the `;`-joined parameter list of an escape sequence gives the parameters back (none contains `;`) |
| Text.ParseNatToString | src/api/media/color_analysis.py:242-266 | the decimal text of a channel value parses back to that value |
| Ranking.SortDescPermutes | src/ai/recommendation/engine.py:736 | `results.sort(key=score, reverse=True)` is a permutation of the results |
| Ranking.SortDescSorted | src/ai/recommendation/engine.py:736 | after the sort, scores are non-increasing |
| Ranking.SortDescStable | src/ai/recommendation/engine.py:736 | the sort is stable: for every score, the results with that score keep their input order, also with `reverse=True` |
| Ranking.SortDescRanked | src/ai/recommendation/engine.py:736 | when the input lists results by increasing position, the sorted list orders equal scores by that position |
| Ranking.SliceLen | src/ai/recommendation/engine.py:737 | the length of `xs[:limit]`: `min(limit, n)` for `limit >= 0`, and `max(0, n + limit)` for a negative limit |
| Ranking.SliceTo | src/ai/recommendation/engine.py:737 | `xs[:limit]` is the prefix of that length |
| Ranking.TopSpec | src/ai/recommendation/engine.py:736-737 | sort-then-slice returns as many results as the slice gives, in non-increasing order, drawn from the input, and every result left out scores at most what every kept one scores |
| AnimeModel.ValuesAtSpec | src/ai/models/anime.py:137-154 | one value per listed key, each `d.get(k, 0.0)` |
| AnimeModel.SortedValuesSpec | src/ai/models/anime.py:137-154 | a dict's block has one value per key, position `i` holding the value of the `i`-th smallest key, so the block depends on the dict's contents and not on its insertion order |
| AnimeModel.FeatureVectorLength | src/ai/models/anime.py:134-156 | the vector's length is the sum of the sizes of the five feature dicts |
| AnimeModel.EmptyFeatureVector | src/ai/models/anime.py:47-59 | default features flatten to the empty vector |
| AnimeModel.AppendSortedValues | src/ai/models/anime.py:137-138 | one loop appends the dict's values in sorted-key order to the vector |
| AnimeModel.Anime.constructor | src/ai/models/anime.py:70-118 | every field holds the given value or its declared default (type and status `UNKNOWN`, empty lists and features, no visual profile) and the similarity cache starts empty |
| AnimeModel.Anime.GetFeatureVector | src/ai/models/anime.py:124-156 | the five sorted-key blocks of the feature dicts, concatenated in the order genres, themes, sentiment, emotions, demographics |
| AnimeModel.NewAnimeDefaults | src/ai/models/anime.py:100-109 | the vector reads the feature dicts and not the genre list: a new item built with genres has an empty vector |
| Recommendations.Recommendation.ToDict | src/ai/recommendation/models.py:27-42 | exactly the eight keys anime, score, rationale, match_factors and the four trailer fields, each holding its field (the item through its encoder) |
| Recommendations.EncodeFactors | src/ai/recommendation/models.py:37 | the match factors keep their keys, each value a float |
| Recommendations.FromDict | src/ai/recommendation/models.py:44-63 | a missing or falsy "anime" fails; on success the item is the decoded "anime", a missing score is 0.0, a missing rationale "", missing match factors {} and missing trailer fields `None` |
| Recommendations.FromDictDefaults | src/ai/recommendation/models.py:54-63 | a dict with nothing but a decodable item gives a recommendation with every default |
| Recommendations.FactorsRoundTrip | src/ai/recommendation/models.py:37-58 | the match factors read back what `to_dict` wrote |
| Recommendations.RoundTrip | src/ai/recommendation/models.py:27-63 | `from_dict(to_dict(r))` gives back every field of `r`, the item going through its own encoder and decoder |
| Recommendations.FromDicts | src/ai/recommendation/models.py:100-101 | decoding a list succeeds exactly when every entry is a dict that decodes, and then gives one recommendation per entry, in order |
| Recommendations.FromDictsPrefix | src/ai/recommendation/models.py:100-101 | an entry that fails makes the whole list fail; no partial list comes back |
| Recommendations.Iterate | src/ai/recommendation/models.py:100 | a `for` loop visits a list's elements, a string's characters (one-character strings, in order) and a dict's keys; None, booleans and numbers are not iterable |
| Recommendations.ListItems | src/ai/recommendation/models.py:100 | a missing "recommendations" key reads as the empty list; a present value gives what iterating it visits, and a failure exactly when it is not iterable |
| Recommendations.IterableRecommendations | src/ai/recommendation/models.py:89-102 | an empty list, string or dict under "recommendations" gives no entries; a non-empty string or dict gives entries that are not dicts, so decoding fails |
| Recommendations.RecommendationList.constructor | src/ai/recommendation/models.py:66-69 | a new list is empty |
| Recommendations.RecommendationList.AddRecommendation | src/ai/recommendation/models.py:71-77 | appends at the end: earlier entries stay, the length grows by one |
| Recommendations.RecommendationList.ToDict | src/ai/recommendation/models.py:79-87 | the single key "recommendations", holding each entry's `to_dict`, in order |
| Recommendations.ListFromDict | src/ai/recommendation/models.py:89-102 | a fresh list holding the decoded entries in their order and number, an empty one without the key, and failure when any entry fails |
| Sentiment.JsonSpanSpec | src/ai/sentiment/analyzer.py:138-149 | a span is taken exactly when some `{` precedes some `}`; it then runs from the first `{` to the last `}`, both included, with no `{` before it and no `}` after it |
| Sentiment.JsonSpanFound | src/ai/sentiment/analyzer.py:138-145 | when `find('{')` is found and `rfind('}') + 1` lies beyond it, the slice between them is that span |
| Sentiment.JsonSpanMissing | src/ai/sentiment/analyzer.py:141-149 | when the guard fails, no `{` precedes any `}`, so the whole reply is parsed instead |
| Sentiment.FromObject | src/ai/sentiment/analyzer.py:152-159 | each field is the object's value when present and 0.0 or `{}` when absent; the raw analysis is the reply |
| Sentiment.Clean | src/ai/sentiment/analyzer.py:168-170 | the cleaned reply is no longer than the original and holds no control character and no single quote |
| Sentiment.Failure | src/ai/sentiment/analyzer.py:192-196 | the error raised is an `AnalysisError` with code "ANALYSIS_ERROR" |
| Sentiment.Analyze | src/ai/sentiment/analyzer.py:131-196 | a client error, or a reply neither attempt can turn into an object, raises `AnalysisError`, never a partial result; a first attempt that decodes to an object gives the defaults-filled result; a decode error falls back to the span of the cleaned reply; a decoded non-object raises |
| Sentiment.TextHashPrefix | src/ai/sentiment/analyzer.py:216 | the hash reads only the first 100 characters: texts agreeing on them hash alike |
| Sentiment.MockPositivity | src/ai/sentiment/analyzer.py:218-223 | 0.8 exactly when the lowercased text contains "happy", "fun" or "exciting"; otherwise -0.5 exactly when it contains "sad", "tragic" or "dark"; otherwise 0.2 (positive words take precedence) |
| Sentiment.MockIntensity | src/ai/sentiment/analyzer.py:226-227 | `min(0.5 + 0.1·count('!') + 0.05·count('?'), 1.0)` lies in [0.5, 1.0] |
| Sentiment.HashDigit | src/ai/sentiment/analyzer.py:231-235 | `(hash // 10^k) % 10` is a decimal digit |
| Sentiment.MockEmotions | src/ai/sentiment/analyzer.py:230-236 | exactly the five emotions joy, sadness, anger, fear, surprise, each clamped into [0, 1] |
| Sentiment.MockEmotionsUnclamped | src/ai/sentiment/analyzer.py:230-236 | the clamps never bind: each emotion equals its raw formula, which lies in [0.2, 0.92] |
| Sentiment.MockThemes | src/ai/sentiment/analyzer.py:239-245 | exactly the five themes adventure, romance, comedy, action, drama |
| Sentiment.MockThemesRange | src/ai/sentiment/analyzer.py:239-245 | every mock theme weight lies strictly between 0 and 1 |
| Sentiment.MockAnalyze | src/ai/sentiment/analyzer.py:206-262 | the mock is a function of the text alone: its positivity and intensity, five emotions in [0, 1], five themes in (0, 1), and a constant audience and raw analysis |
| Sentiment.Analyzer.constructor | src/ai/sentiment/analyzer.py:199-204 | an analyser records whether it is the mock |
| Sentiment.AnalyzerSingleton.constructor | src/ai/sentiment/analyzer.py:265 | the slot starts empty |
| Sentiment.AnalyzerSingleton.Get | src/ai/sentiment/analyzer.py:268-292 | an existing instance is returned unchanged whatever `demo_mode` says; otherwise a fresh one is stored and returned, the mock exactly when in demo mode or when the real client cannot be built |
| Sentiment.SingletonStable | src/ai/sentiment/analyzer.py:277-292 | two successive calls, with any `demo_mode` values, return the same instance |
| Sentiment.AnalyzeWith | src/ai/sentiment/analyzer.py:206-262 | the mock gives its deterministic result; the real analyser gives the reply handling above |
| ColorAnalysis.Brightness | src/api/media/color_analysis.py:70-81 | `(0.299r + 0.587g + 0.114b) / 255` lies in [0, 1] for channels in 0..255, and a grey `(v, v, v)` has brightness `v / 255` |
| ColorAnalysis.Saturation | src/api/media/color_analysis.py:83-102 | 0 when the largest channel is 0, otherwise `(max - min) / max`, which lies in [0, 1] for non-negative channels and is 0 for a grey |
| ColorAnalysis.MaxBrightness | src/api/media/color_analysis.py:124-125 | `max(brightnesses)`: no colour is brighter, and some colour has it |
| ColorAnalysis.MinBrightness | src/api/media/color_analysis.py:124-125 | `min(brightnesses)`: no colour is darker, and some colour has it |
| ColorAnalysis.Count | src/api/media/color_analysis.py:165-193 | the number of colours passing a test is at most the number of colours |
| ColorAnalysis.BrightnessTotal | src/api/media/color_analysis.py:119 | the generator sum of the brightnesses |
| ColorAnalysis.SaturationTotal | src/api/media/color_analysis.py:120 | the generator sum of the saturations |
| ColorAnalysis.SpreadTotal | src/api/media/color_analysis.py:152 | the generator sum of `abs(r - g) + abs(g - b) + abs(b - r)` |
| ColorAnalysis.BrightnessRange | src/api/media/color_analysis.py:124-125 | the brightest minus the darkest colour's brightness |
| ColorAnalysis.ComputeStats | src/api/media/color_analysis.py:118-154 | average brightness, average saturation, average spread, and a contrast that is the brightness range for two or more colours and 0.0 for one |
| ColorAnalysis.CountScore | src/api/media/color_analysis.py:165-192 | one of the neon, warm, cool or earthy loops adds 0.2 per qualifying colour |
| ColorAnalysis.DetermineColorPalette | src/api/media/color_analysis.py:104-195 | the returned dict has an entry for every palette, each equal to that palette's threshold rule over the colours |
| ColorAnalysis.PaletteScoresComplete | src/api/media/color_analysis.py:113-116 | every palette member has an entry, and an empty colour list scores 0.0 for all of them |
| ColorAnalysis.PastelBounds | src/api/media/color_analysis.py:144-145 | the pastel score lies in [0, 1] |
| ColorAnalysis.MutedBounds | src/api/media/color_analysis.py:161-162 | the muted score lies in [0, 1] |
| ColorAnalysis.ThresholdBounds | src/api/media/color_analysis.py:139-162 | the six threshold rules give scores in [0, 1] for any statistics with a non-negative colour spread |
| ColorAnalysis.ScoreBounds | src/api/media/color_analysis.py:139-193 | every palette score lies in [0, 1] |
| ColorAnalysis.HighContrastNeedsSpread | src/api/media/color_analysis.py:122-158 | a positive high-contrast score needs two or more colours whose brightness range exceeds 0.7; a single colour never scores it |
| ColorAnalysis.CountNone | src/api/media/color_analysis.py:165-193 | no qualifying colour gives a count of 0 |
| ColorAnalysis.CountAll | src/api/media/color_analysis.py:165-193 | all colours qualifying gives a count of the whole list |
| ColorAnalysis.WarmScore | src/api/media/color_analysis.py:173-178 | `min(1, 0.2 × warm colours)`: five or more warm colours score 1.0 and none scores 0.0 |
| ColorAnalysis.CoolScore | src/api/media/color_analysis.py:180-185 | the same for cool colours |
| ColorAnalysis.NeonNeedsSaturation | src/api/media/color_analysis.py:164-171 | with average saturation at most 0.8 the neon score is 0 whatever the channels |
| ColorAnalysis.EarthyNeedsLowSaturation | src/api/media/color_analysis.py:187-193 | with average saturation at least 0.6 the earthy score is 0 |
| ColorAnalysis.AnsiIsSgr | src/api/media/color_analysis.py:242-266 | `rgb_to_ansi` and `rgb_to_ansi_bg` are the SGR sequences (section 8.3.117 of ECMA-48) with parameters 38 or 48, then 2, then the three channels |
| ColorAnalysis.SgrColorShape | src/api/media/color_analysis.py:242-266 | a colour SGR sequence spelled out: `ESC [ sel;2;r;g;b m` |
| ColorAnalysis.SgrColorRoundTrip | src/api/media/color_analysis.py:242-266 | reading back a colour SGR sequence gives its selector and channels |
| ColorAnalysis.AnsiRoundTrip | src/api/media/color_analysis.py:242-266 | the foreground sequence reads back as selector 38, the background one as 48, each with the same channels |
| ColorPreferences.AllPalettesComplete | src/ai/preferences/color_preferences.py:19-30 | every palette is listed in the enum's iteration order |
| ColorPreferences.AllStylesComplete | src/ai/preferences/color_preferences.py:33-44 | every visual style is listed in the enum's iteration order |
| ColorPreferences.EnumsDistinct | src/ai/preferences/color_preferences.py:19-44 | each palette and each style is visited once |
| ColorPreferences.ComputePartSimilarity | src/ai/preferences/color_preferences.py:182-210 | the palette (or style) loop: the sum of `1 - abs(v1 - v2)` over members positive in either profile, divided by their number when there is one |
| ColorPreferences.CalculateVisualSimilarity | src/ai/preferences/color_preferences.py:172-220 | `0.4·palette + 0.4·style + 0.2·property similarity`, the property part being the mean of the three `1 - abs(difference)` terms |
| ColorPreferences.PartSymmetric | src/ai/preferences/color_preferences.py:186-210 | the sum and count of one part do not depend on the order of the profiles |
| ColorPreferences.PartZero | src/ai/preferences/color_preferences.py:194-210 | a part with no member counted sums to 0, so the undivided result is 0 |
| ColorPreferences.VisualSimilaritySymmetric | src/ai/preferences/color_preferences.py:182-220 | the similarity of two profiles is symmetric |
| ColorPreferences.PartSelf | src/ai/preferences/color_preferences.py:186-195 | against itself each counted term is 1, and a member is counted exactly when the profile gives it a positive value |
| ColorPreferences.PartSelfSimilarity | src/ai/preferences/color_preferences.py:186-210 | one part against itself is 1 if some member is present and 0 if none is |
| ColorPreferences.SelfSimilarity | src/ai/preferences/color_preferences.py:182-220 | a profile against itself scores 1.0 when it has some palette and some style, and 0.2 when it has neither |
| ColorPreferences.PartBounds | src/ai/preferences/color_preferences.py:186-210 | with presence values in [0, 1], the part sum lies between 0 and the count, and the part similarity lies in [0, 1] |
| ColorPreferences.VisualSimilarityBounds | src/ai/preferences/color_preferences.py:172-220 | with every presence value and overall property in [0, 1], the similarity lies in [0, 1] |
| ColorPreferences.ContributionOfZero | src/ai/preferences/color_preferences.py:240-252 | a zero preference adds nothing to the weighted match |
| ColorPreferences.ContributionBounds | src/ai/preferences/color_preferences.py:240-252 | one preference adds between 0 and `abs(w)` when its presence value lies in [0, 1] |
| ColorPreferences.MatchValueBounds | src/ai/preferences/color_preferences.py:247-250 | the match of a presence value in [0, 1] lies in [0, 1], for either sign of the weight |
| ColorPreferences.ComputeSideMatch | src/ai/preferences/color_preferences.py:234-278 | one side's loop over the preference dict in insertion order: the sum of `abs(w)`, and the `abs(w)`-weighted mean match, with `1 - presence` for a negative weight and a missing tag at presence 0 |
| ColorPreferences.CalculatePreferenceMatch | src/ai/preferences/color_preferences.py:222-288 | the palette and style sides combined by the precedence rule |
| ColorPreferences.WeightSumNonNegative | src/ai/preferences/color_preferences.py:240-241 | the weight sum is never negative |
| ColorPreferences.WeightSumPositiveIff | src/ai/preferences/color_preferences.py:238-288 | the weight sum is positive exactly when some preference is non-zero |
| ColorPreferences.WeightSumZeroMatch | src/ai/preferences/color_preferences.py:240-255 | a zero weight sum leaves the match at 0 |
| ColorPreferences.WeightSumPositive | src/ai/preferences/color_preferences.py:238-288 | the three weight-sum facts together: a side takes part exactly when it has a non-zero preference |
| ColorPreferences.WeightedMatchBounds | src/ai/preferences/color_preferences.py:238-255 | with presence values in [0, 1], the weighted match lies between 0 and the weight sum |
| ColorPreferences.SideMatchBounds | src/ai/preferences/color_preferences.py:238-278 | with presence values in [0, 1], one side's score lies in [0, 1] |
| ColorPreferences.PreferenceMatchProperties | src/ai/preferences/color_preferences.py:234-288 | both sides present give `0.6·palette + 0.4·style`; one side gives that side; neither, including all-zero weights, gives 0.5; presence values in [0, 1] give a match in [0, 1] |
| ColorPreferences.SinglePalettePreference | src/ai/preferences/color_preferences.py:247-284 | a single non-zero palette preference with no style preference scores that palette's presence, or its absence for a negative weight; -1.0 against presence 1.0 gives 0.0 |
| ColorPreferences.AverageMaps | src/ai/preferences/color_preferences.py:137-153 | the sum-then-divide loops over one dict give each key's sum over the profiles divided by their number |
| ColorPreferences.CombineProfiles | src/ai/preferences/color_preferences.py:133-170 | the combined profile, or the division by zero of an empty profile list |
| ColorPreferences.ExtractPaletteFromScreenshots | src/ai/preferences/color_preferences.py:102-170 | an empty list raises a division by zero; otherwise every screenshot is analysed to the empty placeholder profile, and so is the result |
| ColorPreferences.AddProfileSpec | src/ai/preferences/color_preferences.py:139-140 | adding one profile creates a key exactly when the profile has it, and adds its value, an absent key counting as 0 |
| ColorPreferences.SumMapsSpec | src/ai/preferences/color_preferences.py:137-140 | a key has a sum exactly when some profile has it, and the sum is that key's total over the profiles |
| ColorPreferences.DivideAllSpec | src/ai/preferences/color_preferences.py:143-144 | dividing keeps exactly the summed keys, each divided by the number of profiles |
| ColorPreferences.CombinedPalettes | src/ai/preferences/color_preferences.py:137-153 | a palette or style appears in the combined profile exactly when some profile has it, with the sum over all profiles divided by their number |
| ColorPreferences.SumAtBounds | src/ai/preferences/color_preferences.py:137-140 | values in [0, 1] sum to at most the number of profiles |
| ColorPreferences.CombinedBounds | src/ai/preferences/color_preferences.py:137-168 | averaged presence values in [0, 1] stay in [0, 1], and at most the first five concatenated dominant colours are kept |
| ColorPreferences.SumAtUniform | src/ai/preferences/color_preferences.py:137-140 | copies of one profile sum to n times its value |
| ColorPreferences.SumBrightnessUniform | src/ai/preferences/color_preferences.py:156 | the same for brightness |
| ColorPreferences.SumSaturationUniform | src/ai/preferences/color_preferences.py:157 | the same for saturation |
| ColorPreferences.SumContrastUniform | src/ai/preferences/color_preferences.py:158 | the same for contrast |
| ColorPreferences.AllColorsUniform | src/ai/preferences/color_preferences.py:162-164 | copies of a profile without dominant colours concatenate to none |
| ColorPreferences.AverageUniform | src/ai/preferences/color_preferences.py:137-153 | averaging copies of one profile gives back its dict |
| ColorPreferences.AverageUniformAt | src/ai/preferences/color_preferences.py:137-153 | the same, one key at a time |
| ColorPreferences.CombineUniformPalettes | src/ai/preferences/color_preferences.py:137-144 | averaging copies of one profile gives back its palettes |
| ColorPreferences.CombineUniformStyles | src/ai/preferences/color_preferences.py:147-153 | averaging copies of one profile gives back its styles |
| ColorPreferences.CombineUniform | src/ai/preferences/color_preferences.py:133-170 | combining copies of one profile gives back its palettes, styles, brightness, saturation and contrast |
| Scoring.MeanBounds | src/ai/recommendation/engine.py:315-316 | `sum(xs) / len(xs) if xs else 0.0` of values in [0, 1] lies in [0, 1] |
| Scoring.SumBounds | src/ai/recommendation/engine.py:315-316 | values in [0, 1] sum to at most their number |
| Scoring.ComputeGenreScore | src/ai/recommendation/engine.py:531-535 | the genre loop: the sum of the user's weights for the candidate's genres, a missing genre counting 0, divided by `max(1, len(genres))` and floored at 0 |
| Scoring.PrefSumBounds | src/ai/recommendation/engine.py:533-534 | with weights in [-1, 1], the sum lies within plus or minus the number of genres |
| Scoring.GenreScoreBounds | src/ai/recommendation/engine.py:531-535 | with weights in [-1, 1], the genre score lies in [0, 1], and it is 0 when the genres are disliked on balance |
| Scoring.ComputeStudioScore | src/ai/recommendation/engine.py:537-542 | 1.0 exactly when some studio of the candidate is a favourite, else 0.0 |
| Scoring.MoodRelevance | src/ai/recommendation/engine.py:253-319 | `Mood.ANY` gives 1.0; any other mood gives 0.6 of the mean emotion value plus 0.4 of the mean theme value, over that mood's fixed lists |
| Scoring.ValuesAtBounds | src/ai/recommendation/engine.py:307-312 | values looked up in a dict of values in [0, 1], a missing key giving 0.0, lie in [0, 1] |
| Scoring.MoodRelevanceBounds | src/ai/recommendation/engine.py:253-319 | emotion and theme values in [0, 1] give a relevance in [0, 1] |
| Scoring.MoodRelevanceLocal | src/ai/recommendation/engine.py:302-319 | only the emotions and themes the mood lists matter: two items that agree on them are equally relevant |
| Scoring.SentimentScore | src/ai/recommendation/engine.py:547-563 | 0.0 when the candidate has no sentiment or the user has no ratings |
| Scoring.ComputeSentimentScore | src/ai/recommendation/engine.py:547-563 | the sentiment loop: the positivities of catalogue items rated 4 or 5, in rating order, summed and divided by the number of ALL ratings, then `1 - abs(user - candidate positivity)` |
| Scoring.PositivitySumBounds | src/ai/recommendation/engine.py:550-555 | positivities in [lo, 1] sum to between `lo·n` and n over n ratings |
| Scoring.SentimentScoreBounds | src/ai/recommendation/engine.py:547-563 | positivities in [-1, 1] give a score in [-1, 1], and positivities in [0, 1] give one in [0, 1] |
| Scoring.PositivitySumUnloved | src/ai/recommendation/engine.py:551-555 | without a rating of 4 or 5 the user's positivity sum is 0 |
| Scoring.SentimentWithoutLovedRatings | src/ai/recommendation/engine.py:547-563 | without a rating of 4 or 5, however many ratings there are, the score is `1 - abs(candidate positivity)` |
| Scoring.ColorDicts | src/ai/recommendation/engine.py:578-585 | the two dicts built from the colour preferences are well formed |
| Scoring.BuildColorDicts | src/ai/recommendation/engine.py:578-585 | the loop that sends palette preferences to one dict and style preferences to the other |
| Scoring.ColorDictsLastWins | src/ai/recommendation/engine.py:581-585 | a palette is in the dict exactly when some preference names it, and it holds the weight of the last preference that does |
| Scoring.ComputeColorScore | src/ai/recommendation/engine.py:565-592 | 0.0 without colour preferences or without a profile; otherwise the preference match of the profile, when either dict is non-empty |
| Scoring.ColorScoreBounds | src/ai/recommendation/engine.py:565-592 | a profile with presence values in [0, 1] gives a colour score in [0, 1] |
| Scoring.Total | src/ai/recommendation/engine.py:594-603 | the weighted total raises a division by zero exactly when the five weights sum to 0 |
| Scoring.TotalBounds | src/ai/recommendation/engine.py:594-603 | with non-negative weights of positive sum, signals in [lo, 1] give a total in [lo, 1] |
| Scoring.TotalUniform | src/ai/recommendation/engine.py:594-603 | five equal signals give that signal back, whatever the weights |
| Scoring.DefaultTotal | src/ai/recommendation/engine.py:96-102 | the default weights sum to 2.0, so the default total never raises |
| Scoring.NegativeTotal | src/ai/recommendation/engine.py:547-603 | a concrete case with a sentiment of -1.0 and a default-weighted total of -0.25: the score is not confined to [0, 1] |
| Scoring.NegativeTotalAll | src/ai/recommendation/engine.py:547-603 | for all inputs: with non-negative weights, a positive sentiment weight and the other signals at 0, a negative sentiment signal gives a total below 0 |
| Scoring.ComputeSignals | src/ai/recommendation/engine.py:531-592 | the five signals of `score_anime` for one candidate |
| Scoring.SignalsBounds | src/ai/recommendation/engine.py:531-592 | genre weights in [-1, 1], emotion, theme and presence values in [0, 1] and positivities in [lo, 1] put every signal in [lo, 1] |
| Scoring.Pad | src/ai/recommendation/engine.py:230-234 | the shorter vector is extended with zeros to the longer one's length, keeping its own values |
| Scoring.DotSymmetric | src/ai/recommendation/engine.py:237 | the dot product is symmetric |
| Scoring.DotSelfNonNegative | src/ai/recommendation/engine.py:238-239 | the sum of squares is never negative |
| Scoring.DotSelfPositive | src/ai/recommendation/engine.py:238-239 | a vector with a non-zero entry has a positive sum of squares |
| Scoring.DotZero | src/ai/recommendation/engine.py:237 | a zero vector has a zero dot product with anything |
| Scoring.CosineSymmetric | src/ai/recommendation/engine.py:211-251 | the similarity of the two items does not depend on their order, so the value cached under the reversed key is right |
| Scoring.CosineZero | src/ai/recommendation/engine.py:241-243 | a zero vector, such as the features of an item never analysed, has similarity 0 with anything |
| Scoring.CosineSelf | src/ai/recommendation/engine.py:236-245 | a non-zero vector has similarity 1 with itself |
| Scoring.TitleHash | src/ai/recommendation/engine.py:629 | `sum(ord(c) for c in title) % 100` lies below 100 |
| Scoring.WarmLookWellFormed | src/ai/recommendation/engine.py:632-638 | the warm look has presence values in (0, 1], five valid colours and properties in [0, 1] |
| Scoring.CoolLookWellFormed | src/ai/recommendation/engine.py:639-645 | the same for the cool look |
| Scoring.VibrantLookWellFormed | src/ai/recommendation/engine.py:646-652 | the same for the vibrant look |
| Scoring.DarkLookWellFormed | src/ai/recommendation/engine.py:653-659 | the same for the dark look |
| Scoring.PastelLookWellFormed | src/ai/recommendation/engine.py:660-666 | the same for the pastel look |
| Scoring.DemoVisualProfileWellFormed | src/ai/recommendation/engine.py:621-669 | the title hash picks one of the five looks in steps of twenty, and every look is well formed, so its colour score lies in [0, 1] |
| Scoring.Above | src/ai/recommendation/engine.py:334-366 | a genre is kept exactly when the candidate has it and the user weights it above the threshold; the result is no longer than the candidate's list |
| Scoring.AboveAppend | src/ai/recommendation/engine.py:334-366 | the filter keeps the candidate's order: filtering a concatenation gives the filtered parts concatenated |
| Scoring.AboveSingle | src/ai/recommendation/engine.py:334-366 | one genre is kept exactly when the user weights it above the threshold |
| Scoring.Favored | src/ai/recommendation/engine.py:367 | a studio is kept exactly when the candidate has it and it is a favourite; the result is no longer than the candidate's list |
| Scoring.FavoredAppend | src/ai/recommendation/engine.py:367 | the filter keeps the candidate's order: filtering a concatenation gives the filtered parts concatenated |
| Scoring.FavoredSingle | src/ai/recommendation/engine.py:367 | one studio is kept exactly when it is a favourite |
| Scoring.Explanation | src/ai/recommendation/engine.py:321-376 | with a language model outside demo mode, its reply is the explanation |
| Scoring.TemplateNamesMood | src/ai/recommendation/engine.py:331-341 | the template names the user's mood |
| Scoring.GenreMatchNamesFirst | src/ai/recommendation/engine.py:338 | "has A" or "combines A and B" names the first matching genre |
| Scoring.TemplateNamesGenre | src/ai/recommendation/engine.py:334-339 | when the user likes one of the candidate's genres above 0.5, the template names the first such genre |
| Scoring.FallbackNames | src/ai/recommendation/engine.py:363-376 | the fallback names the first genre with a positive weight, and the first favourite studio, when there is one |
| Scoring.MockVideoIdShape | src/ai/recommendation/engine.py:449 | the mock video id keeps at most ten characters of the title, each lower-cased if alphanumeric and `_` otherwise, then `_trailer` |
| Engine.PutAll | src/ai/recommendation/engine.py:201-209 | the catalogue after adding each item in turn stays a well-formed dict |
| Engine.PutAllKeepsOrder | src/ai/recommendation/engine.py:207-208 | adding items keeps every earlier id in place, with new ids after them |
| Engine.PutAllKeys | src/ai/recommendation/engine.py:207-208 | an id is in the catalogue afterwards exactly when it was before or an added item carries it |
| Engine.PutAllLastWins | src/ai/recommendation/engine.py:207-208 | the last added item carrying an id is the one stored under it |
| Engine.PutAllUntouched | src/ai/recommendation/engine.py:207-208 | an id no added item carries keeps its item |
| Engine.PutAllKeyedById | src/ai/recommendation/engine.py:192-209 | every item stays stored under its own id |
| Engine.PutAllSize | src/ai/recommendation/engine.py:201-209 | from an empty catalogue there is one entry per distinct id added |
| Engine.TrailerLookup | src/ai/recommendation/engine.py:431-492 | a cached title answers from the cache and leaves it alone; otherwise the cache changes at most at that title, to the answer |
| Engine.Fresh | src/ai/recommendation/engine.py:444-484 | an uncached title gets the mock trailer in demo mode or without a client, and otherwise what the search finds |
| Engine.TrailerLookupIdempotent | src/ai/recommendation/engine.py:420-459 | a second lookup of the same title gives the same answer and cache, except that a failed search, not cached, is searched again |
| Engine.TrailerLookupStable | src/ai/recommendation/engine.py:431-492 | looking one title up never changes what a lookup of another title answers |
| Engine.ExtendsLookup | src/ai/recommendation/engine.py:431-492 | a cache grown by lookups answers every title as the cache it grew from did, and keeps growing by lookups |
| Engine.MockLookup | src/ai/recommendation/engine.py:444-459 | in mock mode over a cache of mocks every answer is the title's mock trailer, and the cache stays a cache of mocks |
| Engine.FetchedProfile | src/ai/recommendation/engine.py:612-680 | demo mode gives the title's demo profile; otherwise an item without an image URL has no profile, else the thumbnail analysis decides |
| Engine.ProfileAfterScoringIdempotent | src/ai/recommendation/engine.py:565-570 | scoring twice fetches a profile at most once: a profile the first scoring set is kept by the second |
| Engine.AnalysedFeatures | src/ai/recommendation/engine.py:759-769 | the sentiment holds exactly positivity and intensity, the emotions and target audience are replaced, the themes gain the analysed themes scored above 0.5 and keep the rest, and nothing else changes |
| Engine.SentimentFailure | src/ai/recommendation/engine.py:774-776 | an `AnalysisError` with code `ANALYSIS_ERROR`, the item's id in its message and `{"anime_id": id}` as details |
| Engine.AnalyzeAnimeSentiment | src/ai/recommendation/engine.py:739-776 | no synopsis returns the item untouched; a failed analysis raises that error and leaves the features; a successful one updates the features as above |
| Engine.Candidates | src/ai/recommendation/engine.py:700-706 | the scored ids are at most the catalogue's |
| Engine.CandidatesMembers | src/ai/recommendation/engine.py:700-706 | an id is scored exactly when it is in the catalogue and not watched |
| Engine.CandidatesDistinct | src/ai/recommendation/engine.py:703-706 | no id is scored twice |
| Engine.CandidatesStep | src/ai/recommendation/engine.py:703-706 | each catalogue id is appended to the scored ids when not watched, and was not among them before |
| Engine.RankedSpec | src/ai/recommendation/engine.py:735-737 | the returned list has Python slice length for the limit, non-increasing scores, is drawn from the scored results, and nothing left out scores above anything kept |
| Engine.RankedOrder | src/ai/recommendation/engine.py:703-737 | results with equal scores keep catalogue order, because the sort is stable |
| Engine.RankedDistinct | src/ai/recommendation/engine.py:703-737 | the returned list never holds the same item twice |
| Engine.RecommendationEngine.RefreshedAt | src/ai/recommendation/engine.py:703-709 | after the loop, each scored item has the profile scoring gives it, and every other item keeps its own |
| Engine.RecommendationEngine.constructor | src/ai/recommendation/engine.py:111-144 | an empty catalogue and trailer cache; a trailer client exactly when the module is present and the API key is set |
| Engine.RecommendationEngine.AddAnime | src/ai/recommendation/engine.py:192-199 | the item is stored under its id, replacing any item there, and every item stays under its own id |
| Engine.RecommendationEngine.AddAnimeBatch | src/ai/recommendation/engine.py:201-209 | each item is added in turn |
| Engine.RecommendationEngine.ComputeSimilarity | src/ai/recommendation/engine.py:211-251 | a pair cached in the first item answers from it and changes nothing; otherwise the cosine of the padded feature vectors is returned and cached under `id1:id2` in the first item and `id2:id1` in the second |
| Engine.RecommendationEngine.FetchTrailerSync | src/ai/recommendation/engine.py:431-492 | the answer and the new trailer cache are those of the lookup on the old cache |
| Engine.RecommendationEngine.ScoreAnime | src/ai/recommendation/engine.py:520-610 | fetches a missing profile when the user has colour preferences, then returns the weighted total of the five signals and, when asked for, the explanation; a zero weight sum raises |
| Engine.RecommendationEngine.TrailerOf | src/ai/recommendation/engine.py:711-722 | a trailer is looked up only when trailers are asked for and the client module is present, and answers as the cache at the start of the call |
| Engine.RecommendationEngine.ScoreCandidate | src/ai/recommendation/engine.py:703-733 | one pass of the loop: the result holds the item, its score and explanation, and the trailer; it raises exactly when the weights sum to 0 |
| Engine.RecommendationEngine.ScoreAll | src/ai/recommendation/engine.py:697-733 | every catalogue item not excluded as watched is scored in catalogue order from its features and profile before the call, and has its profile refreshed; it raises exactly when there is a candidate and the weights sum to 0 |
| Engine.RecommendationEngine.GetRecommendations | src/ai/recommendation/engine.py:682-737 | default options when none are given; the scored candidates, sorted best first and cut to the limit, or the division by zero |
| Engine.CosineSimilarity | src/ai/recommendation/engine.py:230-245 | the cosine of the two vectors padded with zeros to one length, or 0 when a magnitude is zero |
| Engine.DotProduct | src/ai/recommendation/engine.py:237-239 | the accumulated sum of products is the dot product |
| Demo.TypeOf | scripts/demo_recommendations.py:145-149 | `"Movie"` maps to a movie, `"OVA"` to an OVA, and anything else to a TV series |
| Demo.CreateAnimeObject | scripts/demo_recommendations.py:145-161 | a new item with the entry's id, title, synopsis, genres, studios, episodes and year, the mapped type and status `FINISHED`; no themes, alternative titles, air dates, season, external ids or image, empty features, similarity cache and visual profile |
| Demo.MatchingGenres | scripts/demo_recommendations.py:555 | every kept genre is one of the item's genres that the user has a weight for; no more genres than the item has |
| Demo.MatchingGenresMultiset | scripts/demo_recommendations.py:555 | a genre is kept exactly when the item has it and the user has a weight for it, as often as the item lists it, so the printed count is the number of the item's weighted genres |
| Demo.ScoreAnime | scripts/demo_recommendations.py:533-549 | 0.5, plus `0.2·w` per weighted genre of the item, plus 0.1 for `ANY`, or a fifth of the positivity (`HAPPY`) or intensity (`SAD`) of an item with a sentiment |
| Demo.Candidate | scripts/demo_recommendations.py:532-565 | the recommendation holds the item and a score clamped to [0, 1] |
| Demo.Candidates | scripts/demo_recommendations.py:532-565 | one recommendation per listed item |
| Demo.CandidatesAt | scripts/demo_recommendations.py:532-565 | the recommendation at each position is that of the item at that position |
| Demo.CandidatesInRange | scripts/demo_recommendations.py:554 | every candidate score lies in [0, 1] |
| Demo.MakeCandidate | scripts/demo_recommendations.py:533-563 | one pass of the loop: the clamped score, the rationale, and the dummy trailer fields when trailers are asked for |
| Demo.ScoreAll | scripts/demo_recommendations.py:529-565 | the scoring loop builds the candidates of the whole list in list order |
| Demo.SimplifiedEngine.constructor | scripts/demo_recommendations.py:494-495 | the list starts empty |
| Demo.SimplifiedEngine.AddAnimeBatch | scripts/demo_recommendations.py:497-504 | the items are appended to the list, duplicates kept |
| Demo.SimplifiedEngine.GetRecommendations | scripts/demo_recommendations.py:506-571 | limit 10 without options; the candidates sorted best first and cut to the limit, with Python slice length, scores in [0, 1] and non-increasing, drawn from the candidates, and nothing left out scoring above anything kept |
| Demo.MatchingGenresCount | scripts/demo_recommendations.py:555 | the rationale counts every genre exactly when all are weighted, and none exactly when none is |
| Demo.GenreBonusBounds | scripts/demo_recommendations.py:536-538 | with weights in [-1, 1], the genre bonus is at most 0.2 per weighted genre either way |
| Demo.GenreBonusNone | scripts/demo_recommendations.py:536-538 | an item without weighted genres gets no genre bonus |
| Demo.NeutralScore | scripts/demo_recommendations.py:533-554 | such an item scores 0.6 in mood `ANY` and 0.5 in any mood other than `ANY`, `HAPPY` and `SAD` |
| Demo.DummyTrailerId | scripts/demo_recommendations.py:560 | the dummy trailer url is the fixed prefix followed by the item id, so distinct ids give distinct urls |
| Demo.AllKeptWhenLimitCovers | scripts/demo_recommendations.py:566-571 | a limit that covers the list returns every candidate, as often as it was added |

## Left out

- Asynchronous plumbing is concurrency, so it is not modelled: `_fetch_anime_trailer`, the event-loop branches of `_fetch_trailer_sync`, `_cleanup_event_loop`, `__del__`, and the `_event_loop` and `_closing` fields. A trailer lookup outside demo mode is a search function that answers with a record or nothing; a failure counts as nothing.
- `analyze_anime_colors` and the non-demo branch of `_fetch_visual_profile_sync` are a thumbnail-analysis function that answers with a profile or nothing.
- Image download, colour extraction and `create_visual_profile_from_thumbnail` in `src/api/media/color_analysis.py` do HTTP and file I/O, so they are not modelled.
- The language-model client, the prompt text of `_generate_explanation` and the analyser's `analyze_text` call are foreign calls. Their answer, or their failure, is a parameter.
- The HTTP clients, configuration, logging, the command-line tools, and the fzf and printing functions of the demo script are I/O.
- The old-interface branch of the demo engine's `get_recommendations`, which takes a user id as a string, calls `get_user_preferences` of the demo script. That function is not part of this model.
- A sample entry of the demo is a record of the keys `create_anime_object` reads. A missing key, which raises `KeyError` in the source, is not modelled.
- Floats are exact reals, so nothing is claimed about rounding. `math.sqrt` is an input that is assumed to be the square root.
- The SHA-256 of `Cache.GenerateKey` is taken to be injective. A hash collision is not modelled, and neither is the JSON text of the parameters, which is an input.
- `Cache.SameKeyIff`: the forward direction (same key only for the same request) is stated only for urls without a bar and an injective `json.dumps`. The key text joins url and JSON with an unescaped `|`, so a url holding `|` can collide with a shorter url plus parameters (`Cache.KeyCollision`).
- Pydantic validation and coercion are not modelled. Fields hold values of their declared types. The `color_preferences` attribute that `score_anime` reads through `hasattr` is a field of the profile, empty by default.
- The global singletons `get_color_processor` and `get_recommendation_engine` are left out. The engine and the processor are constructed explicitly. The sentiment analyser singleton and the preference store are modelled.
- The key order of nested dicts inside `details` and `to_dict` values is not tracked. Those dicts are maps. `Recommendations.Iterate` visits a dict's keys in sorted order for that reason; every key is a string, which fails to decode, so the order does not change the outcome.
- The `ValidationError` of `src/utils/errors.py` adds `field` to the caller's own `details` dict. That write through an alias is not modelled: the model builds a new dict.
- `Errors.NewAnalysisError`, `ApiErrors.NewRateLimitError`, `ApiErrors.NewResourceNotFoundError`: in the same way, `details or {}` keeps the caller's own non-empty dict, and the source then writes `model` (src/utils/errors.py:102-104), `retry_after` (src/api/core/errors.py:63-65) or `resource_type` and `resource_id` (src/api/core/errors.py:101-105) into it. The model builds a new map, so the change the caller sees in its own dict is not modelled.
- `Text.Lower`, `Text.IsAlnum`: `str.lower` and `str.isalnum` are modelled for ASCII only. Python folds and classifies all of Unicode, so for example the Kelvin sign lowers to `k` and `é` counts as alphanumeric.
- `Sentiment.MockPositivity`, `Sentiment.MockThemes`: the keyword search of the mock analyser runs over `Text.Lower`, so a keyword spelled with non-ASCII letters that Python folds (`"DAR\u212A"` for "dark") is not found.
- `Scoring.MockVideoIdShape`: the mock trailer id uses `Text.IsAlnum` and `Text.Lower`, so a non-ASCII letter such as `é` becomes `_` where the source keeps it.
- `Preferences.UserPreferences.AddRating`: the source reads the clock twice, once for the rating's timestamp and once for `last_updated`. The model uses one reading `now` for both.
- The mutators of the preference profile set `last_updated` to `now`. The model does not promise that it moves forward, because the clock is an input.
- `RateLimit.RateLimiter.Acquire`: the asynchronous sleep is not modelled, and neither is the time it lasts. The call runs over a given sequence of clock readings, one per refill.
- The per-item similarity cache is an ordinary field of each item. The source declares it as a class-level default, which may be shared between instances.
- `Scoring.Explanation`: the contract states only the language-model case. The template and fallback texts are covered by `TemplateNamesMood`, `TemplateNamesGenre` and `FallbackNames`, which say what each text names, not its whole wording.
- `Scoring.ColorDicts`: the contract states only that the two dicts are well formed. Their contents are stated by `ColorDictsLastWins`.
- `Engine.Candidates`, `Demo.Candidates`: the contracts state only the length. Membership and order are stated by `CandidatesMembers`, `CandidatesStep` and `CandidatesAt`.
- `Demo.MatchingGenres`: the contract states one direction of membership only. That every weighted genre is kept, and how often, is stated by `Demo.MatchingGenresMultiset`; it is kept out of the contract so that the proof of the scoring loop stays small.
- `Engine.PutAll`: the contract states only that the dict stays well formed. Its contents are stated by the `PutAll*` lemmas.

## Where the code departs from its documentation

The model follows the code on each of these points.

- The sentiment signal divides the positivity of the items rated 4 or 5 by the number of ALL ratings (src/ai/recommendation/engine.py:557-559). The comment at src/ai/recommendation/engine.py:556 calls the result the average positivity of the highly rated items (`Scoring.SentimentWithoutLovedRatings`).
- Positivities range over [-1, 1], so the sentiment signal and the total can be negative. The result field is documented as a score from 0.0 to 1.0 at src/ai/recommendation/engine.py:86, and `score_anime` is documented as returning one at src/ai/recommendation/engine.py:529 (`Scoring.NegativeTotal`, `Scoring.NegativeTotalAll`).

## Notes on the code

- The weighted total divides by the sum of the five weights without checking it. It raises `ZeroDivisionError` when they sum to 0, and `Engine.RecommendationEngine.GetRecommendations` returns that error whenever there is a candidate (`Scoring.Total`).
- A trailer search that fails is not cached, so the next call searches again (`Engine.TrailerLookupIdempotent`).
- `_compute_similarity` reads only the first item's cache. A pair cached only under the reversed key in the second item is recomputed.
- `Recommendation.to_dict` and `from_dict` call `to_dict` and `from_dict` of the item class, which defines neither. The model passes the item's encoder and decoder in as parameters.
- `Recommendation.to_dict` emits exactly the keys `anime`, `score`, `rationale`, `match_factors` and the four trailer fields.
- `score_anime` reads `color_preferences` through `hasattr`, but the preference profile does not declare that field.
