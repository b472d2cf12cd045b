# Response cache and fetch coordinator of the template explorer

This project models the core of a catalog browser for video-editing templates.
The core is a local response cache and the coordinator that reads from it and
writes to it.

- **Cache store** (`src/services/cache.ts`, module `Cache`). A persistent key-value
  store of `{data, timestamp}` entries with a fixed time-to-live of 600 000 ms.
  - `set` stamps the entry with the current time.
  - `get` serves an entry only while `now - timestamp <= 600000`.
  - An expired entry is removed by the `get` that finds it (lazy eviction).
  - `remove` deletes one key and `clear` deletes all keys.
  - Every storage or decode failure becomes a miss or a no-op.
  - The store is the field `entries: map<string, Entry<T>>` of class `CacheStore`.
  - `Entry` is `Item(data, timestamp)` or `Corrupt`, a stored string that does not decode.
- **Fetch coordinator** (`src/services/api.ts`, module `Api`). `getCollectionTemplates` and
  `searchTemplates` each:
  - build a cache key: `collection_<id>_<count>` or `search_<query lower-cased and trimmed>`;
  - return a fresh hit verbatim;
  - on a miss, fetch from the network and fail when the status is not OK;
  - normalise `item_list` into `video_templates` (collection path only);
  - replace a malformed search body with an error-flagged empty result;
  - cache the response only when its template list is non-empty.

  The methods act on a `CacheStore` and a `Network`. Each is proved equal to a
  function of the state before the call: `CollectionOutcome` or `SearchOutcome`.
  The lemmas state the properties of those functions.
- **Keys** (module `Keys`). ASCII `toLowerCase` and `trim`, the decimal text of an
  integer, and the two key builders.

How the model stands in for the environment:

- The clock `Date.now()` is a parameter. `Env.readAt` is the reading taken in `get`.
  `Env.writeAt` is the reading taken in `set`, after the network has answered.
- Whether each call into the persistent store succeeds is a parameter:
  `readOk`, `removeOk`, `writeOk`, `clearOk`. A failed call leaves the store unchanged.
- The network is the class `Network`. Its constant `server(n, request)` is the reply to
  the n-th request. Its field `log` records every request, so `|log|` counts the calls.
- A reply is `NoResponse` (`fetch` rejects), `ErrorStatus` (not OK) or
  `Delivered(Json(response) | NotJson)`. `NotJson` means `response.json()` rejects.
  The three failures are the `FetchError` cases. The two status messages are the
  constants `CollectionFailure` and `SearchFailure`.
- The services are static singletons in the source. Here the cache and the network
  are passed to the coordinator explicitly.

Behaviour of the code that is easy to misread:

- Responses keep the raw `ApiResponse` shape. Normalising a collection copies
  `item_list` into `video_templates` and keeps `item_list` as well.
- An empty `item_list` array is still copied, because an empty array is truthy.
  The copy is then not cached, because the list is empty.
- The search fallback is taken when `data` is missing as well as when
  `video_templates` is missing. A search body that lists templates only under
  `item_list` therefore falls back.
- A search body whose `video_templates` is empty is not malformed. It is returned
  as it is and is not cached.
- A corrupt entry is never removed by `get`: it stays a miss until `set` overwrites it.
  Only expired items are evicted.

## Model

| member | source | states |
|---|---|---|
| Cache.CacheStore.constructor | src/services/cache.ts:10 | the store starts as whatever earlier runs persisted, corrupt entries included |
| Cache.IsExpired | src/services/cache.ts:11-13 | an entry stamped at T is expired at `now` exactly when `now > T + 600000` (ten minutes in milliseconds) |
| Cache.CacheStore.Set | src/services/cache.ts:15-28 | the new store is the old one with `key` mapped to `Item(data, now)` when the write succeeds and unchanged when it fails; no other key changes |
| Cache.CacheStore.Get | src/services/cache.ts:30-47 | returns what `Lookup` gives and leaves the store as `AfterLookup` gives; a hit leaves the store unchanged |
| Cache.CacheStore.Remove | src/services/cache.ts:49-55 | after a successful removal the key is absent; a failed removal changes nothing; other keys are never dropped |
| Cache.CacheStore.Clear | src/services/cache.ts:57-63 | a successful clear leaves the store empty; a failed one changes nothing |
| Cache.MissingKeyIsMiss | src/services/cache.ts:32-33 | a key with nothing stored is a miss and leaves the store unchanged |
| Cache.FreshExactlyWithinDuration | src/services/cache.ts:3-13 | an item stored at T is served at `now` if and only if `now - T <= 600000`; the boundary instant is fresh |
| Cache.ExpiredIsEvicted | src/services/cache.ts:37-40 | a read that finds an expired item returns a miss, and the key is gone from the store afterwards |
| Cache.StoredOverwritesOnlyKey | src/services/cache.ts:15-24 | `set` puts `Item(data, now)` under the key whatever was there before; the key set grows by at most that key; every other entry is unchanged |
| Cache.SetThenGet | src/services/cache.ts:15-42 | a value set at T is returned by `get` at any time in [T, T + 600000], and that read does not change the store |
| Cache.FreshHitLeavesStore | src/services/cache.ts:37-42 | a fresh hit returns the stored payload and does not modify the store |
| Cache.FailuresAreSwallowed | src/services/cache.ts:25-62 | a failed read is a miss that changes nothing; a corrupt entry is a miss and stays in place; a failed set, remove or clear leaves the store as it was |
| Cache.RemoveAndClear | src/services/cache.ts:49-63 | `remove` deletes only its key, is idempotent and is a no-op on a missing key; `clear` leaves the store empty |
| Keys.Lower | src/services/api.ts:95 | ASCII `toLowerCase`: the same length, with each character lower-cased on its own |
| Keys.LowerCharacterised | src/services/api.ts:95 | the lower-cased string has no upper-case letter, and lower-casing changes a string exactly when it has one |
| Keys.TrimStart | src/services/api.ts:95 | drops a prefix made only of white space and keeps a suffix that is empty or starts with a non-blank character |
| Keys.TrimEnd | src/services/api.ts:95 | drops a suffix made only of white space and keeps a prefix that is empty or ends with a non-blank character |
| Keys.Trim | src/services/api.ts:95 | `trim` never lengthens its input and leaves no white space at either end |
| Keys.TrimShape | src/services/api.ts:95 | `trim` yields exactly the part of its input between a leading and a trailing run of white space |
| Keys.TrimIgnoresPadding | src/services/api.ts:95 | white space added at either end does not change what `trim` yields |
| Keys.NormalizeQuery | src/services/api.ts:95 | the query part of a search key, `query.toLowerCase().trim()`, has no white space at either end and no upper-case letter |
| Keys.SearchKey | src/services/api.ts:95 | a search key is `search_` followed by a text with no upper-case letter and no white space at either end |
| Keys.NormalizeQueryIdempotent | src/services/api.ts:95 | normalising a query twice gives the same result as normalising it once |
| Keys.SearchKeyOfNormalized | src/services/api.ts:95 | the search key of a normalised query equals the search key of the original query |
| Keys.SearchKeyIdentifiesQuery | src/services/api.ts:95 | two queries share a search key if and only if they normalise to the same text |
| Keys.SearchKeyIgnoresPadding | src/services/api.ts:95 | white space added at either end of a query does not change its search key |
| Keys.SearchKeyIgnoresCase | src/services/api.ts:95 | queries that lower-case alike share a search key |
| Keys.SearchKeyExamples | src/services/api.ts:95 | `" Love "`, `"love"` and `"LOVE"` have the same search key |
| Keys.NatToDecimal | src/services/api.ts:59 | the decimal text of a natural number spells that number (`DecimalValue` reads it back), is non-empty and all digits, has no leading zero, and is one digit long exactly for numbers below 10 |
| Keys.NatToDecimalInjective | src/services/api.ts:59 | distinct natural numbers print differently |
| Keys.IntToDecimal | src/services/api.ts:59 | the text of an integer starts with `-` exactly when the integer is negative; the rest is a non-empty run of digits with no leading zero that spells the integer's absolute value, so the text is the canonical decimal |
| Keys.IntToDecimalInjective | src/services/api.ts:59 | distinct integers print differently |
| Keys.CollectionKey | src/services/api.ts:59 | a collection key is `collection_` followed by the decimal text of the id, `_`, and the decimal text of the count |
| Keys.CollectionKeyInjective | src/services/api.ts:59 | `collection_<id>_<count>` determines both the id and the count |
| Keys.CollectionAndSearchKeysDisjoint | src/services/api.ts:59-95 | no collection key equals any search key |
| Keys.CollectionKeyExample | src/services/api.ts:58-59 | collection 6001 at the default count 200 has the key `collection_6001_200` |
| Api.Network.Fetch | src/services/api.ts:71-72 | each network call appends its request to the log and returns the oracle's reply for that call number |
| Api.NormalizeCollection | src/services/api.ts:81-83 | `video_templates` becomes `item_list`, in the same order, only when it was absent; an existing `video_templates` is never overwritten; every other field is unchanged |
| Api.ValidateSearch | src/services/api.ts:119-138 | the result always has a template list; a body with `data` and a template list (even an empty one) is returned as it is; any other body is replaced by `InvalidStructure`, which is never cached |
| Api.InvalidStructure | src/services/api.ts:121-129 | the fallback result is flagged `ret = "error"`, has a template list, and is not cacheable |
| Api.Cacheable | src/services/api.ts:86 | a response is cached (by both operations; the search path repeats the test at line 133) exactly when it has a `data` object whose template list is present and non-empty |
| Api.GetCollectionTemplates | src/services/api.ts:58-92 | the result, the new store and the request log are exactly what `CollectionOutcome` gives for the state before the call |
| Api.SearchTemplates | src/services/api.ts:94-139 | the result, the new store and the request log are exactly what `SearchOutcome` gives for the state before the call |
| Api.CollectionOutcome | src/services/api.ts:58-92 | a collection call issues no request on a hit and exactly one on a miss; the store after it is the store after the lookup, or that store with the returned response written under the key when the call succeeded with a cacheable response |
| Api.SearchOutcome | src/services/api.ts:94-139 | a search call issues no request on a hit and exactly one on a miss; the store after it is the store after the lookup, or that store with the returned response written under the key when the call succeeded with a cacheable response |
| Api.KeyIdentifiesQuery | src/services/api.ts:59-95 | two requests share a cache key if and only if they are the same collection and count, or searches whose queries normalise alike |
| Api.HitShortCircuits | src/services/api.ts:62-68 | on a fresh hit both operations return the cached value unchanged, make no network call and leave the store unchanged |
| Api.MissIssuesOneRequest | src/services/api.ts:71-72 | on a miss either operation makes exactly one request (the search path does so at lines 107-110); the search request carries the original, un-normalised query |
| Api.NotOkFailsAndWritesNothing | src/services/api.ts:74-76 | in either operation a reply whose status is not OK fails with that operation's message and writes nothing to the store (the search path checks the status at lines 112-114) |
| Api.OnlyTheNetworkFails | src/services/api.ts:62-89 | whatever the store does, a call fails if and only if it made its request and the reply was not a parsed OK body |
| Api.WritesOnlyCacheableSuccess | src/services/api.ts:62-136 | for every clock and storage outcome and both operations, a call that did not succeed with a cacheable response leaves the store as the lookup left it |
| Api.CollectionCachedIffNonEmpty | src/services/api.ts:78-89 | after a healthy miss the store holds an item under the key if and only if the normalised `video_templates` is present and non-empty; that item is the returned response, stamped at the write; otherwise `get` on the key stays a miss |
| Api.SearchCachedIffNonEmpty | src/services/api.ts:116-136 | after a healthy miss the store holds an item under the key if and only if the body's `video_templates` is present and non-empty; otherwise `get` on the key stays a miss |
| Api.MalformedSearchFallsBack | src/services/api.ts:119-130 | a body missing `data` or `video_templates` yields `{ret: "error", total: 0, video_templates: [], has_more: false}` and nothing is cached |
| Api.RepeatedCollectionHits | src/services/api.ts:62-89 | after a healthy call has cached a collection, a second call within ten minutes of the write returns the same response with no request and no store change |
| Api.CachedSearchIsStored | src/services/api.ts:133-136 | a healthy search miss with a non-empty list leaves exactly the returned response, stamped at the write, under the search key |
| Api.EquivalentQueryHits | src/services/api.ts:95-104 | a fresh entry cached for one query serves every query that normalises to the same text, with no request |
| Api.RepeatedSearchHits | src/services/api.ts:95-136 | after a healthy search has cached its result, any query that normalises alike, asked within ten minutes of the write, returns the same response with no request |
| Api.ForYouScenario | src/services/api.ts:58-91 | collection 6001 at count 200 with `item_list = [A, B]` returns `video_templates = [A, B]`, caches it under `collection_6001_200`, and a second call within the TTL returns it with no request |

## Left out

- Network I/O: URL building, `encodeURIComponent` and HTTP are not modelled. A request is
  modelled by its parameters, and the network by the reply oracle.
- JSON text is not modelled. The store holds decoded entries. `JSON.stringify`
  losing `undefined` fields, and entries that decode without a numeric `timestamp`,
  are not modelled. Both decode failures and `null` bodies are `Corrupt` / `NotJson`.
- Bodies that parse to a number or a string are not modelled.
  Such a body would be returned as it is on the collection path.
- Numbers are JavaScript doubles in the source and integers here. Fractional ids or
  counts, and the exponent notation of numbers of 10^21 or more, are not modelled.
- `toLowerCase` and `trim` are modelled on ASCII only. Non-ASCII case mapping and
  Unicode white space are not modelled.
- Cache.CacheStore.Set: a failed storage call is assumed to leave the store
  unchanged. A partially applied write or clear is not modelled.
- Concurrent calls for the same key are not modelled. Calls run one at a time; the
  source neither deduplicates them nor orders their writes (the last write wins).
- Logging (`console.log` and `console.error`) is not modelled. Neither is the dynamic
  `import('./cache')` nor a failure of that import.
- The check `if (cachedData)` is modelled as "the lookup returned a value". A cached
  payload is always a response object, so a falsy cached payload cannot occur here.
- Api.GetCollectionTemplates: the source assigns `video_templates` on the freshly
  parsed object. Nothing else refers to that object, so the model updates a value instead.
- The `categories` table (src/services/api.ts:142-165) is not modelled. It is static
  data for the pages.
- The pages, components, advertising wrapper, app shell and build configuration are
  not part of this model.
