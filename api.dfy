/**
 * The fetch coordinator (src/services/api.ts): for a collection listing and
 * for a keyword search it builds a cache key, serves a fresh cache hit
 * verbatim, and otherwise asks the network, normalises the response and
 * caches it when its template list is non-empty.
 *
 * The network is an oracle object: `server(n, request)` is the reply to the
 * n-th request, and `log` records every request in order, so `|log|` counts
 * the calls. The cache service is passed in explicitly.
 */
module Api {
  import opened Wrappers
  import opened Keys
  import opened Cache

  // ---------------------------------------------------------------------
  // Response shape (numbers are JavaScript numbers; the model uses integers)

  datatype Author = Author(uid: int, webUid: string, uniqueId: string, name: string,
                           avatarUrl: string, description: string)

  datatype VideoDynamicCover = VideoDynamicCover(url: string, width: int, height: int)

  datatype DraftSegInfo = DraftSegInfo(textSegLen: int, videoSegLen: int)

  datatype VideoTemplate = VideoTemplate(
    id: int, webId: string, title: string, shortTitle: string, author: Author,
    coverUrl: string, coverWidth: int, coverHeight: int, videoUrl: string,
    duration: int, templateUrl: string, fragmentCount: int, usageAmount: int,
    playAmount: int, likeCount: int, favoriteCount: int,
    videoDynamicCover: Option<VideoDynamicCover>, createTime: int,
    draftSegInfo: Option<DraftSegInfo>)

  /** The `data` object; a list field that is missing or `null` is `None`. */
  datatype ResponseData = ResponseData(total: int, videoTemplates: Option<seq<VideoTemplate>>,
                                       itemList: Option<seq<VideoTemplate>>, hasMore: bool)

  /** `ApiResponse`; a body without a `data` object has `data == None`. */
  datatype ApiResponse = ApiResponse(ret: string, errmsg: string, data: Option<ResponseData>)

  // ---------------------------------------------------------------------
  // The network

  /** A request as the coordinator issues it: the URL's parameters, before URL encoding. */
  datatype Request = CollectionRequest(collectionId: int, count: int) | SearchRequest(query: string)

  /** A response body: JSON of the expected shape, or something `response.json()` rejects. */
  datatype Body = Json(value: ApiResponse) | NotJson

  /** What `fetch` yields: a rejected promise, a response whose status is not OK, or an OK response. */
  datatype Reply = NoResponse | ErrorStatus | Delivered(body: Body)

  /** How a fetch fails; each is a rejected promise for the caller. */
  datatype FetchError = NetworkUnavailable | Failed(message: string) | BodyNotJson

  const CollectionFailure: string := "Failed to fetch collection templates"
  const SearchFailure: string := "Failed to search templates"

  class Network {
    /** The reply to the n-th request (counting from 0). */
    const server: (nat, Request) -> Reply
    /** Every request issued so far, in order. */
    var log: seq<Request>

    constructor (server: (nat, Request) -> Reply)
      ensures this.server == server && log == []
    {
      this.server := server;
      log := [];
    }

    /** `fetch(url)`: records the request and returns the oracle's reply. */
    method Fetch(request: Request) returns (reply: Reply)
      modifies this
      ensures log == old(log) + [request]
      ensures reply == server(|old(log)|, request)
    {
      reply := server(|log|, request);
      log := log + [request];
    }
  }

  // ---------------------------------------------------------------------
  // Response normalisation

  /**
   * The collection endpoint lists templates under `item_list`: when `data`
   * has `item_list` and no `video_templates`, the list is copied into
   * `video_templates`. Nothing else changes and an existing
   * `video_templates` is kept.
   */
  function NormalizeCollection(raw: ApiResponse): (r: ApiResponse)
    ensures r.ret == raw.ret && r.errmsg == raw.errmsg && r.data.Some? == raw.data.Some?
    ensures raw.data.Some? ==>
      var d, e := raw.data.value, r.data.value;
      && e.total == d.total && e.itemList == d.itemList && e.hasMore == d.hasMore
      && e.videoTemplates == (if d.videoTemplates.Some? then d.videoTemplates else d.itemList)
  {
    match raw.data
    case None => raw
    case Some(d) =>
      if d.itemList.Some? && d.videoTemplates.None?
      then raw.(data := Some(d.(videoTemplates := d.itemList)))
      else raw
  }

  /** A response worth caching: it has a `data` object whose template list is present and non-empty. */
  predicate Cacheable(resp: ApiResponse)
    ensures Cacheable(resp) <==> HasTemplates(resp) && resp.data.value.videoTemplates.value != []
  {
    resp.data.Some? && resp.data.value.videoTemplates.Some? && |resp.data.value.videoTemplates.value| > 0
  }

  /** A well-formed search body: a `data` object with a template list, which may be empty (an empty array is truthy). */
  predicate HasTemplates(resp: ApiResponse) {
    resp.data.Some? && resp.data.value.videoTemplates.Some?
  }

  /** What a search with a malformed body returns instead of failing. */
  function InvalidStructure(): (r: ApiResponse)
    ensures r.ret == "error" && HasTemplates(r) && !Cacheable(r)
  {
    ApiResponse("error", "Invalid response structure", Some(ResponseData(0, Some([]), None, false)))
  }

  /** The search result for a parsed body: the body itself, or the error-flagged empty result. */
  function ValidateSearch(raw: ApiResponse): (r: ApiResponse)
    ensures HasTemplates(r)
    ensures HasTemplates(raw) ==> r == raw
    ensures !HasTemplates(raw) ==> r == InvalidStructure() && !Cacheable(r)
  {
    if HasTemplates(raw) then raw else InvalidStructure()
  }

  // ---------------------------------------------------------------------
  // Ambient conditions of one call

  /**
   * The clock readings and storage outcomes one coordinator call meets:
   * `readAt` is the time `get` reads the clock, `writeAt` the time `set` does
   * (after the network has answered); the flags say whether the store's
   * read, removal and write succeed.
   */
  datatype Env = Env(readAt: int, writeAt: int, readOk: bool, removeOk: bool, writeOk: bool)

  predicate Healthy(env: Env) {
    env.readOk && env.removeOk && env.writeOk
  }

  /** The result of a call, the store after it, and the requests issued up to its end. */
  datatype Outcome = Outcome(result: Result<ApiResponse, FetchError>, entries: Store<ApiResponse>,
                             requests: seq<Request>)

  const DefaultCount: int := 200

  function KeyOf(request: Request): string {
    match request
    case CollectionRequest(collectionId, count) => CollectionKey(collectionId, count)
    case SearchRequest(query) => SearchKey(query)
  }

  /** Two requests ask for the same thing: the same collection and count, or queries that normalise alike. */
  predicate SameQuery(r1: Request, r2: Request) {
    match r1
    case CollectionRequest(_, _) => r1 == r2
    case SearchRequest(q1) => r2.SearchRequest? && NormalizeQuery(q1) == NormalizeQuery(r2.query)
  }

  /** A parsed OK reply. */
  predicate Parsed(reply: Reply) {
    reply.Delivered? && reply.body.Json?
  }

  // ---------------------------------------------------------------------
  // The two operations, as functions of the state before the call

  /** `getCollectionTemplates(collectionId, count)` */
  function CollectionOutcome(m: Store<ApiResponse>, log: seq<Request>, server: (nat, Request) -> Reply,
                             env: Env, collectionId: int, count: int): (o: Outcome)
    ensures var key := CollectionKey(collectionId, count);
            var m1 := AfterLookup(m, key, env.readAt, env.readOk, env.removeOk);
            || o.entries == m1
            || (o.result.Success? && Cacheable(o.result.value)
                && o.entries == Stored(m1, key, o.result.value, env.writeAt, env.writeOk))
    ensures o.requests == if Lookup(m, CollectionKey(collectionId, count), env.readAt, env.readOk).Some? then log else log + [CollectionRequest(collectionId, count)]
  {
    var key := CollectionKey(collectionId, count);
    var hit := Lookup(m, key, env.readAt, env.readOk);
    var m1 := AfterLookup(m, key, env.readAt, env.readOk, env.removeOk);
    if hit.Some? then Outcome(Success(hit.value), m1, log)
    else
      var request := CollectionRequest(collectionId, count);
      var log1 := log + [request];
      match server(|log|, request)
      case NoResponse => Outcome(Failure(NetworkUnavailable), m1, log1)
      case ErrorStatus => Outcome(Failure(Failed(CollectionFailure)), m1, log1)
      case Delivered(NotJson) => Outcome(Failure(BodyNotJson), m1, log1)
      case Delivered(Json(raw)) =>
        var resp := NormalizeCollection(raw);
        Outcome(Success(resp), if Cacheable(resp) then Stored(m1, key, resp, env.writeAt, env.writeOk) else m1, log1)
  }

  /** `searchTemplates(query)` */
  function SearchOutcome(m: Store<ApiResponse>, log: seq<Request>, server: (nat, Request) -> Reply,
                         env: Env, query: string): (o: Outcome)
    ensures var key := SearchKey(query);
            var m1 := AfterLookup(m, key, env.readAt, env.readOk, env.removeOk);
            || o.entries == m1
            || (o.result.Success? && Cacheable(o.result.value)
                && o.entries == Stored(m1, key, o.result.value, env.writeAt, env.writeOk))
    ensures o.requests == if Lookup(m, SearchKey(query), env.readAt, env.readOk).Some? then log else log + [SearchRequest(query)]
  {
    var key := SearchKey(query);
    var hit := Lookup(m, key, env.readAt, env.readOk);
    var m1 := AfterLookup(m, key, env.readAt, env.readOk, env.removeOk);
    if hit.Some? then Outcome(Success(hit.value), m1, log)
    else
      var request := SearchRequest(query);
      var log1 := log + [request];
      match server(|log|, request)
      case NoResponse => Outcome(Failure(NetworkUnavailable), m1, log1)
      case ErrorStatus => Outcome(Failure(Failed(SearchFailure)), m1, log1)
      case Delivered(NotJson) => Outcome(Failure(BodyNotJson), m1, log1)
      case Delivered(Json(raw)) =>
        var resp := ValidateSearch(raw);
        Outcome(Success(resp), if Cacheable(resp) then Stored(m1, key, resp, env.writeAt, env.writeOk) else m1, log1)
  }

  // ---------------------------------------------------------------------
  // The two operations, as methods on the cache service and the network

  method GetCollectionTemplates(cache: CacheStore<ApiResponse>, net: Network, env: Env,
                                collectionId: int, count: int := DefaultCount)
    returns (r: Result<ApiResponse, FetchError>)
    modifies cache, net
    ensures var o := CollectionOutcome(old(cache.entries), old(net.log), net.server, env, collectionId, count);
            r == o.result && cache.entries == o.entries && net.log == o.requests
  {
    var key := CollectionKey(collectionId, count);
    var cached := cache.Get(key, env.readAt, env.readOk, env.removeOk);
    if cached.Some? {
      return Success(cached.value);
    }
    var reply := net.Fetch(CollectionRequest(collectionId, count));
    match reply
    case NoResponse =>
      r := Failure(NetworkUnavailable);
    case ErrorStatus =>
      r := Failure(Failed(CollectionFailure));
    case Delivered(NotJson) =>
      r := Failure(BodyNotJson);
    case Delivered(Json(raw)) =>
      var data := NormalizeCollection(raw);
      if Cacheable(data) {
        cache.Set(key, data, env.writeAt, env.writeOk);
      }
      r := Success(data);
  }

  method SearchTemplates(cache: CacheStore<ApiResponse>, net: Network, env: Env, query: string)
    returns (r: Result<ApiResponse, FetchError>)
    modifies cache, net
    ensures var o := SearchOutcome(old(cache.entries), old(net.log), net.server, env, query);
            r == o.result && cache.entries == o.entries && net.log == o.requests
  {
    var key := SearchKey(query);
    var cached := cache.Get(key, env.readAt, env.readOk, env.removeOk);
    if cached.Some? {
      return Success(cached.value);
    }
    var reply := net.Fetch(SearchRequest(query));
    match reply
    case NoResponse =>
      r := Failure(NetworkUnavailable);
    case ErrorStatus =>
      r := Failure(Failed(SearchFailure));
    case Delivered(NotJson) =>
      r := Failure(BodyNotJson);
    case Delivered(Json(raw)) =>
      if !HasTemplates(raw) {
        return Success(InvalidStructure());
      }
      if Cacheable(raw) {
        cache.Set(key, raw, env.writeAt, env.writeOk);
      }
      r := Success(raw);
  }

  // ---------------------------------------------------------------------
  // Properties

  /** Cache keys identify logical queries: two requests share a key exactly when they ask for the same thing. */
  lemma KeyIdentifiesQuery(r1: Request, r2: Request)
    ensures KeyOf(r1) == KeyOf(r2) <==> SameQuery(r1, r2)
  {
    match r1 {
      case CollectionRequest(a, b) =>
        match r2 {
          case CollectionRequest(c, d) =>
            if KeyOf(r1) == KeyOf(r2) { CollectionKeyInjective(a, b, c, d); }
          case SearchRequest(q) =>
            CollectionAndSearchKeysDisjoint(a, b, q);
        }
      case SearchRequest(q1) =>
        match r2 {
          case CollectionRequest(c, d) =>
            CollectionAndSearchKeysDisjoint(c, d, q1);
          case SearchRequest(q2) =>
            SearchKeyIdentifiesQuery(q1, q2);
        }
    }
  }

  /** A fresh hit is returned verbatim, issues no request and leaves the store as it was. */
  lemma HitShortCircuits(m: Store<ApiResponse>, log: seq<Request>, server: (nat, Request) -> Reply,
                         env: Env, request: Request, cached: ApiResponse)
    requires Lookup(m, KeyOf(request), env.readAt, env.readOk) == Some(cached)
    ensures var o := match request
              case CollectionRequest(collectionId, count) => CollectionOutcome(m, log, server, env, collectionId, count)
              case SearchRequest(query) => SearchOutcome(m, log, server, env, query);
            o == Outcome(Success(cached), m, log)
  {
  }

  /**
   * On a miss exactly one request is issued, carrying the caller's own
   * arguments: the search request has the query as given, not its
   * normalised form.
   */
  lemma MissIssuesOneRequest(m: Store<ApiResponse>, log: seq<Request>, server: (nat, Request) -> Reply,
                             env: Env, collectionId: int, count: int, query: string)
    ensures Lookup(m, CollectionKey(collectionId, count), env.readAt, env.readOk).None? ==>
              CollectionOutcome(m, log, server, env, collectionId, count).requests
                == log + [CollectionRequest(collectionId, count)]
    ensures Lookup(m, SearchKey(query), env.readAt, env.readOk).None? ==>
              SearchOutcome(m, log, server, env, query).requests == log + [SearchRequest(query)]
  {
  }

  /** A reply whose status is not OK fails the call and writes nothing to the store. */
  lemma NotOkFailsAndWritesNothing(m: Store<ApiResponse>, log: seq<Request>, server: (nat, Request) -> Reply,
                                   env: Env, collectionId: int, count: int, query: string)
    ensures var key := CollectionKey(collectionId, count);
            var o := CollectionOutcome(m, log, server, env, collectionId, count);
            Lookup(m, key, env.readAt, env.readOk).None? && server(|log|, CollectionRequest(collectionId, count)) == ErrorStatus ==>
              o.result == Failure(Failed(CollectionFailure))
              && o.entries == AfterLookup(m, key, env.readAt, env.readOk, env.removeOk)
    ensures var key := SearchKey(query);
            var o := SearchOutcome(m, log, server, env, query);
            Lookup(m, key, env.readAt, env.readOk).None? && server(|log|, SearchRequest(query)) == ErrorStatus ==>
              o.result == Failure(Failed(SearchFailure))
              && o.entries == AfterLookup(m, key, env.readAt, env.readOk, env.removeOk)
  {
  }

  /**
   * The cache never causes a failure: whatever the store does, a call fails
   * only when it issued its request and the reply was not a parsed OK body.
   */
  lemma OnlyTheNetworkFails(m: Store<ApiResponse>, log: seq<Request>, server: (nat, Request) -> Reply,
                            env: Env, request: Request)
    ensures var o := match request
              case CollectionRequest(collectionId, count) => CollectionOutcome(m, log, server, env, collectionId, count)
              case SearchRequest(query) => SearchOutcome(m, log, server, env, query);
            o.result.Failure? <==> o.requests == log + [request] && !Parsed(server(|log|, request))
  {
  }

  /**
   * Only a successful call with a cacheable response writes: under any clock
   * and any storage outcome, every other call leaves the store as the lookup
   * left it, whether it hit, failed at the network or got a body with no templates.
   */
  lemma WritesOnlyCacheableSuccess(m: Store<ApiResponse>, log: seq<Request>, server: (nat, Request) -> Reply,
                                   env: Env, request: Request)
    ensures var o := match request
              case CollectionRequest(collectionId, count) => CollectionOutcome(m, log, server, env, collectionId, count)
              case SearchRequest(query) => SearchOutcome(m, log, server, env, query);
            !(o.result.Success? && Cacheable(o.result.value)) ==>
              o.entries == AfterLookup(m, KeyOf(request), env.readAt, env.readOk, env.removeOk)
  {
  }

  /** After a healthy miss, what stands under the key in the store, if anything, is not an item. */
  lemma HealthyMissLeavesNoItem(m: Store<ApiResponse>, key: string, env: Env)
    requires Healthy(env) && Lookup(m, key, env.readAt, true).None?
    ensures var m1 := AfterLookup(m, key, env.readAt, true, true);
            key !in m1 || m1[key].Corrupt?
  {
  }

  /**
   * A collection fetched from the network is cached under its key exactly
   * when its normalised template list is non-empty; when it is empty, `get`
   * on that key stays a miss at every time.
   */
  lemma CollectionCachedIffNonEmpty(m: Store<ApiResponse>, log: seq<Request>, server: (nat, Request) -> Reply,
                                    env: Env, collectionId: int, count: int, raw: ApiResponse)
    requires Healthy(env)
    requires Lookup(m, CollectionKey(collectionId, count), env.readAt, true).None?
    requires server(|log|, CollectionRequest(collectionId, count)) == Delivered(Json(raw))
    ensures var key := CollectionKey(collectionId, count);
            var o := CollectionOutcome(m, log, server, env, collectionId, count);
            var resp := NormalizeCollection(raw);
            && o.result == Success(resp)
            && (key in o.entries && o.entries[key].Item? <==> Cacheable(resp))
            && (Cacheable(resp) ==> o.entries[key] == Item(resp, env.writeAt))
            && (!Cacheable(resp) ==> forall t :: Lookup(o.entries, key, t, true).None?)
  {
    HealthyMissLeavesNoItem(m, CollectionKey(collectionId, count), env);
  }

  /**
   * A search answered with a well-formed body is cached under its key exactly
   * when its template list is non-empty; when it is empty, `get` on that key
   * stays a miss at every time.
   */
  lemma SearchCachedIffNonEmpty(m: Store<ApiResponse>, log: seq<Request>, server: (nat, Request) -> Reply,
                                env: Env, query: string, raw: ApiResponse)
    requires Healthy(env)
    requires Lookup(m, SearchKey(query), env.readAt, true).None?
    requires server(|log|, SearchRequest(query)) == Delivered(Json(raw))
    ensures var key := SearchKey(query);
            var o := SearchOutcome(m, log, server, env, query);
            && o.result == Success(ValidateSearch(raw))
            && (key in o.entries && o.entries[key].Item? <==> Cacheable(raw))
            && (Cacheable(raw) ==> o.entries[key] == Item(raw, env.writeAt))
            && (!Cacheable(raw) ==> forall t :: Lookup(o.entries, key, t, true).None?)
  {
    HealthyMissLeavesNoItem(m, SearchKey(query), env);
  }

  /**
   * A search body without `data` or without `video_templates` (one that has
   * only `item_list` included) yields the error-flagged empty result, which
   * is not cached.
   */
  lemma MalformedSearchFallsBack(m: Store<ApiResponse>, log: seq<Request>, server: (nat, Request) -> Reply,
                                 env: Env, query: string, raw: ApiResponse)
    requires Lookup(m, SearchKey(query), env.readAt, env.readOk).None?
    requires server(|log|, SearchRequest(query)) == Delivered(Json(raw))
    requires raw.data.None? || raw.data.value.videoTemplates.None?
    ensures var o := SearchOutcome(m, log, server, env, query);
            && o.result == Success(ApiResponse("error", "Invalid response structure",
                                               Some(ResponseData(0, Some([]), None, false))))
            && o.entries == AfterLookup(m, SearchKey(query), env.readAt, env.readOk, env.removeOk)
  {
  }

  /**
   * Once a collection has been cached by a healthy call, asking again for the
   * same collection and count within ten minutes of the write returns the
   * same response without a network request and without touching the store.
   */
  lemma RepeatedCollectionHits(m: Store<ApiResponse>, log: seq<Request>, server: (nat, Request) -> Reply,
                               env1: Env, env2: Env, collectionId: int, count: int)
    requires Healthy(env1) && env2.readOk
    requires var o1 := CollectionOutcome(m, log, server, env1, collectionId, count);
             o1.requests != log && o1.result.Success? && Cacheable(o1.result.value)
    requires env2.readAt - env1.writeAt <= CacheDuration
    ensures var o1 := CollectionOutcome(m, log, server, env1, collectionId, count);
            CollectionOutcome(o1.entries, o1.requests, server, env2, collectionId, count) == o1
  {
    var key := CollectionKey(collectionId, count);
    var o1 := CollectionOutcome(m, log, server, env1, collectionId, count);
    assert o1.entries[key] == Item(o1.result.value, env1.writeAt);
    HitShortCircuits(o1.entries, o1.requests, server, env2, CollectionRequest(collectionId, count), o1.result.value);
  }

  /** A healthy search miss that yields a non-empty list leaves exactly that response, stamped at the write, under its key. */
  lemma CachedSearchIsStored(m: Store<ApiResponse>, log: seq<Request>, server: (nat, Request) -> Reply,
                             env: Env, query: string)
    requires Healthy(env)
    requires var o := SearchOutcome(m, log, server, env, query);
             o.requests != log && o.result.Success? && Cacheable(o.result.value)
    ensures var o := SearchOutcome(m, log, server, env, query);
            SearchKey(query) in o.entries && o.entries[SearchKey(query)] == Item(o.result.value, env.writeAt)
  {
    var key := SearchKey(query);
    var o := SearchOutcome(m, log, server, env, query);
    var m1 := AfterLookup(m, key, env.readAt, true, true);
    assert Lookup(m, key, env.readAt, true).None?;
    var reply := server(|log|, SearchRequest(query));
    assert Parsed(reply);
    var raw := reply.body.value;
    assert HasTemplates(raw) && o.result.value == raw;
    assert o.entries == Stored(m1, key, raw, env.writeAt, true);
  }

  /** A fresh entry cached for one query serves every query that normalises to the same text. */
  lemma EquivalentQueryHits(m: Store<ApiResponse>, log: seq<Request>, server: (nat, Request) -> Reply,
                            env: Env, query1: string, query2: string, cached: ApiResponse, stamp: int)
    requires env.readOk && SearchKey(query1) in m && m[SearchKey(query1)] == Item(cached, stamp)
    requires NormalizeQuery(query2) == NormalizeQuery(query1)
    requires env.readAt - stamp <= CacheDuration
    ensures SearchOutcome(m, log, server, env, query2) == Outcome(Success(cached), m, log)
  {
    SearchKeyIdentifiesQuery(query1, query2);
    HitShortCircuits(m, log, server, env, SearchRequest(query2), cached);
  }

  /**
   * Once a search has been cached by a healthy call, any query that
   * normalises to the same text, asked within ten minutes of the write,
   * returns the same response without a network request.
   */
  lemma RepeatedSearchHits(m: Store<ApiResponse>, log: seq<Request>, server: (nat, Request) -> Reply,
                           env1: Env, env2: Env, query1: string, query2: string)
    requires Healthy(env1) && env2.readOk
    requires var o1 := SearchOutcome(m, log, server, env1, query1);
             o1.requests != log && o1.result.Success? && Cacheable(o1.result.value)
    requires NormalizeQuery(query2) == NormalizeQuery(query1)
    requires env2.readAt - env1.writeAt <= CacheDuration
    ensures var o1 := SearchOutcome(m, log, server, env1, query1);
            SearchOutcome(o1.entries, o1.requests, server, env2, query2) == o1
  {
    var o1 := SearchOutcome(m, log, server, env1, query1);
    CachedSearchIsStored(m, log, server, env1, query1);
    EquivalentQueryHits(o1.entries, o1.requests, server, env2, query1, query2, o1.result.value, env1.writeAt);
  }

  /**
   * The "For You" collection (id 6001) at the default count: an `item_list`
   * of two templates comes back as `video_templates` in the same order, is
   * cached under `collection_6001_200`, and a second call within ten minutes
   * returns it again without a request.
   */
  lemma ForYouScenario(m: Store<ApiResponse>, log: seq<Request>, server: (nat, Request) -> Reply,
                       env1: Env, env2: Env, a: VideoTemplate, b: VideoTemplate, ret: string, errmsg: string)
    requires Healthy(env1) && env2.readOk
    requires "collection_6001_200" !in m
    requires server(|log|, CollectionRequest(6001, DefaultCount))
             == Delivered(Json(ApiResponse(ret, errmsg, Some(ResponseData(2, None, Some([a, b]), false)))))
    requires env2.readAt - env1.writeAt <= CacheDuration
    ensures var expected := ApiResponse(ret, errmsg, Some(ResponseData(2, Some([a, b]), Some([a, b]), false)));
            var o1 := CollectionOutcome(m, log, server, env1, 6001, DefaultCount);
            && o1.result == Success(expected)
            && o1.requests == log + [CollectionRequest(6001, 200)]
            && "collection_6001_200" in o1.entries && o1.entries["collection_6001_200"] == Item(expected, env1.writeAt)
            && CollectionOutcome(o1.entries, o1.requests, server, env2, 6001, DefaultCount) == o1
  {
    CollectionKeyExample();
    RepeatedCollectionHits(m, log, server, env1, env2, 6001, DefaultCount);
  }
}
