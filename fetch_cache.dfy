/**
 * The home-catalogue fetch hook and its module-level cache
 * (app/hooks/useOptimizedFetch.ts). User filters become backend filters, the
 * pair (show type, backend filters) is the cache key, one timestamp is shared
 * by every key, and a fetched provider list has its show ids prefixed with the
 * provider key before it is cached and shown.
 */
module OptimizedFetch {
  import opened Wrappers
  import Seqs
  import opened Api
  import Lookup
  import Text
  import FilterContext

  /** A cached list is served without a fetch for 5 minutes after the last write. */
  const CacheDuration: int := 300000
  /** After that, it is served and revalidated for up to 1 hour after the last write. */
  const StaleWhileRevalidate: int := 3600000
  /** The hook asks for ten shows per provider, not the client's default of 100. */
  const HookLimit: int := 10

  /**
   * The filters sent to the backend: a language unless it is "all", a genre's
   * ids unless it is "all". The release date is never sent.
   */
  function DeriveApiFilters(f: FilterContext.Filters): (r: ApiFilters)
    ensures r.originalLanguage.Some? <==> f.language != FilterContext.All
    ensures r.originalLanguage.Some? ==> r.originalLanguage.value == Lookup.GetLanguageCode(f.language)
    ensures r.genreIds.Some? <==> f.genre != FilterContext.All
    ensures r.genreIds.Some? ==> r.genreIds.value == Lookup.GetGenreIds(f.genre)
  {
    ApiFilters(
      if f.language != FilterContext.All then Some(Lookup.GetLanguageCode(f.language)) else None,
      if f.genre != FilterContext.All then Some(Lookup.GetGenreIds(f.genre)) else None)
  }

  /**
   * The cache key. The key is the JSON text of `{showType, filters}`; that
   * serialisation writes the fields in a fixed order and omits absent ones, so
   * two keys are equal exactly when these structured values are.
   */
  datatype CacheKey = CacheKey(showType: Option<ShowType>, filters: ApiFilters)

  function KeyOf(showType: Option<ShowType>, f: FilterContext.Filters): (k: CacheKey)
    ensures k.showType == showType && k.filters == DeriveApiFilters(f)
  {
    CacheKey(showType, DeriveApiFilters(f))
  }

  /** Filter sets that differ only in their release date share a key. */
  lemma KeyIgnoresReleaseDate(showType: Option<ShowType>, f: FilterContext.Filters, releaseDate: Option<string>)
    ensures KeyOf(showType, f) == KeyOf(showType, f.(releaseDate := releaseDate))
  {
  }

  /** An unknown genre sends an empty id list, which is a different key from "all". */
  lemma UnknownGenreKey(showType: Option<ShowType>, f: FilterContext.Filters)
    requires f.genre != FilterContext.All && !Lookup.IsGenreName(f.genre)
    ensures DeriveApiFilters(f).genreIds == Some([])
    ensures KeyOf(showType, f) != KeyOf(showType, f.(genre := FilterContext.All))
  {
  }

  /** The cached data: a list per key and one timestamp for all of them. */
  datatype CacheData = CacheData(data: map<CacheKey, seq<Provider>>, timestamp: int)

  datatype Decision = Fresh(shows: seq<Provider>) | Stale(shows: seq<Provider>) | Miss

  /** How a run treats its key: serve it, serve it and revalidate, or fetch. */
  function Decide(cached: Option<CacheData>, key: CacheKey, now: int): (d: Decision)
    ensures d.Fresh? <==> cached.Some? && key in cached.value.data && now < cached.value.timestamp + CacheDuration
    ensures d.Stale? <==> (cached.Some? && key in cached.value.data
                           && cached.value.timestamp + CacheDuration <= now < cached.value.timestamp + StaleWhileRevalidate)
    ensures !d.Miss? ==> d.shows == cached.value.data[key]
  {
    match cached
    case None => Miss
    case Some(c) =>
      if c.timestamp + CacheDuration > now && key in c.data then Fresh(c.data[key])
      else if c.timestamp + StaleWhileRevalidate > now && key in c.data then Stale(c.data[key])
      else Miss
  }

  /** The decision for a cached key as time passes after its last write. */
  lemma DecideOverTime(c: CacheData, key: CacheKey, now: int)
    requires key in c.data
    ensures now - c.timestamp < CacheDuration ==> Decide(Some(c), key, now) == Fresh(c.data[key])
    ensures CacheDuration <= now - c.timestamp < StaleWhileRevalidate ==> Decide(Some(c), key, now) == Stale(c.data[key])
    ensures StaleWhileRevalidate <= now - c.timestamp ==> Decide(Some(c), key, now) == Miss
  {
  }

  /** The cache after a write: created if there was none, the key set, the shared timestamp moved to `now`. */
  function Store(cached: Option<CacheData>, key: CacheKey, processed: seq<Provider>, now: int): (c: CacheData)
    ensures c.timestamp == now
    ensures key in c.data && c.data[key] == processed
    ensures cached.None? ==> c.data.Keys == {key}
    ensures cached.Some? ==> c.data.Keys == cached.value.data.Keys + {key}
    ensures cached.Some? ==> forall k :: k in cached.value.data && k != key ==> c.data[k] == cached.value.data[k]
  {
    var base := if cached.Some? then cached.value else CacheData(map[], now);
    CacheData(base.data[key := processed], now)
  }

  /**
   * A write refreshes every key: during the next 5 minutes every key the cache
   * holds is served fresh, including keys whose lists were written long before.
   */
  lemma StoreRefreshesEveryKey(cached: Option<CacheData>, key: CacheKey, processed: seq<Provider>,
                               now: int, other: CacheKey, later: int)
    requires cached.Some? && other in cached.value.data && other != key
    requires now <= later < now + CacheDuration
    ensures Decide(Some(Store(cached, key, processed, now)), other, later) == Fresh(cached.value.data[other])
  {
  }

  /**
   * The shared timestamp revives expired keys: a key past the revalidation
   * window is a miss, yet after a write under any other key it is served again
   * as fresh, with its old list.
   */
  lemma SharedTimestampRevivesExpiredKey(c: CacheData, key: CacheKey, processed: seq<Provider>,
                                         other: CacheKey, now: int)
    requires other in c.data && other != key
    requires c.timestamp + StaleWhileRevalidate <= now
    ensures Decide(Some(c), other, now) == Miss
    ensures Decide(Some(Store(Some(c), key, processed, now)), other, now) == Fresh(c.data[other])
  {
  }

  /** A cache with a write time per key, the evident intent of the timestamp. */
  datatype KeyedCache = KeyedCache(entries: map<CacheKey, (seq<Provider>, int)>)

  /** The decision for a key by its own write time, with the same two windows. */
  function DecideKeyed(c: KeyedCache, key: CacheKey, now: int): (d: Decision)
    ensures d.Fresh? <==> key in c.entries && now < c.entries[key].1 + CacheDuration
    ensures d.Stale? <==> key in c.entries && c.entries[key].1 + CacheDuration <= now < c.entries[key].1 + StaleWhileRevalidate
    ensures !d.Miss? ==> d.shows == c.entries[key].0
  {
    if key !in c.entries then Miss
    else
      var (shows, written) := c.entries[key];
      if written + CacheDuration > now then Fresh(shows)
      else if written + StaleWhileRevalidate > now then Stale(shows)
      else Miss
  }

  /** A write that stamps only its own key. */
  function StoreKeyed(c: KeyedCache, key: CacheKey, processed: seq<Provider>, now: int): (r: KeyedCache)
    ensures key in r.entries && r.entries[key] == (processed, now)
    ensures r.entries.Keys == c.entries.Keys + {key}
    ensures forall k :: k in c.entries && k != key ==> r.entries[k] == c.entries[k]
  {
    KeyedCache(c.entries[key := (processed, now)])
  }

  /** With a time per key, a write leaves every other key's decision as it was, at any time. */
  lemma StoreKeyedKeepsOtherKeys(c: KeyedCache, key: CacheKey, processed: seq<Provider>,
                                 now: int, other: CacheKey, later: int)
    requires other != key
    ensures DecideKeyed(StoreKeyed(c, key, processed, now), other, later) == DecideKeyed(c, other, later)
  {
    var r := StoreKeyed(c, key, processed, now);
    if other in c.entries {
      assert r.entries[other] == c.entries[other];
    } else {
      assert other !in r.entries;
    }
  }

  /** The key just written is fresh for the next 5 minutes, whatever the cache held. */
  lemma StoreKeyedServesFresh(c: KeyedCache, key: CacheKey, processed: seq<Provider>, now: int, later: int)
    requires now <= later < now + CacheDuration
    ensures DecideKeyed(StoreKeyed(c, key, processed, now), key, later) == Fresh(processed)
  {
  }

  /** The text a show id is rendered as in a template literal. */
  function IdText(id: ShowId): string
  {
    match id
    case NumId(n) => Text.IntToString(n)
    case StrId(s) => s
  }

  /** `${providerKey}-${id}`. */
  function PrefixedId(providerKey: int, id: ShowId): ShowId
  {
    StrId(Text.IntToString(providerKey) + "-" + IdText(id))
  }

  /** Every show of one provider with its id prefixed. */
  function PrefixShows(providerKey: int, shows: seq<Show>): (r: seq<Show>)
    ensures |r| == |shows|
    ensures forall j :: 0 <= j < |shows| ==> r[j] == shows[j].(id := PrefixedId(providerKey, shows[j].id))
  {
    if shows == [] then []
    else [shows[0].(id := PrefixedId(providerKey, shows[0].id))] + PrefixShows(providerKey, shows[1..])
  }

  /** The processed list: providers and shows in their order, only the show ids rewritten. */
  function PrefixIds(providers: seq<Provider>): (r: seq<Provider>)
    ensures |r| == |providers|
    ensures forall i :: 0 <= i < |providers| ==>
      r[i].providerName == providers[i].providerName && r[i].providerKey == providers[i].providerKey
      && |r[i].shows| == |providers[i].shows|
      && forall j :: 0 <= j < |providers[i].shows| ==>
           r[i].shows[j] == providers[i].shows[j].(id := PrefixedId(providers[i].providerKey, providers[i].shows[j].id))
  {
    if providers == [] then []
    else
      var p := providers[0];
      [p.(shows := PrefixShows(p.providerKey, p.shows))] + PrefixIds(providers[1..])
  }

  predicate IsDash(c: char) { c == '-' }

  /** In digits, a dash and more text, the first dash is the one after the digits. */
  lemma DashAfterDigits(digits: string, rest: string)
    requires forall c :: c in digits ==> Text.IsDigit(c)
    ensures Seqs.FirstIndex(digits + "-" + rest, IsDash) == Some(|digits|)
  {
    var s := digits + "-" + rest;
    var r := Seqs.FirstIndex(s, IsDash);
    assert IsDash(s[|digits|]);
    forall j | 0 <= j < |digits| ensures !IsDash(s[j]) {
      assert s[j] == digits[j] && digits[j] in digits;
    }
  }

  /**
   * For non-negative provider keys the prefixed text determines both the key
   * and the original id text: the key's digits end at the first '-'.
   */
  lemma {:induction false} PrefixedIdInjective(k1: nat, t1: string, k2: nat, t2: string)
    requires Text.NatToString(k1) + "-" + t1 == Text.NatToString(k2) + "-" + t2
    ensures k1 == k2 && t1 == t2
  {
    var a1, a2 := Text.NatToString(k1), Text.NatToString(k2);
    var s := a1 + "-" + t1;
    DashAfterDigits(a1, t1);
    DashAfterDigits(a2, t2);
    assert a1 == s[..|a1|] == a2;
    Text.NatToStringInjective(k1, k2);
    assert t1 == s[|a1| + 1..] == t2;
  }

  /**
   * Prefixed ids are unique across the whole list as long as no two shows share
   * both their provider's key and their id text.
   */
  lemma PrefixedIdsUnique(providers: seq<Provider>, i1: nat, j1: nat, i2: nat, j2: nat)
    requires i1 < |providers| && j1 < |providers[i1].shows| && providers[i1].providerKey >= 0
    requires i2 < |providers| && j2 < |providers[i2].shows| && providers[i2].providerKey >= 0
    requires PrefixIds(providers)[i1].shows[j1].id == PrefixIds(providers)[i2].shows[j2].id
    ensures providers[i1].providerKey == providers[i2].providerKey
    ensures IdText(providers[i1].shows[j1].id) == IdText(providers[i2].shows[j2].id)
  {
    var k1, k2 := providers[i1].providerKey, providers[i2].providerKey;
    PrefixedIdInjective(k1, IdText(providers[i1].shows[j1].id), k2, IdText(providers[i2].shows[j2].id));
  }

  /**
   * A failed transport is cached like an answer: the client yields `[]`, an
   * empty list is stored under the key, and for the next 5 minutes the key is
   * served as fresh and empty.
   */
  lemma FailedFetchIsCachedEmpty(cached: Option<CacheData>, showType: Option<ShowType>,
                                 f: FilterContext.Filters, e: ApiError, now: int, later: int)
    requires now <= later < now + CacheDuration
    ensures var fetched := FetchShows(showType, Some(HookLimit), Some(DeriveApiFilters(f)), _ => Failure(e));
            Decide(Some(Store(cached, KeyOf(showType, f), PrefixIds(fetched), now)), KeyOf(showType, f), later) == Fresh([])
  {
  }

  /** The module-level cache cell, `null` until the first write. */
  class ShowCache {
    var cached: Option<CacheData>

    constructor ()
      ensures cached.None?
    {
      cached := None;
    }
  }

  /** A fetch the hook has started and is waiting on. */
  datatype PendingFetch = PendingFetch(key: CacheKey, request: HomeRequest, startedAt: int)

  /**
   * What awaiting the client produced: a provider list (which is `[]` when the
   * transport failed), or an exception raised while processing the reply.
   */
  datatype FetchReply = Data(providers: seq<Provider>) | Thrown(message: string)

  /** The hook's three state cells. */
  class FetchHook {
    var isLoading: bool
    var error: Option<string>
    var shows: seq<Provider>

    constructor ()
      ensures isLoading && error.None? && shows == []
    {
      isLoading := true;
      error := None;
      shows := [];
    }

    /**
     * The part of a run before the fetch is awaited. A fresh or stale hit
     * serves the cache; a stale hit also asks for revalidation. A miss starts
     * a fetch of ten shows per provider with the derived filters.
     */
    method Start(cache: ShowCache, showType: Option<ShowType>, filters: FilterContext.Filters, now: int)
      returns (revalidate: bool, pending: Option<PendingFetch>)
      modifies this
      ensures var key := KeyOf(showType, filters);
              var d := Decide(cache.cached, key, now);
              match d
              case Fresh(ps) => shows == ps && !isLoading && !revalidate && pending.None?
              case Stale(ps) => shows == ps && !isLoading && revalidate && pending.None?
              case Miss => shows == old(shows) && isLoading && !revalidate
                           && pending == Some(PendingFetch(key, ShowsRequestBody(showType, Some(HookLimit), Some(DeriveApiFilters(filters))), now))
      ensures error == old(error)
    {
      var key := KeyOf(showType, filters);
      var d := Decide(cache.cached, key, now);
      match d {
        case Fresh(ps) =>
          shows := ps;
          isLoading := false;
          revalidate, pending := false, None;
        case Stale(ps) =>
          shows := ps;
          isLoading := false;
          revalidate, pending := true, None;
        case Miss =>
          isLoading := true;
          var body := ShowsRequestBody(showType, Some(HookLimit), Some(DeriveApiFilters(filters)));
          revalidate, pending := false, Some(PendingFetch(key, body, now));
      }
    }

    /**
     * The part of a run after the fetch. A list is processed, written to the
     * cache under the run's key with the run's start time, and shown; an
     * exception is stored in `error`. Loading ends either way. Nothing checks
     * whether a later run has started meanwhile, and a success does not clear
     * an earlier error.
     */
    method Finish(cache: ShowCache, pending: PendingFetch, reply: FetchReply)
      modifies this, cache
      ensures !isLoading
      ensures reply.Data? ==> cache.cached == Some(Store(old(cache.cached), pending.key, PrefixIds(reply.providers), pending.startedAt))
                              && shows == PrefixIds(reply.providers) && error == old(error)
      ensures reply.Thrown? ==> cache.cached == old(cache.cached) && shows == old(shows) && error == Some(reply.message)
    {
      match reply {
        case Data(providers) =>
          var processed := PrefixIds(providers);
          cache.cached := Some(Store(cache.cached, pending.key, processed, pending.startedAt));
          shows := processed;
        case Thrown(message) =>
          error := Some(message);
      }
      isLoading := false;
    }
  }
}
