/**
 * The caching layer of the web client (packages/web/lib/cache.ts): the
 * in-memory `MemoryCache`, a map of entries that expire `ttl` milliseconds
 * after they were written; the HTTP cache headers; and the tier order of
 * `cachedFetch`. The clock is an explicit `now` argument.
 */
module MemoryCaches {
  import opened Wrappers
  import opened JsonValues
  import Text

  /** `set`'s default time to live: one hour in milliseconds. */
  const DefaultTtl: int := 3600000
  /** What `cachedFetch` gives the IndexedDB tier: one day. */
  const DbTtl: int := 86400000

  datatype Entry = Entry(data: Json, timestamp: int, ttl: int)

  /** An entry read at `now` has outlived its ttl; an age equal to the ttl is still fresh. */
  predicate Expired(e: Entry, now: int)
  {
    now - e.timestamp > e.ttl
  }

  /** What `get(key)` returns at `now`: the data of a fresh entry, `null` otherwise. */
  function Lookup(cache: map<string, Entry>, key: string, now: int): Json
  {
    if key !in cache || Expired(cache[key], now) then Null else cache[key].data
  }

  /** The map after `get(key)` at `now`: an expired entry is deleted, nothing else changes. */
  function AfterGet(cache: map<string, Entry>, key: string, now: int): (r: map<string, Entry>)
    ensures forall k :: k != key ==> (k in r <==> k in cache) && (k in r ==> r[k] == cache[k])
  {
    if key in cache && Expired(cache[key], now) then cache - {key} else cache
  }

  class MemoryCache {
    var cache: map<string, Entry>

    constructor()
      ensures cache == map[]
    {
      cache := map[];
    }

    /** `size()`: every stored entry, expired ones not yet read included. */
    function Size(): nat
      reads this
    {
      |cache|
    }

    /** `set(key, data, ttl)` at `now`. */
    method Set(key: string, data: Json, ttl: int, now: int)
      modifies this
      ensures cache == old(cache)[key := Entry(data, now, ttl)]
    {
      cache := cache[key := Entry(data, now, ttl)];
    }

    /** `get(key)` at `now`. */
    method Get(key: string, now: int) returns (r: Json)
      modifies this
      ensures r == Lookup(old(cache), key, now)
      ensures cache == AfterGet(old(cache), key, now)
    {
      if key !in cache {
        return Null;
      }
      var entry := cache[key];
      if now - entry.timestamp > entry.ttl {
        cache := cache - {key};
        return Null;
      }
      return entry.data;
    }

    /** `has(key)`: `get(key) !== null`, eviction included. */
    method Has(key: string, now: int) returns (b: bool)
      modifies this
      ensures b <==> Lookup(old(cache), key, now) != Null
      ensures cache == AfterGet(old(cache), key, now)
    {
      var v := Get(key, now);
      b := v != Null;
    }

    method Delete(key: string)
      modifies this
      ensures cache == old(cache) - {key}
    {
      cache := cache - {key};
    }

    method Clear()
      modifies this
      ensures cache == map[]
    {
      cache := map[];
    }
  }

  /** A fresh entry is returned and kept; the age equal to the ttl is still fresh. */
  lemma LookupFresh(cache: map<string, Entry>, key: string, now: int)
    requires key in cache && now - cache[key].timestamp <= cache[key].ttl
    ensures Lookup(cache, key, now) == cache[key].data
    ensures AfterGet(cache, key, now) == cache
  {
  }

  /** An expired entry reads as `null` and is removed: the size drops by one. */
  lemma {:induction false} LookupExpired(cache: map<string, Entry>, key: string, now: int)
    requires key in cache && Expired(cache[key], now)
    ensures Lookup(cache, key, now) == Null
    ensures key !in AfterGet(cache, key, now)
    ensures |AfterGet(cache, key, now)| == |cache| - 1
  {
    assert (cache - {key}).Keys == cache.Keys - {key};
  }

  /** A missing key reads as `null` and changes nothing. */
  lemma LookupMissing(cache: map<string, Entry>, key: string, now: int)
    requires key !in cache
    ensures Lookup(cache, key, now) == Null && AfterGet(cache, key, now) == cache
  {
  }

  /**
   * `set` then `get`: the value is returned until its ttl has passed, and
   * other keys read exactly as they did.
   */
  lemma SetThenLookup(cache: map<string, Entry>, key: string, data: Json, ttl: int, t: int, now: int, other: string)
    requires other != key
    ensures now - t <= ttl ==> Lookup(cache[key := Entry(data, t, ttl)], key, now) == data
    ensures now - t > ttl ==> Lookup(cache[key := Entry(data, t, ttl)], key, now) == Null
    ensures Lookup(cache[key := Entry(data, t, ttl)], other, now) == Lookup(cache, other, now)
  {
  }

  /** A stored `null` makes `has` false although the entry is there. */
  lemma StoredNullIsAbsent(cache: map<string, Entry>, key: string, t: int, ttl: int, now: int)
    requires now - t <= ttl
    ensures Lookup(cache[key := Entry(Null, t, ttl)], key, now) == Null
    ensures key in AfterGet(cache[key := Entry(Null, t, ttl)], key, now)
  {
  }

  // ------------------------------------------------------------------ headers

  const DefaultMaxAge: nat := 86400
  const DefaultStaleWhileRevalidate: nat := 604800

  /** `getCacheHeaders(config)`: each setting the config leaves out takes its default. */
  function CacheHeaders(maxAge: Option<nat>, staleWhileRevalidate: Option<nat>): (h: seq<(string, string)>)
    ensures |h| == 3
    ensures h[0].0 == "Cache-Control" && h[1].0 == "CDN-Cache-Control" && h[2].0 == "Cloudflare-CDN-Cache-Control"
  {
    var age := Text.NatToString(maxAge.GetOr(DefaultMaxAge));
    var swr := Text.NatToString(staleWhileRevalidate.GetOr(DefaultStaleWhileRevalidate));
    [("Cache-Control", "public, max-age=" + age + ", stale-while-revalidate=" + swr),
     ("CDN-Cache-Control", "public, max-age=" + age),
     ("Cloudflare-CDN-Cache-Control", "max-age=" + age)]
  }

  /** The decimal texts of the two default durations. */
  lemma {:induction false} DefaultTexts()
    ensures Text.NatToString(DefaultMaxAge) == "86400"
    ensures Text.NatToString(DefaultStaleWhileRevalidate) == "604800"
  {
    assert Text.NatToString(8) == "8";
    assert Text.NatToString(86) == "86";
    assert Text.NatToString(864) == "864";
    assert Text.NatToString(8640) == "8640";
    assert Text.NatToString(6) == "6";
    assert Text.NatToString(60) == "60";
    assert Text.NatToString(604) == "604";
    assert Text.NatToString(6048) == "6048";
    assert Text.NatToString(60480) == "60480";
  }

  /** With no overrides: one day fresh, a week stale-while-revalidate. */
  lemma {:induction false} DefaultCacheHeaders()
    ensures var h := CacheHeaders(None, None);
      h[0].1 == "public, max-age=86400" + ", stale-while-revalidate=604800" &&
      h[1].1 == "public, max-age=86400" &&
      h[2].1 == "max-age=86400"
  {
    DefaultTexts();
    HeadersAgree(None, None);
    assert "max-age=" + "86400" == "max-age=86400";
    assert "public, " + "max-age=86400" == "public, max-age=86400";
    assert ", stale-while-revalidate=" + "604800" == ", stale-while-revalidate=604800";
  }

  /** The three headers carry the same max-age; only `Cache-Control` adds stale-while-revalidate. */
  lemma HeadersAgree(maxAge: Option<nat>, swr: Option<nat>)
    ensures var h := CacheHeaders(maxAge, swr);
      h[2].1 == "max-age=" + Text.NatToString(maxAge.GetOr(DefaultMaxAge)) &&
      h[1].1 == "public, " + h[2].1 &&
      h[0].1 == h[1].1 + ", stale-while-revalidate=" + Text.NatToString(swr.GetOr(DefaultStaleWhileRevalidate))
  {
    var age := Text.NatToString(maxAge.GetOr(DefaultMaxAge));
    assert "public, max-age=" + age == "public, " + ("max-age=" + age);
  }

  // -------------------------------------------------------------- cachedFetch

  /** Where `cachedFetch`'s answer came from (the `X-Cache` header, or the network). */
  datatype Fetched = MemoryHit(data: Json) | DbHit(data: Json) | FromNetwork(data: Json)

  /**
   * `cachedFetch(url, options, cacheKey)` at `now`. The IndexedDB tier is
   * modelled as a second map of entries with the same expiry rule; `network`
   * is the JSON body the request would return.
   */
  method CachedFetch(memory: MemoryCache, db: MemoryCache, url: string, cacheKey: Option<string>,
                     now: int, network: string -> Json)
    returns (r: Fetched)
    requires memory != db
    modifies memory, db
    ensures var key := if cacheKey.Some? && cacheKey.value != "" then cacheKey.value else url;
      var m := Lookup(old(memory.cache), key, now);
      var d := Lookup(old(db.cache), key, now);
      if Truthy(Some(m)) then
        r == MemoryHit(m) && memory.cache == old(memory.cache) && db.cache == old(db.cache)
      else if Truthy(Some(d)) then
        r == DbHit(d) && db.cache == AfterGet(old(db.cache), key, now) &&
        memory.cache == AfterGet(old(memory.cache), key, now)[key := Entry(d, now, DefaultTtl)]
      else
        r == FromNetwork(network(url)) &&
        memory.cache == AfterGet(old(memory.cache), key, now)[key := Entry(network(url), now, DefaultTtl)] &&
        db.cache == AfterGet(old(db.cache), key, now)[key := Entry(network(url), now, DbTtl)]
  {
    var key := if cacheKey.Some? && cacheKey.value != "" then cacheKey.value else url;
    var m := memory.Get(key, now);
    if Truthy(Some(m)) {
      return MemoryHit(m);
    }
    var d := db.Get(key, now);
    if Truthy(Some(d)) {
      memory.Set(key, d, DefaultTtl, now);
      return DbHit(d);
    }
    var data := network(url);
    memory.Set(key, data, DefaultTtl, now);
    db.Set(key, data, DbTtl, now);
    r := FromNetwork(data);
  }
}
