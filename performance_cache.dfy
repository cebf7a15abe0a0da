/** The in-memory TTL cache of src/utils/performanceCache.ts: a map from
    string keys to entries stamped with the time they were stored; an entry
    older than its time-to-live is dropped the first time it is read.
    `Date.now()` is the parameter `now` (milliseconds). */
module PerformanceCache {
  import opened Common

  datatype CacheEntry<T> = CacheEntry(data: T, timestamp: int, ttl: int)

  /** Five minutes, in milliseconds. */
  const DefaultTtl: int := 5 * 60 * 1000

  /** An entry is expired once strictly more than `ttl` ms have passed. */
  predicate Expired<T>(e: CacheEntry<T>, now: int)
  {
    now - e.timestamp > e.ttl
  }

  /** What `get(key)` returns at time `now`. */
  function Lookup<T>(cache: map<string, CacheEntry<T>>, key: string, now: int): (r: Option<T>)
    ensures r.Some? <==> key in cache && !Expired(cache[key], now)
    ensures r.Some? ==> r.value == cache[key].data
  {
    if key !in cache then None
    else if Expired(cache[key], now) then None
    else Some(cache[key].data)
  }

  /** The cache after `get(key)` at time `now`: an expired entry is deleted. */
  function AfterLookup<T>(cache: map<string, CacheEntry<T>>, key: string, now: int): (c: map<string, CacheEntry<T>>)
    ensures forall k :: k != key ==> (k in c <==> k in cache)
    ensures forall k :: k in c ==> k in cache && c[k] == cache[k]
    ensures key in c <==> key in cache && !Expired(cache[key], now)
  {
    if key in cache && Expired(cache[key], now) then cache - {key} else cache
  }

  class Cache<T> {
    var cache: map<string, CacheEntry<T>>

    constructor()
      ensures cache == map[]
    {
      cache := map[];
    }

    /** `set(key, data, ttl)`: stores a fresh entry stamped `now`, replacing
        any earlier one for the key. */
    method Set(key: string, data: T, ttl: int, now: int)
      modifies this
      ensures cache == old(cache)[key := CacheEntry(data, now, ttl)]
    {
      cache := cache[key := CacheEntry(data, now, ttl)];
    }

    /** `set(key, data)` with the default time-to-live. */
    method SetDefault(key: string, data: T, now: int)
      modifies this
      ensures cache == old(cache)[key := CacheEntry(data, now, DefaultTtl)]
    {
      Set(key, data, DefaultTtl, now);
    }

    /** `get(key)`: the stored data while it is fresh; an expired entry is
        deleted and reads as absent. */
    method Get(key: string, now: int) returns (r: Option<T>)
      modifies this
      ensures r == Lookup(old(cache), key, now)
      ensures cache == AfterLookup(old(cache), key, now)
    {
      if key !in cache {
        return None;
      }
      var entry := cache[key];
      var isExpired := now - entry.timestamp > entry.ttl;
      if isExpired {
        cache := cache - {key};
        return None;
      }
      return Some(entry.data);
    }

    /** `clear()`. */
    method Clear()
      modifies this
      ensures cache == map[]
    {
      cache := map[];
    }

    /** `has(key)`: a `get` whose result is compared with null, with the
        same eviction. */
    method Has(key: string, now: int) returns (b: bool)
      modifies this
      ensures b == Lookup(old(cache), key, now).Some?
      ensures cache == AfterLookup(old(cache), key, now)
    {
      var r := Get(key, now);
      b := r.Some?;
    }
  }

  /** Reading back right after a `set`: the data is returned for exactly
      `ttl` ms after `now0`, the boundary included, and not after. */
  lemma SetThenLookup<T>(cache: map<string, CacheEntry<T>>, key: string, data: T, ttl: int, now0: int, now: int)
    ensures Lookup(cache[key := CacheEntry(data, now0, ttl)], key, now) ==
      (if now - now0 <= ttl then Some(data) else None)
  {
  }

  /** With the default time-to-live an entry read exactly 300000 ms after it
      was stored is still returned, and one read 1 ms later is not. */
  lemma DefaultTtlBoundary<T>(cache: map<string, CacheEntry<T>>, key: string, data: T, now0: int)
    ensures Lookup(cache[key := CacheEntry(data, now0, DefaultTtl)], key, now0 + 300000) == Some(data)
    ensures Lookup(cache[key := CacheEntry(data, now0, DefaultTtl)], key, now0 + 300001) == None
  {
    SetThenLookup(cache, key, data, DefaultTtl, now0, now0 + 300000);
    SetThenLookup(cache, key, data, DefaultTtl, now0, now0 + 300001);
  }

  /** A `set` of one key does not change what any other key reads. */
  lemma SetLeavesOthers<T>(cache: map<string, CacheEntry<T>>, key: string, other: string, data: T, ttl: int, now0: int, now: int)
    requires other != key
    ensures Lookup(cache[key := CacheEntry(data, now0, ttl)], other, now) == Lookup(cache, other, now)
  {
  }

  /** A read changes nothing else: every other key reads the same
      afterwards, and reading the same key again at the same time gives the
      same answer and leaves the cache as it is. */
  lemma LookupSideEffects<T>(cache: map<string, CacheEntry<T>>, key: string, other: string, now: int, later: int)
    ensures Lookup(AfterLookup(cache, key, now), key, now) == Lookup(cache, key, now)
    ensures AfterLookup(AfterLookup(cache, key, now), key, now) == AfterLookup(cache, key, now)
    ensures other != key ==> Lookup(AfterLookup(cache, key, now), other, later) == Lookup(cache, other, later)
  {
  }

  /** Once an entry has expired it stays expired: a read at a later time
      cannot bring it back. */
  lemma ExpiryIsFinal<T>(e: CacheEntry<T>, now: int, later: int)
    requires Expired(e, now) && now <= later
    ensures Expired(e, later)
  {
  }

  // ---------------------------------------------------------------------------
  // CACHE_KEYS
  // ---------------------------------------------------------------------------

  datatype CacheKind = HistoricalData | WeeklyData | MonthlyData | VolatilityCalc

  function Prefix(kind: CacheKind): string
  {
    match kind
    case HistoricalData => "historical_"
    case WeeklyData => "weekly_"
    case MonthlyData => "monthly_"
    case VolatilityCalc => "volatility_"
  }

  /** `CACHE_KEYS.<KIND>(symbol)`. */
  function CacheKey(kind: CacheKind, symbol: string): (key: string)
    ensures |key| == |Prefix(kind)| + |symbol|
    ensures key[|Prefix(kind)|..] == symbol
  {
    Prefix(kind) + symbol
  }

  /** The first character of a key names its kind. */
  lemma FirstCharNamesKind(a: CacheKind, b: CacheKind)
    requires Prefix(a)[0] == Prefix(b)[0]
    ensures a == b
  {
  }

  /** No two (kind, symbol) pairs share a key: different kinds never
      collide, and one kind never maps two symbols to one key. */
  lemma CacheKeyInjective(k1: CacheKind, s1: string, k2: CacheKind, s2: string)
    requires CacheKey(k1, s1) == CacheKey(k2, s2)
    ensures k1 == k2 && s1 == s2
  {
    assert CacheKey(k1, s1)[0] == Prefix(k1)[0];
    assert CacheKey(k2, s2)[0] == Prefix(k2)[0];
    FirstCharNamesKind(k1, k2);
  }
}
