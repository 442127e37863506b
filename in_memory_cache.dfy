/** The process-local store of `in-memory-cache.ts`: a map from key to
    value and expiry, evicted lazily on read; the ttl is given in seconds
    and clock time in milliseconds. */
module MemoryCache {
  import opened Js
  import opened Store

  /** Milliseconds per second. */
  const MillisPerSecond: int := 1000

  /** The expiry of an entry set at `now` with a ttl in seconds: the entry
      lives `ttl` thousand milliseconds, and one set with a ttl of zero or
      less is expired at once. */
  function ExpiryAt(now: int, ttlSeconds: int): (e: int)
    ensures e - now == ttlSeconds * MillisPerSecond
    ensures e > now <==> ttlSeconds > 0
  {
    now + ttlSeconds * MillisPerSecond
  }

  class InMemoryCache<V> {
    var cache: Entries<V>

    constructor ()
      ensures cache == map[]
    {
      cache := map[];
    }

    /** `get(key)` at clock time `now`. */
    method Get(key: string, now: int) returns (r: Option<V>)
      modifies this
      ensures r == Fetch(old(cache), key, now)
      ensures cache == AfterFetch(old(cache), key, now)
    {
      if key in cache {
        var entry := cache[key];
        if entry.expiresAt > now {
          return Some(entry.value);
        }
        cache := cache - {key};
      }
      return None;
    }

    /** `set(key, value, ttl)` at clock time `now`, the ttl in seconds. */
    method Set(key: string, value: V, ttl: int, now: int)
      modifies this
      ensures cache == Put(old(cache), key, value, ExpiryAt(now, ttl))
    {
      cache := cache[key := Entry(value, ExpiryAt(now, ttl))];
    }

    /** `delete(key)`. */
    method Delete(key: string)
      modifies this
      ensures cache == Remove(old(cache), key)
    {
      cache := cache - {key};
    }
  }

  /** A set followed by a get of the same key: the value comes back for
      `ttl` seconds after the set and is gone from then on. */
  method SetThenGet<V>(c: InMemoryCache<V>, key: string, value: V, ttl: int, setAt: int, getAt: int)
    returns (r: Option<V>)
    modifies c
    ensures getAt < setAt + ttl * 1000 ==> r == Some(value)
    ensures getAt < setAt + ttl * 1000 ==> key in c.cache && c.cache[key] == Entry(value, setAt + ttl * 1000)
    ensures getAt >= setAt + ttl * 1000 ==> r.None? && key !in c.cache
    ensures forall k :: k != key ==> (k in c.cache <==> k in old(c.cache)) && (k in c.cache ==> c.cache[k] == old(c.cache)[k])
  {
    c.Set(key, value, ttl, setAt);
    r := c.Get(key, getAt);
  }

  /** Round trip on the map: live strictly before `setAt + ttl * 1000`. */
  lemma SetThenGetRoundTrip<V>(m: Entries<V>, key: string, value: V, ttl: int, setAt: int, getAt: int)
    ensures getAt < setAt + ttl * 1000 ==> Fetch(Put(m, key, value, ExpiryAt(setAt, ttl)), key, getAt) == Some(value)
    ensures getAt >= setAt + ttl * 1000 ==> Fetch(Put(m, key, value, ExpiryAt(setAt, ttl)), key, getAt).None?
  {
    PutThenFetch(m, key, value, ExpiryAt(setAt, ttl), getAt);
  }

  /** A ten-second entry set at time 0 is there at time 0 and gone at
      15000 ms. */
  lemma TenSecondEntry<V>(value: V)
    ensures Fetch(Put(map[], "key", value, ExpiryAt(0, 10)), "key", 0) == Some(value)
    ensures Fetch(Put(map[], "key", value, ExpiryAt(0, 10)), "key", 15000).None?
  {
  }
}
