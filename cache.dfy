/** The earlier process-local store of `cache.ts`: the same map and lazy
    eviction as `in-memory-cache.ts`, but the ttl is added to the clock
    without conversion, although it is documented as seconds. */
module Cache {
  import opened Js
  import opened Store
  import MemoryCache

  /** The expiry this revision stores: the entry lives `ttl` clock units
      (milliseconds), and one set with a ttl of zero or less is expired at
      once. */
  function ExpiryAt(now: int, ttl: int): (e: int)
    ensures e - now == ttl
    ensures e > now <==> ttl > 0
  {
    now + ttl
  }

  class InMemoryCache<V> {
    var cache: Entries<V>

    constructor ()
      ensures cache == map[]
    {
      cache := map[];
    }

    /** `get(key)` at clock time `now`. */
    method Get(key: string, now: int) returns (r: Option<V>)
      modifies this
      ensures r == Fetch(old(cache), key, now)
      ensures cache == AfterFetch(old(cache), key, now)
    {
      if key in cache {
        var entry := cache[key];
        if entry.expiresAt > now {
          return Some(entry.value);
        }
        cache := cache - {key};
      }
      return None;
    }

    /** `set(key, value, ttl)` at clock time `now`: the ttl is not scaled. */
    method Set(key: string, value: V, ttl: int, now: int)
      modifies this
      ensures cache == Put(old(cache), key, value, ExpiryAt(now, ttl))
    {
      cache := cache[key := Entry(value, ExpiryAt(now, ttl))];
    }

    /** `delete(key)`. */
    method Delete(key: string)
      modifies this
      ensures cache == Remove(old(cache), key)
    {
      cache := cache - {key};
    }
  }

  /** A set followed by a get of the same key: the value comes back for
      `ttl` clock units (milliseconds) after the set. */
  method SetThenGet<V>(c: InMemoryCache<V>, key: string, value: V, ttl: int, setAt: int, getAt: int)
    returns (r: Option<V>)
    modifies c
    ensures getAt < setAt + ttl ==> r == Some(value)
    ensures getAt < setAt + ttl ==> key in c.cache && c.cache[key] == Entry(value, setAt + ttl)
    ensures getAt >= setAt + ttl ==> r.None? && key !in c.cache
    ensures forall k :: k != key ==> (k in c.cache <==> k in old(c.cache)) && (k in c.cache ==> c.cache[k] == old(c.cache)[k])
  {
    c.Set(key, value, ttl, setAt);
    r := c.Get(key, getAt);
  }

  /** An entry set for "10 seconds" at time 0 is already gone 15 ms later,
      while the later revision still returns it then. */
  lemma TenSecondEntryExpiresInMilliseconds<V>(value: V)
    ensures Fetch(Put(map[], "key", value, ExpiryAt(0, 10)), "key", 15).None?
    ensures Fetch(Put(map[], "key", value, MemoryCache.ExpiryAt(0, 10)), "key", 15) == Some(value)
  {
  }

  /** For every positive ttl this revision's entries expire strictly earlier
      than the later revision's. */
  lemma ExpiresEarlierThanSeconds(now: int, ttl: int)
    requires ttl > 0
    ensures ExpiryAt(now, ttl) < MemoryCache.ExpiryAt(now, ttl)
  {
  }
}
