/** The map semantics shared by both revisions of the process-local
    `InMemoryCache` (the `KeyValueCache` shape: get, set, delete by string
    key). Expiry is an absolute time; the revisions differ only in how they
    compute it from the ttl they are given. */
module Store {
  import opened Js

  /** An entry: the stored value and the time it expires at (the source
      stores the latter under the name `ttl`). */
  datatype Entry<V> = Entry(value: V, expiresAt: int)

  type Entries<V> = map<string, Entry<V>>

  /** What `get(key)` returns at time `now`: the value while its expiry lies
      strictly after `now`, otherwise nothing. */
  function Fetch<V>(m: Entries<V>, key: string, now: int): (r: Option<V>)
    ensures r.Some? <==> key in m && m[key].expiresAt > now
    ensures r.Some? ==> r.value == m[key].value
  {
    if key in m && m[key].expiresAt > now then Some(m[key].value) else None
  }

  /** The map after `get(key)` at time `now`: an expired entry for the key is
      evicted, everything else stays. */
  function AfterFetch<V>(m: Entries<V>, key: string, now: int): (m': Entries<V>)
    ensures key in m && m[key].expiresAt <= now ==> key !in m'
    ensures forall k :: k != key ==> (k in m' <==> k in m) && (k in m' ==> m'[k] == m[k])
    ensures key in m && m[key].expiresAt > now ==> m' == m
    ensures key !in m ==> m' == m
  {
    if key in m && m[key].expiresAt <= now then m - {key} else m
  }

  /** The map after `set(key, value, …)` with the given expiry: the entry for
      the key is overwritten, every other entry stays. */
  function Put<V>(m: Entries<V>, key: string, value: V, expiresAt: int): (m': Entries<V>)
    ensures key in m' && m'[key] == Entry(value, expiresAt)
    ensures forall k :: k != key ==> (k in m' <==> k in m) && (k in m' ==> m'[k] == m[k])
  {
    m[key := Entry(value, expiresAt)]
  }

  /** The map after `delete(key)`: only the key is gone. */
  function Remove<V>(m: Entries<V>, key: string): (m': Entries<V>)
    ensures key !in m'
    ensures forall k :: k != key ==> (k in m' <==> k in m) && (k in m' ==> m'[k] == m[k])
    ensures key !in m ==> m' == m
  {
    m - {key}
  }

  /** A fetch that finds a live entry changes nothing; one that finds
      nothing changes nothing either. */
  lemma FetchChangesOnlyExpired<V>(m: Entries<V>, key: string, now: int)
    ensures Fetch(m, key, now).Some? ==> AfterFetch(m, key, now) == m
    ensures key !in m ==> Fetch(m, key, now).None? && AfterFetch(m, key, now) == m
  {
  }

  /** Round trip: a value put with an expiry is fetched back exactly until
      that expiry, and absent from then on (and then evicted). */
  lemma PutThenFetch<V>(m: Entries<V>, key: string, value: V, expiresAt: int, now: int)
    ensures now < expiresAt ==> Fetch(Put(m, key, value, expiresAt), key, now) == Some(value)
    ensures now >= expiresAt ==> Fetch(Put(m, key, value, expiresAt), key, now).None?
    ensures now >= expiresAt ==> AfterFetch(Put(m, key, value, expiresAt), key, now) == Remove(m, key)
  {
  }

  /** Putting or removing one key is invisible to a fetch of another. */
  lemma OtherKeysUnaffected<V>(m: Entries<V>, key: string, other: string, value: V, expiresAt: int, now: int)
    requires other != key
    ensures Fetch(Put(m, key, value, expiresAt), other, now) == Fetch(m, other, now)
    ensures Fetch(Remove(m, key), other, now) == Fetch(m, other, now)
  {
  }

  /** A deleted key is absent at any time. */
  lemma RemoveThenFetch<V>(m: Entries<V>, key: string, now: int)
    ensures Fetch(Remove(m, key), key, now).None?
  {
  }
}
