/** A key-value store whose entries expire: the Django cache used by the hub
    core and the in-process LRU caches of the hardware and RF services.
    Time is an explicit clock in milliseconds; an entry stored at `now` with
    a time-to-live `ttl` is live while the clock is below `now + ttl`. An
    entry may also disappear earlier (eviction): every property below is
    stated for an arbitrary starting map, so a missing key covers that. */
module TtlCache {
  import opened Data

  datatype Entry<V> = Entry(value: V, expiry: int)

  /** `cache.get(key)`: the stored value while it is live. */
  function Lookup<K, V>(m: map<K, Entry<V>>, key: K, now: int): Option<V>
  {
    if key in m && now < m[key].expiry then Some(m[key].value) else None
  }

  /** `cache.set(key, value, ttl)` at time `now`. */
  function Store<K, V>(m: map<K, Entry<V>>, key: K, value: V, ttl: nat, now: int): (r: map<K, Entry<V>>)
    ensures r.Keys == m.Keys + {key}
  {
    m[key := Entry(value, now + ttl)]
  }

  /** A value just stored reads back until its time-to-live runs out, and is
      absent from then on. */
  lemma StoreThenLookup<K, V>(m: map<K, Entry<V>>, key: K, value: V, ttl: nat, now: int, later: int)
    requires now <= later
    ensures later < now + ttl ==> Lookup(Store(m, key, value, ttl, now), key, later) == Some(value)
    ensures later >= now + ttl ==> Lookup(Store(m, key, value, ttl, now), key, later) == None
  {
  }

  /** Storing one key leaves every other key as it was. */
  lemma StoreKeepsOthers<K, V>(m: map<K, Entry<V>>, key: K, value: V, ttl: nat, now: int, other: K, at: int)
    requires other != key
    ensures Lookup(Store(m, key, value, ttl, now), other, at) == Lookup(m, other, at)
  {
  }
}
