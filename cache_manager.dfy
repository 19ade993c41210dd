/** The cache manager: a key/value store with per-key expiry, standing for the Redis
    client. Every Redis call can fail; the manager catches and logs the failure, so a
    failed write changes nothing and a failed read is a miss. */
module CacheManager {
  import opened Wrappers

  /** `expInSec` when the caller gives none. */
  const DefaultTtlSeconds: int := 3600

  /** A stored value and the instant (in milliseconds) from which it has expired. */
  datatype Entry<V> = Entry(value: V, expiresAt: int)

  /** Whether `key` names a key of the glob pattern `prefix*`. */
  predicate HasPrefix(key: string, prefix: string) {
    |prefix| <= |key| && key[..|prefix|] == prefix
  }

  class Cache<V> {
    /** What the store holds; an entry whose instant has passed is gone for every reader. */
    var entries: map<string, Entry<V>>
    /** Whether calls to the store succeed. */
    var reachable: bool

    constructor (reachable: bool)
      ensures entries == map[] && this.reachable == reachable
    {
      entries := map[];
      this.reachable := reachable;
    }

    /** The value a reader sees at instant `now`. */
    function Lookup(key: string, now: int): Option<V>
      reads this
    {
      if reachable && key in entries && now < entries[key].expiresAt then Some(entries[key].value) else None
    }

    /** The keys of the pattern `prefix*` that are alive at `now`. */
    function LiveKeys(prefix: string, now: int): set<string>
      reads this
    {
      set k | k in entries && HasPrefix(k, prefix) && now < entries[k].expiresAt
    }

    /** Models a change in whether the store can be reached. */
    method SetReachable(b: bool)
      modifies this
      ensures reachable == b && entries == old(entries)
    {
      reachable := b;
    }

    /** `setCache(key, value, expInSec)`: `SETEX`, which refuses a non-positive lifetime. */
    method Set(key: string, value: V, now: int, ttlSeconds: int := DefaultTtlSeconds)
      modifies this
      ensures reachable == old(reachable)
      ensures entries == if reachable && ttlSeconds > 0
        then old(entries)[key := Entry(value, now + ttlSeconds * 1000)]
        else old(entries)
      ensures reachable && ttlSeconds > 0 ==>
        forall t :: now <= t < now + ttlSeconds * 1000 ==> Lookup(key, t) == Some(value)
      ensures forall k, t :: k != key ==> Lookup(k, t) == old(Lookup(k, t))
    {
      if reachable && ttlSeconds > 0 {
        entries := entries[key := Entry(value, now + ttlSeconds * 1000)];
      }
    }

    /** `getCache(key)`: the live value, or nothing on a miss, an expired key or a failure. */
    method Get(key: string, now: int) returns (r: Option<V>)
      ensures r.Some? <==> reachable && key in entries && now < entries[key].expiresAt
      ensures r.Some? ==> r.value == entries[key].value
      ensures !reachable ==> r == None
    {
      if reachable && key in entries && now < entries[key].expiresAt {
        r := Some(entries[key].value);
      } else {
        r := None;
      }
    }

    /** `deleteCache(key)`: `DEL` of one key. */
    method Delete(key: string)
      modifies this
      ensures reachable == old(reachable)
      ensures entries == if reachable then old(entries) - {key} else old(entries)
      ensures reachable ==> forall t :: Lookup(key, t) == None
      ensures forall k, t :: k != key ==> Lookup(k, t) == old(Lookup(k, t))
    {
      if reachable {
        entries := entries - {key};
      }
    }

    /** `deleteCacheByPattern("prefix*")`: `KEYS` lists the live matching keys, and `DEL`
        runs only when there is at least one. */
    method DeleteByPattern(prefix: string, now: int)
      modifies this
      ensures reachable == old(reachable)
      ensures entries == if reachable then old(entries) - old(LiveKeys(prefix, now)) else old(entries)
      ensures old(LiveKeys(prefix, now)) == {} ==> entries == old(entries)
      ensures reachable ==> forall k :: HasPrefix(k, prefix) ==> Lookup(k, now) == None
      ensures forall k, t :: !HasPrefix(k, prefix) ==> Lookup(k, t) == old(Lookup(k, t))
    {
      if reachable {
        var keys := set k | k in entries && HasPrefix(k, prefix) && now < entries[k].expiresAt;
        if |keys| > 0 {
          entries := entries - keys;
        }
      }
    }

    /** `clearAllCache()`: `FLUSHALL`. */
    method Clear()
      modifies this
      ensures reachable == old(reachable)
      ensures entries == if reachable then map[] else old(entries)
      ensures reachable ==> forall k, t :: Lookup(k, t) == None
    {
      if reachable {
        entries := map[];
      }
    }
  }
}
