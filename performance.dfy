/**
 * The response cache of performance_optimizer.py: two dictionaries, the
 * cached values and their expiry instants, that always share one key set;
 * the `timed_cache` wrapper that answers from the cache while an entry is
 * fresh and otherwise runs the function and stores its result; the cleanup
 * of expired entries; the hit ratio; and clearing.
 *
 * The clock is an explicit parameter `now`, an instant in microseconds; a
 * time-to-live in seconds is converted with `MicrosPerSecond`. The cache
 * key, which the source derives from the function name and the Python
 * `hash` of the arguments, is the generic key `K` (the argument tuple
 * itself). The performance metrics are kept only as the total number of
 * recorded calls, the one figure the hit ratio reads.
 */
module Performance {
  import opened Wrappers

  const MicrosPerSecond: nat := 1000000

  /** `self.response_cache_duration` and the default of `timed_cache`: five minutes. */
  const ResponseCacheDuration: nat := 300

  /** The time-to-live of preloaded entries: 24 hours. */
  const PreloadDuration: nat := 24 * 60 * 60

  class PerformanceOptimizer<K(==), V> {
    /** `self.cache`. */
    var cache: map<K, V>
    /** `self.cache_ttl`: when each cached value expires. */
    var cacheTtl: map<K, int>
    /** The sum of `total_calls` over `self.performance_metrics`. */
    var totalCalls: nat

    /** The two dictionaries always have the same keys. */
    ghost predicate Valid()
      reads this
    {
      cache.Keys == cacheTtl.Keys
    }

    /** An entry is fresh while the clock is before its expiry. */
    predicate Fresh(key: K, now: int)
      reads this
    {
      key in cache && key in cacheTtl && now < cacheTtl[key]
    }

    constructor ()
      ensures Valid()
      ensures cache == map[] && cacheTtl == map[] && totalCalls == 0
    {
      cache := map[];
      cacheTtl := map[];
      totalCalls := 0;
    }

    /**
     * The lookup half of the wrapper (performance_optimizer.py:36-42): a
     * fresh entry is returned and nothing changes; an expired one is
     * removed from both dictionaries.
     */
    method Probe(key: K, now: int) returns (hit: Option<V>)
      requires Valid()
      modifies this
      ensures Valid()
      ensures totalCalls == old(totalCalls)
      ensures old(Fresh(key, now)) ==> hit == Some(old(cache[key])) && cache == old(cache) && cacheTtl == old(cacheTtl)
      ensures !old(Fresh(key, now)) ==> hit.None? && cache == old(cache) - {key} && cacheTtl == old(cacheTtl) - {key}
    {
      if key in cache {
        if now < cacheTtl[key] {
          return Some(cache[key]);
        } else {
          cache := cache - {key};
          cacheTtl := cacheTtl - {key};
        }
      }
      hit := None;
    }

    /**
     * The store half of the wrapper (performance_optimizer.py:49-54): the
     * result goes into both dictionaries with expiry `now + ttl`, and one
     * more call is recorded.
     */
    method Store(key: K, result: V, now: int, ttlSeconds: nat)
      requires Valid()
      modifies this
      ensures Valid()
      ensures cache == old(cache)[key := result]
      ensures cacheTtl == old(cacheTtl)[key := now + ttlSeconds * MicrosPerSecond]
      ensures totalCalls == old(totalCalls) + 1
    {
      cache := cache[key := result];
      cacheTtl := cacheTtl[key := now + ttlSeconds * MicrosPerSecond];
      totalCalls := totalCalls + 1;
    }

    /**
     * `timed_cache(ttl_seconds)(func)(*args)`, where `computed` is what
     * `func(*args)` returns: a fresh entry answers without running the
     * function (`ran` is false); otherwise the function runs, and its
     * result is stored with a new expiry and returned.
     */
    method TimedCall(key: K, now: int, ttlSeconds: nat, computed: V) returns (result: V, ran: bool)
      requires Valid()
      modifies this
      ensures Valid()
      ensures old(Fresh(key, now)) ==>
                && result == old(cache[key]) && !ran
                && cache == old(cache) && cacheTtl == old(cacheTtl) && totalCalls == old(totalCalls)
      ensures !old(Fresh(key, now)) ==>
                && result == computed && ran
                && cache == old(cache)[key := computed]
                && cacheTtl == old(cacheTtl)[key := now + ttlSeconds * MicrosPerSecond]
                && totalCalls == old(totalCalls) + 1
    {
      var hit := Probe(key, now);
      if hit.Some? {
        return hit.value, false;
      }
      Store(key, computed, now, ttlSeconds);
      result, ran := computed, true;
    }

    /** The keys whose expiry has been reached. */
    function ExpiredKeys(now: int): set<K>
      reads this
    {
      set key | key in cacheTtl && now >= cacheTtl[key]
    }

    /**
     * `cleanup_expired_cache()`: removes exactly the expired entries from
     * both dictionaries, keeps the others as they were, and returns how many
     * it removed.
     */
    method CleanupExpiredCache(now: int) returns (removed: nat)
      requires Valid()
      modifies this
      ensures Valid()
      ensures removed == |old(ExpiredKeys(now))|
      ensures forall key :: key in cache <==> key in old(cache) && now < old(cacheTtl)[key]
      ensures forall key :: key in cache ==> cache[key] == old(cache)[key] && cacheTtl[key] == old(cacheTtl)[key]
      ensures totalCalls == old(totalCalls)
    {
      var expiredKeys := ExpiredKeys(now);
      var pending := expiredKeys;
      removed := 0;
      while pending != {}
        invariant pending <= expiredKeys
        invariant Valid()
        invariant removed + |pending| == |expiredKeys|
        invariant cache == old(cache) - (expiredKeys - pending)
        invariant cacheTtl == old(cacheTtl) - (expiredKeys - pending)
        invariant totalCalls == old(totalCalls)
        decreases |pending|
      {
        var key :| key in pending;
        cache := cache - {key};
        cacheTtl := cacheTtl - {key};
        pending := pending - {key};
        removed := removed + 1;
      }
    }

    /** The "Clear Cache" action: both dictionaries emptied together. */
    method Clear()
      requires Valid()
      modifies this
      ensures Valid()
      ensures cache == map[] && cacheTtl == map[] && totalCalls == old(totalCalls)
    {
      cache := map[];
      cacheTtl := map[];
    }

    /**
     * `preload_common_responses()`: each (key, value) goes into both
     * dictionaries with a 24-hour expiry, and the last entry given for a
     * key is the value it keeps; the values stand for
     * `get_fallback_questions` on each common tech stack.
     */
    method Preload(entries: seq<(K, V)>, now: int)
      requires Valid()
      modifies this
      ensures Valid()
      ensures forall key :: key in cache <==> key in old(cache) || exists i :: 0 <= i < |entries| && entries[i].0 == key
      ensures forall key :: key in old(cache) && (forall i :: 0 <= i < |entries| ==> entries[i].0 != key) ==>
                cache[key] == old(cache)[key] && cacheTtl[key] == old(cacheTtl)[key]
      ensures forall i :: 0 <= i < |entries| ==> cacheTtl[entries[i].0] == now + PreloadDuration * MicrosPerSecond
      ensures forall i :: LastWriteBefore(entries, |entries|, i) ==> cache[entries[i].0] == entries[i].1
      ensures totalCalls == old(totalCalls)
    {
      for i := 0 to |entries|
        invariant Valid()
        invariant forall key :: key in cache <==> key in old(cache) || exists j :: 0 <= j < i && entries[j].0 == key
        invariant forall key :: key in old(cache) && (forall j :: 0 <= j < i ==> entries[j].0 != key) ==>
                    cache[key] == old(cache)[key] && cacheTtl[key] == old(cacheTtl)[key]
        invariant forall j :: 0 <= j < i ==> cacheTtl[entries[j].0] == now + PreloadDuration * MicrosPerSecond
        invariant forall k :: LastWriteBefore(entries, i, k) ==> cache[entries[k].0] == entries[k].1
        invariant totalCalls == old(totalCalls)
      {
        cache := cache[entries[i].0 := entries[i].1];
        cacheTtl := cacheTtl[entries[i].0 := now + PreloadDuration * MicrosPerSecond];
      }
    }

    /** `calculate_cache_hit_ratio()`: cached entries per recorded call, capped at 1, and 0 before any call. */
    function CalculateCacheHitRatio(): (r: real)
      reads this
      ensures 0.0 <= r <= 1.0
      ensures totalCalls == 0 ==> r == 0.0
      ensures totalCalls > 0 && |cache| <= totalCalls ==> r * (totalCalls as real) == |cache| as real
      ensures totalCalls > 0 && |cache| >= totalCalls ==> r == 1.0
    {
      if totalCalls == 0 then 0.0
      else
        var ratio := (|cache| as real) / (totalCalls as real);
        if ratio < 1.0 then ratio else 1.0
    }
  }

  /** Entry `i` is the last one for its key among the first `n` entries. */
  predicate LastWriteBefore<K(==), V>(entries: seq<(K, V)>, n: int, i: int) {
    0 <= i < n <= |entries| && forall j :: i < j < n ==> entries[j].0 != entries[i].0
  }

  /** Storing under a key that an expired lookup removed gives the same dictionary as storing over the old entry. */
  lemma StoreAfterRemove<K, V>(m: map<K, V>, key: K, v: V)
    ensures (m - {key})[key := v] == m[key := v]
  {
  }

  /**
   * A key not yet cached: the first call runs and stores its result; a
   * second call with the same key within the time-to-live gets that result
   * back without running.
   */
  method RepeatedCallIsCached<K(==), V>(o: PerformanceOptimizer<K, V>, key: K, now: int, later: int, first: V, second: V)
    returns (r1: V, r2: V, ran2: bool)
    requires o.Valid() && key !in o.cache
    requires now <= later < now + ResponseCacheDuration * MicrosPerSecond
    modifies o
    ensures r1 == first && r2 == first && !ran2
  {
    var ran1;
    r1, ran1 := o.TimedCall(key, now, ResponseCacheDuration, first);
    r2, ran2 := o.TimedCall(key, later, ResponseCacheDuration, second);
  }
}
