/**
 * The `io.github.dhruv` copy of `DefaultCache`: no null-key guards (keys are
 * never null here), and `evict` leaves the victim in the strategies'
 * metadata. Each operation is proved to perform one `CacheModel` transition
 * with `drop` false.
 */
module DhruvCache {
  import opened Common
  import opened Events
  import opened Entries
  import opened Stats
  import opened Policies
  import opened Strategies
  import opened Config
  import opened CacheModel

  class DefaultCache<K(==), V> {
    const config: CacheConfig<K, V>
    var entries: map<K, CacheEntry<V>>
    const stats: CacheStats
    const evictionStrategy: CompositeStrategy<K>
    /** The listener calls made so far; every registered listener receives each of them. */
    var events: seq<Event<K, V>>

    ghost predicate Valid()
      reads evictionStrategy.Repr
    {
      evictionStrategy.Valid()
    }

    /** The policies of the strategy chain. */
    function Chain(): (ps: seq<Policy>)
      ensures |ps| == |evictionStrategy.strategies|
    {
      evictionStrategy.Policies()
    }

    ghost function Abs(): (st: CacheState<K, V>)
      requires Valid()
      reads this, stats, evictionStrategy.Repr
      ensures |st.metas| == |Chain()|
    {
      CacheState(entries, evictionStrategy.Metas(), events, stats.Values())
    }

    /** A cache over `config`, with LRU when no strategy is configured. */
    constructor (config: CacheConfig<K, V>)
      ensures this.config == config && Valid()
      ensures Chain() == PoliciesOf(config.evictionStrategy)
      ensures Abs() == Initial(|Chain()|)
      ensures fresh(stats) && fresh(evictionStrategy.Repr)
    {
      var ps := PoliciesOf(config.evictionStrategy);
      var ss := NewStrategies(ps);
      this.config := config;
      entries := map[];
      stats := new CacheStats();
      evictionStrategy := new CompositeStrategy(ss);
      events := [];
      new;
      assert Chain() == ps;
      assert evictionStrategy.Metas() == Initial<K, V>(|ps|).metas;
    }

    method Get(key: K, now: int, loadTime: int)
      returns (r: Option<V>, ghost e: CacheEntry?<V>, ghost sv: Option<K>, ghost wv: Option<K>)
      requires Valid()
      modifies this, stats, evictionStrategy.Repr, if key in entries then {entries[key]} else {}
      ensures Valid()
      ensures key in old(entries) && old(entries[key]).IsExpired(now) ==>
        r.None? && Abs() == Missed(Removed(old(Abs()), key))
      ensures key in old(entries) && !old(entries[key]).IsExpired(now) ==>
        && r == Some(old(entries[key]).value)
        && Abs() == Hit(Chain(), old(Abs()), key, now)
        && entries[key].accessCount == old(entries[key].accessCount) + 1
        && entries[key].lastAccessTime == now
      ensures key !in old(entries) ==>
        && (e != null ==> fresh(e))
        && LoadedAs(config, Chain(), Missed(old(Abs())), key, now, loadTime, r, e, sv, wv, Abs(), false)
    {
      e, sv, wv := null, None, None;
      if key in entries {
        var entry := entries[key];
        if entry.IsExpired(now) {
          var _ := Remove(key);
          stats.RecordMiss();
          return None, e, sv, wv;
        }
        r := ServeHit(key, now);
        return r, e, sv, wv;
      }
      stats.RecordMiss();
      r, e, sv, wv := LoadValue(key, now, loadTime);
    }

    /** The hit path of `get`: touch the entry, update the strategies, count a hit. */
    method ServeHit(key: K, now: int) returns (r: Option<V>)
      requires Valid() && key in entries
      modifies entries[key], evictionStrategy.Repr, stats
      ensures Valid() && r == Some(old(entries[key].value))
      ensures Abs() == Hit(Chain(), old(Abs()), key, now)
      ensures entries[key].accessCount == old(entries[key].accessCount) + 1
      ensures entries[key].lastAccessTime == now
    {
      var entry := entries[key];
      entry.IncrementAccessCount(now);
      evictionStrategy.Update(key, entry.weight, now);
      stats.RecordHit();
      r := Some(entry.value);
    }

    /** `put(key, value)`: store a new entry, announce it, update the strategies, then bound the cache. */
    method Put(key: K, value: V, now: int) returns (ghost e: CacheEntry<V>, ghost sv: Option<K>, ghost wv: Option<K>)
      requires Valid()
      modifies this, stats, evictionStrategy.Repr
      ensures Valid() && fresh(e) && MadeBy(config, value, now, e)
      ensures BoundingChoice(config, Chain(), Stored(Chain(), old(Abs()), key, e, now), now, sv, wv, false)
      ensures Abs() == CacheModel.Put(Chain(), old(Abs()), key, e, now, sv, wv, false)
    {
      var entry := CreateEntry(value, now);
      Store(key, entry, now);
      sv, wv := EvictIfNeeded(now);
      e := entry;
    }

    /** The part of `put` before bounding: replace the entry, announce, update the strategies. */
    method Store(key: K, entry: CacheEntry<V>, now: int)
      requires Valid()
      modifies this, evictionStrategy.Repr
      ensures Valid() && Abs() == Stored(Chain(), old(Abs()), key, entry, now)
    {
      var oldEntry := if key in entries then Some(entries[key]) else None;
      entries := entries[key := entry];
      if oldEntry.Some? {
        events := events + [OnRemove(key, oldEntry.value.value)];
      }
      events := events + [OnPut(key, entry.value)];
      evictionStrategy.Update(key, entry.weight, now);
    }

    /** `remove(key)`: the previous value, or nothing when the key was absent. */
    method Remove(key: K) returns (r: Option<V>)
      requires Valid()
      modifies this, evictionStrategy.Repr
      ensures Valid() && r == (if key in old(entries) then Some(old(entries)[key].value) else None)
      ensures Abs() == Removed(old(Abs()), key)
    {
      if key in entries {
        var entry := entries[key];
        entries := entries - {key};
        events := events + [OnRemove(key, entry.value)];
        evictionStrategy.Remove(key);
        r := Some(entry.value);
      } else {
        r := None;
      }
    }

    method Clear()
      requires Valid()
      modifies this, evictionStrategy.Repr
      ensures Valid() && Abs() == CacheModel.Cleared(old(Abs()))
    {
      entries := map[];
      evictionStrategy.Clear();
      events := events + [OnClear];
    }

    method Size() returns (n: nat)
      ensures n == |entries|
    {
      n := |entries|;
    }

    method ContainsKey(key: K) returns (b: bool)
      ensures b <==> key in entries
    {
      b := key in entries;
    }

    /** `stats()`: a snapshot of the counters. */
    method Stats() returns (s: CacheStats)
      ensures fresh(s) && s.Values() == stats.Values()
    {
      s := stats.Snapshot();
    }

    /** `createEntry(value)` at `now`. */
    method CreateEntry(value: V, now: int) returns (e: CacheEntry<V>)
      ensures fresh(e) && MadeBy(config, value, now, e) && e.accessCount == 0
    {
      var expirationTime := None;
      if config.expireAfterWrite.Some? {
        expirationTime := Some(now + config.expireAfterWrite.value);
      } else if config.expireAfterAccess.Some? {
        expirationTime := Some(now + config.expireAfterAccess.value);
      }
      var weight := if config.weigher.Some? then config.weigher.value(value) else 1;
      e := new CacheEntry(value, weight, expirationTime, now);
    }

    /** `loadValue(key)`, where `loadTime` is the nanoseconds the loader took. */
    method LoadValue(key: K, now: int, loadTime: int)
      returns (r: Option<V>, ghost e: CacheEntry?<V>, ghost sv: Option<K>, ghost wv: Option<K>)
      requires Valid()
      modifies this, stats, evictionStrategy.Repr
      ensures Valid() && (e != null ==> fresh(e))
      ensures LoadedAs(config, Chain(), old(Abs()), key, now, loadTime, r, e, sv, wv, Abs(), false)
    {
      e, sv, wv := null, None, None;
      var outcome := NoValue;
      if config.asyncLoader.Some? {
        outcome := config.asyncLoader.value(key);
      } else if config.loader.Some? {
        outcome := config.loader.value(key);
      }
      match outcome {
        case Value(v) =>
          ghost var entry;
          entry, sv, wv := Put(key, v, now);
          e := entry;
          RecordLoaded(key, v, loadTime);
          r := Some(v);
        case NoValue =>
          r := None;
        case Failure(error) =>
          RecordLoadError(key, error);
          r := None;
      }
    }

    /** The end of a successful `loadValue`: count the load and announce it. */
    method RecordLoaded(key: K, v: V, loadTime: int)
      requires Valid()
      modifies this, stats
      ensures Valid() && Abs() == Loaded(old(Abs()), key, v, loadTime)
    {
      stats.RecordLoad(loadTime);
      events := events + [OnLoad(key, v)];
    }

    /** The `catch` of `loadValue`: count the failure and announce it. */
    method RecordLoadError(key: K, error: string)
      requires Valid()
      modifies this, stats
      ensures Valid() && Abs() == LoadFailed(old(Abs()), key, error)
    {
      stats.RecordLoadFailure();
      events := events + [OnLoadError(key, error)];
    }

    /** `evictIfNeeded()`: at most one eviction for the size bound, then at most one for the weight bound. */
    method EvictIfNeeded(now: int) returns (ghost sv: Option<K>, ghost wv: Option<K>)
      requires Valid()
      modifies this, stats
      ensures Valid() && BoundingChoice(config, Chain(), old(Abs()), now, sv, wv, false)
      ensures Abs() == Bounded(old(Abs()), sv, wv, false)
    {
      sv, wv := None, None;
      if config.maximumSize.Some? && |entries| > config.maximumSize.value {
        sv := Evict(EvictionReason.Size, now);
      }
      if config.maximumWeight.Some? {
        var totalWeight := StoreWeight(entries);
        if totalWeight > config.maximumWeight.value {
          wv := Evict(EvictionReason.Weight, now);
        }
      }
    }

    /** `evict(reason)`: removes the chain's candidate from the store only; the strategies keep it. */
    method Evict(reason: EvictionReason, now: int) returns (ghost victim: Option<K>)
      requires Valid()
      modifies this, stats
      ensures Valid() && EvictChoice(Chain(), old(Abs()), now, victim)
      ensures Abs() == Evicted(old(Abs()), victim, reason, false)
    {
      var candidate := evictionStrategy.SelectEvictionCandidate(entries.Keys, now);
      if candidate.Some? {
        var k := candidate.value;
        if k in entries {
          Discard(k, reason);
        }
      }
      victim := candidate;
    }

    /** The removal half of `evict`, once the candidate is known to be stored; the strategies are left as they are. */
    method Discard(k: K, reason: EvictionReason)
      requires Valid() && k in entries
      modifies this, stats
      ensures Valid() && Abs() == Evicted(old(Abs()), Some(k), reason, false)
    {
      var entry := entries[k];
      entries := entries - {k};
      stats.RecordEviction();
      events := events + [OnEvict(k, entry.value, reason)];
    }
  }
}
