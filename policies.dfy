/**
 * The eviction policies as values: what each keeps per key, how `update`,
 * `remove` and `clear` change it, and which keys `selectEvictionCandidate`
 * may nominate. The classes in module Strategies run these definitions.
 */
module Policies {
  import opened Common

  /** The strategy classes, one constructor each, with their constructor arguments. */
  datatype Policy =
    | LRU
    | MRU
    | LFU
    | FIFO
    | FILO
    | TimeBased(maxIdleTime: int)
    | WeightBased(maxWeight: int)

  /**
   * A strategy's per-key metadata (access stamp, access count, insertion
   * index, last access instant or weight, by policy) and its counter (the
   * `AtomicLong` of LRU, MRU, FIFO and FILO; the other policies have none
   * and keep it at 0).
   */
  datatype Metadata<K> = Metadata(ranks: map<K, int>, counter: int)

  function Empty<K>(): Metadata<K>
  {
    Metadata(map[], 0)
  }

  /** Policies that nominate the key of least rank; the others nominate the greatest. */
  predicate SelectsMin(p: Policy)
  {
    p.LRU? || p.LFU? || p.FIFO?
  }

  /** Policies whose counter hands out a new stamp on every `update`. */
  predicate IsStamped(p: Policy)
  {
    p.LRU? || p.MRU? || p.FIFO? || p.FILO?
  }

  /** The `getOrDefault` default for a key the strategy does not know. */
  function DefaultRank(p: Policy): int
  {
    match p
    case LRU => 0
    case MRU => LongMin
    case LFU => LongMax
    case FIFO => LongMax
    case FILO => LongMin
    case TimeBased(_) => 0   // Instant.EPOCH
    case WeightBased(_) => 0
  }

  function Rank<K>(p: Policy, md: Metadata<K>, k: K): int
  {
    if k in md.ranks then md.ranks[k] else DefaultRank(p)
  }

  /** Only the time-based policy filters: a key qualifies once it has been idle for `maxIdleTime`. */
  predicate Eligible<K>(p: Policy, md: Metadata<K>, k: K, now: int)
  {
    p.TimeBased? ==> now - Rank(p, md, k) >= p.maxIdleTime
  }

  /** `a` ranks at least as well as `b` for eviction. */
  predicate Prefers<K>(p: Policy, md: Metadata<K>, a: K, b: K)
  {
    if SelectsMin(p) then Rank(p, md, a) <= Rank(p, md, b) else Rank(p, md, a) >= Rank(p, md, b)
  }

  /** Some key of `keys` can be nominated. */
  predicate Nominates<K>(p: Policy, md: Metadata<K>, keys: set<K>, now: int)
  {
    exists k :: k in keys && Eligible(p, md, k, now)
  }

  /** `c` is an eligible key of `keys` that ranks at least as well as every other eligible key. */
  predicate IsCandidate<K>(p: Policy, md: Metadata<K>, keys: set<K>, now: int, c: K)
  {
    && c in keys
    && Eligible(p, md, c, now)
    && forall k :: k in keys && Eligible(p, md, k, now) ==> Prefers(p, md, c, k)
  }

  /** The state after `update(key, entry)`, where `weight` is the entry's weight. */
  function AfterUpdate<K>(p: Policy, md: Metadata<K>, key: K, weight: int, now: int): (r: Metadata<K>)
    ensures r.ranks.Keys == md.ranks.Keys + {key}
    ensures forall k :: k in md.ranks && k != key ==> r.ranks[k] == md.ranks[k]
  {
    match p
    case LRU | MRU => Metadata(md.ranks[key := md.counter + 1], md.counter + 1)
    case LFU =>
      // computeIfAbsent(key, new AtomicLong(0)).incrementAndGet()
      Metadata(md.ranks[key := (if key in md.ranks then md.ranks[key] else 0) + 1], md.counter)
    case FIFO | FILO =>
      // putIfAbsent(key, counter.incrementAndGet()): the counter moves even when the key is known
      Metadata(if key in md.ranks then md.ranks else md.ranks[key := md.counter + 1], md.counter + 1)
    case TimeBased(_) => Metadata(md.ranks[key := now], md.counter)
    case WeightBased(_) => Metadata(md.ranks[key := weight], md.counter)
  }

  /** The state after `remove(key)`: only that key's metadata goes. */
  function AfterRemove<K>(md: Metadata<K>, key: K): (r: Metadata<K>)
    ensures r.ranks.Keys == md.ranks.Keys - {key} && r.counter == md.counter
    ensures forall k :: k in r.ranks ==> r.ranks[k] == md.ranks[k]
  {
    Metadata(md.ranks - {key}, md.counter)
  }

  /** The state after `clear()`: no metadata, and the counter back at 0. */
  function AfterClear<K>(md: Metadata<K>): (r: Metadata<K>)
    ensures r.ranks == map[] && r.counter == 0
  {
    Empty()
  }

  /**
   * What each policy keeps true of its metadata: stamps are positive, no
   * larger than the counter and pairwise distinct; access counts are positive;
   * policies without a counter leave it at 0.
   */
  ghost predicate WellFormed<K>(p: Policy, md: Metadata<K>)
  {
    if IsStamped(p) then
      && md.counter >= 0
      && (forall k :: k in md.ranks ==> 1 <= md.ranks[k] <= md.counter)
      && (forall a, b :: a in md.ranks && b in md.ranks && a != b ==> md.ranks[a] != md.ranks[b])
    else
      && md.counter == 0
      && (p.LFU? ==> forall k :: k in md.ranks ==> md.ranks[k] >= 1)
  }

  lemma EmptyIsWellFormed<K>(p: Policy)
    ensures WellFormed(p, Empty<K>())
  {
  }

  lemma {:induction false} UpdatePreservesWellFormed<K>(p: Policy, md: Metadata<K>, key: K, weight: int, now: int)
    requires WellFormed(p, md)
    ensures WellFormed(p, AfterUpdate(p, md, key, weight, now))
  {
    var r := AfterUpdate(p, md, key, weight, now);
    if IsStamped(p) {
      forall a, b | a in r.ranks && b in r.ranks && a != b
        ensures r.ranks[a] != r.ranks[b]
      {
        if a != key && b != key {
          assert r.ranks[a] == md.ranks[a] && r.ranks[b] == md.ranks[b];
        } else if a == key && key !in md.ranks {
          assert r.ranks[a] == md.counter + 1;
        } else if b == key && key !in md.ranks {
          assert r.ranks[b] == md.counter + 1;
        }
      }
    }
  }

  lemma RemovePreservesWellFormed<K>(p: Policy, md: Metadata<K>, key: K)
    requires WellFormed(p, md)
    ensures WellFormed(p, AfterRemove(md, key))
  {
  }

  // ---------------------------------------------------------------------
  // Selection

  /** Every policy but the time-based one nominates a key exactly when there is a key. */
  lemma NominatesIffNonEmpty<K>(p: Policy, md: Metadata<K>, keys: set<K>, now: int)
    requires !p.TimeBased?
    ensures Nominates(p, md, keys, now) <==> keys != {}
  {
    if keys != {} {
      var k :| k in keys;
      assert Eligible(p, md, k, now);
    }
  }

  /** Two candidates rank the same, so a candidate whose rank no other key shares is the only one. */
  lemma CandidatesTie<K>(p: Policy, md: Metadata<K>, keys: set<K>, now: int, c: K, d: K)
    requires IsCandidate(p, md, keys, now, c) && IsCandidate(p, md, keys, now, d)
    ensures Rank(p, md, c) == Rank(p, md, d)
  {
    assert Prefers(p, md, c, d) && Prefers(p, md, d, c);
  }

  /**
   * With stamps pairwise distinct and every key of `keys` stamped, the
   * candidate is determined: it is the key whose rank is extreme.
   */
  lemma {:induction false} StampedCandidateIsUnique<K>(p: Policy, md: Metadata<K>, keys: set<K>, now: int, c: K, d: K)
    requires IsStamped(p) && WellFormed(p, md) && keys <= md.ranks.Keys
    requires IsCandidate(p, md, keys, now, c) && IsCandidate(p, md, keys, now, d)
    ensures c == d
  {
    CandidatesTie(p, md, keys, now, c, d);
    assert md.ranks[c] == md.ranks[d];
  }

  /** LRU's `update(k)` gives `k` a stamp above every other stamp. */
  lemma {:induction false} UpdatedStampIsNewest<K>(p: Policy, md: Metadata<K>, key: K, weight: int, now: int)
    requires (p.LRU? || p.MRU?) && WellFormed(p, md)
    ensures var r := AfterUpdate(p, md, key, weight, now);
      && r.ranks[key] == r.counter
      && forall k :: k in r.ranks && k != key ==> r.ranks[k] < r.ranks[key]
  {
    var r := AfterUpdate(p, md, key, weight, now);
    forall k | k in r.ranks && k != key
      ensures r.ranks[k] < r.ranks[key]
    {
      assert r.ranks[k] == md.ranks[k] <= md.counter;
    }
  }

  /**
   * MRU: right after `update(key)`, `key` is the one and only candidate among
   * any live keys that include it.
   */
  lemma {:induction false} MruNominatesJustUpdated<K>(md: Metadata<K>, key: K, weight: int, now: int, keys: set<K>, c: K)
    requires WellFormed(MRU, md) && key in keys
    ensures IsCandidate(MRU, AfterUpdate(MRU, md, key, weight, now), keys, now, c) <==> c == key
  {
    var r := AfterUpdate(MRU, md, key, weight, now);
    UpdatedStampIsNewest(MRU, md, key, weight, now);
    forall k | k in keys
      ensures Rank(MRU, r, k) <= Rank(MRU, r, key)
    {
      if k in r.ranks && k != key {
        assert r.ranks[k] < r.ranks[key];
      }
    }
  }

  /** LFU: `update` adds one to the key's count, and an unknown key starts at 1. */
  lemma LfuCounts<K>(md: Metadata<K>, key: K, weight: int, now: int)
    ensures AfterUpdate(LFU, md, key, weight, now).ranks[key]
      == (if key in md.ranks then md.ranks[key] + 1 else 1)
  {
  }

  /** LFU: after `remove(key)` the key's count starts again from 1. */
  lemma LfuRemoveRestartsCount<K>(md: Metadata<K>, key: K, weight: int, now: int)
    ensures AfterUpdate(LFU, AfterRemove(md, key), key, weight, now).ranks[key] == 1
  {
  }

  /** FIFO and FILO: updating a known key keeps its index; the counter still advances. */
  lemma InsertionIndexIsKept<K>(p: Policy, md: Metadata<K>, key: K, weight: int, now: int)
    requires (p.FIFO? || p.FILO?) && key in md.ranks
    ensures AfterUpdate(p, md, key, weight, now) == Metadata(md.ranks, md.counter + 1)
  {
  }

  /**
   * FIFO and FILO: a key updated while unknown (new, or removed before) gets an
   * index above every index already assigned.
   */
  lemma {:induction false} FreshIndexIsNewest<K>(p: Policy, md: Metadata<K>, key: K, weight: int, now: int)
    requires (p.FIFO? || p.FILO?) && WellFormed(p, md) && key !in md.ranks
    ensures var r := AfterUpdate(p, md, key, weight, now);
      forall k :: k in r.ranks && k != key ==> r.ranks[k] < r.ranks[key]
  {
    var r := AfterUpdate(p, md, key, weight, now);
    forall k | k in r.ranks && k != key
      ensures r.ranks[k] < r.ranks[key]
    {
      assert r.ranks[k] == md.ranks[k] <= md.counter;
    }
  }

  /**
   * FILO: a key inserted for the first time is the one and only candidate
   * among live keys that include it.
   */
  lemma {:induction false} FiloNominatesNewKey<K>(md: Metadata<K>, key: K, weight: int, now: int, keys: set<K>, c: K)
    requires WellFormed(FILO, md) && key !in md.ranks && key in keys
    ensures IsCandidate(FILO, AfterUpdate(FILO, md, key, weight, now), keys, now, c) <==> c == key
  {
    var r := AfterUpdate(FILO, md, key, weight, now);
    FreshIndexIsNewest(FILO, md, key, weight, now);
    forall k | k in keys
      ensures Rank(FILO, r, k) <= Rank(FILO, r, key)
    {
      if k in r.ranks && k != key {
        assert r.ranks[k] < r.ranks[key];
      }
    }
  }

  /** Time-based: a candidate has been idle for at least `maxIdleTime`, counting unknown keys from the epoch. */
  lemma TimeCandidateIsIdle<K>(maxIdle: int, md: Metadata<K>, keys: set<K>, now: int, c: K)
    requires IsCandidate(TimeBased(maxIdle), md, keys, now, c)
    ensures now - (if c in md.ranks then md.ranks[c] else 0) >= maxIdle
  {
  }

  /**
   * Time-based: a key accessed at `now` is not idle, so with a positive
   * threshold a non-empty set of such keys yields no candidate.
   */
  lemma TimeMayNominateNothing<K>(maxIdle: int, key: K, now: int)
    requires maxIdle > 0
    ensures var md := AfterUpdate(TimeBased(maxIdle), Empty<K>(), key, 0, now);
      !Nominates(TimeBased(maxIdle), md, {key}, now)
  {
  }

  /** Weight-based: `update` stores the entry's weight, replacing the previous one. */
  lemma WeightIsStored<K>(maxWeight: int, md: Metadata<K>, key: K, weight: int, now: int)
    ensures AfterUpdate(WeightBased(maxWeight), md, key, weight, now).ranks == md.ranks[key := weight]
  {
  }

  /** Weight-based: `remove(key)` lowers the current weight by exactly the key's stored weight. */
  lemma RemoveLowersWeight<K>(md: Metadata<K>, key: K)
    ensures Sum(AfterRemove(md, key).ranks) == Sum(md.ranks) - (if key in md.ranks then md.ranks[key] else 0)
  {
    if key in md.ranks {
      SumRemove(md.ranks, key);
    } else {
      assert md.ranks - {key} == md.ranks;
    }
  }

  /** Weight-based: after `clear()` the current weight is 0. */
  lemma ClearedWeightIsZero<K>(md: Metadata<K>)
    ensures Sum(AfterClear(md).ranks) == 0
  {
  }
}
