/**
 * Concrete runs of the engines, one per behaviour the repository's tests
 * describe. Each method builds a cache, performs the operations and returns
 * what a test would observe; its postcondition states the observation.
 */
module Scenarios {
  import opened Common
  import opened Events
  import opened Stats
  import opened Policies
  import opened Strategies
  import opened Config
  import opened CacheModel
  import DhruvCache
  import DpfluxCache

  /** A `put` that keeps the store within its size bound, with no weight bound, evicts nothing. */
  lemma FitsWithoutEviction<K, V>(c: CacheConfig<K, V>, ps: seq<Policy>, st: CacheState<K, V>, k: K,
                                  e: Entries.CacheEntry<V>, now: int, sv: Option<K>, wv: Option<K>, drop: bool)
    requires |ps| == |st.metas| && c.maximumWeight.None?
    requires c.maximumSize.Some? && |st.store.Keys + {k}| <= c.maximumSize.value
    requires BoundingChoice(c, ps, Stored(ps, st, k, e, now), now, sv, wv, drop)
    ensures sv.None? && wv.None?
    ensures CacheModel.Put(ps, st, k, e, now, sv, wv, drop) == Stored(ps, st, k, e, now)
  {
    assert Stored(ps, st, k, e, now).store.Keys == st.store.Keys + {k};
  }

  /** A single stamping strategy stamps the key with its next counter value. */
  lemma StampOne<K>(p: Policy, m: Metadata<K>, k: K, w: int, now: int)
    requires p.LRU? || p.MRU?
    ensures UpdateEach([p], [m], k, w, now) == [Metadata(m.ranks[k := m.counter + 1], m.counter + 1)]
  {
  }

  /** The only candidate of a single LRU strategy among keys 1, 2, 3 stamped 1, 2, 3 is key 1. */
  lemma OldestStampWins(md: Metadata<int>, now: int, c: int)
    requires md.ranks == map[1 := 1, 2 := 2, 3 := 3]
    requires ChainCandidate([LRU], [md], {1, 2, 3}, now, c)
    ensures c == 1
  {
    assert IsCandidate(LRU, md, {1, 2, 3}, now, c);
    assert Prefers(LRU, md, c, 1);
  }

  // ---------------------------------------------------------------------
  // Strategy runs of the eviction tests. Keys A, B, C are 1, 2, 3. In the
  // copy that drops evicted keys, every `put` and every hit is one `update`
  // of the strategy, and none of these runs evicts before its last `put`,
  // so the strategy's state is the chain of updates below and the key the
  // test sees evicted is the one candidate among the three stored keys.

  /** `update(k)` with a weight and an instant the stamp and count policies ignore. */
  function Touch(p: Policy, md: Metadata<int>, k: int): Metadata<int>
  {
    AfterUpdate(p, md, k, 1, 0)
  }

  /** LRU: put A, put B, get A, put C; B, the least recently used, is evicted. */
  lemma LruAccessSavesKey(c: int)
    ensures var md := Touch(LRU, Touch(LRU, Touch(LRU, Touch(LRU, Empty(), 1), 2), 1), 3);
      IsCandidate(LRU, md, {1, 2, 3}, 0, c) <==> c == 2
  {
    var md := Touch(LRU, Touch(LRU, Touch(LRU, Touch(LRU, Empty(), 1), 2), 1), 3);
    assert md.ranks == map[1 := 3, 2 := 2, 3 := 4];
  }

  /** LRU: put A, put B, put C; A, the least recently used, is evicted. */
  lemma LruEvictsOldest(c: int)
    ensures var m := Touch(LRU, Touch(LRU, Touch(LRU, Empty(), 1), 2), 3);
      IsCandidate(LRU, m, {1, 2, 3}, 0, c) <==> c == 1
  {
    var m := Touch(LRU, Touch(LRU, Touch(LRU, Empty(), 1), 2), 3);
    assert m.ranks == map[1 := 1, 2 := 2, 3 := 3];
  }

  /** LRU, continued: with A evicted and forgotten, get B, put D; C is evicted. */
  lemma LruAccessAfterEviction(d: int)
    ensures var m := Touch(LRU, Touch(LRU, Touch(LRU, Empty(), 1), 2), 3);
      var md := Touch(LRU, Touch(LRU, AfterRemove(m, 1), 2), 4);
      IsCandidate(LRU, md, {2, 3, 4}, 0, d) <==> d == 3
  {
    var m := Touch(LRU, Touch(LRU, Touch(LRU, Empty(), 1), 2), 3);
    assert m.ranks == map[1 := 1, 2 := 2, 3 := 3] && m.counter == 3;
    var r := AfterRemove(m, 1);
    assert r.ranks == map[2 := 2, 3 := 3] && r.counter == 3;
    var md := Touch(LRU, Touch(LRU, r, 2), 4);
    assert md.ranks == map[2 := 4, 3 := 3, 4 := 5];
  }

  /** LFU: put A, put B, put A, get A, get B, put C; C, used once, is evicted. */
  lemma LfuNewKeyIsLeastUsed(c: int)
    ensures var md := Touch(LFU, Touch(LFU, Touch(LFU, Touch(LFU, Touch(LFU, Touch(LFU, Empty(), 1), 2), 1), 1), 2), 3);
      IsCandidate(LFU, md, {1, 2, 3}, 0, c) <==> c == 3
  {
    var m2 := Touch(LFU, Touch(LFU, Empty(), 1), 2);
    assert m2.ranks == map[1 := 1, 2 := 1];
    var m4 := Touch(LFU, Touch(LFU, m2, 1), 1);
    assert m4.ranks == map[1 := 3, 2 := 1];
    var md := Touch(LFU, Touch(LFU, m4, 2), 3);
    assert md.ranks == map[1 := 3, 2 := 2, 3 := 1];
  }

  /** FIFO: put A, put B, put A again, put C; A keeps its first index and is evicted. */
  lemma FifoRePutKeepsOrder(c: int)
    ensures var md := Touch(FIFO, Touch(FIFO, Touch(FIFO, Touch(FIFO, Empty(), 1), 2), 1), 3);
      IsCandidate(FIFO, md, {1, 2, 3}, 0, c) <==> c == 1
  {
    var md := Touch(FIFO, Touch(FIFO, Touch(FIFO, Touch(FIFO, Empty(), 1), 2), 1), 3);
    assert md.ranks == map[1 := 1, 2 := 2, 3 := 4];
  }

  /** FILO: put A, put B, put A again, put C; C, the last first-inserted, is evicted. */
  lemma FiloRePutKeepsOrder(c: int)
    ensures var md := Touch(FILO, Touch(FILO, Touch(FILO, Touch(FILO, Empty(), 1), 2), 1), 3);
      IsCandidate(FILO, md, {1, 2, 3}, 0, c) <==> c == 3
  {
    var md := Touch(FILO, Touch(FILO, Touch(FILO, Touch(FILO, Empty(), 1), 2), 1), 3);
    assert md.ranks == map[1 := 1, 2 := 2, 3 := 4];
  }

  /** Two `put`s of new keys 1 and 2 into an empty LRU cache bounded at 2. */
  lemma LruFirstTwoPuts<V>(c: CacheConfig<int, V>, a0: CacheState<int, V>, a1: CacheState<int, V>, a2: CacheState<int, V>,
                           e1: Entries.CacheEntry<V>, e2: Entries.CacheEntry<V>,
                           s1: Option<int>, w1: Option<int>, s2: Option<int>, w2: Option<int>)
    requires c.maximumSize == Some(2) && c.maximumWeight.None? && a0 == Initial(1)
    requires BoundingChoice(c, [LRU], Stored([LRU], a0, 1, e1, 10), 10, s1, w1, false)
    requires a1 == CacheModel.Put([LRU], a0, 1, e1, 10, s1, w1, false)
    requires BoundingChoice(c, [LRU], Stored([LRU], a1, 2, e2, 20), 20, s2, w2, false)
    requires a2 == CacheModel.Put([LRU], a1, 2, e2, 20, s2, w2, false)
    ensures a2.store.Keys == {1, 2} && a2.metas == [Metadata(map[1 := 1, 2 := 2], 2)]
  {
    FitsWithoutEviction(c, [LRU], a0, 1, e1, 10, s1, w1, false);
    StampOne(LRU, a0.metas[0], 1, e1.weight, 10);
    assert a1.store.Keys == {1} && a1.metas == [Metadata(map[1 := 1], 1)];
    FitsWithoutEviction(c, [LRU], a1, 2, e2, 20, s2, w2, false);
    StampOne(LRU, a1.metas[0], 2, e2.weight, 20);
  }

  /** The third `put`, of key 3, overflows the bound and evicts the least recently used key, 1. */
  lemma LruThirdPut<V>(c: CacheConfig<int, V>, a2: CacheState<int, V>, a3: CacheState<int, V>,
                       e3: Entries.CacheEntry<V>, s3: Option<int>, w3: Option<int>)
    requires c.maximumSize == Some(2) && c.maximumWeight.None?
    requires a2.store.Keys == {1, 2} && a2.metas == [Metadata(map[1 := 1, 2 := 2], 2)]
    requires BoundingChoice(c, [LRU], Stored([LRU], a2, 3, e3, 30), 30, s3, w3, false)
    requires a3 == CacheModel.Put([LRU], a2, 3, e3, 30, s3, w3, false)
    ensures a3.store.Keys == {2, 3}
  {
    var stored := Stored([LRU], a2, 3, e3, 30);
    ThirdKeyStamped(a2, e3);
    assert OverSize(c, stored);
    assert AlwaysNominates([LRU]) by { assert ![LRU][0].TimeBased?; }
    AlwaysNominatesNonEmpty([LRU], stored.metas, stored.store.Keys, 30);
    OldestStampWins(stored.metas[0], 30, s3.value);
    assert Evicted(stored, s3, EvictionReason.Size, false).store.Keys == {2, 3};
  }

  /** Storing key 3 next to keys 1 and 2 stamps it 3. */
  lemma ThirdKeyStamped<V>(a2: CacheState<int, V>, e3: Entries.CacheEntry<V>)
    requires a2.store.Keys == {1, 2} && a2.metas == [Metadata(map[1 := 1, 2 := 2], 2)]
    ensures var stored := Stored([LRU], a2, 3, e3, 30);
      stored.store.Keys == {1, 2, 3} && stored.metas[0].ranks == map[1 := 1, 2 := 2, 3 := 3]
  {
    StampOne(LRU, a2.metas[0], 3, e3.weight, 30);
  }

  /** A default LRU cache bounded at 2 holding keys 1 and 2, put in that order. */
  method LruFilled() returns (cache: DhruvCache.DefaultCache<int, string>)
    ensures fresh(cache) && fresh(cache.stats) && fresh(cache.evictionStrategy.Repr)
    ensures cache.Valid() && cache.config.maximumSize == Some(2) && cache.config.maximumWeight.None?
    ensures cache.Chain() == [LRU]
    ensures cache.Abs().store.Keys == {1, 2} && cache.Abs().metas == [Metadata(map[1 := 1, 2 := 2], 2)]
  {
    var config := Defaults<int, string>().(maximumSize := Some(2), evictionStrategy := Some(Single(LRU)));
    cache := new DhruvCache.DefaultCache(config);
    ghost var a0 := cache.Abs();
    var e1, s1, w1 := cache.Put(1, "value1", 10);
    ghost var a1 := cache.Abs();
    var e2, s2, w2 := cache.Put(2, "value2", 20);
    LruFirstTwoPuts(config, a0, a1, cache.Abs(), e1, e2, s1, w1, s2, w2);
  }

  /** With the default LRU strategy and a maximum size of 2, putting keys 1, 2, 3 leaves 2 entries and drops key 1. */
  method LruSizeBound() returns (size: nat, hasFirst: bool, hasLast: bool)
    ensures size == 2 && !hasFirst && hasLast
  {
    var cache := LruFilled();
    ghost var a2 := cache.Abs();
    var e3, s3, w3 := cache.Put(3, "value3", 30);
    LruThirdPut(cache.config, a2, cache.Abs(), e3, s3, w3);
    size := cache.Size();
    hasFirst := cache.ContainsKey(1);
    hasLast := cache.ContainsKey(3);
  }

  /** The total weight of a store holding the keys `a` and `b` (one entry when they are equal). */
  lemma SmallStoreWeight<V>(store: map<int, Entries.CacheEntry<V>>, a: int, b: int)
    requires store.Keys == {a, b}
    ensures TotalWeight(store) == if a == b then store[a].weight else store[a].weight + store[b].weight
  {
    var m := map k | k in store :: store[k].weight;
    SumRemove(m, a);
    if a == b {
      assert m - {a} == map[];
    } else {
      assert m - {a} == map[b := store[b].weight];
      SumRemove(m - {a}, b);
      assert m - {a} - {b} == map[];
    }
  }

  /** A `put` that keeps the total weight within the weight bound, with no size bound, evicts nothing. */
  lemma FitsWithinWeight<K, V>(c: CacheConfig<K, V>, ps: seq<Policy>, st: CacheState<K, V>, k: K,
                               e: Entries.CacheEntry<V>, now: int, sv: Option<K>, wv: Option<K>)
    requires |ps| == |st.metas| && c.maximumSize.None? && c.maximumWeight.Some?
    requires TotalWeight(Stored(ps, st, k, e, now).store) <= c.maximumWeight.value
    requires BoundingChoice(c, ps, Stored(ps, st, k, e, now), now, sv, wv, false)
    ensures CacheModel.Put(ps, st, k, e, now, sv, wv, false) == Stored(ps, st, k, e, now)
  {
    EvictedWithoutVictim(Stored(ps, st, k, e, now), EvictionReason.Size, false);
  }

  /** An entry heavier than the weight bound is evicted by its own `put` into an empty cache. */
  lemma HeavyEntryEvictsItself<V>(c: CacheConfig<int, V>, a0: CacheState<int, V>, a1: CacheState<int, V>,
                                  e1: Entries.CacheEntry<V>, s1: Option<int>, w1: Option<int>)
    requires c.maximumSize.None? && c.maximumWeight == Some(5) && a0 == Initial(1) && e1.weight == 6
    requires BoundingChoice(c, [LRU], Stored([LRU], a0, 1, e1, 10), 10, s1, w1, false)
    requires a1 == CacheModel.Put([LRU], a0, 1, e1, 10, s1, w1, false)
    ensures a1.store == map[]
  {
    var stored := Stored([LRU], a0, 1, e1, 10);
    assert stored.store == map[1 := e1];
    SmallStoreWeight(stored.store, 1, 1);
    EvictedWithoutVictim(stored, EvictionReason.Size, false);
    assert OverWeight(c, stored);
    assert AlwaysNominates([LRU]) by { assert ![LRU][0].TimeBased?; }
    AlwaysNominatesNonEmpty([LRU], stored.metas, stored.store.Keys, 10);
    ChoiceIsStored([LRU], stored, 10, w1);
    EvictedRemovesVictim(stored, 1, EvictionReason.Weight, false);
  }

  /** The second `put`, of weight 3 into the emptied cache, is kept. */
  lemma SecondEntryFits<V>(c: CacheConfig<int, V>, a1: CacheState<int, V>, a2: CacheState<int, V>,
                           e2: Entries.CacheEntry<V>, s2: Option<int>, w2: Option<int>)
    requires c.maximumSize.None? && c.maximumWeight == Some(5) && |a1.metas| == 1 && a1.store == map[]
    requires e2.weight == 3
    requires BoundingChoice(c, [LRU], Stored([LRU], a1, 2, e2, 20), 20, s2, w2, false)
    requires a2 == CacheModel.Put([LRU], a1, 2, e2, 20, s2, w2, false)
    ensures a2.store.Keys == {2} && a2.store[2].weight == 3 && |a2.metas| == 1
  {
    SmallStoreWeight(Stored([LRU], a1, 2, e2, 20).store, 2, 2);
    FitsWithinWeight(c, [LRU], a1, 2, e2, 20, s2, w2);
  }

  /** The third `put`, of weight 1, brings the total to 4 and is kept beside the second. */
  lemma ThirdEntryFits<V>(c: CacheConfig<int, V>, a2: CacheState<int, V>, a3: CacheState<int, V>,
                          e3: Entries.CacheEntry<V>, s3: Option<int>, w3: Option<int>)
    requires c.maximumSize.None? && c.maximumWeight == Some(5) && |a2.metas| == 1
    requires a2.store.Keys == {2} && a2.store[2].weight == 3 && e3.weight == 1
    requires BoundingChoice(c, [LRU], Stored([LRU], a2, 3, e3, 30), 30, s3, w3, false)
    requires a3 == CacheModel.Put([LRU], a2, 3, e3, 30, s3, w3, false)
    ensures a3.store.Keys == {2, 3}
  {
    assert Stored([LRU], a2, 3, e3, 30).store.Keys == {2, 3};
    SmallStoreWeight(Stored([LRU], a2, 3, e3, 30).store, 2, 3);
    FitsWithinWeight(c, [LRU], a2, 3, e3, 30, s3, w3);
  }

  /** The weigher of the weight scenario: a value weighs its length. */
  function Length(v: string): int
  {
    |v|
  }

  /** A cache bounded at weight 5, weighing values by length, after the `put` of a value of length 6. */
  method WeightFirstPut() returns (cache: DhruvCache.DefaultCache<int, string>)
    ensures fresh(cache) && fresh(cache.stats) && fresh(cache.evictionStrategy.Repr)
    ensures cache.Valid() && cache.Chain() == [LRU]
    ensures cache.config.maximumSize.None? && cache.config.maximumWeight == Some(5)
    ensures cache.config.weigher == Some(Length)
    ensures cache.Abs().store == map[]
  {
    var config := Defaults<int, string>().(maximumWeight := Some(5), weigher := Some(Length));
    cache := new DhruvCache.DefaultCache(config);
    ghost var a0 := cache.Abs();
    var e1, s1, w1 := cache.Put(1, "value1", 10);
    HeavyEntryEvictsItself(config, a0, cache.Abs(), e1, s1, w1);
  }

  /** The same cache after a second `put`, of a value of length 3. */
  method WeightSecondPut() returns (cache: DhruvCache.DefaultCache<int, string>)
    ensures fresh(cache) && fresh(cache.stats) && fresh(cache.evictionStrategy.Repr)
    ensures cache.Valid() && cache.Chain() == [LRU]
    ensures cache.config.maximumSize.None? && cache.config.maximumWeight == Some(5)
    ensures cache.config.weigher == Some(Length)
    ensures cache.Abs().store.Keys == {2} && cache.Abs().store[2].weight == 3
  {
    cache := WeightFirstPut();
    ghost var a1 := cache.Abs();
    var e2, s2, w2 := cache.Put(2, "val", 20);
    assert e2.weight == Length("val") == 3;
    SecondEntryFits(cache.config, a1, cache.Abs(), e2, s2, w2);
  }

  /**
   * Maximum weight 5, weight = length of the value: putting values of
   * lengths 6, 3 and 1 leaves 2 entries, the first one evicted by its own `put`.
   */
  method WeightBound() returns (size: nat, hasFirst: bool)
    ensures size == 2 && !hasFirst
  {
    var cache := WeightSecondPut();
    ghost var a2 := cache.Abs();
    var e3, s3, w3 := cache.Put(3, "v", 30);
    assert e3.weight == Length("v") == 1;
    ThirdEntryFits(cache.config, a2, cache.Abs(), e3, s3, w3);
    size := cache.Size();
    hasFirst := cache.ContainsKey(1);
  }

  /** A hit and a miss without a loader count one each and load nothing. */
  method HitThenMiss() returns (first: Option<string>, second: Option<string>, counters: Counters)
    ensures first == Some("one") && second.None?
    ensures counters.hits == 1 && counters.misses == 1 && counters.loads == 0
  {
    var config := Defaults<int, string>().(maximumSize := Some(100), expireAfterWrite := Some(300_000_000_000),
                                           listeners := {1});
    var cache := new DhruvCache.DefaultCache(config);
    var e, s, w := cache.Put(1, "one", 10);
    first, e, s, w := cache.Get(1, 20, 0);
    ghost var before := cache.Abs();
    second, e, s, w := cache.Get(2, 30, 0);
    NoLoaderNoChange(config, cache.Chain(), Missed(before), 2, 30, 0, second, e, s, w, cache.Abs(), false);
    var snapshot := cache.Stats();
    counters := snapshot.Values();
  }

  /** A `null` key is ignored by every keyed operation of the `io.github.dpflux` cache. */
  method NullKeyIsIgnored() returns (stored: Option<string>, present: bool, size: nat)
    ensures stored.None? && !present && size == 0
  {
    var cache := new DpfluxCache.DefaultCache(Defaults<int, string>());
    var e, s, w := cache.Put(None, "value", 10);
    stored, e, s, w := cache.Get(None, 20, 0);
    present := cache.ContainsKey(None);
    size := cache.Size();
  }
}
