# jcachex cache engine, modelled in Dafny

This project models the in-process cache of jcachex: the two copies of
`DefaultCache` (packages `io.github.dhruv.jcachex` and
`io.github.dpflux.jcachex`), their eviction strategies, and the value types
`CacheStats`, `CacheEntry` and `CacheConfig.Builder`. Every operation is one
sequential step.

Modules, in dependency order:

- `Common` (common.dfy): `Option` and `Result`, the bounds of a Java `long`,
  and the sum of a map's values with its lemmas.
- `Events` (events.dfy): `EvictionReason` and the listener callbacks, recorded
  as events.
- `Entries` (entry.dfy): `CacheEntry`. Its value, weight, expiration and
  creation time are `const`, its access count and last access time are
  fields.
- `Stats` (stats.dfy): `CacheStats`, a class over the six counters, and the
  rates as functions on the counters over `real`.
- `Policies` (policies.dfy): what each strategy keeps (a rank per key and a
  counter), what `update`, `remove` and `clear` do to it, and which keys
  `selectEvictionCandidate` may return:
  - LRU, MRU: access stamp;
  - LFU: access count;
  - FIFO, FILO: first-insertion index;
  - time-based: last access instant;
  - weight-based: entry weight.
- `Strategies` (strategies.dfy):
  - `Strategy`, a class with the same four operations for any policy;
  - `CompositeStrategy`, which forwards `update`, `remove` and `clear` to
    every member and returns the first member's non-null candidate.
- `Config` (config.dfy): `CacheConfig` as a value, the `Builder` class with
  its setters and `build` validation, and how the engine derives an entry's
  expiry and weight from the config.
- `CacheModel` (cache_model.dfy): the cache as a value (store, strategy
  metadata, listener events, counters), each engine operation as a
  transition, and the lemmas the transitions satisfy.
- `DhruvCache` and `DpfluxCache` (dhruv_cache.dfy, dpflux_cache.dfy): the two
  engines as classes.
  - Each method is proved to perform exactly the `CacheModel` transition of
    its operation.
  - The transitions take a flag for whether an eviction also removes the
    victim from the strategies: the dpflux copy does, the dhruv copy does
    not.
  - In the dpflux copy a Java `null` key is `None`.
- `Scenarios` (scenarios.dfy): the runs the repository's tests describe, as
  methods over the engines and as lemmas over the strategies' state.

The two cache classes always hold a `CompositeStrategy`. A configured single
strategy S is the chain `[S]`, and `Strategies.SingletonChain` proves that
the chain nominates exactly what S nominates. A strategy's choice among tied
keys depends on `HashMap` iteration order, so the model lets it return any
best-ranked key (`IsCandidate`), and the engines prove their results for
whichever key is chosen. Time is an integer count of nanoseconds passed in as
`now`, and the measured load latency is passed in as `loadTime`.

## Model

| member | source | states |
|---|---|---|
| Common.SumRemove | jcachex-core/src/main/java/io/github/dpflux/jcachex/eviction/WeightBasedEvictionStrategy.java:48-50 | the summed weights split into any one key's weight plus the weights of the other keys |
| Common.SumUpdate | jcachex-core/src/main/java/io/github/dpflux/jcachex/eviction/WeightBasedEvictionStrategy.java:34-50 | overwriting one key's weight changes the total by the new weight minus the old one (0 for a new key) |
| Common.ComputeSum | jcachex-core/src/main/java/io/github/dpflux/jcachex/eviction/WeightBasedEvictionStrategy.java:48-50 | the streaming sum over the map's values, in whatever order they are visited, is the map's total weight |
| Entries.CacheEntry.constructor | jcachex-core/src/main/java/io/github/dhruv/jcachex/CacheEntry.java:19-26 | a new entry keeps the given value, weight and expiration; access count 0; created and last accessed at `now` |
| Entries.CacheEntry.IncrementAccessCount | jcachex-core/src/main/java/io/github/dhruv/jcachex/CacheEntry.java:48-51 | the access count goes up by exactly 1 and the last access becomes `now`; value, weight and expiration are constants, so an access never extends the expiry |
| Entries.NeverExpiresWithoutExpiry | jcachex-core/src/main/java/io/github/dhruv/jcachex/CacheEntry.java:36-38 | an entry without an expiration time is never expired |
| Entries.ExpiryIsPermanent | jcachex-core/src/main/java/io/github/dhruv/jcachex/CacheEntry.java:36-38 | an entry expired at one instant is expired at every later instant |
| Stats.HitRate | jcachex-core/src/main/java/io/github/dhruv/jcachex/CacheStats.java:60-63 | the rate lies in [0, 1]; it is 0 without requests; otherwise rate × (hits + misses) = hits |
| Stats.MissRate | jcachex-core/src/main/java/io/github/dhruv/jcachex/CacheStats.java:65-68 | the rate lies in [0, 1]; it is 0 without requests; otherwise rate × (hits + misses) = misses |
| Stats.AverageLoadTime | jcachex-core/src/main/java/io/github/dhruv/jcachex/CacheStats.java:70-73 | 0 without loads; otherwise average × loads = total load time |
| Stats.RatesSumToOne | jcachex-core/src/main/java/io/github/dhruv/jcachex/CacheStats.java:60-68 | with at least one request, hit rate + miss rate = 1 |
| Stats.CacheStats.constructor | jcachex-core/src/main/java/io/github/dhruv/jcachex/CacheStats.java:17-24 | a new instance has all six counters at zero |
| Stats.CacheStats.Of | jcachex-core/src/main/java/io/github/dhruv/jcachex/CacheStats.java:26-34 | the six-argument constructor holds exactly the given counters |
| Stats.CacheStats.Empty | jcachex-core/src/main/java/io/github/dhruv/jcachex/CacheStats.java:110-112 | `empty()` is a fresh instance with all six counters at zero |
| Stats.CacheStats.RecordHit | jcachex-core/src/main/java/io/github/dhruv/jcachex/CacheStats.java:75-77 | the hit count goes up by 1; the other five counters are unchanged |
| Stats.CacheStats.RecordMiss | jcachex-core/src/main/java/io/github/dhruv/jcachex/CacheStats.java:79-81 | the miss count goes up by 1; the other five counters are unchanged |
| Stats.CacheStats.RecordEviction | jcachex-core/src/main/java/io/github/dhruv/jcachex/CacheStats.java:83-85 | the eviction count goes up by 1; the other five counters are unchanged |
| Stats.CacheStats.RecordLoad | jcachex-core/src/main/java/io/github/dhruv/jcachex/CacheStats.java:87-90 | the load count goes up by 1 and the total load time by the given time; the others are unchanged |
| Stats.CacheStats.RecordLoadFailure | jcachex-core/src/main/java/io/github/dhruv/jcachex/CacheStats.java:92-94 | the load-failure count goes up by 1; the other five counters are unchanged |
| Stats.CacheStats.Snapshot | jcachex-core/src/main/java/io/github/dhruv/jcachex/CacheStats.java:96-104 | a fresh instance holding the current six counters |
| Stats.SnapshotIsIndependent | jcachex-core/src/test/java/io/github/dpflux/jcachex/CacheStatsTest.java:169-190 | a snapshot keeps the counters of the moment it was taken after the original records another hit and another miss; it is a different object |
| Stats.CacheStats.Reset | jcachex-core/src/main/java/io/github/dhruv/jcachex/CacheStats.java:106-108 | returns a fresh all-zero instance and leaves the receiver's counters as they were |
| Stats.CacheStats.Equals | jcachex-core/src/main/java/io/github/dhruv/jcachex/CacheStats.java:115-127 | equal if and only if the other object is a `CacheStats` with all six counters equal |
| Policies.AfterUpdate | jcachex-core/src/main/java/io/github/dhruv/jcachex/eviction/EvictionStrategy.java:29-35 | `update(k)` makes k known and leaves every other key's metadata unchanged |
| Policies.AfterRemove | jcachex-core/src/main/java/io/github/dhruv/jcachex/eviction/EvictionStrategy.java:37-42 | `remove(k)` forgets k only; every other key keeps its metadata and the counter is unchanged |
| Policies.AfterClear | jcachex-core/src/main/java/io/github/dhruv/jcachex/eviction/EvictionStrategy.java:44-47 | `clear()` forgets every key and resets the counter to 0 |
| Policies.EmptyIsWellFormed | jcachex-core/src/main/java/io/github/dpflux/jcachex/eviction/LRUEvictionStrategy.java:17-18 | a new strategy of any policy satisfies its policy's invariant |
| Policies.UpdatePreservesWellFormed | jcachex-core/src/main/java/io/github/dpflux/jcachex/eviction/LRUEvictionStrategy.java:20-23 | `update` keeps each policy's invariant: stamps stay positive, pairwise distinct and no larger than the counter; LFU counts stay positive |
| Policies.RemovePreservesWellFormed | jcachex-core/src/main/java/io/github/dpflux/jcachex/eviction/LRUEvictionStrategy.java:25-28 | `remove` keeps each policy's invariant |
| Policies.NominatesIffNonEmpty | jcachex-core/src/main/java/io/github/dpflux/jcachex/eviction/LRUEvictionStrategy.java:36-45 | every policy except the time-based one nominates a key if and only if the given entries are non-empty |
| Policies.CandidatesTie | jcachex-core/src/main/java/io/github/dpflux/jcachex/eviction/LRUEvictionStrategy.java:37-44 | any two admissible candidates have the same rank, so the choice among them only breaks a tie |
| Policies.StampedCandidateIsUnique | jcachex-core/src/main/java/io/github/dpflux/jcachex/eviction/LRUEvictionStrategy.java:36-45 | for LRU, MRU, FIFO and FILO, among keys the strategy knows, the candidate is unique |
| Policies.UpdatedStampIsNewest | jcachex-core/src/main/java/io/github/dpflux/jcachex/eviction/LRUEvictionStrategy.java:20-23 | after an LRU or MRU `update(k)`, k's stamp is strictly greater than every other stamp |
| Policies.MruNominatesJustUpdated | jcachex-core/src/main/java/io/github/dpflux/jcachex/eviction/MRUEvictionStrategy.java:20-33 | right after `update(k)` with k among the entries, MRU's candidate is k and only k |
| Policies.LfuCounts | jcachex-core/src/main/java/io/github/dhruv/jcachex/eviction/LFUEvictionStrategy.java:29-32 | `update(k)` adds 1 to k's count, and a new key starts at 1 |
| Policies.LfuRemoveRestartsCount | jcachex-core/src/main/java/io/github/dhruv/jcachex/eviction/LFUEvictionStrategy.java:29-37 | after `remove(k)`, the next `update(k)` counts 1 |
| Policies.InsertionIndexIsKept | jcachex-core/src/main/java/io/github/dpflux/jcachex/eviction/FIFOEvictionStrategy.java:30-33 | a FIFO or FILO re-put keeps the key's index while the counter still advances |
| Policies.FreshIndexIsNewest | jcachex-core/src/main/java/io/github/dpflux/jcachex/eviction/FIFOEvictionStrategy.java:30-38 | a key without an index (new, or removed) gets one strictly greater than every other index |
| Policies.FiloNominatesNewKey | jcachex-core/src/main/java/io/github/dhruv/jcachex/eviction/FILOEvictionStrategy.java:20-33 | right after a new key's `update`, FILO's candidate is that key and only that key |
| Policies.TimeCandidateIsIdle | jcachex-core/src/main/java/io/github/dhruv/jcachex/eviction/TimeBasedEvictionStrategy.java:26-37 | a time-based candidate has been idle for at least `maxIdleTime` (unknown keys count from the epoch) |
| Policies.TimeMayNominateNothing | jcachex-core/src/main/java/io/github/dhruv/jcachex/eviction/TimeBasedEvictionStrategy.java:26-42 | a key accessed just now is not nominated although the entries are non-empty |
| Policies.WeightIsStored | jcachex-core/src/main/java/io/github/dpflux/jcachex/eviction/WeightBasedEvictionStrategy.java:34-36 | `update(k)` overwrites k's weight with the entry's weight |
| Policies.RemoveLowersWeight | jcachex-core/src/main/java/io/github/dpflux/jcachex/eviction/WeightBasedEvictionStrategy.java:39-50 | `remove(k)` lowers the current weight by exactly k's stored weight |
| Policies.ClearedWeightIsZero | jcachex-core/src/main/java/io/github/dpflux/jcachex/eviction/WeightBasedEvictionStrategy.java:44-50 | after `clear` the current weight is 0 |
| Strategies.ChainCandidateIsLive | jcachex-core/src/main/java/io/github/dhruv/jcachex/eviction/CompositeEvictionStrategy.java:24-32 | a composite candidate is always one of the given entries' keys |
| Strategies.SingletonChain | jcachex-core/src/main/java/io/github/dhruv/jcachex/eviction/CompositeEvictionStrategy.java:24-32 | a one-member composite nominates, and picks, exactly what its member would |
| Strategies.AlwaysNominatesNonEmpty | jcachex-core/src/main/java/io/github/dhruv/jcachex/eviction/CompositeEvictionStrategy.java:24-32 | a composite with at least one member that is not time-based nominates whenever the entries are non-empty |
| Strategies.IdleThenLruNominates | jcachex-core/src/main/java/io/github/dhruv/jcachex/eviction/CompositeEvictionStrategy.java:24-32 | a composite of a time-based strategy followed by LRU nominates whenever the entries are non-empty, even when the time-based member nominates nothing |
| Strategies.Strategy.constructor | jcachex-core/src/main/java/io/github/dpflux/jcachex/eviction/LRUEvictionStrategy.java:17-18 | a new strategy of the given policy has no metadata and counter 0 |
| Strategies.Strategy.Update | jcachex-core/src/main/java/io/github/dhruv/jcachex/eviction/EvictionStrategy.java:29-35 | the new metadata is `AfterUpdate` of the old, for the strategy's policy; the invariant is kept |
| Strategies.Strategy.Remove | jcachex-core/src/main/java/io/github/dhruv/jcachex/eviction/EvictionStrategy.java:37-42 | the new metadata is `AfterRemove` of the old |
| Strategies.Strategy.Clear | jcachex-core/src/main/java/io/github/dhruv/jcachex/eviction/EvictionStrategy.java:44-47 | the new metadata is `AfterClear` of the old |
| Strategies.Strategy.SelectEvictionCandidate | jcachex-core/src/main/java/io/github/dhruv/jcachex/eviction/EvictionStrategy.java:21-27 | null if and only if no key can be nominated; otherwise an eligible key of the entries that ranks best (least or greatest by policy, with the policy's default for unknown keys) |
| Strategies.Strategy.CurrentWeight | jcachex-core/src/main/java/io/github/dpflux/jcachex/eviction/WeightBasedEvictionStrategy.java:48-50 | the sum of all stored weights |
| Strategies.Strategy.IsOverWeight | jcachex-core/src/main/java/io/github/dpflux/jcachex/eviction/WeightBasedEvictionStrategy.java:52-54 | true if and only if the current weight is strictly greater than `maxWeight` |
| Strategies.NewStrategies | jcachex-core/src/main/java/io/github/dhruv/jcachex/DefaultCache.java:34-35 | one fresh, empty, distinct strategy per policy, in order |
| Strategies.CompositeStrategy.constructor | jcachex-core/src/main/java/io/github/dhruv/jcachex/eviction/CompositeEvictionStrategy.java:19-21 | holds the given members, as a sequence value that later changes to the caller's list cannot reach |
| Strategies.CompositeStrategy.Update | jcachex-core/src/main/java/io/github/dhruv/jcachex/eviction/CompositeEvictionStrategy.java:35-39 | every member's metadata becomes its own `AfterUpdate` |
| Strategies.CompositeStrategy.Remove | jcachex-core/src/main/java/io/github/dhruv/jcachex/eviction/CompositeEvictionStrategy.java:42-46 | every member forgets the key |
| Strategies.CompositeStrategy.Clear | jcachex-core/src/main/java/io/github/dhruv/jcachex/eviction/CompositeEvictionStrategy.java:49-53 | every member is emptied |
| Strategies.CompositeStrategy.SelectEvictionCandidate | jcachex-core/src/main/java/io/github/dhruv/jcachex/eviction/CompositeEvictionStrategy.java:24-32 | null if and only if no member nominates; otherwise a candidate of the first member that nominates |
| Config.ToNanos | jcachex-core/src/main/java/io/github/dhruv/jcachex/CacheConfig.java:173-176 | `unit.toNanos(d)`: the exact product when it fits in a `long`, else `Long.MAX_VALUE` or `Long.MIN_VALUE` |
| Config.Defaults | jcachex-core/src/main/java/io/github/dhruv/jcachex/CacheConfig.java:134-151 | `recordStats` true, initial capacity and concurrency level 16, no bounds, durations, strategy, loaders or listeners |
| Config.Validate | jcachex-core/src/main/java/io/github/dhruv/jcachex/CacheConfig.java:248-259 | accepts exactly when maximum size and weight, if set, are at least 1 and `expireAfterWrite`, if set, is not negative; on success the config is the builder's fields unchanged; the first failing check, in the order size, weight, expiry, decides the message (`Maximum size must be greater than 0`, `Maximum weight must be greater than 0`, `Expire after write duration must be non-negative`) |
| Config.DefaultsAreValid | jcachex-core/src/main/java/io/github/dhruv/jcachex/CacheConfig.java:248-259 | a builder left at its defaults builds |
| Config.AccessAndRefreshUnchecked | jcachex-core/src/main/java/io/github/dhruv/jcachex/CacheConfig.java:255-258 | any `expireAfterAccess` and `refreshAfterWrite`, negative ones included, leave a valid config valid |
| Config.PoliciesOf | jcachex-core/src/main/java/io/github/dhruv/jcachex/DefaultCache.java:34-35 | no configured strategy means LRU; a single one is a chain of one; a composite is its members in order |
| Config.ExpiryFor | jcachex-core/src/main/java/io/github/dhruv/jcachex/DefaultCache.java:165-172 | a new entry has no expiry if and only if neither expiry duration is set |
| Config.WriteExpiryElapses | jcachex-core/src/main/java/io/github/dhruv/jcachex/DefaultCache.java:165-172 | with `expireAfterWrite` set, the entry expires at now + that duration, even if `expireAfterAccess` is set too |
| Config.AccessExpiryIsFallback | jcachex-core/src/main/java/io/github/dhruv/jcachex/DefaultCache.java:165-172 | with only `expireAfterAccess` set, the entry expires at now + that duration |
| Config.WeightFor | jcachex-core/src/main/java/io/github/dhruv/jcachex/DefaultCache.java:173 | the weigher's result for the value, or 1 without a weigher |
| Config.Builder.constructor | jcachex-core/src/main/java/io/github/dhruv/jcachex/CacheConfig.java:134-151 | a new builder holds the defaults |
| Config.Builder.SetMaximumSize | jcachex-core/src/main/java/io/github/dhruv/jcachex/CacheConfig.java:153-156 | only the maximum size changes |
| Config.Builder.SetMaximumWeight | jcachex-core/src/main/java/io/github/dhruv/jcachex/CacheConfig.java:158-161 | only the maximum weight changes |
| Config.Builder.SetWeigher | jcachex-core/src/main/java/io/github/dhruv/jcachex/CacheConfig.java:163-166 | only the weigher changes |
| Config.Builder.SetExpireAfterWrite | jcachex-core/src/main/java/io/github/dhruv/jcachex/CacheConfig.java:168-171 | only `expireAfterWrite` changes |
| Config.Builder.ExpireAfterWriteIn | jcachex-core/src/main/java/io/github/dhruv/jcachex/CacheConfig.java:173-176 | only `expireAfterWrite` changes, to the duration converted to nanoseconds |
| Config.Builder.SetExpireAfterAccess | jcachex-core/src/main/java/io/github/dhruv/jcachex/CacheConfig.java:178-181 | only `expireAfterAccess` changes |
| Config.Builder.ExpireAfterAccessIn | jcachex-core/src/main/java/io/github/dhruv/jcachex/CacheConfig.java:183-186 | only `expireAfterAccess` changes, to the duration converted to nanoseconds |
| Config.Builder.SetEvictionStrategy | jcachex-core/src/main/java/io/github/dhruv/jcachex/CacheConfig.java:188-191 | only the eviction strategy changes |
| Config.Builder.SetWeakKeys | jcachex-core/src/main/java/io/github/dhruv/jcachex/CacheConfig.java:193-196 | only `weakKeys` changes |
| Config.Builder.SetWeakValues | jcachex-core/src/main/java/io/github/dhruv/jcachex/CacheConfig.java:198-201 | only `weakValues` changes |
| Config.Builder.SetSoftValues | jcachex-core/src/main/java/io/github/dhruv/jcachex/CacheConfig.java:203-206 | only `softValues` changes |
| Config.Builder.SetLoader | jcachex-core/src/main/java/io/github/dhruv/jcachex/CacheConfig.java:208-211 | only the loader changes |
| Config.Builder.SetAsyncLoader | jcachex-core/src/main/java/io/github/dhruv/jcachex/CacheConfig.java:213-216 | only the asynchronous loader changes |
| Config.Builder.SetRefreshAfterWrite | jcachex-core/src/main/java/io/github/dhruv/jcachex/CacheConfig.java:218-221 | only `refreshAfterWrite` changes |
| Config.Builder.SetRecordStats | jcachex-core/src/main/java/io/github/dhruv/jcachex/CacheConfig.java:223-226 | only `recordStats` changes |
| Config.Builder.SetInitialCapacity | jcachex-core/src/main/java/io/github/dhruv/jcachex/CacheConfig.java:228-231 | only the initial capacity changes |
| Config.Builder.SetConcurrencyLevel | jcachex-core/src/main/java/io/github/dhruv/jcachex/CacheConfig.java:233-236 | only the concurrency level changes |
| Config.Builder.SetDirectory | jcachex-core/src/main/java/io/github/dhruv/jcachex/CacheConfig.java:238-241 | only the directory changes |
| Config.Builder.AddListener | jcachex-core/src/main/java/io/github/dhruv/jcachex/CacheConfig.java:243-246 | the listener joins the set; adding one already present changes nothing |
| Config.Builder.Build | jcachex-core/src/main/java/io/github/dhruv/jcachex/CacheConfig.java:248-259 | the builder's fields, validated as `Config.Validate` states |
| CacheModel.Initial | jcachex-core/src/main/java/io/github/dhruv/jcachex/DefaultCache.java:30-41 | a new cache stores nothing, every strategy is empty, and nothing has been sent or counted |
| CacheModel.LoaderOf | jcachex-core/src/main/java/io/github/dhruv/jcachex/DefaultCache.java:181-187 | the asynchronous loader is used when set, else the synchronous one |
| CacheModel.LoadOutcome | jcachex-core/src/main/java/io/github/dhruv/jcachex/DefaultCache.java:180-187 | with no loader, nothing is loaded |
| CacheModel.StoreWeight | jcachex-core/src/main/java/io/github/dhruv/jcachex/DefaultCache.java:208-210 | the streaming sum of the stored entries' weights is their total weight |
| CacheModel.EvictedRemovesVictim | jcachex-core/src/main/java/io/github/dpflux/jcachex/DefaultCache.java:249-258 | evicting a stored key removes it from the store, counts one eviction and sends `onEvict` with the reason; with the dpflux flag every strategy forgets the key, without it (dhruv) the strategies are untouched |
| CacheModel.EvictedWithoutVictim | jcachex-core/src/main/java/io/github/dhruv/jcachex/DefaultCache.java:217-226 | without a candidate, `evict` changes nothing |
| CacheModel.EvictedShrinks | jcachex-core/src/main/java/io/github/dhruv/jcachex/DefaultCache.java:217-226 | an eviction never adds a key or changes a remaining entry |
| CacheModel.ChoiceIsStored | jcachex-core/src/main/java/io/github/dhruv/jcachex/DefaultCache.java:217-222 | the key the strategies pick is a stored key, so the eviction happens |
| CacheModel.PutKeepsSizeBound | jcachex-core/src/main/java/io/github/dpflux/jcachex/DefaultCache.java:234-247 | with `maximumSize` N, a store of at most N entries holds at most N after `put`, when some strategy of the chain is not time-based, so that it always nominates a stored key |
| CacheModel.StoredGrowsByOne | jcachex-core/src/main/java/io/github/dhruv/jcachex/DefaultCache.java:63-72 | the store step of `put` adds at most one key |
| CacheModel.SizeStepRestoresBound | jcachex-core/src/main/java/io/github/dpflux/jcachex/DefaultCache.java:235-237 | one size eviction brings a store of at most N + 1 entries back to at most N, when some strategy of the chain is not time-based |
| CacheModel.PutStoresEntry | jcachex-core/src/main/java/io/github/dpflux/jcachex/DefaultCache.java:84-97 | after `put(k, v)`, k maps to the new entry unless the bounding step chose k as a victim |
| CacheModel.BoundedKeepsUnlessVictim | jcachex-core/src/main/java/io/github/dhruv/jcachex/DefaultCache.java:202-215 | the bounding step keeps a stored key, unchanged, unless it is one of the two victims |
| CacheModel.EvictedEvents | jcachex-core/src/main/java/io/github/dhruv/jcachex/DefaultCache.java:217-226 | an eviction only appends events: at most one `onEvict` with its own reason, none with another, and at most one counted eviction |
| CacheModel.StoredEvents | jcachex-core/src/main/java/io/github/dhruv/jcachex/DefaultCache.java:63-72 | the store step of `put` only appends events, evicts nothing and leaves the counters alone |
| CacheModel.PutEvictsAtMostOncePerBound | jcachex-core/src/main/java/io/github/dpflux/jcachex/DefaultCache.java:234-247 | each `put` sends at most one size eviction and at most one weight eviction, and counts at most two evictions |
| CacheModel.RemovedIsAbsent | jcachex-core/src/main/java/io/github/dpflux/jcachex/DefaultCache.java:100-111 | after `remove(k)` k is absent, every other key stays, and removing an absent key changes nothing |
| CacheModel.ClearedIsEmpty | jcachex-core/src/main/java/io/github/dpflux/jcachex/DefaultCache.java:114-118 | `clear` leaves nothing stored, every strategy empty, and exactly one new event, `onClear` |
| CacheModel.HitKeepsStore | jcachex-core/src/main/java/io/github/dpflux/jcachex/DefaultCache.java:73-76 | a hit keeps every stored entry and sends nothing, and counts one hit |
| CacheModel.NoLoaderNoChange | jcachex-core/src/main/java/io/github/dhruv/jcachex/DefaultCache.java:177-199 | without a loader, loading returns nothing and changes nothing |
| CacheModel.FailedLoadStoresNothing | jcachex-core/src/main/java/io/github/dpflux/jcachex/DefaultCache.java:209-231 | a loader failure returns nothing, stores nothing, counts one load failure and sends `onLoadError` with the error |
| CacheModel.SuccessfulLoad | jcachex-core/src/main/java/io/github/dhruv/jcachex/DefaultCache.java:177-194 | a loaded value is returned and stored through `put` (so `onPut` is sent and k stays unless bounding evicts it), then one load and its time are counted and `onLoad` is the last event |
| CacheModel.LoadedAppends | jcachex-core/src/main/java/io/github/dhruv/jcachex/DefaultCache.java:189-194 | recording a load keeps the store and appends `onLoad` after the events already sent |
| CacheModel.PutSendsPut | jcachex-core/src/main/java/io/github/dhruv/jcachex/DefaultCache.java:63-72 | `put` only appends events, among them its own `onPut`, and among the counters only the eviction count may move |
| CacheModel.InitialIsMirrored | jcachex-core/src/main/java/io/github/dpflux/jcachex/DefaultCache.java:39-58 | a new cache's strategies know exactly the stored keys (none) |
| CacheModel.TransitionsKeepMirrored | jcachex-core/src/main/java/io/github/dpflux/jcachex/DefaultCache.java:249-258 | in the dpflux copy every operation keeps each strategy's keys equal to the stored keys |
| CacheModel.EvictedKeepsMirrored | jcachex-core/src/main/java/io/github/dpflux/jcachex/DefaultCache.java:249-258 | a dpflux eviction keeps each strategy's keys equal to the stored keys |
| CacheModel.TransitionsKeepCovered | jcachex-core/src/main/java/io/github/dhruv/jcachex/DefaultCache.java:217-226 | in the dhruv copy every operation keeps every stored key known to every strategy |
| CacheModel.EvictedKeyStaysKnown | jcachex-core/src/main/java/io/github/dhruv/jcachex/DefaultCache.java:217-226 | in the dhruv copy an evicted key leaves the store but stays in every strategy's metadata |
| DhruvCache.DefaultCache.constructor | jcachex-core/src/main/java/io/github/dhruv/jcachex/DefaultCache.java:30-41 | a new cache holds the config, one fresh strategy per configured policy (LRU by default) and the initial state |
| DhruvCache.DefaultCache.Get | jcachex-core/src/main/java/io/github/dhruv/jcachex/DefaultCache.java:44-60 | an expired key is removed (`onRemove`), counted as a miss and gives nothing; a live key gives its value, counts a hit, touches the entry and updates the strategies; an absent key counts a miss and is loaded; no entry other than the one under the key is touched |
| DhruvCache.DefaultCache.ServeHit | jcachex-core/src/main/java/io/github/dhruv/jcachex/DefaultCache.java:52-55 | a live key's value is returned, its access count rises by 1, its last access becomes now, and the hit transition happens |
| DhruvCache.DefaultCache.Put | jcachex-core/src/main/java/io/github/dhruv/jcachex/DefaultCache.java:63-72 | a fresh entry is made from the config, stored with `onRemove` for a replaced value then `onPut`, and the bounding step evicts as the strategies choose |
| DhruvCache.DefaultCache.Store | jcachex-core/src/main/java/io/github/dhruv/jcachex/DefaultCache.java:64-70 | the store step of `put` |
| DhruvCache.DefaultCache.Remove | jcachex-core/src/main/java/io/github/dhruv/jcachex/DefaultCache.java:75-82 | returns the removed value or nothing; the key leaves the store and every strategy, with `onRemove` |
| DhruvCache.DefaultCache.Clear | jcachex-core/src/main/java/io/github/dhruv/jcachex/DefaultCache.java:85-89 | the clear transition: store and strategies emptied, one `onClear` |
| DhruvCache.DefaultCache.Size | jcachex-core/src/main/java/io/github/dhruv/jcachex/DefaultCache.java:92-94 | the number of stored entries, expired ones included |
| DhruvCache.DefaultCache.ContainsKey | jcachex-core/src/main/java/io/github/dhruv/jcachex/DefaultCache.java:97-99 | true if and only if the key is stored, whether or not it has expired |
| DhruvCache.DefaultCache.Stats | jcachex-core/src/main/java/io/github/dhruv/jcachex/DefaultCache.java:136-138 | a fresh snapshot of the cache's counters |
| DhruvCache.DefaultCache.CreateEntry | jcachex-core/src/main/java/io/github/dhruv/jcachex/DefaultCache.java:165-175 | a fresh entry with the config's expiry and weight for the value, never accessed |
| DhruvCache.DefaultCache.LoadValue | jcachex-core/src/main/java/io/github/dhruv/jcachex/DefaultCache.java:177-200 | the load transition for the loader's outcome (see `CacheModel.SuccessfulLoad`, `FailedLoadStoresNothing`, `NoLoaderNoChange`) |
| DhruvCache.DefaultCache.RecordLoaded | jcachex-core/src/main/java/io/github/dhruv/jcachex/DefaultCache.java:191-192 | one load and its time are counted and `onLoad` is sent |
| DhruvCache.DefaultCache.RecordLoadError | jcachex-core/src/main/java/io/github/dhruv/jcachex/DefaultCache.java:196-197 | one load failure is counted and `onLoadError` is sent |
| DhruvCache.DefaultCache.EvictIfNeeded | jcachex-core/src/main/java/io/github/dhruv/jcachex/DefaultCache.java:202-215 | at most one size eviction when over the size bound, then at most one weight eviction when over the weight bound, victims as the strategies choose |
| DhruvCache.DefaultCache.Evict | jcachex-core/src/main/java/io/github/dhruv/jcachex/DefaultCache.java:217-226 | the strategies' candidate, if any, leaves the store with one counted eviction and `onEvict`; the strategies keep its metadata |
| DhruvCache.DefaultCache.Discard | jcachex-core/src/main/java/io/github/dhruv/jcachex/DefaultCache.java:220-224 | a stored victim is evicted without touching the strategies |
| DpfluxCache.DefaultCache.constructor | jcachex-core/src/main/java/io/github/dpflux/jcachex/DefaultCache.java:39-58 | a new cache holds the config, one fresh strategy per configured policy (LRU by default) and the initial state |
| DpfluxCache.DefaultCache.Get | jcachex-core/src/main/java/io/github/dpflux/jcachex/DefaultCache.java:61-81 | a null key gives nothing and changes nothing; otherwise as in the dhruv copy (expired, live and absent keys), through `DpfluxCache.DefaultCache.Lookup`; no entry other than the one under the key is touched |
| DpfluxCache.DefaultCache.Lookup | jcachex-core/src/main/java/io/github/dpflux/jcachex/DefaultCache.java:66-80 | for a non-null key: an expired key is removed (`onRemove`), counted as a miss and gives nothing; a live key gives its value, counts a hit, touches the entry and updates the strategies; an absent key counts a miss and is loaded; no other entry is touched |
| DpfluxCache.DefaultCache.ServeHit | jcachex-core/src/main/java/io/github/dpflux/jcachex/DefaultCache.java:73-76 | a live key's value is returned, its access count rises by 1, its last access becomes now, and the hit transition happens |
| DpfluxCache.DefaultCache.Put | jcachex-core/src/main/java/io/github/dpflux/jcachex/DefaultCache.java:84-97 | a null key changes nothing; otherwise the `put` transition with evicted keys dropped from the strategies |
| DpfluxCache.DefaultCache.Store | jcachex-core/src/main/java/io/github/dpflux/jcachex/DefaultCache.java:89-95 | the store step of `put` |
| DpfluxCache.DefaultCache.Remove | jcachex-core/src/main/java/io/github/dpflux/jcachex/DefaultCache.java:100-111 | a null key gives nothing and changes nothing; otherwise returns the removed value or nothing and performs the remove transition |
| DpfluxCache.DefaultCache.Clear | jcachex-core/src/main/java/io/github/dpflux/jcachex/DefaultCache.java:114-118 | the clear transition: store and strategies emptied, one `onClear` |
| DpfluxCache.DefaultCache.Size | jcachex-core/src/main/java/io/github/dpflux/jcachex/DefaultCache.java:121-123 | the number of stored entries, expired ones included |
| DpfluxCache.DefaultCache.ContainsKey | jcachex-core/src/main/java/io/github/dpflux/jcachex/DefaultCache.java:126-131 | false for a null key; otherwise true if and only if the key is stored, whether or not it has expired |
| DpfluxCache.DefaultCache.Stats | jcachex-core/src/main/java/io/github/dpflux/jcachex/DefaultCache.java:168-170 | a fresh snapshot of the cache's counters |
| DpfluxCache.DefaultCache.CreateEntry | jcachex-core/src/main/java/io/github/dpflux/jcachex/DefaultCache.java:197-207 | a fresh entry with the config's expiry and weight for the value, never accessed |
| DpfluxCache.DefaultCache.LoadValue | jcachex-core/src/main/java/io/github/dpflux/jcachex/DefaultCache.java:209-232 | the load transition for the loader's outcome, with evicted keys dropped from the strategies |
| DpfluxCache.DefaultCache.RecordLoaded | jcachex-core/src/main/java/io/github/dpflux/jcachex/DefaultCache.java:223-224 | one load and its time are counted and `onLoad` is sent |
| DpfluxCache.DefaultCache.RecordLoadError | jcachex-core/src/main/java/io/github/dpflux/jcachex/DefaultCache.java:228-229 | one load failure is counted and `onLoadError` is sent |
| DpfluxCache.DefaultCache.EvictIfNeeded | jcachex-core/src/main/java/io/github/dpflux/jcachex/DefaultCache.java:234-247 | at most one size eviction, then at most one weight eviction, victims as the strategies choose |
| DpfluxCache.DefaultCache.Evict | jcachex-core/src/main/java/io/github/dpflux/jcachex/DefaultCache.java:249-259 | the strategies' candidate, if any, leaves the store and every strategy, with one counted eviction and `onEvict` |
| DpfluxCache.DefaultCache.Discard | jcachex-core/src/main/java/io/github/dpflux/jcachex/DefaultCache.java:252-257 | a stored victim is evicted and every strategy forgets it |
| Scenarios.FitsWithoutEviction | jcachex-core/src/main/java/io/github/dhruv/jcachex/DefaultCache.java:203-205 | a `put` that stays within the size bound, with no weight bound, evicts nothing |
| Scenarios.StampOne | jcachex-core/src/main/java/io/github/dpflux/jcachex/eviction/LRUEvictionStrategy.java:20-23 | a one-member LRU or MRU chain stamps the key with its next counter value |
| Scenarios.OldestStampWins | jcachex-core/src/main/java/io/github/dpflux/jcachex/eviction/LRUEvictionStrategy.java:36-45 | an LRU strategy with keys 1, 2, 3 stamped 1, 2, 3 picks key 1 |
| Scenarios.LruEvictsOldest | jcachex-core/src/test/java/io/github/dpflux/jcachex/eviction/LRUEvictionStrategyTest.java:26-29 | with A, B, C put in that order, A is the only LRU candidate |
| Scenarios.LruAccessAfterEviction | jcachex-core/src/test/java/io/github/dpflux/jcachex/eviction/LRUEvictionStrategyTest.java:30-35 | once evicted A is forgotten and B is read again, D's put leaves C as the only LRU candidate |
| Scenarios.LruAccessSavesKey | jcachex-core/src/test/java/io/github/dpflux/jcachex/eviction/LRUEvictionStrategyTest.java:38-43 | after put A, put B, get A, put C, B and only B is the LRU candidate |
| Scenarios.LfuNewKeyIsLeastUsed | jcachex-core/src/test/java/io/github/dpflux/jcachex/eviction/LFUEvictionStrategyTest.java:28-38 | after put A, put B, put A, get A, get B, put C, C and only C is the LFU candidate |
| Scenarios.FifoRePutKeepsOrder | jcachex-core/src/test/java/io/github/dpflux/jcachex/eviction/FIFOEvictionStrategyTest.java:25-33 | after put A, put B, put A, put C, A and only A is the FIFO candidate |
| Scenarios.FiloRePutKeepsOrder | jcachex-core/src/test/java/io/github/dpflux/jcachex/eviction/FILOEvictionStrategyTest.java:25-33 | after put A, put B, put A, put C, C and only C is the FILO candidate |
| Scenarios.LruFirstTwoPuts | jcachex-core/src/test/java/io/github/dhruv/jcachex/DefaultCacheTest.java:238-254 | two puts into an empty LRU cache bounded at 2 keep both keys, stamped 1 and 2 |
| Scenarios.LruThirdPut | jcachex-core/src/test/java/io/github/dhruv/jcachex/DefaultCacheTest.java:238-254 | the third put evicts the least recently used key 1 and keeps keys 2 and 3 |
| Scenarios.ThirdKeyStamped | jcachex-core/src/main/java/io/github/dhruv/jcachex/DefaultCache.java:63-72 | storing key 3 next to keys 1 and 2 stamps it 3 |
| Scenarios.LruFilled | jcachex-core/src/test/java/io/github/dhruv/jcachex/DefaultCacheTest.java:238-254 | a default LRU cache bounded at 2 after two puts holds keys 1 and 2 stamped in put order |
| Scenarios.LruSizeBound | jcachex-core/src/test/java/io/github/dhruv/jcachex/DefaultCacheTest.java:238-254 | after three puts the size is 2, key 1 is gone and key 3 is present |
| Scenarios.SmallStoreWeight | jcachex-core/src/main/java/io/github/dhruv/jcachex/DefaultCache.java:207-211 | the total weight of a store of one or two keys |
| Scenarios.FitsWithinWeight | jcachex-core/src/main/java/io/github/dhruv/jcachex/DefaultCache.java:207-214 | a `put` that stays within the weight bound, with no size bound, evicts nothing |
| Scenarios.HeavyEntryEvictsItself | jcachex-core/src/test/java/io/github/dhruv/jcachex/DefaultCacheTest.java:167-181 | with `maximumWeight` 5, putting an entry of weight 6 into an empty cache evicts that entry |
| Scenarios.SecondEntryFits | jcachex-core/src/test/java/io/github/dhruv/jcachex/DefaultCacheTest.java:167-181 | a following entry of weight 3 is kept |
| Scenarios.ThirdEntryFits | jcachex-core/src/test/java/io/github/dhruv/jcachex/DefaultCacheTest.java:167-181 | an entry of weight 1 next to it is kept too |
| Scenarios.WeightFirstPut | jcachex-core/src/test/java/io/github/dhruv/jcachex/DefaultCacheTest.java:167-181 | the weight-6 value, weighed by its length, leaves the cache empty |
| Scenarios.WeightSecondPut | jcachex-core/src/test/java/io/github/dhruv/jcachex/DefaultCacheTest.java:167-181 | the weight-3 value is then stored with weight 3 |
| Scenarios.WeightBound | jcachex-core/src/test/java/io/github/dhruv/jcachex/DefaultCacheTest.java:167-181 | after the three puts the size is 2 and the first key is gone |
| Scenarios.HitThenMiss | jcachex-core/src/test/java/io/github/dhruv/jcachex/DefaultCacheTest.java:200-210 | a put, a hit and a miss without a loader give the value, then nothing, and count one hit, one miss and no load |
| Scenarios.NullKeyIsIgnored | jcachex-core/src/main/java/io/github/dpflux/jcachex/DefaultCache.java:84-87 | in the dpflux copy, putting and getting a null key stores nothing, `containsKey(null)` is false and the size stays 0 |

## Left out

- Concurrency: the `ConcurrentHashMap` and `AtomicLong` atomicity, the
  `*Async` methods built on `CompletableFuture`, the scheduled
  `scheduleRefresh` sweep and `close`. Every operation is one sequential
  step.
- Clocks: `Instant.now()` and `System.nanoTime()` are the `now` and
  `loadTime` parameters. The time-based strategy reads the clock itself in
  `select` and `update`; here it gets the same `now` as the operation.
- Floating point and `long` overflow: the rates and the average load time
  are exact `real` quotients, and counters, stamps and weight sums are
  unbounded integers.
- Listeners: each callback is recorded once, as an appended event, whatever
  the number of registered listeners. The `HashSet` iteration order and a
  listener that throws are not modelled.
- The weigher is a function of the value only: the source always calls it
  with a `null` key (jcachex-core/src/main/java/io/github/dpflux/jcachex/DefaultCache.java:205).
- Exceptions other than a loader failure are not modelled. This covers an
  exception from the weigher, or one thrown by `put` inside the load's
  `try`, which the source would also report as `onLoadError`.
- A `null` key in the dhruv copy, which throws `NullPointerException` from
  the map, is not modelled: its keys are never null. The dpflux copy's
  constructor check for a `null` config is not modelled either.
- Strategy objects handed over in the config are described by policy. Each
  cache builds fresh strategy objects, so a strategy shared between caches,
  listed twice in a composite, or a composite nested in a composite is not
  modelled.
- Read-only views: `keys`, `values` and `entries`. Also `getAsync`, and
  `CacheStats.hashCode` and `toString`.
- `CacheConfig` getters: the config is a value, so `getListeners` returning
  a copy has nothing to show. The flags `weakKeys`, `weakValues`,
  `softValues`, `directory`, `initialCapacity`, `concurrencyLevel` and
  `recordStats` are stored but never read; statistics are always recorded.
- Serializers, the Kotlin extensions, the Spring module, the examples and
  the build scripts.
- Stats.CacheStats.Of: the Java six-argument constructor keeps the caller's
  counter objects, so later updates through either are shared; the model
  copies the values. The only caller in the model, `snapshot`, passes fresh
  counters, so nothing modelled observes the difference.
- Stats.CacheStats.Reset: the dpflux `CacheStatsTest` expects the receiver
  to be zeroed. The model follows the code, which returns a new zero
  instance and leaves the receiver unchanged.
- The LRU, LFU, FIFO and FILO strategy tests are stated on the strategy's
  state and its candidate, not as runs of a cache. Their `clear` scenarios
  are covered by the general `clear` lemmas only.
