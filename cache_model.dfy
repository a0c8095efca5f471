/**
 * The cache as a value: the key -> entry store, the metadata of each strategy
 * of the chain, the listener events sent so far and the statistics counters.
 * Each engine operation is one transition of this state; the engines in
 * `DhruvCache` and `DpfluxCache` are proved to perform exactly these
 * transitions, and the lemmas here are what the transitions guarantee.
 *
 * The flag `drop` says whether an eviction also removes the victim from the
 * strategies' metadata (the dpflux copy does, the dhruv copy does not).
 */
module CacheModel {
  import opened Common
  import opened Events
  import opened Entries
  import opened Stats
  import opened Policies
  import opened Strategies
  import opened Config

  datatype CacheState<K, V> = CacheState(
    store: map<K, CacheEntry<V>>,
    metas: seq<Metadata<K>>,
    events: seq<Event<K, V>>,
    counters: Counters)

  /** A cache just built: nothing stored, every strategy empty, nothing sent or counted. */
  function Initial<K, V>(n: nat): (st: CacheState<K, V>)
    ensures st.store == map[] && |st.metas| == n && st.events == [] && st.counters == Zero
    ensures forall i :: 0 <= i < n ==> st.metas[i] == Empty()
  {
    CacheState(map[], seq(n, _ => Empty()), [], Zero)
  }

  /** The sum of the stored entries' weights. */
  ghost function TotalWeight<K, V>(store: map<K, CacheEntry<V>>): int
  {
    Sum(map k | k in store :: store[k].weight)
  }

  // ---------------------------------------------------------------------
  // Transitions

  /** `entries.put(k, e)`, the listener calls and `evictionStrategy.update(k, e)` of `put`. */
  function Stored<K, V>(ps: seq<Policy>, st: CacheState<K, V>, k: K, e: CacheEntry<V>, now: int): (r: CacheState<K, V>)
    requires |ps| == |st.metas|
    ensures |r.metas| == |st.metas|
  {
    var replaced := if k in st.store then [OnRemove(k, st.store[k].value)] else [];
    st.(store := st.store[k := e],
        metas := UpdateEach(ps, st.metas, k, e.weight, now),
        events := st.events + replaced + [OnPut(k, e.value)])
  }

  /** `evict(reason)` once the strategy has answered `victim`. */
  function Evicted<K, V>(st: CacheState<K, V>, victim: Option<K>, reason: EvictionReason, drop: bool): (r: CacheState<K, V>)
    ensures |r.metas| == |st.metas|
  {
    if victim.Some? && victim.value in st.store then
      var k := victim.value;
      st.(store := st.store - {k},
          metas := if drop then RemoveEach(st.metas, k) else st.metas,
          counters := st.counters.(evictions := st.counters.evictions + 1),
          events := st.events + [OnEvict(k, st.store[k].value, reason)])
    else
      st
  }

  /** What the strategies may answer: nothing exactly when none nominates, else the chain's candidate. */
  predicate EvictChoice<K, V>(ps: seq<Policy>, st: CacheState<K, V>, now: int, victim: Option<K>)
    requires |ps| == |st.metas|
  {
    && (victim.None? <==> !ChainNominates(ps, st.metas, st.store.Keys, now))
    && (victim.Some? ==> ChainCandidate(ps, st.metas, st.store.Keys, now, victim.value))
  }

  predicate OverSize<K, V>(c: CacheConfig<K, V>, st: CacheState<K, V>)
  {
    c.maximumSize.Some? && |st.store| > c.maximumSize.value
  }

  ghost predicate OverWeight<K, V>(c: CacheConfig<K, V>, st: CacheState<K, V>)
  {
    c.maximumWeight.Some? && TotalWeight(st.store) > c.maximumWeight.value
  }

  /**
   * The victims `evictIfNeeded` may pick: one for the size bound, asked only
   * when the store is over size, then one for the weight bound, asked only
   * when the store left by the first is over weight.
   */
  ghost predicate BoundingChoice<K, V>(c: CacheConfig<K, V>, ps: seq<Policy>, st: CacheState<K, V>, now: int,
                                       sv: Option<K>, wv: Option<K>, drop: bool)
    requires |ps| == |st.metas|
  {
    && (if OverSize(c, st) then EvictChoice(ps, st, now, sv) else sv.None?)
    && var st1 := Evicted(st, sv, EvictionReason.Size, drop);
       if OverWeight(c, st1) then EvictChoice(ps, st1, now, wv) else wv.None?
  }

  /** `evictIfNeeded()` with the victims it picked. */
  function Bounded<K, V>(st: CacheState<K, V>, sv: Option<K>, wv: Option<K>, drop: bool): (r: CacheState<K, V>)
    ensures |r.metas| == |st.metas|
  {
    Evicted(Evicted(st, sv, EvictionReason.Size, drop), wv, EvictionReason.Weight, drop)
  }

  /** `put(k, v)`, where `e` is the entry `createEntry(v)` made. */
  function Put<K, V>(ps: seq<Policy>, st: CacheState<K, V>, k: K, e: CacheEntry<V>, now: int,
                     sv: Option<K>, wv: Option<K>, drop: bool): (r: CacheState<K, V>)
    requires |ps| == |st.metas|
    ensures |r.metas| == |st.metas|
  {
    Bounded(Stored(ps, st, k, e, now), sv, wv, drop)
  }

  /** `remove(k)`: the entry, if any, leaves the store and every strategy, with one `onRemove`. */
  function Removed<K, V>(st: CacheState<K, V>, k: K): (r: CacheState<K, V>)
    ensures |r.metas| == |st.metas|
  {
    if k in st.store then
      st.(store := st.store - {k},
          metas := RemoveEach(st.metas, k),
          events := st.events + [OnRemove(k, st.store[k].value)])
    else
      st
  }

  /** `clear()`: the store and every strategy emptied, one `onClear`. */
  function Cleared<K, V>(st: CacheState<K, V>): (r: CacheState<K, V>)
    ensures |r.metas| == |st.metas|
  {
    st.(store := map[], metas := ClearEach(st.metas), events := st.events + [OnClear])
  }

  /** A `get` of a live key: the strategies see an access and a hit is counted. */
  function Hit<K, V>(ps: seq<Policy>, st: CacheState<K, V>, k: K, now: int): (r: CacheState<K, V>)
    requires |ps| == |st.metas| && k in st.store
    ensures |r.metas| == |st.metas|
  {
    st.(metas := UpdateEach(ps, st.metas, k, st.store[k].weight, now),
        counters := st.counters.(hits := st.counters.hits + 1))
  }

  function Missed<K, V>(st: CacheState<K, V>): (r: CacheState<K, V>)
    ensures |r.metas| == |st.metas|
  {
    st.(counters := st.counters.(misses := st.counters.misses + 1))
  }

  /** The end of a successful `loadValue`, after its `put`: one load of `loadTime` and one `onLoad`. */
  function Loaded<K, V>(st: CacheState<K, V>, k: K, v: V, loadTime: int): (r: CacheState<K, V>)
    ensures |r.metas| == |st.metas|
  {
    st.(counters := st.counters.(loads := st.counters.loads + 1,
                                 totalLoadTime := st.counters.totalLoadTime + loadTime),
        events := st.events + [OnLoad(k, v)])
  }

  /** A `loadValue` whose loader threw: one load failure and one `onLoadError`. */
  function LoadFailed<K, V>(st: CacheState<K, V>, k: K, error: string): (r: CacheState<K, V>)
    ensures |r.metas| == |st.metas|
  {
    st.(counters := st.counters.(loadFailures := st.counters.loadFailures + 1),
        events := st.events + [OnLoadError(k, error)])
  }

  /** The loader `loadValue` calls: the asynchronous one when configured, else the plain one. */
  function LoaderOf<K, V>(c: CacheConfig<K, V>): (f: Option<K -> LoadResult<V>>)
    ensures c.asyncLoader.Some? ==> f == c.asyncLoader
    ensures c.asyncLoader.None? ==> f == c.loader
  {
    if c.asyncLoader.Some? then c.asyncLoader else c.loader
  }

  /** What loading `k` gives: no loader behaves as a loader returning `null`. */
  function LoadOutcome<K, V>(c: CacheConfig<K, V>, k: K): (r: LoadResult<V>)
    ensures LoaderOf(c).None? ==> r.NoValue?
  {
    match LoaderOf(c)
    case None => NoValue
    case Some(f) => f(k)
  }

  /** `e` is the entry `createEntry(v)` makes at `now` under configuration `c`. */
  ghost predicate MadeBy<K, V>(c: CacheConfig<K, V>, v: V, now: int, e: CacheEntry<V>)
  {
    && e.value == v && e.weight == WeightFor(c, v)
    && e.expirationTime == ExpiryFor(c, now) && e.creationTime == now
  }

  /**
   * `loadValue(k)` took `st` to `post` and returned `r`: a loaded value is
   * `put` (with the entry `e` and the victims `sv`, `wv`), then counted and
   * announced; `null` changes nothing; a failure is counted and announced.
   */
  ghost predicate LoadedAs<K, V>(c: CacheConfig<K, V>, ps: seq<Policy>, st: CacheState<K, V>, k: K, now: int,
                                 loadTime: int, r: Option<V>, e: CacheEntry?<V>, sv: Option<K>, wv: Option<K>,
                                 post: CacheState<K, V>, drop: bool)
    requires |ps| == |st.metas|
  {
    match LoadOutcome(c, k)
    case Value(v) =>
      && r == Some(v) && e != null && MadeBy(c, v, now, e)
      && BoundingChoice(c, ps, Stored(ps, st, k, e, now), now, sv, wv, drop)
      && post == Loaded(Put(ps, st, k, e, now, sv, wv, drop), k, v, loadTime)
    case NoValue =>
      r.None? && post == st
    case Failure(error) =>
      r.None? && post == LoadFailed(st, k, error)
  }

  /** The `mapToLong(CacheEntry::getWeight).sum()` of `evictIfNeeded`. */
  method StoreWeight<K, V>(store: map<K, CacheEntry<V>>) returns (w: int)
    ensures w == TotalWeight(store)
  {
    w := ComputeSum(map k | k in store :: store[k].weight);
  }

  // ---------------------------------------------------------------------
  // What the transitions guarantee

  /** An eviction that happens takes out exactly its victim, counts one eviction and sends one `onEvict`. */
  lemma EvictedRemovesVictim<K, V>(st: CacheState<K, V>, k: K, reason: EvictionReason, drop: bool)
    requires k in st.store
    ensures var r := Evicted(st, Some(k), reason, drop);
      && r.store == st.store - {k}
      && |r.store| == |st.store| - 1
      && r.counters == st.counters.(evictions := st.counters.evictions + 1)
      && r.events == st.events + [OnEvict(k, st.store[k].value, reason)]
      && (drop ==> forall i :: 0 <= i < |r.metas| ==> k !in r.metas[i].ranks)
      && (!drop ==> r.metas == st.metas)
  {
  }

  /** Without a candidate, `evict` changes nothing. */
  lemma EvictedWithoutVictim<K, V>(st: CacheState<K, V>, reason: EvictionReason, drop: bool)
    ensures Evicted(st, None, reason, drop) == st
  {
  }

  /** An eviction never adds a key. */
  lemma EvictedShrinks<K, V>(st: CacheState<K, V>, victim: Option<K>, reason: EvictionReason, drop: bool)
    ensures var r := Evicted(st, victim, reason, drop);
      && r.store.Keys <= st.store.Keys
      && (forall k :: k in r.store ==> r.store[k] == st.store[k])
      && |r.store| <= |st.store|
  {
    var r := Evicted(st, victim, reason, drop);
    if victim.Some? && victim.value in st.store {
      assert r.store.Keys == st.store.Keys - {victim.value};
    }
  }

  /** A victim the strategies pick is always a stored key, so the eviction does happen. */
  lemma ChoiceIsStored<K, V>(ps: seq<Policy>, st: CacheState<K, V>, now: int, victim: Option<K>)
    requires |ps| == |st.metas| && EvictChoice(ps, st, now, victim) && victim.Some?
    ensures victim.value in st.store
  {
    ChainCandidateIsLive(ps, st.metas, st.store.Keys, now, victim.value);
  }

  /**
   * The size bound holds after every `put` when it held before and the
   * strategies nominate whenever something is stored (one of them is not time-based).
   */
  lemma {:induction false} PutKeepsSizeBound<K, V>(c: CacheConfig<K, V>, ps: seq<Policy>, st: CacheState<K, V>,
                                                  k: K, e: CacheEntry<V>, now: int,
                                                  sv: Option<K>, wv: Option<K>, drop: bool)
    requires |ps| == |st.metas| && AlwaysNominates(ps)
    requires c.maximumSize.Some? && |st.store| <= c.maximumSize.value
    requires BoundingChoice(c, ps, Stored(ps, st, k, e, now), now, sv, wv, drop)
    ensures |Put(ps, st, k, e, now, sv, wv, drop).store| <= c.maximumSize.value
  {
    var st0 := Stored(ps, st, k, e, now);
    StoredGrowsByOne(ps, st, k, e, now);
    assert if OverSize(c, st0) then EvictChoice(ps, st0, now, sv) else sv.None?;
    SizeStepRestoresBound(c, ps, st0, now, sv, drop);
    EvictedShrinks(Evicted(st0, sv, EvictionReason.Size, drop), wv, EvictionReason.Weight, drop);
  }

  /** `put` adds at most one key to the store. */
  lemma StoredGrowsByOne<K, V>(ps: seq<Policy>, st: CacheState<K, V>, k: K, e: CacheEntry<V>, now: int)
    requires |ps| == |st.metas|
    ensures |Stored(ps, st, k, e, now).store| <= |st.store| + 1
  {
    assert Stored(ps, st, k, e, now).store.Keys == st.store.Keys + {k};
  }

  /** The size step of `evictIfNeeded` brings a store at most one over the bound back within it. */
  lemma SizeStepRestoresBound<K, V>(c: CacheConfig<K, V>, ps: seq<Policy>, st: CacheState<K, V>, now: int,
                                    sv: Option<K>, drop: bool)
    requires |ps| == |st.metas| && AlwaysNominates(ps)
    requires c.maximumSize.Some? && 0 <= c.maximumSize.value && |st.store| <= c.maximumSize.value + 1
    requires if OverSize(c, st) then EvictChoice(ps, st, now, sv) else sv.None?
    ensures |Evicted(st, sv, EvictionReason.Size, drop).store| <= c.maximumSize.value
  {
    if OverSize(c, st) {
      assert |st.store.Keys| == |st.store|;
      AlwaysNominatesNonEmpty(ps, st.metas, st.store.Keys, now);
      ChoiceIsStored(ps, st, now, sv);
      EvictedRemovesVictim(st, sv.value, EvictionReason.Size, drop);
    } else {
      EvictedWithoutVictim(st, EvictionReason.Size, drop);
    }
  }

  /** After `put(k, v)`, `k` maps to the new entry unless the bounding step evicted it, and vice versa. */
  lemma {:induction false} PutStoresEntry<K, V>(c: CacheConfig<K, V>, ps: seq<Policy>, st: CacheState<K, V>,
                                               k: K, e: CacheEntry<V>, now: int,
                                               sv: Option<K>, wv: Option<K>, drop: bool)
    requires |ps| == |st.metas|
    requires BoundingChoice(c, ps, Stored(ps, st, k, e, now), now, sv, wv, drop)
    ensures var r := Put(ps, st, k, e, now, sv, wv, drop);
      && (k in r.store <==> sv != Some(k) && wv != Some(k))
      && (k in r.store ==> r.store[k] == e)
  {
    var st0 := Stored(ps, st, k, e, now);
    if sv.Some? {
      ChoiceIsStored(ps, st0, now, sv);
    }
    if wv.Some? {
      ChoiceIsStored(ps, Evicted(st0, sv, EvictionReason.Size, drop), now, wv);
    }
    BoundedKeepsUnlessVictim(st0, k, sv, wv, drop);
  }

  lemma BoundedKeepsUnlessVictim<K, V>(st: CacheState<K, V>, k: K, sv: Option<K>, wv: Option<K>, drop: bool)
    requires k in st.store
    requires sv.Some? ==> sv.value in st.store
    requires wv.Some? ==> wv.value in Evicted(st, sv, EvictionReason.Size, drop).store
    ensures var r := Bounded(st, sv, wv, drop);
      && (k in r.store <==> sv != Some(k) && wv != Some(k))
      && (k in r.store ==> r.store[k] == st.store[k])
  {
  }

  /** How many `onEvict` events with the given reason a sequence of events holds. */
  function EvictCount<K, V>(evs: seq<Event<K, V>>, reason: EvictionReason): (n: nat)
  {
    if evs == [] then 0
    else EvictCount(evs[..|evs| - 1], reason)
         + (if evs[|evs| - 1].OnEvict? && evs[|evs| - 1].reason == reason then 1 else 0)
  }

  lemma {:induction false} EvictCountAppend<K, V>(a: seq<Event<K, V>>, b: seq<Event<K, V>>, reason: EvictionReason)
    ensures EvictCount(a + b, reason) == EvictCount(a, reason) + EvictCount(b, reason)
    decreases |b|
  {
    if b == [] {
      assert a + b == a;
    } else {
      assert (a + b)[..|a + b| - 1] == a + b[..|b| - 1];
      EvictCountAppend(a, b[..|b| - 1], reason);
    }
  }

  /** The events of one eviction: none, or a single `onEvict` with its reason. */
  lemma EvictedEvents<K, V>(st: CacheState<K, V>, victim: Option<K>, reason: EvictionReason, other: EvictionReason, drop: bool)
    requires other != reason
    ensures var r := Evicted(st, victim, reason, drop);
      && |st.events| <= |r.events| && r.events[..|st.events|] == st.events
      && EvictCount(r.events[|st.events|..], reason) <= 1
      && EvictCount(r.events[|st.events|..], other) == 0
      && r.counters.evictions <= st.counters.evictions + 1
  {
    var r := Evicted(st, victim, reason, drop);
    var s := r.events[|st.events|..];
    if s != [] {
      assert s[..0] == [];
    }
  }

  /** The events `put` sends before bounding: `onRemove` for a replaced entry, then `onPut`; no eviction. */
  lemma StoredEvents<K, V>(ps: seq<Policy>, st: CacheState<K, V>, k: K, e: CacheEntry<V>, now: int, reason: EvictionReason)
    requires |ps| == |st.metas|
    ensures var r := Stored(ps, st, k, e, now);
      && |st.events| <= |r.events| && r.events[..|st.events|] == st.events
      && EvictCount(r.events[|st.events|..], reason) == 0
      && r.counters == st.counters
  {
    var r := Stored(ps, st, k, e, now);
    var put := r.events[|st.events|..];
    if k in st.store {
      assert put == [OnRemove(k, st.store[k].value), OnPut(k, e.value)];
      assert put[..1] == [OnRemove(k, st.store[k].value)];
      assert put[..1][..0] == [];
      assert EvictCount(put[..1], reason) == 0;
    } else {
      assert put == [OnPut(k, e.value)];
    }
  }

  /** Events are only ever appended: a longer history keeps the shorter one as its prefix. */
  lemma SuffixSplit<K, V>(a: seq<Event<K, V>>, b: seq<Event<K, V>>, c: seq<Event<K, V>>)
    requires |a| <= |b| <= |c| && b[..|a|] == a && c[..|b|] == b
    ensures c[..|a|] == a && c[|a|..] == b[|a|..] + c[|b|..]
  {
    assert c == b + c[|b|..];
  }

  /**
   * Each `put` sends at most one size eviction and at most one weight
   * eviction, and counts at most two evictions in all.
   */
  lemma {:induction false} PutEvictsAtMostOncePerBound<K, V>(ps: seq<Policy>, st: CacheState<K, V>,
                                                            k: K, e: CacheEntry<V>, now: int,
                                                            sv: Option<K>, wv: Option<K>, drop: bool)
    requires |ps| == |st.metas|
    ensures var r := Put(ps, st, k, e, now, sv, wv, drop);
      && |st.events| <= |r.events|
      && r.events[..|st.events|] == st.events
      && EvictCount(r.events[|st.events|..], EvictionReason.Size) <= 1
      && EvictCount(r.events[|st.events|..], EvictionReason.Weight) <= 1
      && r.counters.evictions <= st.counters.evictions + 2
  {
    var st0 := Stored(ps, st, k, e, now);
    var st1 := Evicted(st0, sv, EvictionReason.Size, drop);
    var r := Evicted(st1, wv, EvictionReason.Weight, drop);
    StoredEvents(ps, st, k, e, now, EvictionReason.Size);
    StoredEvents(ps, st, k, e, now, EvictionReason.Weight);
    EvictedEvents(st0, sv, EvictionReason.Size, EvictionReason.Weight, drop);
    EvictedEvents(st1, wv, EvictionReason.Weight, EvictionReason.Size, drop);
    var put, s1, s2 := st0.events[|st.events|..], st1.events[|st0.events|..], r.events[|st1.events|..];
    SuffixSplit(st.events, st0.events, st1.events);
    SuffixSplit(st.events, st1.events, r.events);
    assert r.events[|st.events|..] == put + s1 + s2;
    EvictCountAppend(put, s1, EvictionReason.Size);
    EvictCountAppend(put + s1, s2, EvictionReason.Size);
    EvictCountAppend(put, s1, EvictionReason.Weight);
    EvictCountAppend(put + s1, s2, EvictionReason.Weight);
  }

  /** `remove(k)` leaves `k` absent; an absent key sends no event and changes nothing. */
  lemma RemovedIsAbsent<K, V>(st: CacheState<K, V>, k: K)
    ensures k !in Removed(st, k).store
    ensures Removed(st, k).store == st.store - {k}
    ensures k !in st.store ==> Removed(st, k) == st
  {
  }

  /** `clear()` leaves nothing stored, no strategy metadata, and exactly one new event, `onClear`. */
  lemma ClearedIsEmpty<K, V>(st: CacheState<K, V>)
    ensures var r := Cleared(st);
      && r.store == map[]
      && (forall i :: 0 <= i < |r.metas| ==> r.metas[i].ranks == map[])
      && |r.events| == |st.events| + 1 && r.events[|st.events|] == OnClear
  {
  }

  /** A hit keeps every key and value where it was and sends nothing. */
  lemma HitKeepsStore<K, V>(ps: seq<Policy>, st: CacheState<K, V>, k: K, now: int)
    requires |ps| == |st.metas| && k in st.store
    ensures var r := Hit(ps, st, k, now);
      r.store == st.store && r.events == st.events && r.counters.hits == st.counters.hits + 1
  {
  }

  /** Without a loader, loading changes nothing and gives nothing. */
  lemma NoLoaderNoChange<K, V>(c: CacheConfig<K, V>, ps: seq<Policy>, st: CacheState<K, V>, k: K, now: int,
                               loadTime: int, r: Option<V>, e: CacheEntry?<V>, sv: Option<K>, wv: Option<K>,
                               post: CacheState<K, V>, drop: bool)
    requires |ps| == |st.metas| && c.loader.None? && c.asyncLoader.None?
    requires LoadedAs(c, ps, st, k, now, loadTime, r, e, sv, wv, post, drop)
    ensures r.None? && post == st
  {
  }

  /** A failing loader stores nothing: one more load failure, one `onLoadError`, no value. */
  lemma FailedLoadStoresNothing<K, V>(c: CacheConfig<K, V>, ps: seq<Policy>, st: CacheState<K, V>, k: K, now: int,
                                      loadTime: int, r: Option<V>, e: CacheEntry?<V>, sv: Option<K>, wv: Option<K>,
                                      post: CacheState<K, V>, drop: bool, error: string)
    requires |ps| == |st.metas| && LoadOutcome(c, k) == Failure(error)
    requires LoadedAs(c, ps, st, k, now, loadTime, r, e, sv, wv, post, drop)
    ensures r.None? && post.store == st.store && post.metas == st.metas
    ensures post.counters == st.counters.(loadFailures := st.counters.loadFailures + 1)
    ensures post.events == st.events + [OnLoadError(k, error)]
  {
  }

  /**
   * A successful load returns the loaded value, sends `onPut` for it before a
   * final `onLoad`, counts one load, and leaves the key mapped to the value
   * unless the bounding step of its `put` evicted it.
   */
  lemma {:induction false} SuccessfulLoad<K, V>(c: CacheConfig<K, V>, ps: seq<Policy>, st: CacheState<K, V>, k: K,
                                               now: int, loadTime: int, r: Option<V>, e: CacheEntry?<V>,
                                               sv: Option<K>, wv: Option<K>, post: CacheState<K, V>, drop: bool, v: V)
    requires |ps| == |st.metas| && LoadOutcome(c, k) == Value(v)
    requires LoadedAs(c, ps, st, k, now, loadTime, r, e, sv, wv, post, drop)
    ensures r == Some(v)
    ensures post.counters.loads == st.counters.loads + 1
    ensures post.counters.totalLoadTime == st.counters.totalLoadTime + loadTime
    ensures post.counters.hits == st.counters.hits && post.counters.misses == st.counters.misses
    ensures |post.events| > |st.events| && post.events[|post.events| - 1] == OnLoad(k, v)
    ensures OnPut(k, v) in post.events[|st.events|..]
    ensures k in post.store <==> sv != Some(k) && wv != Some(k)
    ensures k in post.store ==> post.store[k].value == v
  {
    assert e != null && e.value == v;
    PutStoresEntry(c, ps, st, k, e, now, sv, wv, drop);
    PutSendsPut(ps, st, k, e, now, sv, wv, drop);
    LoadedAppends(st, Put(ps, st, k, e, now, sv, wv, drop), k, v, loadTime);
  }

  /** `Loaded` after a step that only appended events keeps that step's events and store, then adds `onLoad`. */
  lemma LoadedAppends<K, V>(st: CacheState<K, V>, p: CacheState<K, V>, k: K, v: V, loadTime: int)
    requires |st.events| <= |p.events|
    ensures var post := Loaded(p, k, v, loadTime);
      && post.store == p.store
      && post.events[|st.events|..] == p.events[|st.events|..] + [OnLoad(k, v)]
      && post.events[|post.events| - 1] == OnLoad(k, v)
  {
  }

  /** A `put` only appends events, among them its own `onPut`, and only the eviction counter moves. */
  lemma {:induction false} PutSendsPut<K, V>(ps: seq<Policy>, st: CacheState<K, V>, k: K, e: CacheEntry<V>, now: int,
                                            sv: Option<K>, wv: Option<K>, drop: bool)
    requires |ps| == |st.metas|
    ensures var r := Put(ps, st, k, e, now, sv, wv, drop);
      && |st.events| <= |r.events| && r.events[..|st.events|] == st.events
      && OnPut(k, e.value) in r.events[|st.events|..]
      && r.counters == st.counters.(evictions := r.counters.evictions)
  {
    var st0 := Stored(ps, st, k, e, now);
    var st1 := Evicted(st0, sv, EvictionReason.Size, drop);
    var r := Evicted(st1, wv, EvictionReason.Weight, drop);
    StoredEvents(ps, st, k, e, now, EvictionReason.Size);
    EvictedEvents(st0, sv, EvictionReason.Size, EvictionReason.Weight, drop);
    EvictedEvents(st1, wv, EvictionReason.Weight, EvictionReason.Size, drop);
    SuffixSplit(st.events, st0.events, st1.events);
    SuffixSplit(st.events, st1.events, r.events);
    assert st0.events[|st0.events| - 1] == OnPut(k, e.value);
    assert OnPut(k, e.value) in st0.events[|st.events|..];
  }

  // ---------------------------------------------------------------------
  // Which keys the strategies know

  /** Every strategy knows exactly the stored keys (kept by the copy that drops evicted keys). */
  predicate Mirrored<K, V>(st: CacheState<K, V>)
  {
    forall i :: 0 <= i < |st.metas| ==> st.metas[i].ranks.Keys == st.store.Keys
  }

  /** Every strategy knows at least the stored keys (all the copy that keeps evicted keys guarantees). */
  predicate Covered<K, V>(st: CacheState<K, V>)
  {
    forall i :: 0 <= i < |st.metas| ==> st.store.Keys <= st.metas[i].ranks.Keys
  }

  lemma InitialIsMirrored<K, V>(n: nat)
    ensures Mirrored(Initial<K, V>(n))
  {
  }

  /** With `drop`, every transition keeps the strategies' keys equal to the stored keys. */
  lemma {:induction false} TransitionsKeepMirrored<K, V>(c: CacheConfig<K, V>, ps: seq<Policy>, st: CacheState<K, V>,
                                                        k: K, e: CacheEntry<V>, v: V, now: int, loadTime: int,
                                                        sv: Option<K>, wv: Option<K>, error: string)
    requires |ps| == |st.metas| && Mirrored(st)
    ensures Mirrored(Put(ps, st, k, e, now, sv, wv, true))
    ensures Mirrored(Removed(st, k)) && Mirrored(Cleared(st)) && Mirrored(Missed(st))
    ensures k in st.store ==> Mirrored(Hit(ps, st, k, now))
    ensures Mirrored(Loaded(st, k, v, loadTime)) && Mirrored(LoadFailed(st, k, error))
  {
    var st0 := Stored(ps, st, k, e, now);
    assert Mirrored(st0);
    EvictedKeepsMirrored(st0, sv, EvictionReason.Size);
    EvictedKeepsMirrored(Evicted(st0, sv, EvictionReason.Size, true), wv, EvictionReason.Weight);
  }

  lemma EvictedKeepsMirrored<K, V>(st: CacheState<K, V>, victim: Option<K>, reason: EvictionReason)
    requires Mirrored(st)
    ensures Mirrored(Evicted(st, victim, reason, true))
  {
  }

  /** Without `drop`, every transition keeps every stored key known to every strategy. */
  lemma {:induction false} TransitionsKeepCovered<K, V>(c: CacheConfig<K, V>, ps: seq<Policy>, st: CacheState<K, V>,
                                                       k: K, e: CacheEntry<V>, v: V, now: int, loadTime: int,
                                                       sv: Option<K>, wv: Option<K>, error: string)
    requires |ps| == |st.metas| && Covered(st)
    ensures Covered(Put(ps, st, k, e, now, sv, wv, false))
    ensures Covered(Removed(st, k)) && Covered(Cleared(st)) && Covered(Missed(st))
    ensures k in st.store ==> Covered(Hit(ps, st, k, now))
    ensures Covered(Loaded(st, k, v, loadTime)) && Covered(LoadFailed(st, k, error))
  {
    var st0 := Stored(ps, st, k, e, now);
    assert Covered(st0);
    EvictedShrinks(st0, sv, EvictionReason.Size, false);
    EvictedShrinks(Evicted(st0, sv, EvictionReason.Size, false), wv, EvictionReason.Weight, false);
  }

  /** Without `drop`, an evicted key stays known to the strategies although it is no longer stored. */
  lemma EvictedKeyStaysKnown<K, V>(st: CacheState<K, V>, k: K, reason: EvictionReason)
    requires k in st.store && Covered(st)
    ensures var r := Evicted(st, Some(k), reason, false);
      k !in r.store && forall i :: 0 <= i < |r.metas| ==> k in r.metas[i].ranks
  {
  }
}
