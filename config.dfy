/**
 * Cache configuration: an immutable record built by a mutable builder that
 * validates its bounds when `build` is called. Durations are integer
 * nanoseconds; the strategy is described by the policies it chains.
 */
module Config {
  import opened Common
  import opened Policies

  /** `java.util.concurrent.TimeUnit`. */
  datatype TimeUnit = Nanoseconds | Microseconds | Milliseconds | Seconds | Minutes | Hours | Days

  function NanosPer(u: TimeUnit): nat
  {
    match u
    case Nanoseconds => 1
    case Microseconds => 1_000
    case Milliseconds => 1_000_000
    case Seconds => 1_000_000_000
    case Minutes => 60_000_000_000
    case Hours => 3_600_000_000_000
    case Days => 86_400_000_000_000
  }

  /**
   * `unit.toNanos(d)`: the exact product when it fits in a `long`, otherwise
   * saturated to `Long.MAX_VALUE` or `Long.MIN_VALUE`.
   */
  function ToNanos(d: int, u: TimeUnit): (r: int)
    requires LongMin <= d <= LongMax
    ensures LongMin <= r <= LongMax
    ensures LongMin <= d * NanosPer(u) <= LongMax ==> r == d * NanosPer(u)
    ensures d * NanosPer(u) > LongMax ==> r == LongMax
    ensures d * NanosPer(u) < LongMin ==> r == LongMin
  {
    var s := NanosPer(u);
    var m := LongMax / s;
    if s == 1 then d
    else if d > m then LongMax
    else if d < -m then LongMin
    else d * s
  }

  /** What a loader call gives back: a value, `null`, or a thrown exception with its message. */
  datatype LoadResult<V> = Value(v: V) | NoValue | Failure(error: string)

  /** The configured strategy: one policy, or a composite of several in order. */
  datatype StrategyChoice = Single(policy: Policy) | Composite(policies: seq<Policy>)

  /** A registered listener, by identity. */
  type ListenerId = nat

  datatype CacheConfig<!K, !V> = CacheConfig(
    maximumSize: Option<int>,
    maximumWeight: Option<int>,
    weigher: Option<V -> int>,
    expireAfterWrite: Option<int>,
    expireAfterAccess: Option<int>,
    evictionStrategy: Option<StrategyChoice>,
    weakKeys: bool,
    weakValues: bool,
    softValues: bool,
    loader: Option<K -> LoadResult<V>>,
    asyncLoader: Option<K -> LoadResult<V>>,
    refreshAfterWrite: Option<int>,
    recordStats: bool,
    initialCapacity: int,
    concurrencyLevel: int,
    directory: Option<string>,
    listeners: set<ListenerId>)

  /** The builder's initial field values. */
  function Defaults<K, V>(): (c: CacheConfig<K, V>)
    ensures c.recordStats && c.initialCapacity == 16 && c.concurrencyLevel == 16
    ensures c.maximumSize.None? && c.maximumWeight.None? && c.weigher.None?
    ensures c.expireAfterWrite.None? && c.expireAfterAccess.None? && c.refreshAfterWrite.None?
    ensures c.evictionStrategy.None? && c.loader.None? && c.asyncLoader.None? && c.listeners == {}
  {
    CacheConfig(None, None, None, None, None, None, false, false, false,
                None, None, None, true, 16, 16, None, {})
  }

  /**
   * `build()`: rejects a maximum size or weight below 1 and a negative
   * write expiry, in that order; nothing else is checked.
   */
  function Validate<K, V>(c: CacheConfig<K, V>): (r: Result<CacheConfig<K, V>, string>)
    ensures r.Ok? <==>
      && (c.maximumSize.None? || c.maximumSize.value >= 1)
      && (c.maximumWeight.None? || c.maximumWeight.value >= 1)
      && (c.expireAfterWrite.None? || c.expireAfterWrite.value >= 0)
    ensures r.Ok? ==> r.value == c
    ensures c.maximumSize.Some? && c.maximumSize.value < 1 ==> r == Err("Maximum size must be greater than 0")
    ensures (c.maximumSize.None? || c.maximumSize.value >= 1) && c.maximumWeight.Some? && c.maximumWeight.value < 1 ==>
      r == Err("Maximum weight must be greater than 0")
    ensures ((c.maximumSize.None? || c.maximumSize.value >= 1) && (c.maximumWeight.None? || c.maximumWeight.value >= 1) &&
             c.expireAfterWrite.Some? && c.expireAfterWrite.value < 0) ==>
      r == Err("Expire after write duration must be non-negative")
  {
    if c.maximumSize.Some? && c.maximumSize.value < 1 then
      Err("Maximum size must be greater than 0")
    else if c.maximumWeight.Some? && c.maximumWeight.value < 1 then
      Err("Maximum weight must be greater than 0")
    else if c.expireAfterWrite.Some? && c.expireAfterWrite.value < 0 then
      Err("Expire after write duration must be non-negative")
    else
      Ok(c)
  }

  /** The default configuration is accepted. */
  lemma DefaultsAreValid<K, V>()
    ensures Validate(Defaults<K, V>()).Ok?
  {
  }

  /** Access and refresh durations are never checked: any value, even negative, is accepted. */
  lemma AccessAndRefreshUnchecked<K, V>(c: CacheConfig<K, V>, access: Option<int>, refresh: Option<int>)
    requires Validate(c).Ok?
    ensures Validate(c.(expireAfterAccess := access, refreshAfterWrite := refresh)).Ok?
  {
  }

  /** The policies the cache chains: LRU alone when no strategy is configured. */
  function PoliciesOf(choice: Option<StrategyChoice>): (ps: seq<Policy>)
    ensures choice.None? ==> ps == [LRU]
    ensures choice.Some? && choice.value.Single? ==> ps == [choice.value.policy]
    ensures choice.Some? && choice.value.Composite? ==> ps == choice.value.policies
  {
    match choice
    case None => [LRU]
    case Some(Single(p)) => [p]
    case Some(Composite(ps)) => ps
  }

  /** `createEntry`'s expiry: write expiry first, then access expiry, otherwise none. */
  function ExpiryFor<K, V>(c: CacheConfig<K, V>, now: int): (r: Option<int>)
    ensures r.None? <==> c.expireAfterWrite.None? && c.expireAfterAccess.None?
  {
    if c.expireAfterWrite.Some? then Some(now + c.expireAfterWrite.value)
    else if c.expireAfterAccess.Some? then Some(now + c.expireAfterAccess.value)
    else None
  }

  /** An expiry set at `now` by a write duration `d` has passed exactly when more than `d` has elapsed. */
  lemma WriteExpiryElapses<K, V>(c: CacheConfig<K, V>, now: int, t: int)
    requires c.expireAfterWrite.Some?
    ensures var r := ExpiryFor(c, now);
      r.Some? && (t > r.value <==> t - now > c.expireAfterWrite.value)
  {
  }

  /** The access duration only applies when no write duration is configured. */
  lemma AccessExpiryIsFallback<K, V>(c: CacheConfig<K, V>, now: int)
    requires c.expireAfterWrite.None? && c.expireAfterAccess.Some?
    ensures ExpiryFor(c, now) == Some(now + c.expireAfterAccess.value)
  {
  }

  /** `createEntry`'s weight: the weigher's result for the value, or 1 without a weigher. */
  function WeightFor<K, V>(c: CacheConfig<K, V>, value: V): (w: int)
    ensures c.weigher.None? ==> w == 1
    ensures c.weigher.Some? ==> w == c.weigher.value(value)
  {
    if c.weigher.Some? then c.weigher.value(value) else 1
  }

  /** `CacheConfig.Builder`. */
  class Builder<K, V> {
    var maximumSize: Option<int>
    var maximumWeight: Option<int>
    var weigher: Option<V -> int>
    var expireAfterWrite: Option<int>
    var expireAfterAccess: Option<int>
    var evictionStrategy: Option<StrategyChoice>
    var weakKeys: bool
    var weakValues: bool
    var softValues: bool
    var loader: Option<K -> LoadResult<V>>
    var asyncLoader: Option<K -> LoadResult<V>>
    var refreshAfterWrite: Option<int>
    var recordStats: bool
    var initialCapacity: int
    var concurrencyLevel: int
    var directory: Option<string>
    var listeners: set<ListenerId>

    /** The configuration the builder currently describes. */
    function Draft(): CacheConfig<K, V>
      reads this
    {
      CacheConfig(maximumSize, maximumWeight, weigher, expireAfterWrite, expireAfterAccess,
                  evictionStrategy, weakKeys, weakValues, softValues, loader, asyncLoader,
                  refreshAfterWrite, recordStats, initialCapacity, concurrencyLevel, directory, listeners)
    }

    constructor ()
      ensures Draft() == Defaults()
    {
      maximumSize, maximumWeight, weigher := None, None, None;
      expireAfterWrite, expireAfterAccess, evictionStrategy := None, None, None;
      weakKeys, weakValues, softValues := false, false, false;
      loader, asyncLoader, refreshAfterWrite := None, None, None;
      recordStats, initialCapacity, concurrencyLevel := true, 16, 16;
      directory, listeners := None, {};
    }

    method SetMaximumSize(n: Option<int>)
      modifies this
      ensures Draft() == old(Draft()).(maximumSize := n)
    {
      maximumSize := n;
    }

    method SetMaximumWeight(n: Option<int>)
      modifies this
      ensures Draft() == old(Draft()).(maximumWeight := n)
    {
      maximumWeight := n;
    }

    method SetWeigher(f: Option<V -> int>)
      modifies this
      ensures Draft() == old(Draft()).(weigher := f)
    {
      weigher := f;
    }

    /** `expireAfterWrite(Duration)`, the duration in nanoseconds. */
    method SetExpireAfterWrite(d: Option<int>)
      modifies this
      ensures Draft() == old(Draft()).(expireAfterWrite := d)
    {
      expireAfterWrite := d;
    }

    /** `expireAfterWrite(long, TimeUnit)`: stores the duration converted to nanoseconds. */
    method ExpireAfterWriteIn(d: int, unit: TimeUnit)
      requires LongMin <= d <= LongMax
      modifies this
      ensures Draft() == old(Draft()).(expireAfterWrite := Some(ToNanos(d, unit)))
    {
      expireAfterWrite := Some(ToNanos(d, unit));
    }

    /** `expireAfterAccess(Duration)`, the duration in nanoseconds. */
    method SetExpireAfterAccess(d: Option<int>)
      modifies this
      ensures Draft() == old(Draft()).(expireAfterAccess := d)
    {
      expireAfterAccess := d;
    }

    /** `expireAfterAccess(long, TimeUnit)`: stores the duration converted to nanoseconds. */
    method ExpireAfterAccessIn(d: int, unit: TimeUnit)
      requires LongMin <= d <= LongMax
      modifies this
      ensures Draft() == old(Draft()).(expireAfterAccess := Some(ToNanos(d, unit)))
    {
      expireAfterAccess := Some(ToNanos(d, unit));
    }

    method SetEvictionStrategy(s: Option<StrategyChoice>)
      modifies this
      ensures Draft() == old(Draft()).(evictionStrategy := s)
    {
      evictionStrategy := s;
    }

    method SetWeakKeys(b: bool)
      modifies this
      ensures Draft() == old(Draft()).(weakKeys := b)
    {
      weakKeys := b;
    }

    method SetWeakValues(b: bool)
      modifies this
      ensures Draft() == old(Draft()).(weakValues := b)
    {
      weakValues := b;
    }

    method SetSoftValues(b: bool)
      modifies this
      ensures Draft() == old(Draft()).(softValues := b)
    {
      softValues := b;
    }

    method SetLoader(f: Option<K -> LoadResult<V>>)
      modifies this
      ensures Draft() == old(Draft()).(loader := f)
    {
      loader := f;
    }

    method SetAsyncLoader(f: Option<K -> LoadResult<V>>)
      modifies this
      ensures Draft() == old(Draft()).(asyncLoader := f)
    {
      asyncLoader := f;
    }

    method SetRefreshAfterWrite(d: Option<int>)
      modifies this
      ensures Draft() == old(Draft()).(refreshAfterWrite := d)
    {
      refreshAfterWrite := d;
    }

    method SetRecordStats(b: bool)
      modifies this
      ensures Draft() == old(Draft()).(recordStats := b)
    {
      recordStats := b;
    }

    method SetInitialCapacity(n: int)
      modifies this
      ensures Draft() == old(Draft()).(initialCapacity := n)
    {
      initialCapacity := n;
    }

    method SetConcurrencyLevel(n: int)
      modifies this
      ensures Draft() == old(Draft()).(concurrencyLevel := n)
    {
      concurrencyLevel := n;
    }

    method SetDirectory(d: Option<string>)
      modifies this
      ensures Draft() == old(Draft()).(directory := d)
    {
      directory := d;
    }

    /** `addListener`: a set insertion, so adding a listener already present changes nothing. */
    method AddListener(l: ListenerId)
      modifies this
      ensures Draft() == old(Draft()).(listeners := old(listeners) + {l})
      ensures l in old(listeners) ==> Draft() == old(Draft())
    {
      listeners := listeners + {l};
    }

    /** `build()`: the validated copy of the builder's fields. */
    method Build() returns (r: Result<CacheConfig<K, V>, string>)
      ensures r == Validate(Draft())
    {
      r := Validate(Draft());
    }
  }
}
