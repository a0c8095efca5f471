/**
 * Cache statistics: six counters that operations increment in place, and the
 * rates derived from them (over `real`, without floating-point rounding).
 */
module Stats {

  /** The values of the six counters at one moment. */
  datatype Counters = Counters(
    hits: nat, misses: nat, evictions: nat, loads: nat, loadFailures: nat, totalLoadTime: int)

  const Zero := Counters(0, 0, 0, 0, 0, 0)

  /** hits / (hits + misses), or 0 when there has been no access. */
  function HitRate(c: Counters): (r: real)
    ensures 0.0 <= r <= 1.0
    ensures c.hits + c.misses == 0 ==> r == 0.0
    ensures c.hits + c.misses > 0 ==> r * (c.hits + c.misses) as real == c.hits as real
  {
    var total := c.hits + c.misses;
    if total == 0 then 0.0 else c.hits as real / total as real
  }

  /** misses / (hits + misses), or 0 when there has been no access. */
  function MissRate(c: Counters): (r: real)
    ensures 0.0 <= r <= 1.0
    ensures c.hits + c.misses == 0 ==> r == 0.0
    ensures c.hits + c.misses > 0 ==> r * (c.hits + c.misses) as real == c.misses as real
  {
    var total := c.hits + c.misses;
    if total == 0 then 0.0 else c.misses as real / total as real
  }

  /** totalLoadTime / loads, or 0 when nothing was loaded. */
  function AverageLoadTime(c: Counters): (r: real)
    ensures c.loads == 0 ==> r == 0.0
    ensures c.loads > 0 ==> r * c.loads as real == c.totalLoadTime as real
  {
    if c.loads == 0 then 0.0 else c.totalLoadTime as real / c.loads as real
  }

  /** After any access the hit rate and the miss rate add up to one. */
  lemma RatesSumToOne(c: Counters)
    requires c.hits + c.misses > 0
    ensures HitRate(c) + MissRate(c) == 1.0
  {
    var t := (c.hits + c.misses) as real;
    assert (HitRate(c) + MissRate(c)) * t == t;
  }

  class CacheStats {
    var hitCount: nat
    var missCount: nat
    var evictionCount: nat
    var loadCount: nat
    var loadFailureCount: nat
    var totalLoadTime: int

    /** The current counter values. */
    function Values(): Counters
      reads this
    {
      Counters(hitCount, missCount, evictionCount, loadCount, loadFailureCount, totalLoadTime)
    }

    /** A new instance has every counter at zero. */
    constructor ()
      ensures Values() == Zero
    {
      hitCount, missCount, evictionCount := 0, 0, 0;
      loadCount, loadFailureCount, totalLoadTime := 0, 0, 0;
    }

    /** An instance holding the given counter values (the six-argument constructor). */
    constructor Of(c: Counters)
      ensures Values() == c
    {
      hitCount, missCount, evictionCount := c.hits, c.misses, c.evictions;
      loadCount, loadFailureCount, totalLoadTime := c.loads, c.loadFailures, c.totalLoadTime;
    }

    /** `CacheStats.empty()`: a fresh all-zero instance. */
    static method Empty() returns (s: CacheStats)
      ensures fresh(s) && s.Values() == Zero
    {
      s := new CacheStats();
    }

    method RecordHit()
      modifies this
      ensures Values() == old(Values()).(hits := old(hitCount) + 1)
    {
      hitCount := hitCount + 1;
    }

    method RecordMiss()
      modifies this
      ensures Values() == old(Values()).(misses := old(missCount) + 1)
    {
      missCount := missCount + 1;
    }

    method RecordEviction()
      modifies this
      ensures Values() == old(Values()).(evictions := old(evictionCount) + 1)
    {
      evictionCount := evictionCount + 1;
    }

    method RecordLoad(loadTime: int)
      modifies this
      ensures Values() == old(Values()).(loads := old(loadCount) + 1,
                                             totalLoadTime := old(totalLoadTime) + loadTime)
    {
      loadCount := loadCount + 1;
      totalLoadTime := totalLoadTime + loadTime;
    }

    method RecordLoadFailure()
      modifies this
      ensures Values() == old(Values()).(loadFailures := old(loadFailureCount) + 1)
    {
      loadFailureCount := loadFailureCount + 1;
    }

    /** A new, independent instance holding the current counter values. */
    method Snapshot() returns (s: CacheStats)
      ensures fresh(s) && s.Values() == Values()
    {
      s := new CacheStats.Of(Values());
    }

    /**
     * A new all-zero instance. The receiver keeps its counters: this is what
     * the code does, although a test of the other copy expects it zeroed.
     */
    method Reset() returns (s: CacheStats)
      ensures fresh(s) && s.Values() == Zero
      ensures Values() == old(Values())
    {
      s := new CacheStats();
    }

    /** `equals`: null is never equal, the same object always is, otherwise the six counters decide. */
    predicate Equals(that: CacheStats?)
      reads this, that
      ensures Equals(that) <==> that != null && Values() == that.Values()
    {
      if this == that then true
      else if that == null then false
      else
        && hitCount == that.hitCount && missCount == that.missCount
        && evictionCount == that.evictionCount && loadCount == that.loadCount
        && loadFailureCount == that.loadFailureCount && totalLoadTime == that.totalLoadTime
    }
  }

  /** A snapshot is not touched by later updates of the original. */
  method SnapshotIsIndependent(stats: CacheStats) returns (snap: CacheStats)
    modifies stats
    ensures snap.Values() == old(stats.Values()) && snap != stats
    ensures stats.Values() == old(stats.Values()).(hits := old(stats.hitCount) + 1,
                                                       misses := old(stats.missCount) + 1)
  {
    snap := stats.Snapshot();
    stats.RecordHit();
    stats.RecordMiss();
  }
}
