/**
 * A cached value with its weight and expiry, which never change, and its
 * access metadata, which every successful read updates in place.
 * Instants are integer nanoseconds since the epoch.
 */
module Entries {
  import opened Common

  class CacheEntry<V> {
    const value: V
    const weight: int
    const expirationTime: Option<int>
    const creationTime: int
    var accessCount: nat
    var lastAccessTime: int

    /** A new entry: never accessed, created and last accessed at `now`. */
    constructor (value: V, weight: int, expirationTime: Option<int>, now: int)
      ensures this.value == value && this.weight == weight && this.expirationTime == expirationTime
      ensures accessCount == 0 && creationTime == now && lastAccessTime == now
    {
      this.value := value;
      this.weight := weight;
      this.expirationTime := expirationTime;
      this.accessCount := 0;
      this.lastAccessTime := now;
      this.creationTime := now;
    }

    /** Expired when an expiration time is set and `now` is strictly after it. */
    predicate IsExpired(now: int)
    {
      expirationTime.Some? && now > expirationTime.value
    }

    /** Records one read at `now`; value, weight and expiry are untouched. */
    method IncrementAccessCount(now: int)
      modifies this
      ensures accessCount == old(accessCount) + 1 && lastAccessTime == now
    {
      accessCount := accessCount + 1;
      lastAccessTime := now;
    }
  }

  /** Without an expiration time an entry never expires. */
  lemma NeverExpiresWithoutExpiry<V>(e: CacheEntry<V>, now: int)
    requires e.expirationTime.None?
    ensures !e.IsExpired(now)
  {
  }

  /** Once expired, an entry stays expired at every later instant. */
  lemma ExpiryIsPermanent<V>(e: CacheEntry<V>, t: int, t': int)
    requires e.IsExpired(t) && t <= t'
    ensures e.IsExpired(t')
  {
  }
}
