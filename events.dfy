/** The notifications a cache sends its listeners, and the reasons it gives for evictions. */
module Events {

  /** Why an entry left the cache (`EvictionReason`). */
  datatype EvictionReason = Size | Weight | Expired | Explicit | Cleared | Unknown

  /**
   * One call on a `CacheEventListener`, one constructor per listener method.
   * A loader failure carries the exception's message.
   */
  datatype Event<K, V> =
    | OnPut(key: K, value: V)
    | OnRemove(key: K, value: V)
    | OnEvict(key: K, value: V, reason: EvictionReason)
    | OnExpire(key: K, value: V)
    | OnLoad(key: K, value: V)
    | OnLoadError(key: K, error: string)
    | OnClear
}
