/** Shared vocabulary: optional values, Java's `long` range, and sums over maps. */
module Common {

  /** A Java reference that may be null. */
  datatype Option<+T> = None | Some(value: T)

  /** The outcome of an operation that may throw. */
  datatype Result<+T, +E> = Ok(value: T) | Err(error: E)

  /** `Long.MIN_VALUE` and `Long.MAX_VALUE`, used by strategies as ranks of keys they do not know. */
  const LongMin: int := -0x8000_0000_0000_0000
  const LongMax: int := 0x7fff_ffff_ffff_ffff

  /** The sum of the values of a map (the order of a stream sum does not matter over `int`). */
  ghost function Sum<K>(m: map<K, int>): int
    decreases |m|
  {
    if m == map[] then 0
    else
      var k :| k in m;
      m[k] + Sum(m - {k})
  }

  /** Any key can be taken out of the sum first. */
  lemma {:induction false} SumRemove<K>(m: map<K, int>, k: K)
    requires k in m
    ensures Sum(m) == m[k] + Sum(m - {k})
    decreases |m|
  {
    var j :| j in m && Sum(m) == m[j] + Sum(m - {j});
    if j != k {
      assert m - {j} - {k} == m - {k} - {j};
      SumRemove(m - {j}, k);
      SumRemove(m - {k}, j);
    }
  }

  /** Overwriting one value changes the sum by the difference. */
  lemma SumUpdate<K>(m: map<K, int>, k: K, x: int)
    ensures Sum(m[k := x]) == Sum(m) - (if k in m then m[k] else 0) + x
  {
    SumRemove(m[k := x], k);
    assert m[k := x] - {k} == m - {k};
    if k in m {
      SumRemove(m, k);
    } else {
      assert m - {k} == m;
    }
  }

  /** Adds up the values of `m` one key at a time, as `mapToLong(...).sum()` does. */
  method ComputeSum<K>(m: map<K, int>) returns (s: int)
    ensures s == Sum(m)
  {
    s := 0;
    var rest := m;
    while rest != map[]
      invariant s + Sum(rest) == Sum(m)
      decreases |rest|
    {
      var k :| k in rest;
      SumRemove(rest, k);
      s := s + rest[k];
      rest := rest - {k};
    }
  }
}
