/**
 * The eviction strategy objects. A `Strategy` is one of the seven policy
 * classes (its policy is fixed at construction); a `CompositeStrategy` tries an
 * ordered list of strategies and broadcasts every change to all of them.
 */
module Strategies {
  import opened Common
  import opened Policies

  // ---------------------------------------------------------------------
  // A list of strategies, as values

  function UpdateEach<K>(ps: seq<Policy>, ms: seq<Metadata<K>>, key: K, weight: int, now: int): (r: seq<Metadata<K>>)
    requires |ps| == |ms|
    ensures |r| == |ms|
  {
    seq(|ms|, i requires 0 <= i < |ms| => AfterUpdate(ps[i], ms[i], key, weight, now))
  }

  function RemoveEach<K>(ms: seq<Metadata<K>>, key: K): (r: seq<Metadata<K>>)
    ensures |r| == |ms|
  {
    seq(|ms|, i requires 0 <= i < |ms| => AfterRemove(ms[i], key))
  }

  function ClearEach<K>(ms: seq<Metadata<K>>): (r: seq<Metadata<K>>)
    ensures |r| == |ms|
  {
    seq(|ms|, i requires 0 <= i < |ms| => AfterClear(ms[i]))
  }

  /** Some strategy of the list nominates a key. */
  predicate ChainNominates<K>(ps: seq<Policy>, ms: seq<Metadata<K>>, keys: set<K>, now: int)
    requires |ps| == |ms|
  {
    exists i :: 0 <= i < |ps| && Nominates(ps[i], ms[i], keys, now)
  }

  /** `c` is a candidate of the first strategy of the list that nominates anything. */
  predicate ChainCandidate<K>(ps: seq<Policy>, ms: seq<Metadata<K>>, keys: set<K>, now: int, c: K)
    requires |ps| == |ms|
  {
    exists i :: 0 <= i < |ps|
      && (forall j :: 0 <= j < i ==> !Nominates(ps[j], ms[j], keys, now))
      && IsCandidate(ps[i], ms[i], keys, now, c)
  }

  /** A list with a strategy that filters no key out, so that it nominates whenever there is a key. */
  predicate AlwaysNominates(ps: seq<Policy>)
  {
    exists i :: 0 <= i < |ps| && !ps[i].TimeBased?
  }

  /** A composite's candidate is always one of the live keys it was given. */
  lemma ChainCandidateIsLive<K>(ps: seq<Policy>, ms: seq<Metadata<K>>, keys: set<K>, now: int, c: K)
    requires |ps| == |ms| && ChainCandidate(ps, ms, keys, now, c)
    ensures c in keys
  {
  }

  /** A composite of one strategy nominates exactly what that strategy nominates. */
  lemma SingletonChain<K>(p: Policy, m: Metadata<K>, keys: set<K>, now: int, c: K)
    ensures ChainNominates([p], [m], keys, now) <==> Nominates(p, m, keys, now)
    ensures ChainCandidate([p], [m], keys, now, c) <==> IsCandidate(p, m, keys, now, c)
  {
    if IsCandidate(p, m, keys, now, c) {
      assert 0 < |[p]| && IsCandidate([p][0], [m][0], keys, now, c);
    }
    if Nominates(p, m, keys, now) {
      assert Nominates([p][0], [m][0], keys, now);
    }
  }

  /** With one member that is not time-based, a composite nominates whenever there is a live key. */
  lemma {:induction false} AlwaysNominatesNonEmpty<K>(ps: seq<Policy>, ms: seq<Metadata<K>>, keys: set<K>, now: int)
    requires |ps| == |ms| && AlwaysNominates(ps) && keys != {}
    ensures ChainNominates(ps, ms, keys, now)
  {
    var i :| 0 <= i < |ps| && !ps[i].TimeBased?;
    NominatesIffNonEmpty(ps[i], ms[i], keys, now);
  }

  /** A time-based strategy chained before LRU: the chain still nominates whenever there is a key. */
  lemma IdleThenLruNominates<K>(d: int, ms: seq<Metadata<K>>, keys: set<K>, now: int)
    requires |ms| == 2 && keys != {}
    ensures ChainNominates([TimeBased(d), LRU], ms, keys, now)
  {
    assert AlwaysNominates([TimeBased(d), LRU]) by { assert ![TimeBased(d), LRU][1].TimeBased?; }
    AlwaysNominatesNonEmpty([TimeBased(d), LRU], ms, keys, now);
  }

  // ---------------------------------------------------------------------
  // One strategy object

  class Strategy<K(==)> {
    const policy: Policy
    /** `accessOrder`, `accessCounts`, `insertionOrder`, `lastAccessTime` or `weights`, by policy. */
    var ranks: map<K, int>
    /** `accessCounter` or `insertionCounter`; 0 for policies without one. */
    var counter: int

    function Md(): Metadata<K>
      reads this
    {
      Metadata(ranks, counter)
    }

    ghost predicate Valid()
      reads this
    {
      WellFormed(policy, Md())
    }

    constructor (policy: Policy)
      ensures this.policy == policy && Md() == Empty() && Valid()
    {
      this.policy := policy;
      ranks := map[];
      counter := 0;
    }

    /** `update(key, entry)`, where `weight` is the entry's weight and `now` the clock. */
    method Update(key: K, weight: int, now: int)
      requires Valid()
      modifies this
      ensures Valid() && Md() == AfterUpdate(policy, old(Md()), key, weight, now)
    {
      UpdatePreservesWellFormed(policy, Md(), key, weight, now);
      ghost var target := AfterUpdate(policy, Md(), key, weight, now);
      match policy {
        case LRU | MRU =>
          ranks, counter := ranks[key := counter + 1], counter + 1;
        case LFU =>
          var count := if key in ranks then ranks[key] else 0;
          ranks := ranks[key := count + 1];
        case FIFO | FILO =>
          if key !in ranks {
            ranks := ranks[key := counter + 1];
          }
          counter := counter + 1;
        case TimeBased(_) =>
          ranks := ranks[key := now];
        case WeightBased(_) =>
          ranks := ranks[key := weight];
      }
      assert Md() == target;
    }

    method Remove(key: K)
      requires Valid()
      modifies this
      ensures Valid() && Md() == AfterRemove(old(Md()), key)
    {
      RemovePreservesWellFormed(policy, Md(), key);
      ranks := ranks - {key};
    }

    method Clear()
      modifies this
      ensures Valid() && Md() == AfterClear(old(Md()))
    {
      ranks := map[];
      counter := 0;
    }

    /**
     * `selectEvictionCandidate(entries)` over the live keys: a stream
     * `min`/`max` by rank, after the idle filter for the time-based policy.
     */
    method SelectEvictionCandidate(keys: set<K>, now: int) returns (c: Option<K>)
      ensures c.None? <==> !Nominates(policy, Md(), keys, now)
      ensures c.Some? ==> IsCandidate(policy, Md(), keys, now, c.value)
    {
      c := None;
      var rest := keys;
      while rest != {}
        invariant rest <= keys
        invariant c.None? ==> forall k :: k in keys - rest ==> !Eligible(policy, Md(), k, now)
        invariant c.Some? ==> IsCandidate(policy, Md(), keys - rest, now, c.value)
        decreases rest
      {
        var k :| k in rest;
        if Eligible(policy, Md(), k, now) {
          var r := Rank(policy, Md(), k);
          if c.None? {
            c := Some(k);
          } else if (SelectsMin(policy) && r < Rank(policy, Md(), c.value))
                 || (!SelectsMin(policy) && r > Rank(policy, Md(), c.value)) {
            c := Some(k);
          }
        }
        rest := rest - {k};
      }
      assert keys - rest == keys;
    }

    /** `getCurrentWeight()`: the sum of the stored weights. */
    method CurrentWeight() returns (w: int)
      ensures w == Sum(ranks)
    {
      w := ComputeSum(ranks);
    }

    /** `isOverWeight()`: the stored weights add up to more than `maxWeight`. */
    method IsOverWeight() returns (b: bool)
      requires policy.WeightBased?
      ensures b <==> Sum(ranks) > policy.maxWeight
    {
      var w := ComputeSum(ranks);
      b := w > policy.maxWeight;
    }
  }

  /** Fresh strategy objects, one per policy, each with no metadata yet. */
  method NewStrategies<K(==)>(ps: seq<Policy>) returns (ss: seq<Strategy<K>>)
    ensures |ss| == |ps|
    ensures forall i :: 0 <= i < |ss| ==> fresh(ss[i]) && ss[i].policy == ps[i] && ss[i].Md() == Empty()
    ensures forall i, j :: 0 <= i < j < |ss| ==> ss[i] != ss[j]
  {
    ss := [];
    while |ss| < |ps|
      invariant |ss| <= |ps|
      invariant forall i :: 0 <= i < |ss| ==> fresh(ss[i]) && ss[i].policy == ps[i] && ss[i].Md() == Empty()
      invariant forall i, j :: 0 <= i < j < |ss| ==> ss[i] != ss[j]
    {
      var s := new Strategy(ps[|ss|]);
      ss := ss + [s];
    }
  }

  // ---------------------------------------------------------------------
  // The composite

  class CompositeStrategy<K(==)> {
    /** The sub-strategies, in order. A sequence is a value: the caller's list is copied. */
    const strategies: seq<Strategy<K>>
    ghost const Repr: set<Strategy<K>>

    ghost predicate Valid()
      reads Repr
    {
      && Repr == (set s | s in strategies)
      && (forall i, j :: 0 <= i < j < |strategies| ==> strategies[i] != strategies[j])
      && forall s :: s in Repr ==> s.Valid()
    }

    function Policies(): (ps: seq<Policy>)
      ensures |ps| == |strategies|
    {
      seq(|strategies|, i requires 0 <= i < |strategies| => strategies[i].policy)
    }

    /** The metadata of every sub-strategy, in order. */
    ghost function Metas(): (ms: seq<Metadata<K>>)
      requires Valid()
      reads Repr
      ensures |ms| == |strategies|
    {
      seq(|strategies|, i requires 0 <= i < |strategies| reads Repr => strategies[i].Md())
    }

    constructor (strategies: seq<Strategy<K>>)
      requires forall i, j :: 0 <= i < j < |strategies| ==> strategies[i] != strategies[j]
      requires forall i :: 0 <= i < |strategies| ==> strategies[i].Valid()
      ensures this.strategies == strategies && Valid()
    {
      this.strategies := strategies;
      Repr := set s | s in strategies;
    }

    /** Forwards `update` to every sub-strategy, in order. */
    method Update(key: K, weight: int, now: int)
      requires Valid()
      modifies Repr
      ensures Valid() && Metas() == UpdateEach(Policies(), old(Metas()), key, weight, now)
    {
      ghost var ms := Metas();
      ghost var target := UpdateEach(Policies(), ms, key, weight, now);
      var i := 0;
      while i < |strategies|
        invariant 0 <= i <= |strategies| && Valid()
        invariant forall j :: 0 <= j < i ==> strategies[j].Md() == target[j]
        invariant forall j :: i <= j < |strategies| ==> strategies[j].Md() == ms[j]
      {
        assert target[i] == AfterUpdate(strategies[i].policy, ms[i], key, weight, now);
        strategies[i].Update(key, weight, now);
        i := i + 1;
      }
    }

    /** Forwards `remove` to every sub-strategy, in order. */
    method Remove(key: K)
      requires Valid()
      modifies Repr
      ensures Valid() && Metas() == RemoveEach(old(Metas()), key)
    {
      ghost var ms := Metas();
      ghost var target := RemoveEach(ms, key);
      var i := 0;
      while i < |strategies|
        invariant 0 <= i <= |strategies| && Valid()
        invariant forall j :: 0 <= j < i ==> strategies[j].Md() == target[j]
        invariant forall j :: i <= j < |strategies| ==> strategies[j].Md() == ms[j]
      {
        assert target[i] == AfterRemove(ms[i], key);
        strategies[i].Remove(key);
        i := i + 1;
      }
    }

    /** Forwards `clear` to every sub-strategy, in order. */
    method Clear()
      requires Valid()
      modifies Repr
      ensures Valid() && Metas() == ClearEach(old(Metas()))
    {
      ghost var ms := Metas();
      ghost var target := ClearEach(ms);
      var i := 0;
      while i < |strategies|
        invariant 0 <= i <= |strategies| && Valid()
        invariant forall j :: 0 <= j < i ==> strategies[j].Md() == target[j]
        invariant forall j :: i <= j < |strategies| ==> strategies[j].Md() == ms[j]
      {
        assert target[i] == AfterClear(ms[i]);
        strategies[i].Clear();
        i := i + 1;
      }
    }

    /** The first sub-strategy, in list order, that returns a key decides. */
    method SelectEvictionCandidate(keys: set<K>, now: int) returns (c: Option<K>)
      requires Valid()
      ensures c.None? <==> !ChainNominates(Policies(), Metas(), keys, now)
      ensures c.Some? ==> ChainCandidate(Policies(), Metas(), keys, now, c.value)
    {
      var i := 0;
      while i < |strategies|
        invariant 0 <= i <= |strategies|
        invariant forall j :: 0 <= j < i ==> !Nominates(Policies()[j], Metas()[j], keys, now)
      {
        c := strategies[i].SelectEvictionCandidate(keys, now);
        if c.Some? {
          assert IsCandidate(Policies()[i], Metas()[i], keys, now, c.value);
          return;
        }
        i := i + 1;
      }
      c := None;
    }
  }
}
