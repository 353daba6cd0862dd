/**
 * Counters as Python's `defaultdict(int)` behaves: a missing key reads as 0,
 * and `m[k] += 1` creates the key. Also the sum of a map's values.
 */
module Tally {

  /** `m[k]` on a `defaultdict(int)`, without inserting the key. */
  function Get<K>(m: map<K, nat>, k: K): nat {
    if k in m then m[k] else 0
  }

  /** `m[k]` on a `defaultdict` whose factory yields `default`, without inserting the key. */
  function Lookup<K, V>(m: map<K, V>, k: K, default: V): V {
    if k in m then m[k] else default
  }

  /** `m[k] += 1` on a `defaultdict(int)`. */
  function Inc<K(!new)>(m: map<K, nat>, k: K): (r: map<K, nat>)
    ensures r.Keys == m.Keys + {k}
    ensures Get(r, k) == Get(m, k) + 1
    ensures forall j :: j != k ==> Get(r, j) == Get(m, j)
  {
    m[k := Get(m, k) + 1]
  }

  /** The number of times `x` occurs in `s`. */
  function Occurrences<T(==)>(s: seq<T>, x: T): (n: nat)
    ensures n <= |s|
    ensures n > 0 <==> x in s
  {
    if |s| == 0 then 0 else (if s[0] == x then 1 else 0) + Occurrences(s[1..], x)
  }

  lemma {:induction false} OccurrencesAppend<T>(s: seq<T>, x: T, y: T)
    ensures Occurrences(s + [y], x) == Occurrences(s, x) + (if x == y then 1 else 0)
  {
    if |s| > 0 {
      OccurrencesAppend(s[1..], x, y);
      assert (s + [y])[1..] == s[1..] + [y];
    }
  }

  /** The sum of `f(v)` over the values of `m`. */
  ghost function MapSum<K, V>(m: map<K, V>, f: V -> nat): nat
    decreases |m|
  {
    if m == map[] then 0
    else
      var k :| k in m;
      assert |m - {k}| < |m| by { assert (m - {k}).Keys == m.Keys - {k}; }
      f(m[k]) + MapSum(m - {k}, f)
  }

  /** The sum does not depend on which key is taken out first. */
  lemma {:induction false} MapSumRemove<K, V>(m: map<K, V>, f: V -> nat, k: K)
    requires k in m
    ensures MapSum(m, f) == f(m[k]) + MapSum(m - {k}, f)
    decreases |m|
  {
    var j :| j in m && MapSum(m, f) == f(m[j]) + MapSum(m - {j}, f);
    if j != k {
      assert (m - {j}).Keys == m.Keys - {j};
      assert (m - {k}).Keys == m.Keys - {k};
      MapSumRemove(m - {j}, f, k);
      MapSumRemove(m - {k}, f, j);
      assert m - {j} - {k} == m - {k} - {j};
    }
  }

  /** Replacing (or adding) the value at one key changes the sum by the difference. */
  lemma MapSumUpdate<K, V>(m: map<K, V>, f: V -> nat, k: K, v: V)
    ensures MapSum(m[k := v], f) == MapSum(m - {k}, f) + f(v)
    ensures k in m ==> MapSum(m, f) == MapSum(m - {k}, f) + f(m[k])
  {
    MapSumRemove(m[k := v], f, k);
    assert m[k := v] - {k} == m - {k};
    if k in m {
      MapSumRemove(m, f, k);
    }
  }

  /** A map whose every value weighs nothing sums to zero. */
  lemma {:induction false} MapSumZero<K, V>(m: map<K, V>, f: V -> nat)
    requires forall k :: k in m ==> f(m[k]) == 0
    ensures MapSum(m, f) == 0
    decreases |m|
  {
    if m != map[] {
      var k :| k in m;
      MapSumRemove(m, f, k);
      assert (m - {k}).Keys == m.Keys - {k};
      MapSumZero(m - {k}, f);
    }
  }

  /** A counter's own value, the weight `MapSum` adds up for a counter map. */
  function Count(n: nat): nat { n }

  /** `Inc` adds exactly one to the sum of a counter map. */
  lemma IncSum<K(!new)>(m: map<K, nat>, k: K)
    ensures MapSum(Inc(m, k), Count) == MapSum(m, Count) + 1
  {
    MapSumUpdate<K, nat>(m, Count, k, Get(m, k) + 1);
    if k !in m {
      assert m - {k} == m;
    }
  }
}
