/** Order-free sums over the values of a finite map. */
module Sums {

  ghost function SumOf<K>(m: map<K, real>): real {
    if m == map[] then
      0.0
    else
      var k :| k in m;
      m[k] + SumOf(m - {k})
  }

  /** Any key may be taken out first: the sum does not depend on an order. */
  lemma {:induction false} SumRemove<K>(m: map<K, real>, k: K)
    requires k in m
    ensures SumOf(m) == m[k] + SumOf(m - {k})
    decreases |m|
  {
    var first :| first in m && SumOf(m) == m[first] + SumOf(m - {first});
    if first != k {
      SumRemove(m - {first}, k);
      SumRemove(m - {k}, first);
      assert m - {first} - {k} == m - {k} - {first};
    }
  }

  lemma {:induction false} SumInsert<K>(m: map<K, real>, k: K, v: real)
    requires k !in m
    ensures SumOf(m[k := v]) == SumOf(m) + v
  {
    SumRemove(m[k := v], k);
    assert m[k := v] - {k} == m;
  }

  /** A map's sum splits along any set of its keys. */
  lemma {:induction false} SumSplit<K>(m: map<K, real>, keys: set<K>)
    ensures SumOf(m) == SumOf(m - keys) + SumOf(map k | k in m && k in keys :: m[k])
    decreases |m|
  {
    var inside := map k | k in m && k in keys :: m[k];
    if inside == map[] {
      assert forall k :: k in m && k in keys ==> k in inside;
      assert m - keys == m;
    } else {
      var k :| k in inside;
      SumRemove(m, k);
      SumRemove(inside, k);
      SumSplit(m - {k}, keys);
      assert (m - {k}) - keys == m - keys;
      assert inside - {k} == map j | j in m - {k} && j in keys :: (m - {k})[j];
    }
  }

  lemma {:induction false} SumSign<K>(m: map<K, real>)
    ensures (forall k :: k in m ==> m[k] >= 0.0) ==> SumOf(m) >= 0.0
    ensures (forall k :: k in m ==> m[k] > 0.0) && m != map[] ==> SumOf(m) > 0.0
    ensures (forall k :: k in m ==> m[k] == 0.0) ==> SumOf(m) == 0.0
    decreases |m|
  {
    if m != map[] {
      var k :| k in m;
      SumRemove(m, k);
      SumSign(m - {k});
    }
  }

  // ----- counters -----

  ghost function Total<K>(m: map<K, nat>): nat {
    if m == map[] then
      0
    else
      var k :| k in m;
      m[k] + Total(m - {k})
  }

  lemma {:induction false} TotalRemove<K>(m: map<K, nat>, k: K)
    requires k in m
    ensures Total(m) == m[k] + Total(m - {k})
    decreases |m|
  {
    var first :| first in m && Total(m) == m[first] + Total(m - {first});
    if first != k {
      TotalRemove(m - {first}, k);
      TotalRemove(m - {k}, first);
      assert m - {first} - {k} == m - {k} - {first};
    }
  }

  /** Counting one more under `k` raises the total by exactly one. */
  lemma {:induction false} TotalIncrement<K>(m: map<K, nat>, k: K)
    ensures Total(m[k := (if k in m then m[k] else 0) + 1]) == Total(m) + 1
  {
    var next := m[k := (if k in m then m[k] else 0) + 1];
    TotalRemove(next, k);
    assert next - {k} == m - {k};
    if k in m {
      TotalRemove(m, k);
    } else {
      assert m - {k} == m;
    }
  }
}
