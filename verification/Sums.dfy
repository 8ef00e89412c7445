/** Sums over the values of a finite map. */
module Sums {
  ghost function Total<K>(m: map<K, nat>): nat
    decreases |m|
  {
    if m == map[] then 0 else
      var k :| k in m;
      assert |m - {k}| < |m| by { ShrinksBy(m, k); }
      m[k] + Total(m - {k})
  }

  lemma ShrinksBy<K>(m: map<K, nat>, k: K)
    requires k in m
    ensures |m - {k}| == |m| - 1
  {
    assert (m - {k}).Keys == m.Keys - {k};
  }

  lemma {:induction false} TotalWithout<K>(m: map<K, nat>, k: K)
    requires k in m
    ensures Total(m) == m[k] + Total(m - {k})
    decreases |m|
  {
    var c :| c in m && Total(m) == m[c] + Total(m - {c});
    if c != k {
      ShrinksBy(m, c);
      ShrinksBy(m, k);
      TotalWithout(m - {c}, k);
      TotalWithout(m - {k}, c);
      assert m - {c} - {k} == m - {k} - {c};
    }
  }

  lemma TotalUpdated<K>(m: map<K, nat>, k: K, v: nat)
    requires k in m
    ensures Total(m[k := v]) == Total(m) - m[k] + v
  {
    TotalWithout(m, k);
    TotalWithout(m[k := v], k);
    assert m[k := v] - {k} == m - {k};
  }

  function Raised<K>(m: map<K, nat>, ks: set<K>): map<K, nat> {
    map k | k in m :: if k in ks then m[k] + 1 else m[k]
  }

  lemma {:induction false} TotalRaised<K>(m: map<K, nat>, ks: set<K>)
    requires ks <= m.Keys
    ensures Total(Raised(m, ks)) == Total(m) + |ks|
    decreases |ks|
  {
    if ks == {} {
      assert Raised(m, ks) == m;
    } else {
      var k :| k in ks;
      TotalRaised(m, ks - {k});
      var r := Raised(m, ks - {k});
      TotalUpdated(r, k, m[k] + 1);
      assert Raised(m, ks) == r[k := m[k] + 1];
    }
  }

  lemma TotalGrown<K>(m: map<K, nat>, grown: map<K, nat>, ks: set<K>)
    requires ks <= m.Keys == grown.Keys
    requires forall k :: k in m ==> grown[k] == m[k] + if k in ks then 1 else 0
    ensures Total(grown) == Total(m) + |ks|
  {
    TotalRaised(m, ks);
    assert grown == Raised(m, ks);
  }

  lemma OneMoreTimes(x: nat, n: nat)
    ensures x * (n + 1) == x * n + x
  {
  }

  lemma {:induction false} TotalAtMost<K>(m: map<K, nat>, bound: nat)
    requires forall k :: k in m ==> m[k] <= bound
    ensures Total(m) <= bound * |m|
    decreases |m|
  {
    if m != map[] {
      var k :| k in m;
      ShrinksBy(m, k);
      TotalWithout(m, k);
      TotalAtMost(m - {k}, bound);
      OneMoreTimes(bound, |m - {k}|);
    }
  }

  lemma {:induction false} TotalZero<K>(m: map<K, nat>)
    ensures Total(m) == 0 <==> forall k :: k in m ==> m[k] == 0
    decreases |m|
  {
    if m != map[] {
      var k :| k in m;
      ShrinksBy(m, k);
      TotalWithout(m, k);
      TotalZero(m - {k});
      assert forall x :: x in m <==> x == k || x in m - {k};
    }
  }
}
