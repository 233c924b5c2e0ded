/** Sums over finite maps, and counting a set element by element. */
module Sums {
  ghost function Total<K(!new)>(m: map<K, nat>): nat {
    if m == map[] then 0 else
    var k :| k in m;
    m[k] + Total(m - {k})
  }

  lemma {:induction false} TotalWithout<K(!new)>(m: map<K, nat>, k: K)
    requires k in m
    ensures Total(m) == m[k] + Total(m - {k})
    decreases |m|
  {
    var j :| j in m && Total(m) == m[j] + Total(m - {j});
    if j != k {
      TotalWithout(m - {j}, k);
      TotalWithout(m - {k}, j);
      assert m - {j} - {k} == m - {k} - {j};
    }
  }

  lemma {:induction false} TotalOrdered<K(!new)>(a: map<K, nat>, b: map<K, nat>)
    requires a.Keys == b.Keys && forall k :: k in a ==> a[k] <= b[k]
    ensures Total(a) <= Total(b)
    decreases |a|
  {
    if k :| k in a {
      TotalWithout(a, k);
      TotalWithout(b, k);
      TotalOrdered(a - {k}, b - {k});
    } else {
      assert a == map[] && b == map[];
    }
  }

  /** Pointwise no larger, and smaller by one at `k`. */
  lemma TotalDrops<K(!new)>(a: map<K, nat>, b: map<K, nat>, k: K)
    requires a.Keys == b.Keys && k in a && a[k] + 1 <= b[k]
    requires forall j :: j in a ==> a[j] <= b[j]
    ensures Total(a) + 1 <= Total(b)
  {
    TotalWithout(a, k);
    TotalWithout(b, k);
    TotalOrdered(a - {k}, b - {k});
  }

  lemma CountOneMore<T>(all: set<T>, seen: set<T>, x: T)
    requires x !in seen
    ensures |all * (seen + {x})| == |all * seen| + if x in all then 1 else 0
  {
    assert all * (seen + {x}) == all * seen + if x in all then {x} else {};
  }
}
