/** Totals of a weight over a finite set of keys, independent of the order of summation. */
module Sums {
  ghost function Total<K(!new)>(w: map<K, nat>, s: set<K>): (t: nat)
    requires s <= w.Keys
    decreases |s|
  {
    if s == {} then 0 else var k :| k in s; w[k] + Total(w, s - {k})
  }

  lemma {:induction false} TotalPick<K(!new)>(w: map<K, nat>, s: set<K>, k: K)
    requires s <= w.Keys && k in s
    ensures Total(w, s) == w[k] + Total(w, s - {k})
    decreases |s|
  {
    var first :| first in s && Total(w, s) == w[first] + Total(w, s - {first});
    if first != k {
      TotalPick(w, s - {first}, k);
      TotalPick(w, s - {k}, first);
      assert s - {first} - {k} == s - {k} - {first};
    }
  }

  lemma TotalAdd<K(!new)>(w: map<K, nat>, s: set<K>, k: K)
    requires s <= w.Keys && k in w && k !in s
    ensures Total(w, s + {k}) == w[k] + Total(w, s)
  {
    TotalPick(w, s + {k}, k);
    assert s + {k} - {k} == s;
  }

  lemma {:induction false} TotalSame<K(!new)>(w: map<K, nat>, w': map<K, nat>, s: set<K>)
    requires s <= w.Keys && s <= w'.Keys && forall k :: k in s ==> w[k] == w'[k]
    ensures Total(w, s) == Total(w', s)
    decreases |s|
  {
    if s != {} {
      var k :| k in s;
      TotalPick(w, s, k);
      TotalPick(w', s, k);
      TotalSame(w, w', s - {k});
    }
  }

  lemma {:induction false} TotalAtMost<K(!new)>(w: map<K, nat>, w': map<K, nat>, s: set<K>, t: set<K>)
    requires s <= t && s <= w.Keys && t <= w'.Keys && forall k :: k in s ==> w[k] <= w'[k]
    ensures Total(w, s) <= Total(w', t)
    decreases |t|
  {
    if t != {} {
      var k :| k in t;
      TotalPick(w', t, k);
      if k in s {
        TotalPick(w, s, k);
        TotalAtMost(w, w', s - {k}, t - {k});
      } else {
        TotalAtMost(w, w', s, t - {k});
      }
    }
  }

  /** Changing one weight changes the total by the difference. */
  lemma TotalUpdate<K(!new)>(w: map<K, nat>, s: set<K>, k: K, v: nat)
    requires s <= w.Keys && k in s
    ensures Total(w[k := v], s) == Total(w, s) - w[k] + v
  {
    TotalPick(w, s, k);
    TotalPick(w[k := v], s, k);
    TotalSame(w, w[k := v], s - {k});
  }
}
