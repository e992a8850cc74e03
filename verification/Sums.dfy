/** Sums over finite maps, for totals over every ledger. */
module Sums {
  import opened Base

  ghost function Sum(f: map<Key, nat>): nat
    decreases |f|
  {
    if |f| == 0 then 0
    else
      var k := Pick(f);
      f[k] + Sum(f - {k})
  }

  ghost function Pick(f: map<Key, nat>): (k: Key)
    requires |f| != 0
    ensures k in f
  {
    assert |f.Keys| != 0;
    var k :| k in f;
    k
  }

  /** Any key may be taken out first. */
  lemma {:induction false} SumRemove(f: map<Key, nat>, k: Key)
    requires k in f
    ensures Sum(f) == f[k] + Sum(f - {k})
    decreases |f|
  {
    assert |f| != 0;
    var p := Pick(f);
    if p != k {
      SumRemove(f - {p}, k);
      SumRemove(f - {k}, p);
      assert f - {p} - {k} == f - {k} - {p};
    }
  }

  lemma SumUpdate(f: map<Key, nat>, k: Key, v: nat)
    ensures Sum(f[k := v]) == Sum(f) - (if k in f then f[k] else 0) + v
  {
    SumRemove(f[k := v], k);
    if k in f {
      SumRemove(f, k);
      assert f[k := v] - {k} == f - {k};
    } else {
      assert f[k := v] - {k} == f;
    }
  }

  lemma SumOfTwo(f: map<Key, nat>, k: Key, l: Key)
    requires k != l && f.Keys == {k, l}
    ensures Sum(f) == f[k] + f[l]
  {
    SumRemove(f, k);
    SumRemove(f - {k}, l);
    assert f - {k} - {l} == map[];
  }

  lemma {:induction false} SumOfZeros(f: map<Key, nat>)
    requires forall k :: k in f ==> f[k] == 0
    ensures Sum(f) == 0
    decreases |f|
  {
    if |f| != 0 {
      SumOfZeros(f - {Pick(f)});
    }
  }

  /** Adding maps over the same keys adds their sums. */
  lemma {:induction false} SumOfSums(f: map<Key, nat>, g: map<Key, nat>, h: map<Key, nat>)
    requires f.Keys == g.Keys == h.Keys
    requires forall k :: k in f ==> h[k] == f[k] + g[k]
    ensures Sum(h) == Sum(f) + Sum(g)
    decreases |f|
  {
    if |f| != 0 {
      var k := Pick(f);
      SumRemove(g, k);
      SumRemove(h, k);
      SumOfSums(f - {k}, g - {k}, h - {k});
    } else {
      assert f == map[];
      assert g.Keys == {} && h.Keys == {};
      assert g == map[] && h == map[];
    }
  }

  lemma SumAtMost(f: map<Key, nat>, g: map<Key, nat>)
    requires f.Keys == g.Keys && forall k :: k in f ==> f[k] <= g[k]
    ensures Sum(f) <= Sum(g)
  {
    var rest: map<Key, nat> := map k | k in f :: g[k] - f[k];
    SumOfSums(f, rest, g);
  }
}
