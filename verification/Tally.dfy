/** Sums over the values of a finite map, whatever the order they are added in. */
module Tally {
  ghost function Sum<K>(m: map<K, nat>): nat
    decreases |m|
  {
    if m == map[] then 0 else var k :| k in m; m[k] + Sum(m - {k})
  }

  lemma {:induction false} SumRemove<K>(m: map<K, nat>, k: K)
    requires k in m
    ensures Sum(m) == m[k] + Sum(m - {k})
    decreases |m|
  {
    var j :| j in m && Sum(m) == m[j] + Sum(m - {j});
    if j != k {
      SumRemove(m - {j}, k);
      SumRemove(m - {k}, j);
      assert m - {j} - {k} == m - {k} - {j};
    }
  }

  function Get<K>(m: map<K, nat>, k: K): nat {
    if k in m then m[k] else 0
  }

  // counts[k] = counts.get(k, 0) + n
  function Add<K>(m: map<K, nat>, k: K, n: nat): map<K, nat> {
    var total: nat := Get(m, k) + n;
    m[k := total]
  }

  lemma SumAdd<K>(m: map<K, nat>, k: K, n: nat)
    ensures Sum(Add(m, k, n)) == Sum(m) + n
  {
    SumRemove(Add(m, k, n), k);
    if k in m {
      SumRemove(m, k);
      assert Add(m, k, n) - {k} == m - {k};
    } else {
      assert Add(m, k, n) - {k} == m;
    }
  }

  // The part of a map whose keys satisfy p
  function Where<K>(m: map<K, nat>, p: K -> bool): map<K, nat> {
    map k | k in m && p(k) :: m[k]
  }

  lemma WhereRemove<K>(m: map<K, nat>, p: K -> bool, k: K)
    requires k in m
    ensures Sum(Where(m, p)) == (if p(k) then m[k] else 0) + Sum(Where(m - {k}, p))
  {
    if p(k) {
      SumRemove(Where(m, p), k);
      assert Where(m, p) - {k} == Where(m - {k}, p);
    } else {
      assert Where(m, p) == Where(m - {k}, p);
    }
  }

  // Summing over keys split in two kinds
  lemma {:induction false} WherePartition<K>(m: map<K, nat>, p: K -> bool, q: K -> bool, r: K -> bool)
    requires forall k <- m :: p(k) == (q(k) || r(k)) && !(q(k) && r(k))
    ensures Sum(Where(m, p)) == Sum(Where(m, q)) + Sum(Where(m, r))
    decreases |m|
  {
    if m == map[] {
      assert Where(m, p) == map[] && Where(m, q) == map[] && Where(m, r) == map[];
    } else {
      var k :| k in m;
      WhereRemove(m, p, k);
      WhereRemove(m, q, k);
      WhereRemove(m, r, k);
      WherePartition(m - {k}, p, q, r);
    }
  }
}
