/** Sums of a natural-valued weight over the entries of a finite map. Reference
    counts, list holds and collector references are all sums of this kind. */
module Sums {

  ghost function Sum<K, V>(m: map<K, V>, f: (K, V) -> nat): nat
  {
    if m == map[] then 0 else
    var k :| k in m;
    f(k, m[k]) + Sum(m - {k}, f)
  }

  /** Any entry may be split off first. */
  lemma {:induction false} SumSplit<K, V>(m: map<K, V>, f: (K, V) -> nat, k: K)
    requires k in m
    ensures Sum(m, f) == f(k, m[k]) + Sum(m - {k}, f)
    decreases |m|
  {
    var j :| j in m && Sum(m, f) == f(j, m[j]) + Sum(m - {j}, f);
    if j != k {
      SumSplit(m - {j}, f, k);
      assert (m - {j}) - {k} == (m - {k}) - {j};
      SumSplit(m - {k}, f, j);
    }
  }

  lemma SumUpdate<K, V>(m: map<K, V>, f: (K, V) -> nat, k: K, v: V)
    ensures Sum(m[k := v], f) == Sum(m, f) - (if k in m then f(k, m[k]) else 0) + f(k, v)
  {
    SumSplit(m[k := v], f, k);
    assert m[k := v] - {k} == m - {k};
    if k in m {
      SumSplit(m, f, k);
    } else {
      assert m - {k} == m;
    }
  }

  lemma SumRemove<K, V>(m: map<K, V>, f: (K, V) -> nat, k: K)
    ensures Sum(m - {k}, f) == Sum(m, f) - (if k in m then f(k, m[k]) else 0)
  {
    if k in m {
      SumSplit(m, f, k);
    } else {
      assert m - {k} == m;
    }
  }

  /** A sum is zero exactly when every entry weighs nothing. */
  lemma {:induction false} SumZero<K, V>(m: map<K, V>, f: (K, V) -> nat)
    ensures Sum(m, f) == 0 <==> forall k :: k in m ==> f(k, m[k]) == 0
    decreases |m|
  {
    if m != map[] {
      var j :| j in m && Sum(m, f) == f(j, m[j]) + Sum(m - {j}, f);
      SumZero(m - {j}, f);
      forall k | k in m && k != j ensures (m - {j})[k] == m[k] && k in m - {j} {}
    }
  }

  lemma SumAtLeast<K, V>(m: map<K, V>, f: (K, V) -> nat, k: K)
    requires k in m
    ensures Sum(m, f) >= f(k, m[k])
  {
    SumSplit(m, f, k);
  }

  /** A positive sum has a witness. */
  lemma SumWitness<K, V>(m: map<K, V>, f: (K, V) -> nat) returns (k: K)
    requires Sum(m, f) > 0
    ensures k in m && f(k, m[k]) > 0
  {
    SumZero(m, f);
    k :| k in m && f(k, m[k]) != 0;
  }

  /** Two maps with the same keys and pointwise equal weights have equal sums. */
  lemma {:induction false} SumCongruent<K, V, W>(m: map<K, V>, n: map<K, W>, f: (K, V) -> nat, g: (K, W) -> nat)
    requires m.Keys == n.Keys
    requires forall k :: k in m ==> f(k, m[k]) == g(k, n[k])
    ensures Sum(m, f) == Sum(n, g)
    decreases |m|
  {
    if m == map[] {
      assert n == map[];
    } else {
      var j :| j in m;
      SumSplit(m, f, j);
      assert j in n;
      SumSplit(n, g, j);
      assert (m - {j}).Keys == m.Keys - {j} == (n - {j}).Keys;
      SumCongruent(m - {j}, n - {j}, f, g);
    }
  }

  /** Pointwise smaller weights have a smaller sum, strictly if one is strictly smaller. */
  lemma {:induction false} SumMonotone<K, V>(m: map<K, V>, n: map<K, V>, f: (K, V) -> nat)
    requires m.Keys == n.Keys
    requires forall k :: k in m ==> f(k, m[k]) <= f(k, n[k])
    ensures Sum(m, f) <= Sum(n, f)
    ensures (exists k :: k in m && f(k, m[k]) < f(k, n[k])) ==> Sum(m, f) < Sum(n, f)
    decreases |m|
  {
    if m == map[] {
      assert n == map[];
    } else {
      var j :| j in m;
      assert j in n;
      SumSplit(m, f, j);
      SumSplit(n, f, j);
      assert (m - {j}).Keys == m.Keys - {j} == (n - {j}).Keys;
      SumMonotone(m - {j}, n - {j}, f);
      if k :| k in m && f(k, m[k]) < f(k, n[k]) {
        if k != j {
          assert k in m - {j};
        }
      }
    }
  }

  /** Entries that weigh nothing may be left out. */
  lemma {:induction false} SumPart<K, V>(m: map<K, V>, n: map<K, V>, f: (K, V) -> nat)
    requires n.Keys <= m.Keys && forall k :: k in n ==> n[k] == m[k]
    requires forall k :: k in m && k !in n ==> f(k, m[k]) == 0
    ensures Sum(n, f) == Sum(m, f)
    decreases |m|
  {
    if m.Keys == n.Keys {
      assert m == n;
    } else {
      var k :| k in m && k !in n;
      SumSplit(m, f, k);
      SumPart(m - {k}, n, f);
    }
  }
}
