/** Sums over the values of a finite map: what termination measures are made of. */
module Sums {
  ghost function Sum<T>(m: map<nat, T>, weight: T -> nat): nat
    decreases |m|
  {
    if k :| k in m then weight(m[k]) + Sum(m - {k}, weight) else 0
  }

  lemma {:induction false} SumSplit<T>(m: map<nat, T>, weight: T -> nat, k: nat)
    requires k in m
    ensures Sum(m, weight) == weight(m[k]) + Sum(m - {k}, weight)
    decreases |m|
  {
    var h :| h in m && Sum(m, weight) == weight(m[h]) + Sum(m - {h}, weight);
    if h != k {
      SumSplit(m - {h}, weight, k);
      SumSplit(m - {k}, weight, h);
      assert m - {h} - {k} == m - {k} - {h};
    }
  }

  lemma SumMoved<T>(m: map<nat, T>, weight: T -> nat, k: nat, v: T)
    requires k in m
    ensures Sum(m[k := v], weight) == Sum(m, weight) - weight(m[k]) + weight(v)
  {
    SumSplit(m, weight, k);
    SumSplit(m[k := v], weight, k);
    assert m[k := v] - {k} == m - {k};
  }

  lemma SumAdded<T>(m: map<nat, T>, weight: T -> nat, k: nat, v: T)
    requires k !in m
    ensures Sum(m[k := v], weight) == Sum(m, weight) + weight(v)
  {
    SumSplit(m[k := v], weight, k);
    assert m[k := v] - {k} == m;
  }
}
