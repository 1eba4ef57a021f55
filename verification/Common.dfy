/** What several modules share. */
module Wrappers {
  datatype Option<T> = None | Some(value: T)

  lemma Overwrite<K, V>(m: map<K, V>, k: K, a: V, b: V)
    ensures m[k := a][k := b] == m[k := b]
  {}
}

/** Runs of a transition system whose steps are labelled. */
module Transitions {
  ghost predicate Leads<S(!new), X(!new)>(step: (S, X, S) -> bool, s: S, xs: seq<X>, t: S)
    decreases |xs|
  {
    if xs == [] then s == t else exists m :: step(s, xs[0], m) && Leads(step, m, xs[1..], t)
  }

  lemma {:induction false} Snoc<S(!new), X(!new)>(step: (S, X, S) -> bool, s: S, xs: seq<X>, t: S, x: X, u: S)
    requires Leads(step, s, xs, t) && step(t, x, u)
    ensures Leads(step, s, xs + [x], u)
    decreases |xs|
  {
    if xs == [] {
      assert Leads(step, u, [x][1..], u);
    } else {
      var m :| step(s, xs[0], m) && Leads(step, m, xs[1..], t);
      Snoc(step, m, xs[1..], t, x, u);
      assert (xs + [x])[1..] == xs[1..] + [x];
    }
  }

  /** What every step keeps, every run keeps. */
  lemma {:induction false} Keeps<S(!new), X(!new)>(step: (S, X, S) -> bool, inv: S -> bool, s: S, xs: seq<X>, t: S)
    requires forall a, x, b :: inv(a) && step(a, x, b) ==> inv(b)
    requires inv(s) && Leads(step, s, xs, t)
    ensures inv(t)
    decreases |xs|
  {
    if xs != [] {
      var m :| step(s, xs[0], m) && Leads(step, m, xs[1..], t);
      Keeps(step, inv, m, xs[1..], t);
    }
  }
}

/** Sums of weights over the values of a map. */
module Sums {
  ghost function Sum<K, V>(m: map<K, V>, weight: V -> nat): nat
    decreases |m|
  {
    if m == map[] then 0
    else
      var k :| k in m;
      weight(m[k]) + Sum(m - {k}, weight)
  }

  /** Any key may be taken out first. */
  lemma {:induction false} TakeOut<K, V>(m: map<K, V>, weight: V -> nat, k: K)
    requires k in m
    ensures Sum(m, weight) == weight(m[k]) + Sum(m - {k}, weight)
    decreases |m|
  {
    var j :| j in m && Sum(m, weight) == weight(m[j]) + Sum(m - {j}, weight);
    if j != k {
      TakeOut(m - {j}, weight, k);
      TakeOut(m - {k}, weight, j);
      assert m - {j} - {k} == m - {k} - {j};
    }
  }

  lemma Update<K, V>(m: map<K, V>, weight: V -> nat, k: K, v: V)
    ensures Sum(m[k := v], weight) + (if k in m then weight(m[k]) else 0) == Sum(m, weight) + weight(v)
  {
    var n := m[k := v];
    TakeOut(n, weight, k);
    assert n - {k} == m - {k};
    if k in m { TakeOut(m, weight, k); } else { assert m - {k} == m; }
  }

  lemma {:induction false} Lighter<K, V>(m: map<K, V>, light: V -> nat, heavy: V -> nat)
    requires forall v :: light(v) <= heavy(v)
    ensures Sum(m, light) <= Sum(m, heavy)
    decreases |m|
  {
    if m != map[] {
      var k :| k in m && Sum(m, light) == light(m[k]) + Sum(m - {k}, light);
      TakeOut(m, heavy, k);
      Lighter(m - {k}, light, heavy);
    }
  }
}
