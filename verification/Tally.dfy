/** Summing what the elements of a sequence, or the values of a map, contribute. */
module Tally {

  /** The multiset sum of what each element holds. */
  ghost function Sum<A, T>(xs: seq<A>, f: A -> multiset<T>): multiset<T> {
    if xs == [] then multiset{} else f(xs[0]) + Sum(xs[1..], f)
  }

  lemma {:induction false} SumUpdate<A, T>(xs: seq<A>, f: A -> multiset<T>, i: nat, x: A)
    requires i < |xs|
    ensures Sum(xs[i := x], f) + f(xs[i]) == Sum(xs, f) + f(x)
  {
    if i > 0 {
      SumUpdate(xs[1..], f, i - 1, x);
      var ys := xs[1..][i - 1 := x];
      assert xs[i := x][1..] == ys;
      assert (f(xs[0]) + Sum(ys, f)) + f(xs[i]) == f(xs[0]) + (Sum(ys, f) + f(xs[i]));
      assert (f(xs[0]) + Sum(xs[1..], f)) + f(x) == f(xs[0]) + (Sum(xs[1..], f) + f(x));
    } else {
      assert xs[0 := x][1..] == xs[1..];
    }
  }

  lemma {:induction false} SumAppend<A, T>(xs: seq<A>, f: A -> multiset<T>, x: A)
    ensures Sum(xs + [x], f) == Sum(xs, f) + f(x)
  {
    if xs == [] {
      assert (xs + [x])[1..] == [];
    } else {
      SumAppend(xs[1..], f, x);
      assert (xs + [x])[1..] == xs[1..] + [x];
    }
  }

  /** An element that holds nothing can join unnoticed. */
  lemma SumAppendNothing<A, T>(xs: seq<A>, f: A -> multiset<T>, x: A)
    requires f(x) == multiset{}
    ensures Sum(xs + [x], f) == Sum(xs, f)
  {
    SumAppend(xs, f, x);
  }

  /** An element's share is part of the sum. */
  lemma {:induction false} SumContains<A, T>(xs: seq<A>, f: A -> multiset<T>, i: nat)
    requires i < |xs|
    ensures f(xs[i]) <= Sum(xs, f)
  {
    if i > 0 {
      SumContains(xs[1..], f, i - 1);
    }
  }

  /** The shares of two different elements are part of the sum together. */
  lemma {:induction false} SumContainsTwo<A, T>(xs: seq<A>, f: A -> multiset<T>, i: nat, j: nat)
    requires i < j < |xs|
    ensures f(xs[i]) + f(xs[j]) <= Sum(xs, f)
  {
    if i > 0 {
      SumContainsTwo(xs[1..], f, i - 1, j - 1);
    } else {
      SumContains(xs[1..], f, j - 1);
    }
  }

  lemma {:induction false} SumEmpty<A, T>(xs: seq<A>, f: A -> multiset<T>)
    requires forall i :: 0 <= i < |xs| ==> f(xs[i]) == multiset{}
    ensures Sum(xs, f) == multiset{}
  {
    if xs != [] {
      SumEmpty(xs[1..], f);
    }
  }

  /** The total weight of a sequence. */
  ghost function Weigh<A>(xs: seq<A>, w: A -> nat): nat {
    if xs == [] then 0 else w(xs[0]) + Weigh(xs[1..], w)
  }

  lemma {:induction false} WeighUpdate<A>(xs: seq<A>, w: A -> nat, i: nat, x: A)
    requires i < |xs|
    ensures Weigh(xs[i := x], w) + w(xs[i]) == Weigh(xs, w) + w(x)
  {
    if i > 0 {
      WeighUpdate(xs[1..], w, i - 1, x);
      assert xs[i := x][1..] == xs[1..][i - 1 := x];
    } else {
      assert xs[0 := x][1..] == xs[1..];
    }
  }

  lemma {:induction false} WeighAppend<A>(xs: seq<A>, w: A -> nat, x: A)
    ensures Weigh(xs + [x], w) == Weigh(xs, w) + w(x)
  {
    if xs == [] {
      assert (xs + [x])[1..] == [];
    } else {
      WeighAppend(xs[1..], w, x);
      assert (xs + [x])[1..] == xs[1..] + [x];
    }
  }

  /** The total weight of a map's entries. */
  ghost function WeighMap<K, V>(m: map<K, V>, w: (K, V) -> nat): nat
    decreases |m|
  {
    if m == map[] then 0 else
      var k :| k in m;
      w(k, m[k]) + WeighMap(m - {k}, w)
  }

  lemma {:induction false} WeighMapRemove<K, V>(m: map<K, V>, w: (K, V) -> nat, k: K)
    requires k in m
    ensures WeighMap(m, w) == w(k, m[k]) + WeighMap(m - {k}, w)
    decreases |m|
  {
    var j :| j in m && WeighMap(m, w) == w(j, m[j]) + WeighMap(m - {j}, w);
    if j != k {
      WeighMapRemove(m - {j}, w, k);
      WeighMapRemove(m - {k}, w, j);
      assert (m - {j}) - {k} == (m - {k}) - {j};
    }
  }

  lemma WeighMapUpdate<K, V>(m: map<K, V>, w: (K, V) -> nat, k: K, v: V)
    ensures WeighMap(m[k := v], w) + (if k in m then w(k, m[k]) else 0) == WeighMap(m, w) + w(k, v)
  {
    var n := m[k := v];
    WeighMapRemove(n, w, k);
    if k in m {
      WeighMapRemove(m, w, k);
      assert n - {k} == m - {k};
    } else {
      assert n - {k} == m;
    }
  }
}
