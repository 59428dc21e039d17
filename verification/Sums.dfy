/** Finite sums: over the values of a map, in any order, and along a log. */
module Sums {

  ghost function Sum<K(!new), V(!new)>(m: map<K, V>, f: V -> real): real
    decreases m.Keys
  {
    if m.Keys == {} then 0.0 else
      var k :| k in m.Keys;
      f(m[k]) + Sum(m - {k}, f)
  }

  lemma {:induction false} SumSplit<K(!new), V(!new)>(m: map<K, V>, f: V -> real, k: K)
    requires k in m
    ensures Sum(m, f) == f(m[k]) + Sum(m - {k}, f)
    decreases m.Keys
  {
    var j :| j in m.Keys && Sum(m, f) == f(m[j]) + Sum(m - {j}, f);
    if j != k {
      SumSplit(m - {j}, f, k);
      SumSplit(m - {k}, f, j);
      assert m - {j} - {k} == m - {k} - {j};
    }
  }

  /** Writing one entry changes the sum by the difference of the summands. */
  lemma {:induction false} SumUpdate<K(!new), V(!new)>(m: map<K, V>, f: V -> real, k: K, v: V)
    ensures Sum(m[k := v], f) == Sum(m, f) - (if k in m then f(m[k]) else 0.0) + f(v)
  {
    SumSplit(m[k := v], f, k);
    if k in m {
      SumSplit(m, f, k);
      assert m[k := v] - {k} == m - {k};
    } else {
      assert m[k := v] - {k} == m;
    }
  }

  lemma {:induction false} SumShift<K(!new), V(!new)>(m: map<K, V>, f: V -> real, k: K, v: V, delta: real)
    requires k in m && f(v) == f(m[k]) + delta
    ensures Sum(m[k := v], f) == Sum(m, f) + delta
  {
    SumUpdate(m, f, k, v);
  }

  /** Entries may be added with a zero summand, or rewritten with an equal one. */
  lemma {:induction false} SumSame<K(!new), V(!new)>(m: map<K, V>, m': map<K, V>, f: V -> real)
    requires forall k | k in m :: k in m' && f(m'[k]) == f(m[k])
    requires forall k | k in m' && k !in m :: f(m'[k]) == 0.0
    ensures Sum(m', f) == Sum(m, f)
    decreases m'.Keys
  {
    if m'.Keys == {} {
      assert m.Keys == {};
    } else {
      var k :| k in m';
      SumSplit(m', f, k);
      if k in m {
        SumSplit(m, f, k);
      } else {
        assert m - {k} == m;
      }
      SumSame(m - {k}, m' - {k}, f);
    }
  }

  lemma {:induction false} SumCongruent<K(!new), V(!new)>(m: map<K, V>, f: V -> real, g: V -> real)
    requires forall k | k in m :: f(m[k]) == g(m[k])
    ensures Sum(m, f) == Sum(m, g)
    decreases m.Keys
  {
    if m.Keys != {} {
      var k :| k in m;
      SumSplit(m, f, k);
      SumSplit(m, g, k);
      SumCongruent(m - {k}, f, g);
    }
  }

  function Total<E>(log: seq<E>, f: E -> real): real {
    if log == [] then 0.0 else Total(log[..|log| - 1], f) + f(log[|log| - 1])
  }

  lemma {:induction false} TotalPush<E>(log: seq<E>, e: E, f: E -> real)
    ensures Total(log + [e], f) == Total(log, f) + f(e)
  {
    assert (log + [e])[..|log|] == log;
  }

  lemma {:induction false} TotalAppend<E>(a: seq<E>, b: seq<E>, f: E -> real)
    ensures Total(a + b, f) == Total(a, f) + Total(b, f)
    decreases |b|
  {
    if b == [] {
      assert a + b == a;
    } else {
      assert (a + b)[..|a + b| - 1] == a + b[..|b| - 1];
      TotalAppend(a, b[..|b| - 1], f);
    }
  }

  lemma {:induction false} TotalCongruent<E>(log: seq<E>, f: E -> real, g: E -> real)
    requires forall e | e in log :: f(e) == g(e)
    ensures Total(log, f) == Total(log, g)
  {
    if log != [] {
      TotalCongruent(log[..|log| - 1], f, g);
    }
  }

  lemma {:induction false} TotalZero<E>(log: seq<E>, f: E -> real)
    requires forall e | e in log :: f(e) == 0.0
    ensures Total(log, f) == 0.0
  {
    if log != [] {
      TotalZero(log[..|log| - 1], f);
    }
  }
}
