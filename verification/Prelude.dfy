/** Small generic helpers: optional values and sums over finite maps. */
module Prelude {

  datatype Option<+T> = None | Some(value: T) {
    function GetOr(default: T): T {
      match this
      case Some(v) => v
      case None => default
    }
  }

  function Find<K, V>(m: map<K, V>, k: K): Option<V> {
    if k in m then Some(m[k]) else None
  }

  lemma SuffixInjective(a: string, b: string, suffix: string)
    requires a + suffix == b + suffix
    ensures a == b
  {
    assert |a| == |b|;
    assert a == (a + suffix)[..|a|] == (b + suffix)[..|b|] == b;
  }

  /** The sum of `f` over the values of a finite map. */
  ghost function Sum<K, V>(m: map<K, V>, f: V -> int): int
    decreases |m|
  {
    if m == map[] then 0
    else
      assert m.Keys != {};
      var k :| k in m;
      f(m[k]) + Sum(m - {k}, f)
  }

  /** The order in which `Sum` picks the keys does not matter. */
  lemma {:induction false} SumRemove<K, V>(m: map<K, V>, f: V -> int, k: K)
    requires k in m
    ensures Sum(m, f) == f(m[k]) + Sum(m - {k}, f)
    decreases |m|
  {
    assert m.Keys != {};
    var p :| p in m && Sum(m, f) == f(m[p]) + Sum(m - {p}, f);
    if p != k {
      SumRemove(m - {p}, f, k);
      SumRemove(m - {k}, f, p);
      assert (m - {p}) - {k} == (m - {k}) - {p};
    }
  }

  lemma SumInsert<K, V>(m: map<K, V>, f: V -> int, k: K, v: V)
    requires k !in m
    ensures Sum(m[k := v], f) == Sum(m, f) + f(v)
  {
    SumRemove(m[k := v], f, k);
    assert m[k := v] - {k} == m;
  }

  lemma SumUpdate<K, V>(m: map<K, V>, f: V -> int, k: K, v: V)
    requires k in m
    ensures Sum(m[k := v], f) == Sum(m, f) - f(m[k]) + f(v)
  {
    SumRemove(m, f, k);
    SumRemove(m[k := v], f, k);
    assert m[k := v] - {k} == m - {k};
  }

  /** A sum of zeros and ones is a number of keys. */
  lemma {:induction false} SumIsCount<K, V>(m: map<K, V>, f: V -> int, s: set<K>)
    requires forall k :: k in m ==> f(m[k]) == if k in s then 1 else 0
    requires s <= m.Keys
    ensures Sum(m, f) == |s|
    decreases |m|
  {
    if m == map[] {
      assert s == {};
    } else {
      assert m.Keys != {};
      var k :| k in m;
      SumRemove(m, f, k);
      SumIsCount(m - {k}, f, s - {k});
    }
  }

  lemma {:induction false} SumOrder<K, V>(m: map<K, V>, f: V -> int, g: V -> int)
    requires forall k :: k in m ==> f(m[k]) <= g(m[k])
    ensures Sum(m, f) <= Sum(m, g)
    decreases |m|
  {
    if m != map[] {
      assert m.Keys != {};
      var k :| k in m;
      SumRemove(m, f, k);
      SumRemove(m, g, k);
      SumOrder(m - {k}, f, g);
    }
  }

  function Max(a: int, b: int): int {
    if a < b then b else a
  }

  function Indicator(b: bool): int {
    if b then 1 else 0
  }

  lemma {:induction false} SubsetSize<T>(a: set<T>, b: set<T>)
    requires a <= b
    ensures |a| <= |b|
  {
    assert b == a + (b - a);
  }

  lemma {:induction false} SumZero<K, V(!new)>(m: map<K, V>, zero: V -> int)
    requires forall v: V :: zero(v) == 0
    ensures Sum(m, zero) == 0
    decreases |m|
  {
    if m != map[] {
      assert m.Keys != {};
      var k :| k in m;
      SumRemove(m, zero, k);
      SumZero(m - {k}, zero);
    }
  }

  /** A positive sum has a positive part. */
  lemma {:induction false} SomePositive<K, V>(m: map<K, V>, f: V -> int) returns (k: K)
    requires Sum(m, f) > 0
    ensures k in m && f(m[k]) > 0
    decreases |m|
  {
    assert m != map[];
    assert m.Keys != {};
    k :| k in m;
    SumRemove(m, f, k);
    if f(m[k]) <= 0 {
      var rest := m - {k};
      k := SomePositive(rest, f);
    }
  }

  lemma {:induction false} SumAdd<K, V>(m: map<K, V>, f: V -> int, g: V -> int, h: V -> int)
    requires forall k :: k in m ==> h(m[k]) == f(m[k]) + g(m[k])
    ensures Sum(m, h) == Sum(m, f) + Sum(m, g)
    decreases |m|
  {
    if m != map[] {
      assert m.Keys != {};
      var k :| k in m;
      SumRemove(m, f, k);
      SumRemove(m, g, k);
      SumRemove(m, h, k);
      SumAdd(m - {k}, f, g, h);
    }
  }
}
