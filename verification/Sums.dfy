/** Finite sums over tables: the totals that the contracts' cached fields must agree with. */
module Sums {

  ghost function SumReal<K>(m: map<K, real>): real
    decreases |m|
  {
    if m == map[] then 0.0 else
      var k :| k in m;
      assert (m - {k}).Keys == m.Keys - {k};
      m[k] + SumReal(m - {k})
  }

  ghost function SumInt<K>(m: map<K, int>): int
    decreases |m|
  {
    if m == map[] then 0 else
      var k :| k in m;
      assert (m - {k}).Keys == m.Keys - {k};
      m[k] + SumInt(m - {k})
  }

  // Any row may be counted first.
  lemma {:induction false} RealRemove<K>(m: map<K, real>, k: K)
    requires k in m
    ensures SumReal(m) == m[k] + SumReal(m - {k})
    decreases |m|
  {
    var k0 :| k0 in m && SumReal(m) == m[k0] + SumReal(m - {k0});
    if k0 != k {
      assert (m - {k0}).Keys == m.Keys - {k0} && (m - {k}).Keys == m.Keys - {k};
      RealRemove(m - {k0}, k);
      RealRemove(m - {k}, k0);
      assert m - {k0} - {k} == m - {k} - {k0};
    }
  }

  lemma {:induction false} IntRemove<K>(m: map<K, int>, k: K)
    requires k in m
    ensures SumInt(m) == m[k] + SumInt(m - {k})
    decreases |m|
  {
    var k0 :| k0 in m && SumInt(m) == m[k0] + SumInt(m - {k0});
    if k0 != k {
      assert (m - {k0}).Keys == m.Keys - {k0} && (m - {k}).Keys == m.Keys - {k};
      IntRemove(m - {k0}, k);
      IntRemove(m - {k}, k0);
      assert m - {k0} - {k} == m - {k} - {k0};
    }
  }

  lemma SomeKey<K, V>(m: map<K, V>) returns (k: K)
    requires m != map[]
    ensures k in m
  {
    k :| k in m;
  }

  ghost function RealAt<K>(m: map<K, real>, k: K): real {
    if k in m then m[k] else 0.0
  }

  ghost function IntAt<K>(m: map<K, int>, k: K): int {
    if k in m then m[k] else 0
  }

  // Two tables that agree everywhere except at k (a missing row counts as 0).
  lemma RealChange<K>(m: map<K, real>, m': map<K, real>, k: K)
    requires m - {k} == m' - {k}
    ensures SumReal(m') == SumReal(m) - RealAt(m, k) + RealAt(m', k)
  {
    if k in m { RealRemove(m, k); } else { assert m - {k} == m; }
    if k in m' { RealRemove(m', k); } else { assert m' - {k} == m'; }
  }

  lemma IntChange<K>(m: map<K, int>, m': map<K, int>, k: K)
    requires m - {k} == m' - {k}
    ensures SumInt(m') == SumInt(m) - IntAt(m, k) + IntAt(m', k)
  {
    if k in m { IntRemove(m, k); } else { assert m - {k} == m; }
    if k in m' { IntRemove(m', k); } else { assert m' - {k} == m'; }
  }

  // c adds a and b row by row.
  lemma {:induction false} RealPlus<K>(a: map<K, real>, b: map<K, real>, c: map<K, real>)
    requires a.Keys == b.Keys == c.Keys
    requires forall k | k in a :: c[k] == a[k] + b[k]
    ensures SumReal(c) == SumReal(a) + SumReal(b)
    decreases |a|
  {
    if a == map[] {
      assert b == map[] && c == map[];
    } else {
      var k :| k in a;
      assert (a - {k}).Keys == a.Keys - {k};
      RealPlus(a - {k}, b - {k}, c - {k});
      RealRemove(a, k); RealRemove(b, k); RealRemove(c, k);
    }
  }

  ghost predicate Additive(g: real -> real) {
    g(0.0) == 0.0 && forall x, y, z | z == x + y :: g(z) == g(x) + g(y)
  }

  // An additive function of every row is that function of the total.
  lemma {:induction false} RealMap<K>(a: map<K, real>, g: real -> real, c: map<K, real>)
    requires Additive(g)
    requires a.Keys == c.Keys
    requires forall k | k in a :: c[k] == g(a[k])
    ensures SumReal(c) == g(SumReal(a))
    decreases |a|
  {
    if a == map[] {
      assert c == map[];
    } else {
      var k :| k in a;
      assert (a - {k}).Keys == a.Keys - {k};
      RealMap(a - {k}, g, c - {k});
      RealRemove(a, k); RealRemove(c, k);
    }
  }

  function Times(f: real): real -> real {
    x => f * x
  }

  lemma TimesDistributes(f: real, x: real, y: real, z: real)
    requires z == x + y
    ensures Times(f)(z) == Times(f)(x) + Times(f)(y)
  {
    assert f * (x + y) == f * x + f * y;
  }

  lemma TimesIsAdditive(f: real)
    ensures Additive(Times(f))
  {
    assert forall x: real, y: real, z: real | z == x + y :: Times(f)(z) == Times(f)(x) + Times(f)(y) by {
      forall x: real, y: real, z: real | z == x + y
        ensures Times(f)(z) == Times(f)(x) + Times(f)(y)
      {
        TimesDistributes(f, x, y, z);
      }
    }
  }

  // c adds a and b row by row.
  lemma {:induction false} IntPlus<K>(a: map<K, int>, b: map<K, int>, c: map<K, int>)
    requires a.Keys == b.Keys == c.Keys
    requires forall k | k in a :: c[k] == a[k] + b[k]
    ensures SumInt(c) == SumInt(a) + SumInt(b)
    decreases |a|
  {
    if a == map[] {
      assert b == map[] && c == map[];
    } else {
      var k :| k in a;
      assert (a - {k}).Keys == a.Keys - {k};
      IntPlus(a - {k}, b - {k}, c - {k});
      IntRemove(a, k); IntRemove(b, k); IntRemove(c, k);
    }
  }

  // Rows that balance pairwise give totals that balance.
  lemma RealBalance<K>(a: map<K, real>, b: map<K, real>, c: map<K, real>, d: map<K, real>)
    requires a.Keys == b.Keys == c.Keys == d.Keys
    requires forall k | k in a :: a[k] + b[k] == c[k] + d[k]
    ensures SumReal(a) + SumReal(b) == SumReal(c) + SumReal(d)
  {
    hide SumReal;
    var both := map k | k in a :: a[k] + b[k];
    RealPlus(a, b, both);
    assert both.Keys == c.Keys;
    assert forall k | k in c :: both[k] == c[k] + d[k];
    RealPlus(c, d, both);
  }

  // Rows that balance pairwise give totals that balance.
  lemma IntBalance<K>(a: map<K, int>, b: map<K, int>, c: map<K, int>, d: map<K, int>)
    requires a.Keys == b.Keys == c.Keys == d.Keys
    requires forall k | k in a :: a[k] + b[k] == c[k] + d[k]
    ensures SumInt(a) + SumInt(b) == SumInt(c) + SumInt(d)
  {
    hide SumInt;
    var both := map k | k in a :: a[k] + b[k];
    IntPlus(a, b, both);
    assert both.Keys == c.Keys;
    assert forall k | k in c :: both[k] == c[k] + d[k];
    IntPlus(c, d, both);
  }

  lemma {:induction false} RealMonotone<K>(a: map<K, real>, b: map<K, real>)
    requires a.Keys == b.Keys
    requires forall k | k in a :: a[k] <= b[k]
    ensures SumReal(a) <= SumReal(b)
    decreases |a|
  {
    if a == map[] {
      assert b == map[];
    } else {
      var k :| k in a;
      assert (a - {k}).Keys == a.Keys - {k};
      RealMonotone(a - {k}, b - {k});
      RealRemove(a, k); RealRemove(b, k);
    }
  }

  lemma {:induction false} IntMonotone<K>(a: map<K, int>, b: map<K, int>)
    requires a.Keys == b.Keys
    requires forall k | k in a :: a[k] <= b[k]
    ensures SumInt(a) <= SumInt(b)
    decreases |a|
  {
    if a == map[] {
      assert b == map[];
    } else {
      var k :| k in a;
      assert (a - {k}).Keys == a.Keys - {k};
      IntMonotone(a - {k}, b - {k});
      IntRemove(a, k); IntRemove(b, k);
    }
  }

  lemma {:induction false} RealZero<K>(m: map<K, real>)
    requires forall k | k in m :: m[k] == 0.0
    ensures SumReal(m) == 0.0
    decreases |m|
  {
    if m != map[] {
      var k :| k in m;
      assert (m - {k}).Keys == m.Keys - {k};
      RealZero(m - {k});
      RealRemove(m, k);
    }
  }

  lemma {:induction false} IntZero<K>(m: map<K, int>)
    requires forall k | k in m :: m[k] == 0
    ensures SumInt(m) == 0
    decreases |m|
  {
    if m != map[] {
      var k :| k in m;
      assert (m - {k}).Keys == m.Keys - {k};
      IntZero(m - {k});
      IntRemove(m, k);
    }
  }

  lemma RealNonNegative<K>(m: map<K, real>)
    requires forall k | k in m :: 0.0 <= m[k]
    ensures 0.0 <= SumReal(m)
  {
    var z := map k | k in m :: 0.0;
    RealZero(z);
    RealMonotone(z, m);
  }

  lemma IntNonNegative<K>(m: map<K, int>)
    requires forall k | k in m :: 0 <= m[k]
    ensures 0 <= SumInt(m)
  {
    var z := map k | k in m :: 0;
    IntZero(z);
    IntMonotone(z, m);
  }

  // One row is at most the total of non-negative rows.
  lemma RealMember<K>(m: map<K, real>, k: K)
    requires forall x | x in m :: 0.0 <= m[x]
    ensures RealAt(m, k) <= SumReal(m)
  {
    hide SumReal;
    if k in m {
      RealRemove(m, k);
      RealNonNegative(m - {k});
    } else {
      RealNonNegative(m);
    }
  }

  // One row is at most the total of non-negative rows.
  lemma IntMember<K>(m: map<K, int>, k: K)
    requires forall x | x in m :: 0 <= m[x]
    ensures IntAt(m, k) <= SumInt(m)
  {
    hide SumInt;
    if k in m {
      IntRemove(m, k);
      IntNonNegative(m - {k});
    } else {
      IntNonNegative(m);
    }
  }
}
