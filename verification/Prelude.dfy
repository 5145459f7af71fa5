/** Small vocabulary shared by every module: optional values, real bounds and sums over maps. */
module Prelude {

  datatype Option<+T> = None | Some(value: T)

  /** Names are only ever compared for equality, so any text identity is a number here. */
  type Id = nat

  /** An instant, as produced by an already parsed UTC timestamp. */
  type Time = int

  function Min(a: real, b: real): real {
    if a <= b then a else b
  }

  function Max(a: real, b: real): real {
    if a >= b then a else b
  }

  function Abs(a: real): real {
    if a < 0.0 then -a else a
  }

  /** Sum of the values of a finite map; the order of the keys does not matter (see MapSumSplit). */
  ghost function MapSum<K>(m: map<K, real>): real
    decreases |m|
  {
    if m == map[] then 0.0 else
      var k :| k in m;
      assert |m - {k}| == |m| - 1 by { assert (m - {k}).Keys == m.Keys - {k}; }
      m[k] + MapSum(m - {k})
  }

  /** Any key can be the one taken out first. */
  lemma {:induction false} MapSumSplit<K>(m: map<K, real>, k: K)
    requires k in m
    ensures MapSum(m) == m[k] + MapSum(m - {k})
    decreases |m|
  {
    var j :| j in m && MapSum(m) == m[j] + MapSum(m - {j});
    if j != k {
      assert (m - {j}).Keys == m.Keys - {j};
      assert (m - {k}).Keys == m.Keys - {k};
      MapSumSplit(m - {j}, k);
      MapSumSplit(m - {k}, j);
      assert m - {j} - {k} == m - {k} - {j};
    }
  }

  /** Writing one key changes the sum by the difference of the two values. */
  lemma MapSumWrite<K>(m: map<K, real>, k: K, v: real)
    ensures MapSum(m[k := v]) == MapSum(m) + v - (if k in m then m[k] else 0.0)
  {
    var n := m[k := v];
    MapSumSplit(n, k);
    assert n - {k} == m - {k};
    if k in m {
      MapSumSplit(m, k);
    } else {
      assert m - {k} == m;
    }
  }

  lemma MapSumEmpty<K>(m: map<K, real>)
    requires m.Keys == {}
    ensures MapSum(m) == 0.0
  {
    assert m == map[];
  }

  /** `n` is `m` with every value multiplied by `c`. */
  ghost predicate IsScaled<K>(m: map<K, real>, n: map<K, real>, c: real) {
    n.Keys == m.Keys && forall k | k in m :: IsMultiple(n[k], c, m[k])
  }

  lemma ScaledWithout<K>(m: map<K, real>, n: map<K, real>, c: real, k: K)
    requires IsScaled(m, n, c) && k in m
    ensures IsScaled(m - {k}, n - {k}, c)
    ensures k in n && IsMultiple(n[k], c, m[k])
    ensures |m - {k}| < |m|
  {
    assert k in n.Keys;
    assert (m - {k}).Keys == m.Keys - {k} == n.Keys - {k} == (n - {k}).Keys;
  }

  ghost predicate IsMultiple(product: real, c: real, x: real) {
    product == c * x
  }

  /** A common factor can be taken out of the sum. */
  lemma {:induction false} MapSumScale<K>(m: map<K, real>, n: map<K, real>, c: real)
    requires IsScaled(m, n, c)
    ensures IsMultiple(MapSum(n), c, MapSum(m))
    decreases |m|
  {
    hide MapSum, IsMultiple;
    if m == map[] {
      assert n.Keys == {};
      MapSumEmpty(m);
      MapSumEmpty(n);
      ZeroIsMultiple(c);
    } else {
      var k :| k in m;
      ScaledWithout(m, n, c, k);
      MapSumSplit(m, k);
      MapSumSplit(n, k);
      MapSumScale(m - {k}, n - {k}, c);
      MultiplesAdd(c, n[k], m[k], MapSum(n - {k}), MapSum(m - {k}));
    }
  }

  lemma QuotientIsMultiple(x: real, c: real)
    requires c > 0.0
    ensures IsMultiple(x, c, x / c)
  {
  }

  /** Multiples of one positive number compare like their factors. */
  lemma MultiplesCompare(p: real, q: real, c: real, x: real, y: real)
    requires c > 0.0 && IsMultiple(p, c, x) && IsMultiple(q, c, y)
    ensures x <= y <==> p <= q
  {
    if x > y {
      assert c * (x - y) > 0.0;
    } else {
      assert c * (y - x) >= 0.0;
    }
  }

  lemma OneIsMultiple(c: real)
    ensures IsMultiple(c, c, 1.0)
  {
  }

  lemma RestIsMultiple(c: real, p: real, x: real)
    requires IsMultiple(p, c, x)
    ensures IsMultiple(c - p, c, 1.0 - x)
  {
    assert c * (1.0 - x) == c - c * x;
  }

  lemma ZeroIsMultiple(c: real)
    ensures IsMultiple(0.0, c, 0.0)
  {
  }

  lemma MultiplesAdd(c: real, p: real, x: real, q: real, y: real)
    requires IsMultiple(p, c, x) && IsMultiple(q, c, y)
    ensures IsMultiple(p + q, c, x + y)
  {
    assert c * (x + y) == c * x + c * y;
  }

  /** Pointwise order carries over to sums. */
  lemma {:induction false} MapSumMonotone<K>(m: map<K, real>, n: map<K, real>)
    requires m.Keys == n.Keys
    requires forall k | k in m :: m[k] <= n[k]
    ensures MapSum(m) <= MapSum(n)
    decreases |m|
  {
    if m != map[] {
      var k :| k in m;
      assert k in m.Keys;
      MapSumSplit(m, k);
      MapSumSplit(n, k);
      assert (m - {k}).Keys == m.Keys - {k} == n.Keys - {k} == (n - {k}).Keys;
      MapSumMonotone(m - {k}, n - {k});
    } else {
      assert n.Keys == {};
    }
  }

  /** A sum of nonnegative values is at least each of them. */
  lemma {:induction false} MapSumNonNegative<K>(m: map<K, real>)
    requires forall k | k in m :: m[k] >= 0.0
    ensures MapSum(m) >= 0.0
    ensures forall k | k in m :: m[k] <= MapSum(m)
    decreases |m|
  {
    forall k | k in m
      ensures m[k] <= MapSum(m) && MapSum(m) >= 0.0
    {
      MapSumSplit(m, k);
      assert (m - {k}).Keys == m.Keys - {k};
      MapSumNonNegative(m - {k});
    }
  }
}
