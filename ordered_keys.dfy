/** Python's `sorted(d.keys())` over integer keys, and sums over a
    dictionary's values. */
module OrderedKeys {

  lemma {:induction false} MinExists(s: set<int>)
    requires s != {}
    ensures exists m :: m in s && forall x :: x in s ==> m <= x
    decreases |s|
  {
    if forall z :: z !in s { assert false; }
    var y :| y in s;
    if s - {y} == {} {
      LeastOfSingleton(s, y);
    } else {
      MinExists(s - {y});
      var m :| m in s - {y} && forall x :: x in s - {y} ==> m <= x;
      LeastOfInsert(s, y, m);
    }
  }

  lemma LeastOfSingleton(s: set<int>, y: int)
    requires y in s && s - {y} == {}
    ensures forall x :: x in s ==> y <= x
  {
    forall x | x in s
      ensures y <= x
    {
      assert x == y || x in s - {y};
    }
  }

  lemma LeastOfInsert(s: set<int>, y: int, m: int)
    requires y in s && m in s - {y} && forall x :: x in s - {y} ==> m <= x
    ensures var least := if y < m then y else m;
      least in s && forall x :: x in s ==> least <= x
  {
    var least := if y < m then y else m;
    forall x | x in s
      ensures least <= x
    {
      if x != y {
        assert x in s - {y};
      }
    }
  }

  function Min(s: set<int>): (m: int)
    requires s != {}
    ensures m in s && forall x :: x in s ==> m <= x
  {
    MinExists(s);
    var m :| m in s && forall x :: x in s ==> m <= x;
    m
  }

  /** `sorted(keys)`: every key once, in strictly ascending order. */
  function SortedKeys(s: set<int>): (r: seq<int>)
    ensures |r| == |s|
    ensures forall i :: 0 <= i < |r| ==> r[i] in s
    ensures forall x :: x in s ==> x in r
    ensures forall i, j :: 0 <= i < j < |r| ==> r[i] < r[j]
    decreases |s|
  {
    if s == {} then []
    else
      var m := Min(s);
      var rest := SortedKeys(s - {m});
      SortedCons(s, m, rest);
      [m] + rest
  }

  /** The least key in front of the sorted other keys sorts them all. */
  lemma SortedCons(s: set<int>, m: int, rest: seq<int>)
    requires m in s && forall x :: x in s ==> m <= x
    requires |rest| == |s - {m}|
    requires forall i :: 0 <= i < |rest| ==> rest[i] in s - {m}
    requires forall x :: x in s - {m} ==> x in rest
    requires forall i, j :: 0 <= i < j < |rest| ==> rest[i] < rest[j]
    ensures var r := [m] + rest;
      && |r| == |s|
      && (forall i :: 0 <= i < |r| ==> r[i] in s)
      && (forall x :: x in s ==> x in r)
      && (forall i, j :: 0 <= i < j < |r| ==> r[i] < r[j])
  {
    var r := [m] + rest;
    forall x | x in s
      ensures x in r
    {
      if x != m {
        assert x in rest;
      }
    }
    forall i, j | 0 <= i < j < |r|
      ensures r[i] < r[j]
    {
      assert r[j] == rest[j - 1] && r[j] in s - {m};
      if i > 0 {
        assert r[i] == rest[i - 1];
      }
    }
  }

  lemma SortedKeysUnfold(s: set<int>)
    requires s != {}
    ensures SortedKeys(s) == [Min(s)] + SortedKeys(s - {Min(s)})
  {
  }

  /** `sum(f(v) for v in m.values())`, taken in ascending key order. */
  function SumBy<V>(m: map<int, V>, f: V -> int): int
    decreases |m|
  {
    if m == map[] then 0
    else
      var k := Min(m.Keys);
      assert (m - {k}).Keys == m.Keys - {k};
      f(m[k]) + SumBy(m - {k}, f)
  }

  /** The sum does not depend on which key is taken out first. */
  lemma {:induction false} SumByRemove<V>(m: map<int, V>, k: int, f: V -> int)
    requires k in m
    ensures SumBy(m, f) == f(m[k]) + SumBy(m - {k}, f)
    decreases |m|
  {
    var k0 := Min(m.Keys);
    assert (m - {k0}).Keys == m.Keys - {k0};
    if k != k0 {
      var m0 := m - {k0};
      SumByRemove(m0, k, f);
      var mk := m - {k};
      assert mk.Keys == m.Keys - {k};
      assert k0 in mk.Keys;
      assert Min(mk.Keys) == k0;
      assert mk - {k0} == m0 - {k};
    }
  }

  /** Replacing or adding one entry changes the sum by the difference. */
  lemma SumByUpdate<V>(m: map<int, V>, k: int, v: V, f: V -> int)
    ensures SumBy(m[k := v], f) == SumBy(m, f) - (if k in m then f(m[k]) else 0) + f(v)
  {
    SumByRemove(m[k := v], k, f);
    assert m[k := v] - {k} == m - {k};
    if k in m {
      SumByRemove(m, k, f);
    } else {
      assert m - {k} == m;
    }
  }

  /** `sum(f(x) for x in xs)` */
  function SumSeq<X>(xs: seq<X>, f: X -> int): int
    decreases |xs|
  {
    if xs == [] then 0 else SumSeq(xs[..|xs| - 1], f) + f(xs[|xs| - 1])
  }

  lemma {:induction false} SumSeqAppend<X>(a: seq<X>, b: seq<X>, f: X -> int)
    ensures SumSeq(a + b, f) == SumSeq(a, f) + SumSeq(b, f)
    decreases |b|
  {
    if b == [] {
      assert a + b == a;
    } else {
      var b' := b[..|b| - 1];
      assert (a + b)[..|a + b| - 1] == a + b';
      SumSeqAppend(a, b', f);
    }
  }

  /** A sum of non-negative terms is non-negative, and zero exactly when
      every term is. */
  lemma {:induction false} SumSeqZero<X>(xs: seq<X>, f: X -> int)
    requires forall i :: 0 <= i < |xs| ==> f(xs[i]) >= 0
    ensures SumSeq(xs, f) >= 0
    ensures SumSeq(xs, f) == 0 <==> forall i :: 0 <= i < |xs| ==> f(xs[i]) == 0
    decreases |xs|
  {
    if xs != [] {
      var init := xs[..|xs| - 1];
      assert forall i :: 0 <= i < |init| ==> init[i] == xs[i];
      SumSeqZero(init, f);
    }
  }

  /** Sums of two sequences agree when they agree term by term. */
  lemma {:induction false} SumSeqPointwise<X, Y>(xs: seq<X>, f: X -> int, ys: seq<Y>, g: Y -> int)
    requires |xs| == |ys|
    requires forall i :: 0 <= i < |xs| ==> f(xs[i]) == g(ys[i])
    ensures SumSeq(xs, f) == SumSeq(ys, g)
    decreases |xs|
  {
    if xs != [] {
      var n := |xs| - 1;
      assert forall i :: 0 <= i < n ==> xs[..n][i] == xs[i] && ys[..n][i] == ys[i];
      SumSeqPointwise(xs[..n], f, ys[..n], g);
    }
  }

  /** The values of `m`, in ascending key order. */
  function ValuesInKeyOrder<V>(m: map<int, V>): (vs: seq<V>)
    ensures |vs| == |m|
    decreases |m|
  {
    if m == map[] then []
    else
      var k := Min(m.Keys);
      assert (m - {k}).Keys == m.Keys - {k};
      [m[k]] + ValuesInKeyOrder(m - {k})
  }

  lemma ValuesInKeyOrderUnfold<V>(m: map<int, V>)
    requires m != map[]
    ensures (m - {Min(m.Keys)}).Keys == m.Keys - {Min(m.Keys)}
    ensures ValuesInKeyOrder(m) == [m[Min(m.Keys)]] + ValuesInKeyOrder(m - {Min(m.Keys)})
  {
  }

  /** Past the least key, the sorted keys are those of the rest. */
  lemma SortedKeysStep<V>(m: map<int, V>, i: int)
    requires 0 < i < |m|
    ensures |SortedKeys((m - {Min(m.Keys)}).Keys)| == |m| - 1
    ensures SortedKeys(m.Keys)[i] == SortedKeys((m - {Min(m.Keys)}).Keys)[i - 1]
  {
    assert (m - {Min(m.Keys)}).Keys == m.Keys - {Min(m.Keys)};
    SortedKeysUnfold(m.Keys);
  }

  /** Past the least key, the values in key order are those of the rest. */
  lemma ValuesStep<V>(m: map<int, V>, i: int)
    requires 0 < i < |m|
    ensures |ValuesInKeyOrder(m - {Min(m.Keys)})| == |m| - 1
    ensures ValuesInKeyOrder(m)[i] == ValuesInKeyOrder(m - {Min(m.Keys)})[i - 1]
  {
    ValuesInKeyOrderUnfold(m);
  }

  /** The `i`-th value in key order is the value of the `i`-th sorted key. */
  lemma {:induction false} ValuesInKeyOrderIndex<V>(m: map<int, V>, i: int)
    requires 0 <= i < |m|
    ensures |SortedKeys(m.Keys)| == |m| && SortedKeys(m.Keys)[i] in m
    ensures ValuesInKeyOrder(m)[i] == m[SortedKeys(m.Keys)[i]]
    decreases |m|
  {
    if i == 0 {
      SortedKeysUnfold(m.Keys);
      ValuesInKeyOrderUnfold(m);
    } else {
      var rest := m - {Min(m.Keys)};
      SortedKeysStep(m, i);
      ValuesStep(m, i);
      ValuesInKeyOrderIndex(rest, i - 1);
    }
  }

  /** Summing the values in key order gives the sum over the dictionary. */
  lemma {:induction false} SumByInKeyOrder<V>(m: map<int, V>, f: V -> int)
    ensures SumSeq(ValuesInKeyOrder(m), f) == SumBy(m, f)
    decreases |m|
  {
    if m != map[] {
      var k := Min(m.Keys);
      var rest := m - {k};
      assert rest.Keys == m.Keys - {k};
      SumSeqAppend([m[k]], ValuesInKeyOrder(rest), f);
      assert SumSeq([m[k]], f) == f(m[k]) by {
        assert [m[k]][..0] == [];
      }
      SumByInKeyOrder(rest, f);
    }
  }
}
