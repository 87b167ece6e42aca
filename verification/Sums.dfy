/** Sums over sequences and over the rows of a table. */
module Sums {

  function SeqSum<T>(s: seq<T>, w: T -> int): int {
    if |s| == 0 then 0 else SeqSum(s[..|s| - 1], w) + w(s[|s| - 1])
  }

  lemma {:induction false} SeqSumConcat<T>(a: seq<T>, b: seq<T>, w: T -> int)
    ensures SeqSum(a + b, w) == SeqSum(a, w) + SeqSum(b, w)
  {
    if |b| == 0 {
      assert a + b == a;
    } else {
      assert (a + b)[..|a + b| - 1] == a + b[..|b| - 1];
      SeqSumConcat(a, b[..|b| - 1], w);
    }
  }

  lemma SeqSumSnoc<T>(a: seq<T>, x: T, w: T -> int)
    ensures SeqSum(a + [x], w) == SeqSum(a, w) + w(x)
  {
    assert (a + [x])[..|a|] == a;
  }

  lemma RemoveOne<T>(a: seq<T>, b: seq<T>) returns (i: nat)
    requires |a| > 0 && multiset(a) == multiset(b)
    ensures i < |b| && b[i] == a[|a| - 1]
    ensures multiset(a[..|a| - 1]) == multiset(b[..i] + b[i + 1..])
  {
    var init, x := a[..|a| - 1], a[|a| - 1];
    assert a == init + [x];
    assert x in multiset(b);
    i :| 0 <= i < |b| && b[i] == x;
    assert b == b[..i] + [x] + b[i + 1..];
    assert multiset(init) == multiset(a) - multiset{x};
    assert multiset(b[..i] + b[i + 1..]) == multiset(b) - multiset{x};
  }

  /** The order of the rows does not matter. */
  lemma {:induction false} SeqSumPermutation<T>(a: seq<T>, b: seq<T>, w: T -> int)
    requires multiset(a) == multiset(b)
    ensures SeqSum(a, w) == SeqSum(b, w)
  {
    if |a| == 0 {
      assert |multiset(b)| == 0;
    } else {
      var i := RemoveOne(a, b);
      SeqSumPermutation(a[..|a| - 1], b[..i] + b[i + 1..], w);
      SeqSumConcat(b[..i], b[i + 1..], w);
      SeqSumSnoc(b[..i], b[i], w);
      SeqSumConcat(b[..i] + [b[i]], b[i + 1..], w);
      assert b == b[..i] + [b[i]] + b[i + 1..];
    }
  }

  ghost function SetSum<K>(keys: set<K>, f: K -> int): int {
    if keys == {} then 0 else var k :| k in keys; f(k) + SetSum(keys - {k}, f)
  }

  lemma {:induction false} SetSumRemove<K>(keys: set<K>, f: K -> int, k: K)
    requires k in keys
    ensures SetSum(keys, f) == f(k) + SetSum(keys - {k}, f)
  {
    var x :| x in keys && SetSum(keys, f) == f(x) + SetSum(keys - {x}, f);
    if x != k {
      SetSumRemove(keys - {x}, f, k);
      SetSumRemove(keys - {k}, f, x);
      assert keys - {x} - {k} == keys - {k} - {x};
    }
  }

  lemma {:induction false} SetSumAgree<K>(keys: set<K>, f: K -> int, g: K -> int)
    requires forall k | k in keys :: f(k) == g(k)
    ensures SetSum(keys, f) == SetSum(keys, g)
  {
    if keys == {} {
    } else {
      var k :| k in keys;
      SetSumRemove(keys, f, k);
      SetSumRemove(keys, g, k);
      SetSumAgree(keys - {k}, f, g);
    }
  }

  lemma {:induction false} SetSumPad<K>(keys: set<K>, extra: set<K>, f: K -> int)
    requires forall k | k in extra :: k !in keys ==> f(k) == 0
    ensures SetSum(keys + extra, f) == SetSum(keys, f)
  {
    if k :| k in extra && k !in keys {
      assert keys + extra - {k} == keys + (extra - {k});
      SetSumRemove(keys + extra, f, k);
      SetSumPad(keys, extra - {k}, f);
    } else {
      assert keys + extra == keys;
    }
  }

  /** What key `k` contributes to the total of table `m`. */
  ghost function Weight<K, V>(m: map<K, V>, w: (K, V) -> int): K -> int {
    k => if k in m then w(k, m[k]) else 0
  }

  /** The sum of `w` over every row of the table `m`. */
  ghost function Total<K, V>(m: map<K, V>, w: (K, V) -> int): int {
    SetSum(m.Keys, Weight(m, w))
  }

  lemma TotalAgree<K, V>(m: map<K, V>, w: (K, V) -> int, m': map<K, V>, w': (K, V) -> int)
    requires forall k | k in m.Keys + m'.Keys :: Weight(m, w)(k) == Weight(m', w')(k)
    ensures Total(m, w) == Total(m', w')
  {
    SetSumPad(m.Keys, m'.Keys, Weight(m, w));
    SetSumPad(m'.Keys, m.Keys, Weight(m', w'));
    assert m.Keys + m'.Keys == m'.Keys + m.Keys;
    SetSumAgree(m.Keys + m'.Keys, Weight(m, w), Weight(m', w'));
  }

  lemma TotalUpdate<K, V>(m: map<K, V>, k: K, v: V, w: (K, V) -> int)
    ensures Total(m[k := v], w) == Total(m, w) - Weight(m, w)(k) + w(k, v)
  {
    var m' := m[k := v];
    SetSumRemove(m'.Keys, Weight(m', w), k);
    SetSumAgree(m'.Keys - {k}, Weight(m', w), Weight(m, w));
    if k in m {
      SetSumRemove(m.Keys, Weight(m, w), k);
    }
    assert m'.Keys - {k} == m.Keys - {k};
    if k !in m {
      assert m.Keys - {k} == m.Keys;
    }
  }

  lemma {:induction false} SetSumAdd<K>(keys: set<K>, f: K -> int, g: K -> int, sum: K -> int)
    requires forall k | k in keys :: sum(k) == f(k) + g(k)
    ensures SetSum(keys, sum) == SetSum(keys, f) + SetSum(keys, g)
  {
    if keys == {} {
    } else {
      var k :| k in keys;
      SetSumRemove(keys, f, k);
      SetSumRemove(keys, g, k);
      SetSumRemove(keys, sum, k);
      SetSumAdd(keys - {k}, f, g, sum);
    }
  }

  lemma TotalSplit<K, V>(m: map<K, V>, w: (K, V) -> int, u: (K, V) -> int, v: (K, V) -> int)
    requires forall k | k in m :: w(k, m[k]) == u(k, m[k]) + v(k, m[k])
    ensures Total(m, w) == Total(m, u) + Total(m, v)
  {
    SetSumAdd(m.Keys, Weight(m, u), Weight(m, v), Weight(m, w));
  }

  /** A measure that sees one key only. */
  lemma TotalOne<K, V>(m: map<K, V>, k: K, w: (K, V) -> int)
    requires forall x | x in m && x != k :: w(x, m[x]) == 0
    ensures Total(m, w) == Weight(m, w)(k)
  {
    if k in m {
      SetSumRemove(m.Keys, Weight(m, w), k);
      SetSumZero(m.Keys - {k}, Weight(m, w));
    } else {
      SetSumZero(m.Keys, Weight(m, w));
    }
  }

  lemma {:induction false} SetSumZero<K>(keys: set<K>, f: K -> int)
    requires forall k | k in keys :: f(k) == 0
    ensures SetSum(keys, f) == 0
  {
    if keys == {} {
    } else {
      var k :| k in keys;
      SetSumRemove(keys, f, k);
      SetSumZero(keys - {k}, f);
    }
  }
}
