/** Weighted sums over sequences and ledgers. */
module Sums {
  import opened Sequences

  function Sum<T>(weight: T -> nat, xs: seq<T>): nat
    decreases |xs|
  {
    if xs == [] then 0 else Sum(weight, xs[..|xs| - 1]) + weight(xs[|xs| - 1])
  }

  lemma SumPush<T>(weight: T -> nat, xs: seq<T>, x: T)
    ensures Sum(weight, xs + [x]) == Sum(weight, xs) + weight(x)
  {
    assert (xs + [x])[..|xs|] == xs;
  }

  lemma {:induction false} SumConcat<T>(weight: T -> nat, xs: seq<T>, ys: seq<T>)
    ensures Sum(weight, xs + ys) == Sum(weight, xs) + Sum(weight, ys)
    decreases |ys|
  {
    if ys == [] {
      assert xs + ys == xs;
    } else {
      var front, last := ys[..|ys| - 1], ys[|ys| - 1];
      SumConcat(weight, xs, front);
      Assoc(xs, front, [last]);
      assert ys == front + [last];
      SumPush(weight, xs + front, last);
    }
  }

  lemma SumWithout<T>(weight: T -> nat, xs: seq<T>, i: nat)
    requires i < |xs|
    ensures Sum(weight, Without(xs, i)) == Sum(weight, xs) - weight(xs[i])
  {
    hide Sum;
    SumConcat(weight, xs[..i], xs[i + 1..]);
    SumPush(weight, xs[..i], xs[i]);
    SumConcat(weight, xs[..i] + [xs[i]], xs[i + 1..]);
    assert xs == xs[..i] + [xs[i]] + xs[i + 1..];
  }

  lemma SumUpdate<T>(weight: T -> nat, xs: seq<T>, i: nat, x: T)
    requires i < |xs|
    ensures Sum(weight, xs[i := x]) == Sum(weight, xs) - weight(xs[i]) + weight(x)
  {
    SumWithout(weight, xs, i);
    SumWithout(weight, xs[i := x], i);
    assert Without(xs[i := x], i) == Without(xs, i);
  }

  lemma {:induction false} SumFilter<T>(weight: T -> nat, p: T -> bool, xs: seq<T>)
    ensures Sum(weight, Filter(p, xs)) <= Sum(weight, xs)
    decreases |xs|
  {
    if xs != [] {
      SumFilter(weight, p, xs[..|xs| - 1]);
      SumPush(weight, Filter(p, xs[..|xs| - 1]), xs[|xs| - 1]);
      assert Filter(p, xs[..|xs| - 1]) + [] == Filter(p, xs[..|xs| - 1]);
    }
  }

  lemma {:induction false} SumPrefix<T>(weight: T -> nat, xs: seq<T>, n: nat)
    requires n <= |xs|
    ensures Sum(weight, xs[..n]) <= Sum(weight, xs)
    decreases |xs|
  {
    if n < |xs| {
      SumPrefix(weight, xs[..|xs| - 1], n);
      assert xs[..|xs| - 1][..n] == xs[..n];
    } else {
      assert xs[..n] == xs;
    }
  }

  lemma {:induction false} SumPositive<T>(weight: T -> nat, xs: seq<T>, i: nat)
    requires i < |xs|
    ensures weight(xs[i]) <= Sum(weight, xs)
  {
    SumWithout(weight, xs, i);
  }

  lemma MultisetWithout<T>(xs: seq<T>, i: nat)
    requires i < |xs|
    ensures multiset(xs) == multiset(Without(xs, i)) + multiset{xs[i]}
  {
    assert xs == xs[..i] + [xs[i]] + xs[i + 1..];
  }

  lemma MultisetCancel<T>(a: multiset<T>, b: multiset<T>, x: T)
    requires a + multiset{x} == b + multiset{x}
    ensures a == b
  {
    assert a == a + multiset{x} - multiset{x};
    assert b == b + multiset{x} - multiset{x};
  }

  /** A sum does not depend on the order. */
  lemma {:induction false} SumPermutation<T>(weight: T -> nat, xs: seq<T>, ys: seq<T>)
    requires multiset(xs) == multiset(ys)
    ensures Sum(weight, xs) == Sum(weight, ys)
    decreases |xs|
  {
    hide Without;
    if xs != [] {
      var front, last := xs[..|xs| - 1], xs[|xs| - 1];
      assert xs == front + [last];
      assert last in multiset(ys);
      var i :| 0 <= i < |ys| && ys[i] == last;
      MultisetWithout(ys, i);
      assert multiset(xs) == multiset(front) + multiset{last};
      MultisetCancel(multiset(Without(ys, i)), multiset(front), last);
      SumPermutation(weight, front, Without(ys, i));
      SumWithout(weight, ys, i);
    } else {
      assert |multiset(ys)| == 0;
    }
  }

  // ---------- ledgers ----------

  ghost function SumKeys<K>(m: map<K, nat>, keys: set<K>): nat
    requires keys <= m.Keys
  {
    if keys == {} then 0
    else
      var k :| k in keys;
      m[k] + SumKeys(m, keys - {k})
  }

  lemma {:induction false} SumKeysTake<K>(m: map<K, nat>, keys: set<K>, k: K)
    requires keys <= m.Keys && k in keys
    ensures SumKeys(m, keys) == m[k] + SumKeys(m, keys - {k})
    decreases keys
  {
    var first :| first in keys && SumKeys(m, keys) == m[first] + SumKeys(m, keys - {first});
    if first != k {
      SumKeysTake(m, keys - {first}, k);
      SumKeysTake(m, keys - {k}, first);
      assert keys - {first} - {k} == keys - {k} - {first};
    }
  }

  lemma {:induction false} SumKeysSame<K>(a: map<K, nat>, b: map<K, nat>, keys: set<K>)
    requires keys <= a.Keys && keys <= b.Keys && forall k :: k in keys ==> a[k] == b[k]
    ensures SumKeys(a, keys) == SumKeys(b, keys)
    decreases keys
  {
    if keys != {} {
      var k :| k in keys;
      SumKeysTake(a, keys, k);
      SumKeysTake(b, keys, k);
      SumKeysSame(a, b, keys - {k});
    }
  }

  lemma SumKeysSet<K>(m: map<K, nat>, k: K, n: nat)
    ensures SumKeys(m[k := n], m[k := n].Keys)
            == SumKeys(m, m.Keys) - (if k in m then m[k] else 0) + n
  {
    var after := m[k := n];
    SumKeysTake(after, after.Keys, k);
    if k in m {
      SumKeysTake(m, m.Keys, k);
    } else {
      assert m.Keys - {k} == m.Keys;
    }
    assert after.Keys - {k} == m.Keys - {k};
    SumKeysSame(m, after, m.Keys - {k});
  }

  lemma SumKeysDrop<K>(m: map<K, nat>, k: K)
    requires k in m
    ensures SumKeys(m - {k}, (m - {k}).Keys) == SumKeys(m, m.Keys) - m[k]
  {
    SumKeysTake(m, m.Keys, k);
    assert (m - {k}).Keys == m.Keys - {k};
    SumKeysSame(m, m - {k}, m.Keys - {k});
  }
}
