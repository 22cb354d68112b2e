/** Python's `list.sort(key=..., reverse=True)`: a stable sort into
    non-increasing key order. Elements with equal keys keep their original
    relative order (Python guarantees this for `reverse=True` too).

    The sort is defined once, generically over the key and its order, by
    insertion; `SortedStableUnique` shows that any sorted arrangement that
    keeps every key's elements in input order is this one, so the insertion
    is only a means of computing the unique stable result. */
module StableSort {

  /** `le` is a total order on keys. */
  ghost predicate TotalOrder<K(!new)>(le: (K, K) -> bool) {
    && (forall a :: le(a, a))
    && (forall a, b :: le(a, b) && le(b, a) ==> a == b)
    && (forall a, b, c :: le(a, b) && le(b, c) ==> le(a, c))
    && (forall a, b :: le(a, b) || le(b, a))
  }

  /** Keys never increase from left to right. */
  ghost predicate SortedDesc<T, K(!new)>(s: seq<T>, key: T -> K, le: (K, K) -> bool) {
    forall i, j :: 0 <= i < j < |s| ==> le(key(s[j]), key(s[i]))
  }

  /** The elements of `s` whose key is `k`, in their order in `s`. */
  function WithKey<T, K(==)>(s: seq<T>, key: T -> K, k: K): seq<T> {
    if |s| == 0 then []
    else (if key(s[0]) == k then [s[0]] else []) + WithKey(s[1..], key, k)
  }

  /** Places `x` in front of the first element whose key is not greater
      than its own, so that it precedes every element of equal key. */
  function Insert<T, K>(x: T, ys: seq<T>, key: T -> K, le: (K, K) -> bool): (r: seq<T>)
    ensures multiset(r) == multiset(ys) + multiset{x}
  {
    if |ys| == 0 || le(key(ys[0]), key(x)) then [x] + ys
    else
      assert ys == [ys[0]] + ys[1..];
      [ys[0]] + Insert(x, ys[1..], key, le)
  }

  /** `sorted(s, key=key, reverse=True)` */
  function SortDesc<T, K>(s: seq<T>, key: T -> K, le: (K, K) -> bool): (r: seq<T>)
    ensures multiset(r) == multiset(s)
    ensures |r| == |s|
  {
    if |s| == 0 then []
    else
      assert s == [s[0]] + s[1..];
      Insert(s[0], SortDesc(s[1..], key, le), key, le)
  }

  lemma {:induction false} InsertSorted<T, K(!new)>(x: T, ys: seq<T>, key: T -> K, le: (K, K) -> bool)
    requires TotalOrder(le)
    requires SortedDesc(ys, key, le)
    ensures SortedDesc(Insert(x, ys, key, le), key, le)
  {
    var r := Insert(x, ys, key, le);
    if |ys| == 0 || le(key(ys[0]), key(x)) {
      forall i, j | 0 <= i < j < |r|
        ensures le(key(r[j]), key(r[i]))
      {
        if i == 0 {
          assert r[j] == ys[j - 1];
          assert le(key(ys[j - 1]), key(ys[0]));
        } else {
          assert r[i] == ys[i - 1] && r[j] == ys[j - 1];
        }
      }
    } else {
      var tail := Insert(x, ys[1..], key, le);
      InsertSorted(x, ys[1..], key, le);
      assert r == [ys[0]] + tail;
      forall j | 0 <= j < |tail|
        ensures le(key(tail[j]), key(ys[0]))
      {
        assert tail[j] in multiset(tail);
        assert tail[j] == x || tail[j] in multiset(ys[1..]);
        if tail[j] != x {
          var m :| 0 <= m < |ys[1..]| && ys[1..][m] == tail[j];
          assert ys[m + 1] == tail[j];
        }
      }
      forall i, j | 0 <= i < j < |r|
        ensures le(key(r[j]), key(r[i]))
      {
        if i == 0 {
          assert r[j] == tail[j - 1];
        } else {
          assert r[i] == tail[i - 1] && r[j] == tail[j - 1];
        }
      }
    }
  }

  /** The result is in non-increasing key order. */
  lemma {:induction false} SortDescSorted<T, K(!new)>(s: seq<T>, key: T -> K, le: (K, K) -> bool)
    requires TotalOrder(le)
    ensures SortedDesc(SortDesc(s, key, le), key, le)
  {
    if |s| > 0 {
      SortDescSorted(s[1..], key, le);
      InsertSorted(s[0], SortDesc(s[1..], key, le), key, le);
    }
  }

  lemma {:induction false} WithKeyAppend<T, K>(a: seq<T>, b: seq<T>, key: T -> K, k: K)
    ensures WithKey(a + b, key, k) == WithKey(a, key, k) + WithKey(b, key, k)
  {
    if |a| == 0 {
      assert a + b == b;
    } else {
      var here := if key(a[0]) == k then [a[0]] else [];
      assert (a + b)[0] == a[0];
      assert (a + b)[1..] == a[1..] + b;
      assert WithKey(a + b, key, k) == here + WithKey(a[1..] + b, key, k);
      WithKeyAppend(a[1..], b, key, k);
      assert WithKey(a, key, k) == here + WithKey(a[1..], key, k);
      assert here + (WithKey(a[1..], key, k) + WithKey(b, key, k))
          == (here + WithKey(a[1..], key, k)) + WithKey(b, key, k);
    }
  }

  lemma WithKeySingle<T, K>(x: T, key: T -> K, k: K)
    ensures WithKey([x], key, k) == if key(x) == k then [x] else []
  {
    assert [x][1..] == [];
  }

  lemma {:induction false} InsertWithKey<T, K(!new)>(x: T, ys: seq<T>, key: T -> K, le: (K, K) -> bool, k: K)
    requires forall a :: le(a, a)
    ensures WithKey(Insert(x, ys, key, le), key, k)
         == (if key(x) == k then [x] else []) + WithKey(ys, key, k)
  {
    var here := if key(x) == k then [x] else [];
    WithKeySingle(x, key, k);
    if |ys| == 0 || le(key(ys[0]), key(x)) {
      WithKeyAppend([x], ys, key, k);
    } else {
      // ys[0] is passed over only when its key is strictly above x's, so at
      // most one of the two carries key k.
      assert le(key(x), key(x));
      assert key(ys[0]) != key(x);
      var tail := Insert(x, ys[1..], key, le);
      var head := WithKey([ys[0]], key, k);
      WithKeySingle(ys[0], key, k);
      assert head == [] || here == [];
      InsertWithKey(x, ys[1..], key, le, k);
      WithKeyAppend([ys[0]], tail, key, k);
      WithKeyAppend([ys[0]], ys[1..], key, k);
      assert ys == [ys[0]] + ys[1..];
      calc {
        WithKey(Insert(x, ys, key, le), key, k);
        WithKey([ys[0]] + tail, key, k);
        head + WithKey(tail, key, k);
        head + (here + WithKey(ys[1..], key, k));
        here + (head + WithKey(ys[1..], key, k));
        here + WithKey(ys, key, k);
      }
    }
  }

  /** Stability: for every key, the elements carrying it appear in the
      result in the same order as in the input. */
  lemma {:induction false} SortDescStable<T, K(!new)>(s: seq<T>, key: T -> K, le: (K, K) -> bool, k: K)
    requires TotalOrder(le)
    ensures WithKey(SortDesc(s, key, le), key, k) == WithKey(s, key, k)
  {
    if |s| > 0 {
      SortDescStable(s[1..], key, le, k);
      InsertWithKey(s[0], SortDesc(s[1..], key, le), key, le, k);
    }
  }

  lemma {:induction false} WithKeyMembers<T, K>(s: seq<T>, key: T -> K, k: K, x: T)
    requires x in WithKey(s, key, k)
    ensures x in s && key(x) == k
  {
    if |s| > 0 && !(key(s[0]) == k && x == s[0]) {
      WithKeyMembers(s[1..], key, k, x);
    }
  }

  lemma WithKeyNonEmpty<T, K>(s: seq<T>, key: T -> K)
    requires |s| > 0
    ensures WithKey(s, key, key(s[0])) != []
  {
  }

  /** Two sorted arrangements with the same key classes start with the same
      key: each head's key is at most the other's. */
  lemma HeadKeysAgree<T, K(!new)>(t: seq<T>, u: seq<T>, key: T -> K, le: (K, K) -> bool)
    requires TotalOrder(le)
    requires SortedDesc(t, key, le) && SortedDesc(u, key, le)
    requires forall k :: WithKey(t, key, k) == WithKey(u, key, k)
    requires |t| > 0 && |u| > 0
    ensures key(t[0]) == key(u[0])
  {
    var k0, k1 := key(t[0]), key(u[0]);
    WithKeyNonEmpty(t, key);
    assert WithKey(t, key, k0) == [t[0]] + WithKey(t[1..], key, k0);
    assert t[0] in WithKey(u, key, k0);
    WithKeyMembers(u, key, k0, t[0]);
    var j :| 0 <= j < |u| && u[j] == t[0];
    assert le(k0, k1) by {
      if j > 0 {
        assert le(key(u[j]), key(u[0]));
      }
    }
    WithKeyNonEmpty(u, key);
    assert WithKey(u, key, k1) == [u[0]] + WithKey(u[1..], key, k1);
    assert u[0] in WithKey(t, key, k1);
    WithKeyMembers(t, key, k1, u[0]);
    var i :| 0 <= i < |t| && t[i] == u[0];
    assert le(k1, k0) by {
      if i > 0 {
        assert le(key(t[i]), key(t[0]));
      }
    }
  }

  /** Dropping equal heads keeps every key class equal. */
  lemma TailClassesEqual<T, K>(t: seq<T>, u: seq<T>, key: T -> K)
    requires |t| > 0 && |u| > 0 && t[0] == u[0]
    requires forall k :: WithKey(t, key, k) == WithKey(u, key, k)
    ensures forall k :: WithKey(t[1..], key, k) == WithKey(u[1..], key, k)
  {
    forall k
      ensures WithKey(t[1..], key, k) == WithKey(u[1..], key, k)
    {
      assert WithKey(t, key, k) == WithKey(u, key, k);
      if k == key(t[0]) {
        assert WithKey(t[1..], key, k) == WithKey(t, key, k)[1..];
        assert WithKey(u[1..], key, k) == WithKey(u, key, k)[1..];
      } else {
        assert WithKey(t, key, k) == WithKey(t[1..], key, k);
        assert WithKey(u, key, k) == WithKey(u[1..], key, k);
      }
    }
  }

  lemma {:induction false} SameClassesSortedEqual<T, K(!new)>(t: seq<T>, u: seq<T>, key: T -> K, le: (K, K) -> bool)
    requires TotalOrder(le)
    requires SortedDesc(t, key, le) && SortedDesc(u, key, le)
    requires forall k :: WithKey(t, key, k) == WithKey(u, key, k)
    ensures t == u
    decreases |t| + |u|
  {
    if |t| == 0 || |u| == 0 {
      if |t| > 0 {
        WithKeyNonEmpty(t, key);
      }
      if |u| > 0 {
        WithKeyNonEmpty(u, key);
      }
      return;
    }
    HeadKeysAgree(t, u, key, le);
    var k0 := key(t[0]);
    assert WithKey(t, key, k0) == [t[0]] + WithKey(t[1..], key, k0);
    assert WithKey(u, key, k0) == [u[0]] + WithKey(u[1..], key, k0);
    assert t[0] == WithKey(t, key, k0)[0] == WithKey(u, key, k0)[0] == u[0];
    TailClassesEqual(t, u, key);
    SameClassesSortedEqual(t[1..], u[1..], key, le);
    assert t == [t[0]] + t[1..] && u == [u[0]] + u[1..];
  }

  /** `SortDesc` is the only arrangement that is in non-increasing key order
      and keeps the input order among equal keys: an independent statement of
      what a stable descending sort must return. */
  lemma SortedStableUnique<T, K(!new)>(s: seq<T>, t: seq<T>, key: T -> K, le: (K, K) -> bool)
    requires TotalOrder(le)
    requires SortedDesc(t, key, le)
    requires forall k :: WithKey(t, key, k) == WithKey(s, key, k)
    ensures t == SortDesc(s, key, le)
  {
    var u := SortDesc(s, key, le);
    SortDescSorted(s, key, le);
    forall k
      ensures WithKey(t, key, k) == WithKey(u, key, k)
    {
      SortDescStable(s, key, le, k);
    }
    SameClassesSortedEqual(t, u, key, le);
  }
}
