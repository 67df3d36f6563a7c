/**
 * Python's `sorted(..., key=...)` (stable) and `min`/`max` with a key (the
 * first extreme element wins), over keys that are pairs of floats compared
 * lexicographically as Python compares tuples.
 */
module Sorting {

  /** A sort key: a pair of floats, compared as Python compares tuples. */
  type Key = (real, real)

  predicate KeyLe(a: Key, b: Key)
  {
    a.0 < b.0 || (a.0 == b.0 && a.1 <= b.1)
  }

  /** The key that sorts in the opposite direction (`reverse=True`). */
  function Neg(k: Key): Key
  {
    (-k.0, -k.1)
  }

  predicate SortedBy<T>(s: seq<T>, key: T -> Key)
  {
    forall i, j :: 0 <= i < j < |s| ==> KeyLe(key(s[i]), key(s[j]))
  }

  /** Inserts `x` before the first element whose key is not below its own. */
  function Insert<T>(x: T, s: seq<T>, key: T -> Key): (r: seq<T>)
    requires SortedBy(s, key)
    ensures |r| == |s| + 1
    ensures multiset(r) == multiset(s) + multiset{x}
    ensures SortedBy(r, key)
  {
    if s == [] then [x]
    else if KeyLe(key(x), key(s[0])) then [x] + s
    else
      var rest := Insert(x, s[1..], key);
      assert s == [s[0]] + s[1..];
      BelowAll(s[0], s[1..], x, rest, key);
      ConsSorted(s[0], rest, key);
      [s[0]] + rest
  }

  /** An element whose key is at most those of `t` and of `x` is at most those of any arrangement of them. */
  lemma BelowAll<T>(a: T, t: seq<T>, x: T, r: seq<T>, key: T -> Key)
    requires multiset(r) == multiset(t) + multiset{x}
    requires KeyLe(key(a), key(x))
    requires forall k :: 0 <= k < |t| ==> KeyLe(key(a), key(t[k]))
    ensures forall j :: 0 <= j < |r| ==> KeyLe(key(a), key(r[j]))
  {
    forall j | 0 <= j < |r| ensures KeyLe(key(a), key(r[j])) {
      assert r[j] in multiset(r);
      if r[j] != x {
        assert r[j] in multiset(t);
        var k :| 0 <= k < |t| && t[k] == r[j];
      }
    }
  }

  /** A sorted sequence stays sorted with an element in front whose key is at most all of its keys. */
  lemma ConsSorted<T>(a: T, r: seq<T>, key: T -> Key)
    requires SortedBy(r, key)
    requires forall j :: 0 <= j < |r| ==> KeyLe(key(a), key(r[j]))
    ensures SortedBy([a] + r, key)
  {
    var u := [a] + r;
    forall i, j | 0 <= i < j < |u| ensures KeyLe(key(u[i]), key(u[j])) {
      assert u[j] == r[j - 1];
      if i > 0 {
        assert u[i] == r[i - 1];
      }
    }
  }

  /** `sorted(s, key=key)`: a sorted permutation of `s`. */
  function SortBy<T>(s: seq<T>, key: T -> Key): (r: seq<T>)
    ensures |r| == |s|
    ensures multiset(r) == multiset(s)
    ensures SortedBy(r, key)
  {
    if s == [] then []
    else
      assert s == [s[0]] + s[1..];
      Insert(s[0], SortBy(s[1..], key), key)
  }

  /** `sorted(s, key=key, reverse=True)`: non-increasing keys, same elements. */
  function SortByDesc<T>(s: seq<T>, key: T -> Key): (r: seq<T>)
    ensures |r| == |s|
    ensures multiset(r) == multiset(s)
    ensures forall i, j :: 0 <= i < j < |r| ==> KeyLe(key(r[j]), key(r[i]))
  {
    var r := SortBy(s, NegKey(key));
    assert forall i, j :: 0 <= i < j < |r| ==> KeyLe(Neg(key(r[i])), Neg(key(r[j])));
    r
  }

  /** The key function of `reverse=True`. */
  function NegKey<T>(key: T -> Key): T -> Key
  {
    t => Neg(key(t))
  }

  /** The elements of `s` whose key is `k`, in their order in `s`. */
  function WithKey<T>(s: seq<T>, key: T -> Key, k: Key): seq<T>
  {
    if s == [] then [] else (if key(s[0]) == k then [s[0]] else []) + WithKey(s[1..], key, k)
  }

  /** Inserting `x` puts it before every element of equal key already in place. */
  lemma {:induction false} InsertStable<T>(x: T, t: seq<T>, key: T -> Key, k: Key)
    requires SortedBy(t, key)
    ensures WithKey(Insert(x, t, key), key, k) == (if key(x) == k then [x] else []) + WithKey(t, key, k)
    decreases |t|
  {
    if t == [] {
      WithKeyCons(x, [], key, k);
    } else if KeyLe(key(x), key(t[0])) {
      assert Insert(x, t, key) == [x] + t;
      WithKeyCons(x, t, key, k);
    } else {
      SortedTail(t, key);
      var rest := Insert(x, t[1..], key);
      assert Insert(x, t, key) == [t[0]] + rest;
      InsertStable(x, t[1..], key, k);
      WithKeyCons(t[0], rest, key, k);
      assert key(x) != key(t[0]);
    }
  }

  lemma WithKeyCons<T>(a: T, r: seq<T>, key: T -> Key, k: Key)
    ensures WithKey([a] + r, key, k) == (if key(a) == k then [a] else []) + WithKey(r, key, k)
  {
    assert ([a] + r)[0] == a;
    assert ([a] + r)[1..] == r;
  }

  lemma SortedTail<T>(t: seq<T>, key: T -> Key)
    requires t != [] && SortedBy(t, key)
    ensures SortedBy(t[1..], key)
  {
    forall i, j | 0 <= i < j < |t| - 1 ensures KeyLe(key(t[1..][i]), key(t[1..][j])) {
      assert t[1..][i] == t[i + 1] && t[1..][j] == t[j + 1];
    }
  }

  /**
   * `sorted` is stable: the elements of any one key appear in the result in
   * the order they have in the input.
   */
  lemma {:induction false} SortStable<T>(s: seq<T>, key: T -> Key, k: Key)
    ensures WithKey(SortBy(s, key), key, k) == WithKey(s, key, k)
    decreases |s|
  {
    if s != [] {
      SortStable(s[1..], key, k);
      InsertStable(s[0], SortBy(s[1..], key), key, k);
    }
  }

  /** Negating the keys picks out the same elements for the negated key. */
  lemma {:induction false} WithNegKey<T>(s: seq<T>, key: T -> Key, k: Key)
    ensures WithKey(s, NegKey(key), Neg(k)) == WithKey(s, key, k)
    decreases |s|
  {
    if s != [] {
      assert NegKey(key)(s[0]) == Neg(k) <==> key(s[0]) == k;
      WithNegKey(s[1..], key, k);
    }
  }

  /** `sorted(..., reverse=True)` is stable as well: ties keep their input order. */
  lemma SortDescStable<T>(s: seq<T>, key: T -> Key, k: Key)
    ensures WithKey(SortByDesc(s, key), key, k) == WithKey(s, key, k)
  {
    SortStable(s, NegKey(key), Neg(k));
    WithNegKey(SortBy(s, NegKey(key)), key, k);
    WithNegKey(s, key, k);
  }

  /**
   * The first `n` elements of a sorted arrangement of `s`: all come from
   * `s`, and no element left out has a smaller key than one kept.
   */
  lemma SortedPrefix<T>(s: seq<T>, t: seq<T>, key: T -> Key, n: nat)
    requires multiset(t) == multiset(s) && SortedBy(t, key) && n <= |t|
    ensures forall x :: x in t[..n] ==> x in s
    ensures forall y, k :: y in s && y !in t[..n] && 0 <= k < n ==> KeyLe(key(t[k]), key(y))
  {
    forall x | x in t[..n] ensures x in s {
      assert x in multiset(t);
    }
    forall y, k | y in s && y !in t[..n] && 0 <= k < n ensures KeyLe(key(t[k]), key(y)) {
      assert y in multiset(t);
      var j :| 0 <= j < |t| && t[j] == y;
      assert j >= n;
    }
  }

  /** The index `min(s, key=key)` returns: the first element with the least key. */
  function ArgMin<T>(s: seq<T>, key: T -> Key): (i: nat)
    requires |s| > 0
    ensures i < |s|
    ensures forall j :: 0 <= j < |s| ==> KeyLe(key(s[i]), key(s[j]))
    ensures forall j :: 0 <= j < i ==> !KeyLe(key(s[j]), key(s[i]))
  {
    if |s| == 1 then 0
    else
      var k := ArgMin(s[1..], key);
      if KeyLe(key(s[0]), key(s[k + 1])) then 0 else k + 1
  }

  /** The index `max(s, key=key)` returns: the first element with the greatest key. */
  function ArgMax<T>(s: seq<T>, key: T -> Key): (i: nat)
    requires |s| > 0
    ensures i < |s|
    ensures forall j :: 0 <= j < |s| ==> KeyLe(key(s[j]), key(s[i]))
    ensures forall j :: 0 <= j < i ==> !KeyLe(key(s[i]), key(s[j]))
  {
    if |s| == 1 then 0
    else
      var k := ArgMax(s[1..], key);
      if KeyLe(key(s[k + 1]), key(s[0])) then 0 else k + 1
  }
}
