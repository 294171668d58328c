/**
 * `Array.prototype.sort` with a numeric comparator, as the journal uses it: a stable sort
 * on a real-valued key. Every sort in the source orders by `key(b) - key(a)` (newest or
 * largest first) or by `key(a) - key(b)`, which is the same sort on the negated key.
 */
module Sorting {

  ghost predicate SortedDesc<T>(s: seq<T>, key: T -> real)
  {
    forall i, j :: 0 <= i < j < |s| ==> key(s[i]) >= key(s[j])
  }

  ghost predicate DistinctBy<T, U>(s: seq<T>, f: T -> U)
  {
    forall i, j :: 0 <= i < j < |s| ==> f(s[i]) != f(s[j])
  }

  /** Puts `x` before the first element whose key is not larger. */
  function Insert<T>(x: T, s: seq<T>, key: T -> real): (r: seq<T>)
    ensures multiset(r) == multiset(s) + multiset{x}
    ensures |s| == 0 ==> r == [x]
    ensures |s| > 0 ==> r[0] == x || r[0] == s[0]
  {
    if |s| == 0 || key(x) >= key(s[0]) then
      [x] + s
    else
      assert s == [s[0]] + s[1..];
      [s[0]] + Insert(x, s[1..], key)
  }

  lemma {:induction false} InsertSorted<T>(x: T, s: seq<T>, key: T -> real)
    requires SortedDesc(s, key)
    ensures SortedDesc(Insert(x, s, key), key)
  {
    if |s| == 0 || key(x) >= key(s[0]) {
    } else {
      var t := Insert(x, s[1..], key);
      InsertSorted(x, s[1..], key);
      forall j | 0 <= j < |t| ensures key(s[0]) >= key(t[j]) {
        assert key(t[0]) >= key(t[j]) || j == 0;
      }
    }
  }

  /** Insertion sort: largest key first, stable on ties. */
  function SortDesc<T>(s: seq<T>, key: T -> real): (r: seq<T>)
    ensures multiset(r) == multiset(s)
    ensures |r| == |s|
    ensures SortedDesc(r, key)
  {
    if |s| == 0 then []
    else
      assert s == [s[0]] + s[1..];
      InsertSorted(s[0], SortDesc(s[1..], key), key);
      Insert(s[0], SortDesc(s[1..], key), key)
  }

  lemma {:induction false} SortedMembers<T>(s: seq<T>, key: T -> real, x: T)
    ensures x in SortDesc(s, key) <==> x in s
  {
    assert x in SortDesc(s, key) <==> x in multiset(SortDesc(s, key));
  }

  lemma {:induction false} InsertKeepsDistinct<T, U>(x: T, s: seq<T>, key: T -> real, f: T -> U)
    requires DistinctBy(s, f)
    requires forall y :: y in s ==> f(y) != f(x)
    ensures DistinctBy(Insert(x, s, key), f)
  {
    if |s| == 0 || key(x) >= key(s[0]) {
    } else {
      var t := Insert(x, s[1..], key);
      assert s == [s[0]] + s[1..];
      InsertKeepsDistinct(x, s[1..], key, f);
      forall j | 0 <= j < |t| ensures f(s[0]) != f(t[j]) {
        assert t[j] in multiset(t);
        if t[j] != x {
          assert t[j] in s[1..];
          var k :| 0 <= k < |s[1..]| && s[1..][k] == t[j];
          assert s[k + 1] == t[j];
        }
      }
    }
  }

  /** Sorting never makes two elements agree on a projection that told them apart. */
  lemma {:induction false} SortKeepsDistinct<T, U>(s: seq<T>, key: T -> real, f: T -> U)
    requires DistinctBy(s, f)
    ensures DistinctBy(SortDesc(s, key), f)
  {
    if |s| > 0 {
      assert s == [s[0]] + s[1..];
      assert DistinctBy(s[1..], f);
      SortKeepsDistinct(s[1..], key, f);
      forall y | y in SortDesc(s[1..], key) ensures f(y) != f(s[0]) {
        SortedMembers(s[1..], key, y);
        var k :| 0 <= k < |s[1..]| && s[1..][k] == y;
        assert s[k + 1] == y;
      }
      InsertKeepsDistinct(s[0], SortDesc(s[1..], key), key, f);
    }
  }

  /** The elements whose key is `v`, in their order in `s`. */
  function WithKey<T>(s: seq<T>, key: T -> real, v: real): (r: seq<T>)
    ensures |r| <= |s|
  {
    if |s| == 0 then []
    else (if key(s[0]) == v then [s[0]] else []) + WithKey(s[1..], key, v)
  }

  /** Inserting `x` puts it in front of every element that has its key. */
  lemma {:induction false} InsertWithKey<T>(x: T, s: seq<T>, key: T -> real, v: real)
    ensures WithKey(Insert(x, s, key), key, v) == (if key(x) == v then [x] else []) + WithKey(s, key, v)
  {
    var r := Insert(x, s, key);
    if |s| == 0 || key(x) >= key(s[0]) {
      assert r == [x] + s && r[1..] == s;
      assert WithKey(r, key, v) == (if key(x) == v then [x] else []) + WithKey(s, key, v);
    } else {
      var t := Insert(x, s[1..], key);
      assert r == [s[0]] + t && r[1..] == t;
      InsertWithKey(x, s[1..], key, v);
      if key(x) == v {
        assert key(s[0]) != v;
        assert WithKey(r, key, v) == WithKey(t, key, v) == [x] + WithKey(s[1..], key, v);
        assert WithKey(s, key, v) == WithKey(s[1..], key, v);
        assert WithKey(r, key, v) == (if key(x) == v then [x] else []) + WithKey(s, key, v);
      } else if key(s[0]) == v {
        assert WithKey(r, key, v) == [s[0]] + WithKey(t, key, v);
        assert WithKey(s, key, v) == [s[0]] + WithKey(s[1..], key, v);
        assert WithKey(r, key, v) == (if key(x) == v then [x] else []) + WithKey(s, key, v);
      } else {
        assert WithKey(r, key, v) == WithKey(t, key, v);
        assert WithKey(s, key, v) == WithKey(s[1..], key, v);
        assert WithKey(r, key, v) == (if key(x) == v then [x] else []) + WithKey(s, key, v);
      }
    }
  }

  /** The sort is stable: elements with equal keys keep their input order. */
  lemma {:induction false} SortStable<T>(s: seq<T>, key: T -> real, v: real)
    ensures WithKey(SortDesc(s, key), key, v) == WithKey(s, key, v)
  {
    if |s| > 0 {
      SortStable(s[1..], key, v);
      InsertWithKey(s[0], SortDesc(s[1..], key), key, v);
    }
  }
}
