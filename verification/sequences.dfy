/** The list operations of the source language that the engine relies on:
    `sorted(s, key=k)` (a stable sort), `s[-1]` and `s.remove(x)`. */
module Sequences {

  function Last<T>(s: seq<T>): T
    requires |s| > 0
  {
    s[|s| - 1]
  }

  /** Index of the first occurrence of `x` in `s`. */
  function FirstIndex<T(==)>(s: seq<T>, x: T): (i: nat)
    requires x in s
    ensures i < |s| && s[i] == x && x !in s[..i]
  {
    if s[0] == x then 0
    else
      var j := FirstIndex(s[1..], x);
      assert s[..j + 1] == [s[0]] + s[1..][..j];
      j + 1
  }

  /** Any position holding `x` with no `x` before it is the first index. */
  lemma {:induction false} FirstIndexUnique<T>(s: seq<T>, x: T, i: int)
    requires 0 <= i < |s| && s[i] == x && x !in s[..i]
    ensures FirstIndex(s, x) == i
  {
    if i > 0 {
      assert s[0] in s[..i];
      assert s[1..][..i - 1] == s[1..i];
      assert forall y :: y in s[1..i] ==> y in s[..i];
      FirstIndexUnique(s[1..], x, i - 1);
    }
  }

  /** The list comprehension `[x for x in s if keep(x)]`. */
  function Filter<T>(s: seq<T>, keep: T -> bool): (r: seq<T>)
    ensures |r| <= |s|
  {
    if s == [] then []
    else
      var x := s[|s| - 1];
      Filter(s[..|s| - 1], keep) + (if keep(x) then [x] else [])
  }

  /** A comprehension keeps the elements that pass, and only those. */
  lemma {:induction false} FilterMembers<T>(s: seq<T>, keep: T -> bool)
    ensures forall x :: x in Filter(s, keep) <==> x in s && keep(x)
  {
    if s != [] {
      FilterMembers(s[..|s| - 1], keep);
      assert s == s[..|s| - 1] + [s[|s| - 1]];
    }
  }

  /** A comprehension keeps order and repetition: over a concatenation it
      filters each part in turn (and, by `FilterOne`, each element alone). */
  lemma {:induction false} FilterAppend<T>(a: seq<T>, b: seq<T>, keep: T -> bool)
    ensures Filter(a + b, keep) == Filter(a, keep) + Filter(b, keep)
  {
    if b == [] {
      assert a + b == a;
    } else {
      var n := |b| - 1;
      var last := if keep(b[n]) then [b[n]] else [];
      assert Filter(a + b, keep) == Filter(a + b[..n], keep) + last by {
        assert (a + b)[..|a + b| - 1] == a + b[..n];
      }
      FilterAppend(a, b[..n], keep);
    }
  }

  /** A single element is kept exactly when it passes. */
  lemma FilterOne<T>(x: T, keep: T -> bool)
    ensures Filter([x], keep) == if keep(x) then [x] else []
  {
    assert [x][..0] == [];
  }

  /** `list.remove(x)`: drops the first element equal to `x`. The source
      raises `ValueError` when there is none; every call in the engine first
      makes sure `x` is present, and this total version returns such a list
      unchanged. */
  function RemoveFirst<T(==)>(s: seq<T>, x: T): (r: seq<T>)
    ensures x !in s ==> r == s
    ensures x in s ==> |r| == |s| - 1
  {
    if s == [] then []
    else if s[0] == x then s[1..]
    else [s[0]] + RemoveFirst(s[1..], x)
  }

  /** Removal keeps everything else, in order: exactly the first occurrence goes. */
  lemma {:induction false} RemoveFirstAt<T>(s: seq<T>, x: T)
    requires x in s
    ensures RemoveFirst(s, x) == s[..FirstIndex(s, x)] + s[FirstIndex(s, x) + 1..]
  {
    if s[0] == x {
      assert FirstIndex(s, x) == 0;
    } else {
      var j := FirstIndex(s[1..], x);
      assert FirstIndex(s, x) == j + 1;
      RemoveFirstAt(s[1..], x);
      assert [s[0]] + (s[1..][..j] + s[1..][j + 1..]) == s[..j + 1] + s[j + 2..] by {
        assert [s[0]] + s[1..][..j] == s[..j + 1];
        assert s[1..][j + 1..] == s[j + 2..];
      }
    }
  }

  /** Removal takes away exactly one copy of `x` and nothing else. */
  lemma RemoveFirstMultiset<T>(s: seq<T>, x: T)
    requires x in s
    ensures multiset(RemoveFirst(s, x)) == multiset(s) - multiset{x}
  {
    RemoveFirstAt(s, x);
    var i := FirstIndex(s, x);
    assert s == s[..i] + [x] + s[i + 1..];
  }

  /** The first `x`, if any, taken out and put at the end. */
  function MoveLast<T(==)>(s: seq<T>, x: T): (r: seq<T>)
    ensures |r| == |s|
    ensures x in s ==> r[|r| - 1] == x
  {
    if x in s then RemoveFirst(s, x) + [x] else s
  }

  /** Moving an element to the end permutes the sequence. */
  lemma MoveLastMultiset<T>(s: seq<T>, x: T)
    ensures multiset(MoveLast(s, x)) == multiset(s)
    ensures |MoveLast(s, x)| == |s|
  {
    if x in s {
      RemoveFirstMultiset(s, x);
      assert multiset(s) == multiset(RemoveFirst(s, x)) + multiset{x};
    }
  }

  /** `s` is non-decreasing in `key`. */
  ghost predicate SortedBy<T>(s: seq<T>, key: T -> real) {
    forall i, j :: 0 <= i < j < |s| ==> key(s[i]) <= key(s[j])
  }

  /** Places `x` in front of the first element whose key is not below its own. */
  function Insert<T>(x: T, t: seq<T>, key: T -> real): (r: seq<T>)
    ensures |r| == |t| + 1
  {
    if t == [] || key(x) <= key(t[0]) then [x] + t
    else [t[0]] + Insert(x, t[1..], key)
  }

  /** `sorted(s, key=key)`: an insertion sort that keeps equal keys in
      their input order. */
  function SortBy<T>(s: seq<T>, key: T -> real): (r: seq<T>)
    ensures |r| == |s|
  {
    if s == [] then []
    else Insert(s[0], SortBy(s[1..], key), key)
  }

  lemma {:induction false} InsertMultiset<T>(x: T, t: seq<T>, key: T -> real)
    ensures multiset(Insert(x, t, key)) == multiset(t) + multiset{x}
  {
    if t != [] && !(key(x) <= key(t[0])) {
      InsertMultiset(x, t[1..], key);
      assert t == [t[0]] + t[1..];
    }
  }

  /** `sorted` returns a permutation of its input. */
  lemma {:induction false} SortByMultiset<T>(s: seq<T>, key: T -> real)
    ensures multiset(SortBy(s, key)) == multiset(s)
  {
    if s != [] {
      SortByMultiset(s[1..], key);
      InsertMultiset(s[0], SortBy(s[1..], key), key);
      assert s == [s[0]] + s[1..];
    }
  }

  /** The subsequence of `s` whose key is `v`. */
  function WithKey<T>(s: seq<T>, key: T -> real, v: real): seq<T> {
    if s == [] then []
    else (if key(s[0]) == v then [s[0]] else []) + WithKey(s[1..], key, v)
  }

  lemma WithKeyCons<T>(x: T, t: seq<T>, key: T -> real, v: real)
    ensures WithKey([x] + t, key, v) == (if key(x) == v then [x] else []) + WithKey(t, key, v)
  {
    assert ([x] + t)[1..] == t;
  }

  lemma {:induction false} InsertSorted<T>(x: T, t: seq<T>, key: T -> real)
    requires SortedBy(t, key)
    ensures SortedBy(Insert(x, t, key), key)
  {
    var r := Insert(x, t, key);
    if t != [] && !(key(x) <= key(t[0])) {
      var rest := Insert(x, t[1..], key);
      InsertSorted(x, t[1..], key);
      InsertMultiset(x, t[1..], key);
      assert r == [t[0]] + rest;
      forall i | 0 < i < |r| ensures key(t[0]) <= key(r[i]) {
        assert r[i] == rest[i - 1];
        assert r[i] in multiset(rest);
        if r[i] != x {
          assert r[i] in multiset(t[1..]);
          var k :| 0 <= k < |t[1..]| && t[1..][k] == r[i];
          assert t[k + 1] == r[i];
        }
      }
    }
  }

  lemma {:induction false} InsertStable<T>(x: T, t: seq<T>, key: T -> real, v: real)
    ensures WithKey(Insert(x, t, key), key, v) == (if key(x) == v then [x] else []) + WithKey(t, key, v)
  {
    if t == [] || key(x) <= key(t[0]) {
      WithKeyCons(x, t, key, v);
    } else {
      var rest := Insert(x, t[1..], key);
      var tail := WithKey(t[1..], key, v);
      InsertStable(x, t[1..], key, v);
      assert Insert(x, t, key) == [t[0]] + rest;
      WithKeyCons(t[0], rest, key, v);
      assert t == [t[0]] + t[1..];
      WithKeyCons(t[0], t[1..], key, v);
      if key(x) == v {
        assert key(t[0]) != v;
        assert WithKey(Insert(x, t, key), key, v) == [x] + tail;
        assert WithKey(t, key, v) == tail;
      } else if key(t[0]) == v {
        assert WithKey(Insert(x, t, key), key, v) == [t[0]] + tail;
        assert WithKey(t, key, v) == [t[0]] + tail;
      } else {
        assert WithKey(Insert(x, t, key), key, v) == tail;
        assert WithKey(t, key, v) == tail;
      }
    }
  }

  /** `sorted` orders by key and is stable: for every key value, the elements
      carrying it come out in the order they went in. */
  lemma {:induction false} SortByFacts<T>(s: seq<T>, key: T -> real)
    ensures SortedBy(SortBy(s, key), key)
    ensures forall v :: WithKey(SortBy(s, key), key, v) == WithKey(s, key, v)
  {
    if s != [] {
      SortByFacts(s[1..], key);
      InsertSorted(s[0], SortBy(s[1..], key), key);
      forall v ensures WithKey(SortBy(s, key), key, v) == WithKey(s, key, v) {
        InsertStable(s[0], SortBy(s[1..], key), key, v);
        WithKeyCons(s[0], s[1..], key, v);
        assert s == [s[0]] + s[1..];
      }
    }
  }

  /** Dropping the element at `i` from a sorted sequence leaves it sorted. */
  lemma SortedDrop<T>(s: seq<T>, i: int, key: T -> real)
    requires SortedBy(s, key) && 0 <= i < |s|
    ensures SortedBy(s[..i] + s[i + 1..], key)
  {
    var r := s[..i] + s[i + 1..];
    forall a, b | 0 <= a < b < |r| ensures key(r[a]) <= key(r[b]) {
      var a' := if a < i then a else a + 1;
      var b' := if b < i then b else b + 1;
      assert r[a] == s[a'] && r[b] == s[b'];
    }
  }

  /** Removing one element from a sorted sequence leaves it sorted. */
  lemma RemoveFirstSorted<T>(s: seq<T>, x: T, key: T -> real)
    requires SortedBy(s, key) && x in s
    ensures SortedBy(RemoveFirst(s, x), key)
  {
    RemoveFirstAt(s, x);
    SortedDrop(s, FirstIndex(s, x), key);
  }

  /** `k` is the last position holding the largest key of `s`. */
  ghost predicate IsLastMax<T>(s: seq<T>, key: T -> real, k: int) {
    && 0 <= k < |s|
    && (forall j :: 0 <= j < |s| ==> key(s[j]) <= key(s[k]))
    && (forall j :: k < j < |s| ==> key(s[j]) < key(s[k]))
  }

  lemma LastMaxUnique<T>(s: seq<T>, key: T -> real, k1: int, k2: int)
    requires IsLastMax(s, key, k1) && IsLastMax(s, key, k2)
    ensures k1 == k2
  {
    assert key(s[k1]) == key(s[k2]);
  }

  /** Appending `x` moves the last maximum to `x` exactly when `x`'s key is
      not below it. */
  lemma LastMaxAppend<T>(s: seq<T>, x: T, key: T -> real, k: int)
    requires s == [] || IsLastMax(s, key, k)
    ensures IsLastMax(s + [x], key, if s == [] || key(s[k]) <= key(x) then |s| else k)
  {
    var t := s + [x];
    assert t[|s|] == x;
    assert forall j :: 0 <= j < |s| ==> t[j] == s[j];
  }

  lemma {:induction false} InsertAfterAll<T>(x: T, t: seq<T>, key: T -> real)
    requires forall y :: y in t ==> key(y) < key(x)
    ensures Insert(x, t, key) == t + [x]
  {
    if t != [] {
      assert t[0] in t;
      InsertAfterAll(x, t[1..], key);
      assert t == [t[0]] + t[1..];
    }
  }

  lemma {:induction false} InsertKeepsLast<T>(x: T, t: seq<T>, key: T -> real)
    requires t != [] && key(x) <= key(Last(t))
    ensures Last(Insert(x, t, key)) == Last(t)
  {
    if !(key(x) <= key(t[0])) && |t| > 1 {
      InsertKeepsLast(x, t[1..], key);
    }
  }

  /** `sorted(s, key=key)[-1]` is the LAST element of `s` with the largest key. */
  lemma {:induction false} LastOfSortBy<T>(s: seq<T>, key: T -> real)
    requires s != []
    ensures exists k :: IsLastMax(s, key, k) && Last(SortBy(s, key)) == s[k]
  {
    var t := SortBy(s[1..], key);
    if s[1..] == [] {
      assert IsLastMax(s, key, 0);
    } else {
      LastOfSortBy(s[1..], key);
      var k' :| IsLastMax(s[1..], key, k') && Last(t) == s[1..][k'];
      if key(s[0]) <= key(Last(t)) {
        InsertKeepsLast(s[0], t, key);
        assert IsLastMax(s, key, k' + 1);
      } else {
        SortByMultiset(s[1..], key);
        forall y | y in t ensures key(y) < key(s[0]) {
          assert y in multiset(t);
          assert y in s[1..];
        }
        InsertAfterAll(s[0], t, key);
        assert IsLastMax(s, key, 0);
      }
    }
  }
}
