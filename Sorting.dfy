/** Python's `list.sort(key=..., reverse=True)`: a stable sort, newest (largest
    key) first, where elements with equal keys keep their original order. */
module Sorting {

  predicate SortedDesc<T>(s: seq<T>, key: T -> int)
  {
    forall i, j :: 0 <= i < j < |s| ==> key(s[i]) >= key(s[j])
  }

  /** The elements whose key is `k`, in their order in `s`. */
  function WithKey<T>(s: seq<T>, key: T -> int, k: int): seq<T>
    decreases |s|
  {
    if |s| == 0 then []
    else (if key(s[0]) == k then [s[0]] else []) + WithKey(s[1..], key, k)
  }

  /** Places `x` before the first element whose key is not larger. */
  function Insert<T>(x: T, s: seq<T>, key: T -> int): seq<T>
    decreases |s|
  {
    if |s| == 0 || key(x) >= key(s[0]) then [x] + s
    else [s[0]] + Insert(x, s[1..], key)
  }

  function SortDesc<T>(s: seq<T>, key: T -> int): seq<T>
    decreases |s|
  {
    if |s| == 0 then [] else Insert(s[0], SortDesc(s[1..], key), key)
  }

  lemma {:induction false} InsertPerm<T>(x: T, s: seq<T>, key: T -> int)
    ensures multiset(Insert(x, s, key)) == multiset([x]) + multiset(s)
    decreases |s|
  {
    if |s| > 0 && key(x) < key(s[0]) {
      InsertPerm(x, s[1..], key);
      assert [s[0]] + s[1..] == s;
    }
  }

  lemma {:induction false} InsertSorted<T>(x: T, s: seq<T>, key: T -> int)
    requires SortedDesc(s, key)
    ensures SortedDesc(Insert(x, s, key), key)
    decreases |s|
  {
    if |s| > 0 && key(x) < key(s[0]) {
      var t := s[1..];
      InsertSorted(x, t, key);
      var it := Insert(x, t, key);
      var r := [s[0]] + it;
      assert key(it[0]) <= key(s[0]) by {
        if |t| > 0 && key(x) < key(t[0]) {
          assert it[0] == t[0] == s[1];
        }
      }
      forall i, j | 0 <= i < j < |r| ensures key(r[i]) >= key(r[j]) {
        assert r[j] == it[j - 1];
        if i > 0 {
          assert r[i] == it[i - 1];
        } else if j > 1 {
          assert key(it[0]) >= key(it[j - 1]);
        }
      }
    }
  }

  lemma {:induction false} InsertStable<T>(x: T, s: seq<T>, key: T -> int, k: int)
    ensures WithKey(Insert(x, s, key), key, k) == WithKey([x] + s, key, k)
    decreases |s|
  {
    if |s| > 0 && key(x) < key(s[0]) {
      var t := s[1..];
      InsertStable(x, t, key, k);
      var it := Insert(x, t, key);
      var r := [s[0]] + it;
      assert r[1..] == it;
      assert ([x] + s)[1..] == s;
      assert ([x] + t)[1..] == t;
      assert [s[0]] + t == s;
      var a := if key(s[0]) == k then [s[0]] else [];
      var b := if key(x) == k then [x] else [];
      assert WithKey(r, key, k) == a + WithKey(it, key, k);
      assert WithKey([x] + t, key, k) == b + WithKey(t, key, k);
      // x and s[0] have different keys, so at most one of a, b is non-empty.
      assert a == [] || b == [];
      assert a + (b + WithKey(t, key, k)) == b + (a + WithKey(t, key, k));
    }
  }

  /** The result is sorted newest first, is a permutation of the input, and
      elements with equal keys keep their input order (stability). */
  lemma {:induction false} SortDescFacts<T>(s: seq<T>, key: T -> int)
    ensures SortedDesc(SortDesc(s, key), key)
    ensures multiset(SortDesc(s, key)) == multiset(s)
    ensures forall k :: WithKey(SortDesc(s, key), key, k) == WithKey(s, key, k)
    decreases |s|
  {
    if |s| > 0 {
      var rest := SortDesc(s[1..], key);
      SortDescFacts(s[1..], key);
      InsertSorted(s[0], rest, key);
      InsertPerm(s[0], rest, key);
      assert [s[0]] + s[1..] == s;
      forall k ensures WithKey(SortDesc(s, key), key, k) == WithKey(s, key, k) {
        InsertStable(s[0], rest, key, k);
        assert ([s[0]] + rest)[1..] == rest;
        assert WithKey([s[0]] + rest, key, k)
            == (if key(s[0]) == k then [s[0]] else []) + WithKey(rest, key, k);
      }
    }
  }

  lemma SortDescLength<T>(s: seq<T>, key: T -> int)
    ensures |SortDesc(s, key)| == |s|
  {
    SortDescFacts(s, key);
    assert |multiset(SortDesc(s, key))| == |multiset(s)|;
  }
}
