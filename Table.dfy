/** SQLite tables as sequences of rows in rowid order. A primary key is a
    function from a row to its key; `INSERT OR REPLACE` deletes the row with
    the same key and appends the new one, as SQLite's REPLACE does. */
module Table {

  predicate UniqueBy<R, K(==)>(t: seq<R>, key: R -> K)
  {
    forall i, j :: 0 <= i < j < |t| ==> key(t[i]) != key(t[j])
  }

  /** `SELECT ... WHERE keep(row)` in table order. */
  function Where<R(!new)>(t: seq<R>, keep: R -> bool): (r: seq<R>)
    ensures |r| <= |t|
    ensures forall x :: x in r <==> x in t && keep(x)
    decreases |t|
  {
    if |t| == 0 then []
    else Where(t[..|t| - 1], keep) + (if keep(t[|t| - 1]) then [t[|t| - 1]] else [])
  }

  /** Filtering distributes over concatenation. */
  lemma {:induction false} WhereAppend<R(!new)>(a: seq<R>, b: seq<R>, keep: R -> bool)
    ensures Where(a + b, keep) == Where(a, keep) + Where(b, keep)
    decreases |b|
  {
    if |b| > 0 {
      var init := b[..|b| - 1];
      assert (a + b)[..|a + b| - 1] == a + init;
      WhereAppend(a, init, keep);
    } else {
      assert a + b == a;
    }
  }

  /** Filtering keeps a table whose every row passes. */
  lemma {:induction false} WhereAll<R(!new)>(t: seq<R>, keep: R -> bool)
    requires forall x :: x in t ==> keep(x)
    ensures Where(t, keep) == t
    decreases |t|
  {
    if |t| > 0 {
      var init, last := t[..|t| - 1], t[|t| - 1];
      forall x | x in init ensures keep(x) {
        var i :| 0 <= i < |init| && init[i] == x;
        assert t[i] == x;
      }
      WhereAll(init, keep);
      assert keep(last) by { assert t[|t| - 1] == last; }
      assert init + [last] == t;
    }
  }

  /** Filtering drops a table whose every row fails. */
  lemma {:induction false} WhereNone<R(!new)>(t: seq<R>, keep: R -> bool)
    requires forall x :: x in t ==> !keep(x)
    ensures Where(t, keep) == []
    decreases |t|
  {
    if |t| > 0 {
      var init := t[..|t| - 1];
      assert forall x :: x in init ==> x in t;
      WhereNone(init, keep);
      assert t[|t| - 1] in t;
    }
  }

  /** Filtering keeps the key unique. */
  lemma {:induction false} WhereUnique<R(!new), K>(t: seq<R>, keep: R -> bool, key: R -> K)
    requires UniqueBy(t, key)
    ensures UniqueBy(Where(t, keep), key)
    decreases |t|
  {
    if |t| > 0 {
      var init := t[..|t| - 1];
      var x := t[|t| - 1];
      assert UniqueBy(init, key);
      WhereUnique(init, keep, key);
      var w := Where(init, keep);
      if keep(x) {
        forall i | 0 <= i < |w| ensures key(w[i]) != key(x) {
          assert w[i] in init;
          var m :| 0 <= m < |init| && init[m] == w[i];
          assert t[m] == w[i];
        }
      }
    }
  }

  /** With a unique key, no row occurs twice. */
  lemma {:induction false} UniqueOnce<R, K>(t: seq<R>, key: R -> K, x: R)
    requires UniqueBy(t, key)
    ensures multiset(t)[x] <= 1
    decreases |t|
  {
    if |t| > 0 {
      var init := t[..|t| - 1];
      assert t == init + [t[|t| - 1]];
      assert UniqueBy(init, key);
      UniqueOnce(init, key, x);
      if x == t[|t| - 1] {
        forall m | 0 <= m < |init| ensures init[m] != x {
          assert t[m] == init[m];
        }
        assert multiset(init)[x] == 0;
      }
    }
  }

  /** Reordering the rows keeps the key unique. */
  lemma PermutationUnique<R, K>(a: seq<R>, b: seq<R>, key: R -> K)
    requires UniqueBy(a, key) && multiset(a) == multiset(b)
    ensures UniqueBy(b, key)
  {
    forall i, j | 0 <= i < j < |b| ensures key(b[i]) != key(b[j]) {
      if b[i] == b[j] {
        assert b == b[..j] + b[j..];
        assert b[i] in b[..j] && b[j] in b[j..];
        assert multiset(b)[b[i]] == multiset(b[..j])[b[i]] + multiset(b[j..])[b[i]];
        UniqueOnce(a, key, b[i]);
      } else {
        assert b[i] in multiset(a) && b[j] in multiset(a);
        var p :| 0 <= p < |a| && a[p] == b[i];
        var q :| 0 <= q < |a| && a[q] == b[j];
        assert p < q ==> key(a[p]) != key(a[q]);
        assert q < p ==> key(a[q]) != key(a[p]);
      }
    }
  }

  /** `INSERT OR REPLACE`: the new row replaces any row with its key and
      goes last; rows with other keys stay, in order. */
  function Upsert<R(!new), K(==)>(t: seq<R>, row: R, key: R -> K): (r: seq<R>)
    ensures forall x :: x in r <==> x == row || (x in t && key(x) != key(row))
    ensures |r| > 0 && r[|r| - 1] == row
  {
    Where(t, KeyOtherThan(key, key(row))) + [row]
  }

  /** The rows whose key is not `k`. */
  function KeyOtherThan<R, K(==)>(key: R -> K, k: K): R -> bool
  {
    x => key(x) != k
  }

  /** A row with a new key goes last and removes nothing. */
  lemma UpsertFresh<R(!new), K>(t: seq<R>, row: R, key: R -> K)
    requires forall x :: x in t ==> key(x) != key(row)
    ensures Upsert(t, row, key) == t + [row]
  {
    WhereAll(t, KeyOtherThan(key, key(row)));
  }

  lemma UpsertUnique<R(!new), K>(t: seq<R>, row: R, key: R -> K)
    requires UniqueBy(t, key)
    ensures UniqueBy(Upsert(t, row, key), key)
  {
    var keep := KeyOtherThan(key, key(row));
    WhereUnique(t, keep, key);
    var w := Where(t, keep);
    forall i | 0 <= i < |w| ensures key(w[i]) != key(row) {
      assert w[i] in w;
    }
  }

  /** `LIMIT n`: a negative limit means no limit in SQLite. */
  function Limit<R>(t: seq<R>, n: int): (r: seq<R>)
    ensures n < 0 ==> r == t
    ensures n >= 0 ==> |r| == if n < |t| then n else |t|
    ensures forall i :: 0 <= i < |r| ==> r[i] == t[i]
  {
    if n < 0 || n >= |t| then t else t[..n]
  }

  /** A filter applied after a weaker one is the filter alone. */
  lemma {:induction false} WhereWhere<R(!new)>(t: seq<R>, weak: R -> bool, keep: R -> bool)
    requires forall x :: keep(x) ==> weak(x)
    ensures Where(Where(t, weak), keep) == Where(t, keep)
    decreases |t|
  {
    if |t| > 0 {
      var init := t[..|t| - 1];
      var x := t[|t| - 1];
      WhereWhere(init, weak, keep);
      WhereAppend(Where(init, weak), if weak(x) then [x] else [], keep);
      if weak(x) {
        assert Where([x], keep) == Where([], keep) + (if keep(x) then [x] else []);
      }
    }
  }
}
