/** Python dicts with string keys. Iteration order is insertion order, and
    the pipeline depends on it (advantage order, consensus ties, first best
    line), so a dict is a sequence of entries with distinct keys. */
module Dict {
  import opened Common

  type Dict<V> = seq<(string, V)>

  function Keys<V>(d: Dict<V>): (ks: seq<string>)
    ensures |ks| == |d| && forall i :: 0 <= i < |d| ==> ks[i] == d[i].0
    decreases |d|
  {
    if |d| == 0 then [] else [d[0].0] + Keys(d[1..])
  }

  predicate DistinctKeys<V>(d: Dict<V>)
  {
    forall i, j :: 0 <= i < j < |d| ==> d[i].0 != d[j].0
  }

  /** `d.get(k)`. */
  function Get<V>(d: Dict<V>, k: string): (r: Option<V>)
    ensures r.None? <==> k !in Keys(d)
    ensures r.Some? ==> exists i :: 0 <= i < |d| && d[i] == (k, r.value)
    decreases |d|
  {
    if |d| == 0 then None
    else if d[0].0 == k then Some(d[0].1)
    else Get(d[1..], k)
  }

  /** `d[k] = v`: an existing key keeps its place, a new key goes last. */
  function Put<V>(d: Dict<V>, k: string, v: V): (r: Dict<V>)
    ensures Get(r, k) == Some(v)
    ensures forall k' :: k' != k ==> Get(r, k') == Get(d, k')
  {
    PlacedGet(d, k, v);
    Placed(d, k, v)
  }

  /** The entries of `d[k] = v`, position by position. */
  function Placed<V>(d: Dict<V>, k: string, v: V): Dict<V>
    decreases |d|
  {
    if |d| == 0 then [(k, v)]
    else if d[0].0 == k then [(k, v)] + d[1..]
    else [d[0]] + Placed(d[1..], k, v)
  }

  lemma {:induction false} PlacedGet<V>(d: Dict<V>, k: string, v: V)
    ensures Get(Placed(d, k, v), k) == Some(v)
    ensures forall k' :: k' != k ==> Get(Placed(d, k, v), k') == Get(d, k')
    decreases |d|
  {
    if |d| > 0 && d[0].0 != k {
      PlacedGet(d[1..], k, v);
      var r := Placed(d, k, v);
      assert r[1..] == Placed(d[1..], k, v);
    }
  }

  lemma {:induction false} PutKeys<V>(d: Dict<V>, k: string, v: V)
    ensures Keys(Put(d, k, v)) == if k in Keys(d) then Keys(d) else Keys(d) + [k]
    decreases |d|
  {
    if |d| > 0 {
      if d[0].0 != k {
        PutKeys(d[1..], k, v);
        assert (k in Keys(d)) == (k in Keys(d[1..]));
        var r := Put(d, k, v);
        assert r[1..] == Put(d[1..], k, v);
        assert Keys(r) == [d[0].0] + Keys(Put(d[1..], k, v));
      } else {
        var r := Put(d, k, v);
        assert r[1..] == d[1..];
        assert Keys(r) == [k] + Keys(d[1..]);
      }
    }
  }

  lemma PutDistinct<V>(d: Dict<V>, k: string, v: V)
    requires DistinctKeys(d)
    ensures DistinctKeys(Put(d, k, v))
  {
    var r := Put(d, k, v);
    PutKeys(d, k, v);
    var ks := Keys(r);
    forall i, j | 0 <= i < j < |r| ensures r[i].0 != r[j].0 {
      assert ks[i] == r[i].0 && ks[j] == r[j].0;
      if k in Keys(d) {
        assert Keys(d)[i] == d[i].0 && Keys(d)[j] == d[j].0;
      } else if j < |d| {
        assert (Keys(d) + [k])[i] == d[i].0 && (Keys(d) + [k])[j] == d[j].0;
      } else {
        assert ks[j] == k && ks[i] == Keys(d)[i];
      }
    }
  }

  /** `d.setdefault(k, []).append(x)`, the grouping idiom of the source. */
  function Append<T>(d: Dict<seq<T>>, k: string, x: T): (r: Dict<seq<T>>)
    ensures Get(r, k) == Some(match Get(d, k) case Some(xs) => xs + [x] case None => [x])
    ensures forall k' :: k' != k ==> Get(r, k') == Get(d, k')
  {
    Put(d, k, match Get(d, k) case Some(xs) => xs + [x] case None => [x])
  }

  /** Builds a dict from key/value pairs; a repeated key keeps its first
      place and its last value. */
  function FromPairs<V>(ps: seq<(string, V)>): (r: Dict<V>)
    ensures DistinctKeys(r)
    decreases |ps|
  {
    if |ps| == 0 then []
    else
      var d := FromPairs(ps[..|ps| - 1]);
      PutDistinct(d, ps[|ps| - 1].0, ps[|ps| - 1].1);
      Put(d, ps[|ps| - 1].0, ps[|ps| - 1].1)
  }

  /** The value `FromPairs` keeps for a key is the one of its last pair. */
  lemma {:induction false} FromPairsLast<V>(ps: seq<(string, V)>, i: nat)
    requires i < |ps|
    requires forall j :: i < j < |ps| ==> ps[j].0 != ps[i].0
    ensures Get(FromPairs(ps), ps[i].0) == Some(ps[i].1)
    decreases |ps|
  {
    if i < |ps| - 1 {
      FromPairsLast(ps[..|ps| - 1], i);
    }
  }

  /** A key is present exactly when some pair carries it. */
  lemma {:induction false} FromPairsKeys<V>(ps: seq<(string, V)>, k: string)
    ensures Get(FromPairs(ps), k).Some? <==> exists j :: 0 <= j < |ps| && ps[j].0 == k
    decreases |ps|
  {
    if |ps| > 0 {
      var init := ps[..|ps| - 1];
      FromPairsKeys(init, k);
      if exists j :: 0 <= j < |init| && init[j].0 == k {
        var j :| 0 <= j < |init| && init[j].0 == k;
        assert ps[j].0 == k;
      }
      if exists j :: 0 <= j < |ps| && ps[j].0 == k {
        var j :| 0 <= j < |ps| && ps[j].0 == k;
        if j < |ps| - 1 { assert init[j].0 == k; }
      }
    }
  }

  /** A key not yet present goes last. */
  lemma PutNew<V>(d: Dict<V>, k: string, v: V)
    requires k !in Keys(d)
    ensures Put(d, k, v) == d + [(k, v)]
  {
    forall i | 0 <= i < |d| ensures d[i].0 != k {
      assert Keys(d)[i] == d[i].0;
    }
    PlacedAbsent(d, k, v);
  }

  lemma {:induction false} PlacedAbsent<V>(d: Dict<V>, k: string, v: V)
    requires forall i :: 0 <= i < |d| ==> d[i].0 != k
    ensures Placed(d, k, v) == d + [(k, v)]
    decreases |d|
  {
    if |d| > 0 {
      var tail := d[1..];
      assert forall i :: 0 <= i < |tail| ==> tail[i] == d[i + 1];
      PlacedAbsent(tail, k, v);
      assert [d[0]] + (tail + [(k, v)]) == d + [(k, v)];
    }
  }

  /** Looking up a key in a dict with one more entry at the end. */
  lemma {:induction false} GetSnoc<V>(d: Dict<V>, k: string, v: V, k': string)
    ensures Get(d + [(k, v)], k') ==
      if k' in Keys(d) then Get(d, k') else if k' == k then Some(v) else None
    decreases |d|
  {
    if |d| > 0 {
      assert (d + [(k, v)])[1..] == d[1..] + [(k, v)];
      assert Keys(d) == [d[0].0] + Keys(d[1..]);
      GetSnoc(d[1..], k, v, k');
    }
  }

  /** A second `d[k] = v` overrides the first. */
  lemma {:induction false} PutTwice<V>(d: Dict<V>, k: string, v1: V, v2: V)
    ensures Put(Put(d, k, v1), k, v2) == Put(d, k, v2)
    decreases |d|
  {
    if |d| > 0 && d[0].0 != k {
      PutTwice(d[1..], k, v1, v2);
      assert Put(d, k, v1)[1..] == Put(d[1..], k, v1);
    }
  }

  /** Storing the value a key already has changes nothing. */
  lemma {:induction false} PutSame<V>(d: Dict<V>, k: string, v: V)
    requires Get(d, k) == Some(v)
    ensures Put(d, k, v) == d
    decreases |d|
  {
    if |d| > 0 && d[0].0 != k {
      PutSame(d[1..], k, v);
    }
  }

  /** Dropping the last entry of a dict keeps its keys distinct, and the
      dropped key is absent from the rest. */
  lemma LastKeyNew<V>(d: Dict<V>)
    requires |d| > 0 && DistinctKeys(d)
    ensures DistinctKeys(d[..|d| - 1])
    ensures d[|d| - 1].0 !in Keys(d[..|d| - 1])
  {
    var init := d[..|d| - 1];
    forall i | 0 <= i < |init| ensures Keys(init)[i] != d[|d| - 1].0 {
      assert init[i] == d[i];
    }
  }

  /** Putting the next entry of a dict with distinct keys onto its prefix
      extends the prefix by that entry. */
  lemma PutNext<V>(d: Dict<V>, i: nat)
    requires DistinctKeys(d) && i < |d|
    ensures Put(d[..i], d[i].0, d[i].1) == d[..i + 1]
  {
    var p := d[..i + 1];
    assert DistinctKeys(p) by {
      forall a, b | 0 <= a < b < |p| ensures p[a].0 != p[b].0 {
        assert p[a] == d[a] && p[b] == d[b];
      }
    }
    LastKeyNew(p);
    assert p[..i] == d[..i];
    PutNew(d[..i], d[i].0, d[i].1);
  }
}
