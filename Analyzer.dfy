/** The matchup analyser: per-team averages over the cached game snapshots,
    a fixed table of metrics with thresholds, and the ordered list of
    advantage lines each team earns (predictor.py:90-221 is the live
    analyser; data_fetcher.py:455-597 is the version it overrides;
    predictor.py:1034-1100 analyses averages already cached). */
module Analyzer {
  import opened Common
  import opened StatsCache

  /** Which of the scorer's three weights an advantage line attracts. */
  datatype Kind = Plain | Defense | Qb

  /** One row of a metrics table: the column compared, its display name,
      the threshold the difference must exceed, and whether the smaller
      value is the better one. */
  datatype Metric = Metric(column: string, display: string, threshold: real, lowerIsBetter: bool, kind: Kind)

  /** An advantage line `[QB ]Better {display}: {mine:.1f} vs {theirs:.1f}`,
      `mine` being the value of the team that earned it. */
  datatype Advantage = Advantage(display: string, kind: Kind, mine: real, theirs: real)

  datatype Side = First | Second

  /** An advantage together with the team (first or second argument) that earned it. */
  type Entry = (Side, Advantage)

  // ---------------------------------------------------------------------
  // Metric tables
  // ---------------------------------------------------------------------

  const OffenceMetrics: seq<Metric> := [
    Metric("yards_per_play", "Yards per Play", 0.5, false, Plain),
    Metric("third_down_pct", "Third Down %", 5.0, false, Plain),
    Metric("redzone_pct", "Red Zone %", 10.0, false, Plain),
    Metric("possession_time", "Time of Possession", 2.0, false, Plain),
    Metric("yards_per_pass", "Yards per Pass", 0.5, false, Plain),
    Metric("yards_per_rush", "Yards per Rush", 0.3, false, Plain)
  ]

  /** The live analyser's defence rows, points allowed first (lower is better). */
  const MatchupDefence: seq<Metric> := [
    Metric("points_against", "Defense - Points Allowed", 3.0, true, Defense),
    Metric("sacks", "Defense - Sacks", 1.0, false, Defense),
    Metric("turnovers", "Defense - Turnovers Forced", 0.5, false, Defense)
  ]

  const MatchupMetrics: seq<Metric> := OffenceMetrics + MatchupDefence

  const MatchupQbMetrics: seq<Metric> := [
    Metric("completion_pct", "QB Completion %", 5.0, false, Qb),
    Metric("yards_per_attempt", "QB Yards per Attempt", 0.5, false, Qb),
    Metric("passer_rating", "QB Passer Rating", 10.0, false, Qb)
  ]

  /** The overridden analyser's defence rows; its lines read
      `Better Defense - {name}`, which is the display below after `Better `. */
  const FetcherDefence: seq<Metric> := [
    Metric("sacks", "Defense - Sacks", 1.0, false, Defense),
    Metric("turnovers", "Defense - Turnovers Forced", 0.5, false, Defense),
    Metric("interceptions", "Defense - Interceptions", 0.5, false, Defense),
    Metric("fumbles_recovered", "Defense - Fumbles Recovered", 0.5, false, Defense),
    Metric("points_against", "Defense - Points Allowed", 3.0, true, Defense)
  ]

  const FetcherMetrics: seq<Metric> := OffenceMetrics + FetcherDefence

  const FetcherQbMetrics: seq<Metric> := [
    Metric("completion_pct", "Completion %", 5.0, false, Qb),
    Metric("yards_per_attempt", "Yards per Attempt", 0.5, false, Qb),
    Metric("passer_rating", "Passer Rating", 10.0, false, Qb)
  ]

  /** The cached-averages analyser's defence rows, points allowed last. */
  const CachedDefence: seq<Metric> := [
    Metric("sacks", "Defense - Sacks", 1.0, false, Defense),
    Metric("turnovers", "Defense - Turnovers Forced", 0.5, false, Defense),
    Metric("points_against", "Defense - Points Allowed", 3.0, true, Defense)
  ]

  const CachedMetrics: seq<Metric> := OffenceMetrics + CachedDefence

  /** The QB columns the overridden analyser averages. */
  const QbNumericColumns: seq<string> := [
    "completions", "attempts", "completion_pct", "yards", "yards_per_attempt",
    "passing_touch_downs", "interceptions", "sacks", "sack_yards", "passer_rating"
  ]

  predicate NonNegativeThresholds(ms: seq<Metric>)
  {
    forall i :: 0 <= i < |ms| ==> ms[i].threshold >= 0.0
  }

  predicate DistinctDisplays(ms: seq<Metric>)
  {
    forall i, j :: 0 <= i < j < |ms| ==> ms[i].display != ms[j].display
  }

  /** Every table has non-negative thresholds and one row per display name. */
  lemma TablesWellFormed()
    ensures NonNegativeThresholds(MatchupMetrics) && DistinctDisplays(MatchupMetrics)
    ensures NonNegativeThresholds(MatchupQbMetrics) && DistinctDisplays(MatchupQbMetrics)
    ensures NonNegativeThresholds(FetcherMetrics) && DistinctDisplays(FetcherMetrics)
    ensures NonNegativeThresholds(FetcherQbMetrics) && DistinctDisplays(FetcherQbMetrics)
    ensures NonNegativeThresholds(CachedMetrics) && DistinctDisplays(CachedMetrics)
  {
    MatchupWellFormed();
    QbTablesWellFormed();
    FetcherWellFormed();
    CachedWellFormed();
  }

  lemma MatchupWellFormed()
    ensures NonNegativeThresholds(MatchupMetrics) && DistinctDisplays(MatchupMetrics)
  {
  }

  lemma QbTablesWellFormed()
    ensures NonNegativeThresholds(MatchupQbMetrics) && DistinctDisplays(MatchupQbMetrics)
    ensures NonNegativeThresholds(FetcherQbMetrics) && DistinctDisplays(FetcherQbMetrics)
  {
  }

  lemma FetcherWellFormed()
    ensures NonNegativeThresholds(FetcherMetrics) && DistinctDisplays(FetcherMetrics)
  {
  }

  lemma CachedWellFormed()
    ensures NonNegativeThresholds(CachedMetrics) && DistinctDisplays(CachedMetrics)
  {
  }

  // ---------------------------------------------------------------------
  // Comparing one metric
  // ---------------------------------------------------------------------

  predicate Better(m: Metric, a: real, b: real)
  {
    if m.lowerIsBetter then a < b else a > b
  }

  /** One metric: an advantage only when the difference strictly exceeds
      the threshold; the difference is taken the other way round when lower
      is better, and the team with the positive difference earns the line. */
  function Compare(m: Metric, v1: real, v2: real): (r: Option<Entry>)
    ensures r.None? <==> Abs(v1 - v2) <= m.threshold
    ensures r.Some? ==> r.value.1.display == m.display && r.value.1.kind == m.kind
    ensures r.Some? && r.value.0 == First ==>
              r.value.1.mine == v1 && r.value.1.theirs == v2 && Better(m, v1, v2)
    ensures r.Some? && r.value.0 == Second ==>
              r.value.1.mine == v2 && r.value.1.theirs == v1 && (m.threshold >= 0.0 ==> Better(m, v2, v1))
  {
    var diff := if m.lowerIsBetter then v2 - v1 else v1 - v2;
    if Abs(diff) > m.threshold then
      if diff > 0.0 then Some((First, Advantage(m.display, m.kind, v1, v2)))
      else Some((Second, Advantage(m.display, m.kind, v2, v1)))
    else None
  }

  function Swapped(e: Entry): Entry
  {
    (if e.0 == First then Second else First, e.1)
  }

  /** Exchanging the two teams' values hands the same line to the other team. */
  lemma CompareSwap(m: Metric, v1: real, v2: real)
    requires m.threshold >= 0.0
    ensures Compare(m, v2, v1).Some? == Compare(m, v1, v2).Some?
    ensures Compare(m, v1, v2).Some? ==> Compare(m, v2, v1).value == Swapped(Compare(m, v1, v2).value)
  {
    assert Abs(v2 - v1) == Abs(v1 - v2);
  }

  // ---------------------------------------------------------------------
  // Running a table
  // ---------------------------------------------------------------------

  /** The metric is present for both teams and its comparison yields a line. */
  predicate Fires(m: Metric, avg1: map<string, real>, avg2: map<string, real>)
  {
    m.column in avg1 && m.column in avg2 && Compare(m, avg1[m.column], avg2[m.column]).Some?
  }

  function EntryOf(m: Metric, avg1: map<string, real>, avg2: map<string, real>): Entry
    requires Fires(m, avg1, avg2)
  {
    Compare(m, avg1[m.column], avg2[m.column]).value
  }

  /** The lines a table yields, in table order; metrics missing for either team are skipped. */
  function CompareAll(ms: seq<Metric>, avg1: map<string, real>, avg2: map<string, real>): (r: seq<Entry>)
    ensures |r| <= |ms|
    decreases |ms|
  {
    if |ms| == 0 then []
    else
      var m := ms[|ms| - 1];
      CompareAll(ms[..|ms| - 1], avg1, avg2) + (if Fires(m, avg1, avg2) then [EntryOf(m, avg1, avg2)] else [])
  }

  /** The table positions that yield a line, in increasing order. */
  function Hits(ms: seq<Metric>, avg1: map<string, real>, avg2: map<string, real>): seq<nat>
    decreases |ms|
  {
    if |ms| == 0 then []
    else Hits(ms[..|ms| - 1], avg1, avg2) + (if Fires(ms[|ms| - 1], avg1, avg2) then [|ms| - 1] else [])
  }

  /** The lines are exactly the firing metrics' lines, one per metric, in
      table order: the k-th line comes from table row `Hits[k]`, the rows
      strictly increase, and every firing row is among them. */
  lemma {:induction false} CompareAllIndexed(ms: seq<Metric>, avg1: map<string, real>, avg2: map<string, real>)
    ensures |Hits(ms, avg1, avg2)| == |CompareAll(ms, avg1, avg2)|
    ensures forall k :: 0 <= k < |Hits(ms, avg1, avg2)| ==>
              Hits(ms, avg1, avg2)[k] < |ms| && Fires(ms[Hits(ms, avg1, avg2)[k]], avg1, avg2) &&
              CompareAll(ms, avg1, avg2)[k] == EntryOf(ms[Hits(ms, avg1, avg2)[k]], avg1, avg2)
    ensures forall k1, k2 :: 0 <= k1 < k2 < |Hits(ms, avg1, avg2)| ==>
              Hits(ms, avg1, avg2)[k1] < Hits(ms, avg1, avg2)[k2]
    ensures forall j :: 0 <= j < |ms| && Fires(ms[j], avg1, avg2) ==> j in Hits(ms, avg1, avg2)
    decreases |ms|
  {
    if |ms| > 0 {
      var init := ms[..|ms| - 1];
      CompareAllIndexed(init, avg1, avg2);
      var h := Hits(init, avg1, avg2);
      var last := |ms| - 1;
      var fires := Fires(ms[last], avg1, avg2);
      assert Hits(ms, avg1, avg2) == h + (if fires then [last] else []);
      assert CompareAll(ms, avg1, avg2) ==
             CompareAll(init, avg1, avg2) + (if fires then [EntryOf(ms[last], avg1, avg2)] else []);
      forall k | 0 <= k < |h| ensures h[k] < |init| && ms[h[k]] == init[h[k]] {
      }
      forall j | 0 <= j < |init| ensures ms[j] == init[j] {
      }
    }
  }

  /** With one row per display name, a metric missing for either team yields
      no line of that name, and no name occurs twice among the lines. */
  lemma MissingMetricSkipped(ms: seq<Metric>, avg1: map<string, real>, avg2: map<string, real>, j: nat)
    requires DistinctDisplays(ms) && j < |ms|
    requires ms[j].column !in avg1 || ms[j].column !in avg2
    ensures forall e :: e in CompareAll(ms, avg1, avg2) ==> e.1.display != ms[j].display
  {
    CompareAllIndexed(ms, avg1, avg2);
    var r := CompareAll(ms, avg1, avg2);
    var h := Hits(ms, avg1, avg2);
    forall e | e in r ensures e.1.display != ms[j].display {
      var k :| 0 <= k < |r| && r[k] == e;
      assert h[k] != j;
    }
  }

  lemma AtMostOneLinePerMetric(ms: seq<Metric>, avg1: map<string, real>, avg2: map<string, real>)
    requires DistinctDisplays(ms)
    ensures forall k1, k2 :: 0 <= k1 < k2 < |CompareAll(ms, avg1, avg2)| ==>
              CompareAll(ms, avg1, avg2)[k1].1.display != CompareAll(ms, avg1, avg2)[k2].1.display
  {
    CompareAllIndexed(ms, avg1, avg2);
  }

  function SwapAll(es: seq<Entry>): (r: seq<Entry>)
    ensures |r| == |es| && forall i :: 0 <= i < |es| ==> r[i] == Swapped(es[i])
  {
    seq(|es|, i requires 0 <= i < |es| => Swapped(es[i]))
  }

  /** Exchanging the two teams' averages hands every line to the other team. */
  lemma {:induction false} CompareAllSwap(ms: seq<Metric>, avg1: map<string, real>, avg2: map<string, real>)
    requires NonNegativeThresholds(ms)
    ensures CompareAll(ms, avg2, avg1) == SwapAll(CompareAll(ms, avg1, avg2))
    decreases |ms|
  {
    if |ms| > 0 {
      var init := ms[..|ms| - 1];
      var m := ms[|ms| - 1];
      CompareAllSwap(init, avg1, avg2);
      if m.column in avg1 && m.column in avg2 {
        CompareSwap(m, avg1[m.column], avg2[m.column]);
      }
      var a := CompareAll(init, avg1, avg2);
      var tail := if Fires(m, avg1, avg2) then [EntryOf(m, avg1, avg2)] else [];
      assert SwapAll(a + tail) == SwapAll(a) + SwapAll(tail);
    }
  }

  /** The comparison loop shared by all three analysers. */
  method CompareMetrics(ms: seq<Metric>, avg1: map<string, real>, avg2: map<string, real>)
    returns (entries: seq<Entry>)
    ensures entries == CompareAll(ms, avg1, avg2)
  {
    entries := [];
    var i := 0;
    while i < |ms|
      invariant 0 <= i <= |ms|
      invariant entries == CompareAll(ms[..i], avg1, avg2)
    {
      var m := ms[i];
      if m.column in avg1 && m.column in avg2 {
        var value1 := avg1[m.column];
        var value2 := avg2[m.column];
        var diff := if m.lowerIsBetter then value2 - value1 else value1 - value2;
        if Abs(diff) > m.threshold {
          if diff > 0.0 {
            entries := entries + [(First, Advantage(m.display, m.kind, value1, value2))];
          } else {
            entries := entries + [(Second, Advantage(m.display, m.kind, value2, value1))];
          }
        }
      }
      assert ms[..i + 1][..i] == ms[..i];
      i := i + 1;
    }
    assert ms[..i] == ms;
  }

  // ---------------------------------------------------------------------
  // Column averages of a frame of snapshots (DataFrame.mean())
  // ---------------------------------------------------------------------

  /** The cells of column `c`, from the snapshots that hold it. */
  function Column(snaps: seq<Snapshot>, c: string): (r: seq<Scalar>)
    ensures |r| <= |snaps|
    decreases |snaps|
  {
    if |snaps| == 0 then []
    else Column(snaps[..|snaps| - 1], c) + (if c in snaps[|snaps| - 1] then [snaps[|snaps| - 1][c]] else [])
  }

  function Numbers(vs: seq<Scalar>): (r: seq<real>)
    ensures |r| <= |vs|
    decreases |vs|
  {
    if |vs| == 0 then []
    else Numbers(vs[..|vs| - 1]) + (if vs[|vs| - 1].Num? then [vs[|vs| - 1].n] else [])
  }

  /** A column's mean: absent, not numeric (a text cell: pandas raises), all
      cells missing (NaN), or the mean of its numbers, missing cells skipped. */
  datatype ColumnMean = NoColumn | NotNumeric | AllMissing | MeanOf(v: real)

  function MeanOfColumn(snaps: seq<Snapshot>, c: string): ColumnMean
  {
    var vs := Column(snaps, c);
    if |vs| == 0 then NoColumn
    else if exists i :: 0 <= i < |vs| && vs[i].Text? then NotNumeric
    else
      var ns := Numbers(vs);
      if |ns| == 0 then AllMissing else MeanOf(Mean(ns))
  }

  /** The frame's columns: every key of every snapshot. */
  function Columns(snaps: seq<Snapshot>): set<string>
  {
    set i, c | 0 <= i < |snaps| && c in snaps[i] :: c
  }

  /** The columns that have a numeric mean, with that mean. */
  function NumericMeans(snaps: seq<Snapshot>): map<string, real>
  {
    map c | c in Columns(snaps) && MeanOfColumn(snaps, c).MeanOf? :: MeanOfColumn(snaps, c).v
  }

  /** `DataFrame.mean()`: fails when any column holds text. */
  function FrameMean(snaps: seq<Snapshot>): Option<map<string, real>>
  {
    if exists c :: c in Columns(snaps) && MeanOfColumn(snaps, c).NotNumeric? then None
    else Some(NumericMeans(snaps))
  }

  /** Every cell of a column comes from a snapshot holding that column, and
      the column is empty exactly when no snapshot holds it. */
  lemma {:induction false} ColumnCells(snaps: seq<Snapshot>, c: string)
    ensures forall k :: 0 <= k < |Column(snaps, c)| ==>
              exists i :: 0 <= i < |snaps| && c in snaps[i] && snaps[i][c] == Column(snaps, c)[k]
    ensures |Column(snaps, c)| > 0 <==> exists i :: 0 <= i < |snaps| && c in snaps[i]
    decreases |snaps|
  {
    if |snaps| == 0 {
      assert Column(snaps, c) == [];
    } else {
      var init := snaps[..|snaps| - 1];
      ColumnCells(init, c);
      assert forall i :: 0 <= i < |init| ==> init[i] == snaps[i];
      var last := snaps[|snaps| - 1];
      var vs := Column(snaps, c);
      if c in last {
        assert vs == Column(init, c) + [last[c]];
        forall k | 0 <= k < |vs|
          ensures exists i :: 0 <= i < |snaps| && c in snaps[i] && snaps[i][c] == vs[k]
        {
          if k == |vs| - 1 {
            assert snaps[|snaps| - 1][c] == vs[k];
          } else {
            assert vs[k] == Column(init, c)[k];
            var i :| 0 <= i < |init| && c in init[i] && init[i][c] == vs[k];
            assert snaps[i] == init[i];
          }
        }
      } else {
        assert vs == Column(init, c);
        forall i | 0 <= i < |snaps| && c in snaps[i] ensures 0 <= i < |init| && c in init[i] {
        }
        forall k | 0 <= k < |vs|
          ensures exists i :: 0 <= i < |snaps| && c in snaps[i] && snaps[i][c] == vs[k]
        {
          var i :| 0 <= i < |init| && c in init[i] && init[i][c] == vs[k];
          assert snaps[i] == init[i];
        }
      }
    }
  }

  lemma {:induction false} NumbersOfNumbers(vs: seq<Scalar>)
    requires forall k :: 0 <= k < |vs| ==> vs[k].Num?
    ensures |Numbers(vs)| == |vs| && forall k :: 0 <= k < |vs| ==> Numbers(vs)[k] == vs[k].n
    decreases |vs|
  {
    if |vs| > 0 {
      NumbersOfNumbers(vs[..|vs| - 1]);
    }
  }

  predicate AllNumeric(snaps: seq<Snapshot>)
  {
    forall i, c :: 0 <= i < |snaps| && c in snaps[i] ==> snaps[i][c].Num?
  }

  /** A frame of numbers has a mean for every column: `DataFrame.mean()` succeeds. */
  lemma NumericFrameMean(snaps: seq<Snapshot>)
    requires AllNumeric(snaps)
    ensures FrameMean(snaps) == Some(NumericMeans(snaps))
    ensures NumericMeans(snaps).Keys == Columns(snaps)
  {
    forall c | c in Columns(snaps) ensures MeanOfColumn(snaps, c).MeanOf? {
      ColumnCells(snaps, c);
      var vs := Column(snaps, c);
      forall k | 0 <= k < |vs| ensures vs[k].Num? {
        var i :| 0 <= i < |snaps| && c in snaps[i] && snaps[i][c] == vs[k];
      }
      NumbersOfNumbers(vs);
    }
  }

  /** A column whose cells are all numbers within [lo, hi] has a mean within [lo, hi]. */
  lemma ColumnMeanWithin(snaps: seq<Snapshot>, c: string, lo: real, hi: real)
    requires exists i :: 0 <= i < |snaps| && c in snaps[i]
    requires forall i :: 0 <= i < |snaps| && c in snaps[i] ==> snaps[i][c].Num? && lo <= snaps[i][c].n <= hi
    ensures c in NumericMeans(snaps) && lo <= NumericMeans(snaps)[c] <= hi
  {
    ColumnCells(snaps, c);
    var vs := Column(snaps, c);
    forall k | 0 <= k < |vs| ensures vs[k].Num? && lo <= vs[k].n <= hi {
      var i :| 0 <= i < |snaps| && c in snaps[i] && snaps[i][c] == vs[k];
    }
    NumbersOfNumbers(vs);
    var ns := Numbers(vs);
    MeanBounds(ns, lo, hi);
    var i :| 0 <= i < |snaps| && c in snaps[i];
    assert c in Columns(snaps);
  }

  // ---------------------------------------------------------------------
  // Which team earned a line
  // ---------------------------------------------------------------------

  /** The lines earned by one side, in order. */
  function Sided(es: seq<Entry>, s: Side): (r: seq<Advantage>)
    ensures |r| <= |es|
    ensures forall a :: a in r <==> (s, a) in es
    decreases |es|
  {
    if |es| == 0 then []
    else
      var e := es[|es| - 1];
      Sided(es[..|es| - 1], s) + (if e.0 == s then [e.1] else [])
  }

  lemma {:induction false} SidedAppend(a: seq<Entry>, b: seq<Entry>, s: Side)
    ensures Sided(a + b, s) == Sided(a, s) + Sided(b, s)
    decreases |b|
  {
    if |b| == 0 {
      assert a + b == a;
    } else {
      var init, e := b[..|b| - 1], b[|b| - 1];
      var ext := if e.0 == s then [e.1] else [];
      calc {
        Sided(a + b, s);
        { assert (a + b)[..|a + b| - 1] == a + init; assert (a + b)[|a + b| - 1] == e; }
        Sided(a + init, s) + ext;
        { SidedAppend(a, init, s); }
        (Sided(a, s) + Sided(init, s)) + ext;
        Sided(a, s) + (Sided(init, s) + ext);
        Sided(a, s) + Sided(b, s);
      }
    }
  }

  lemma {:induction false} SidedSwap(es: seq<Entry>, s: Side)
    ensures Sided(SwapAll(es), if s == First then Second else First) == Sided(es, s)
    decreases |es|
  {
    if |es| > 0 {
      var init := es[..|es| - 1];
      SidedSwap(init, s);
      assert SwapAll(es)[..|es| - 1] == SwapAll(init);
    }
  }

  /** The line `a` was earned by the team with averages `mine` over the
      team with averages `theirs`: some table row of that name is present
      for both, its values are theirs, the earner's value is the better one
      and the difference strictly exceeds the row's threshold. */
  ghost predicate Earned(ms: seq<Metric>, a: Advantage, mine: map<string, real>, theirs: map<string, real>)
  {
    exists j :: 0 <= j < |ms| && ms[j].display == a.display && ms[j].kind == a.kind &&
      ms[j].column in mine && ms[j].column in theirs &&
      a.mine == mine[ms[j].column] && a.theirs == theirs[ms[j].column] &&
      Better(ms[j], a.mine, a.theirs) && Abs(a.mine - a.theirs) > ms[j].threshold
  }

  /** Every line a side receives was earned by that side. */
  lemma SidedEarned(ms: seq<Metric>, avg1: map<string, real>, avg2: map<string, real>)
    requires NonNegativeThresholds(ms)
    ensures forall a :: a in Sided(CompareAll(ms, avg1, avg2), First) ==> Earned(ms, a, avg1, avg2)
    ensures forall a :: a in Sided(CompareAll(ms, avg1, avg2), Second) ==> Earned(ms, a, avg2, avg1)
  {
    CompareAllIndexed(ms, avg1, avg2);
    var r := CompareAll(ms, avg1, avg2);
    var h := Hits(ms, avg1, avg2);
    forall a | a in Sided(r, First) ensures Earned(ms, a, avg1, avg2) {
      var k :| 0 <= k < |r| && r[k] == (First, a);
      EntryEarned(ms, avg1, avg2, h[k]);
    }
    forall a | a in Sided(r, Second) ensures Earned(ms, a, avg2, avg1) {
      var k :| 0 <= k < |r| && r[k] == (Second, a);
      EntryEarned(ms, avg1, avg2, h[k]);
    }
  }

  /** The line one row yields was earned by the team it goes to. */
  lemma EntryEarned(ms: seq<Metric>, avg1: map<string, real>, avg2: map<string, real>, j: nat)
    requires NonNegativeThresholds(ms) && j < |ms| && Fires(ms[j], avg1, avg2)
    ensures EntryOf(ms[j], avg1, avg2).0 == First ==> Earned(ms, EntryOf(ms[j], avg1, avg2).1, avg1, avg2)
    ensures EntryOf(ms[j], avg1, avg2).0 == Second ==> Earned(ms, EntryOf(ms[j], avg1, avg2).1, avg2, avg1)
  {
    var m := ms[j];
    var a := EntryOf(m, avg1, avg2).1;
    assert Abs(avg1[m.column] - avg2[m.column]) == Abs(a.mine - a.theirs);
  }

  /** Conversely, a row present for both teams whose difference exceeds its
      threshold in the first team's favour gives the first team its line. */
  lemma EarnedListed(ms: seq<Metric>, avg1: map<string, real>, avg2: map<string, real>, j: nat)
    requires j < |ms| && ms[j].column in avg1 && ms[j].column in avg2
    requires Better(ms[j], avg1[ms[j].column], avg2[ms[j].column])
    requires Abs(avg1[ms[j].column] - avg2[ms[j].column]) > ms[j].threshold
    ensures Advantage(ms[j].display, ms[j].kind, avg1[ms[j].column], avg2[ms[j].column])
              in Sided(CompareAll(ms, avg1, avg2), First)
  {
    CompareAllIndexed(ms, avg1, avg2);
    var h := Hits(ms, avg1, avg2);
    assert j in h;
    var k :| 0 <= k < |h| && h[k] == j;
    assert CompareAll(ms, avg1, avg2)[k] in CompareAll(ms, avg1, avg2);
  }

  /** A table without rows of some kind yields no lines of that kind. */
  lemma {:induction false} KindsFromTable(ms: seq<Metric>, avg1: map<string, real>, avg2: map<string, real>, kind: Kind)
    requires forall j :: 0 <= j < |ms| ==> ms[j].kind != kind
    ensures forall e :: e in CompareAll(ms, avg1, avg2) ==> e.1.kind != kind
    decreases |ms|
  {
    if |ms| > 0 {
      KindsFromTable(ms[..|ms| - 1], avg1, avg2, kind);
    }
  }

  /** A table of one kind yields lines of that kind only. */
  lemma {:induction false} KindsOfTable(ms: seq<Metric>, avg1: map<string, real>, avg2: map<string, real>, kind: Kind)
    requires forall j :: 0 <= j < |ms| ==> ms[j].kind == kind
    ensures forall e :: e in CompareAll(ms, avg1, avg2) ==> e.1.kind == kind
    decreases |ms|
  {
    if |ms| > 0 {
      KindsOfTable(ms[..|ms| - 1], avg1, avg2, kind);
    }
  }

  // ---------------------------------------------------------------------
  // The live analyser
  // ---------------------------------------------------------------------

  /** Why no analysis came back: a team had no cached games (the `error`
      result), or an exception escaped (`Analysis error: ...`). */
  datatype Failure = StatsUnavailable | Raised

  /** The analysis dict: averages and advantage lists keyed by the
      upper-cased team names, and the two names. */
  datatype Analysis = Analysis(
    teamStats: map<string, map<string, real>>,
    advantages: map<string, seq<Advantage>>,
    homeTeam: string, awayTeam: string)

  datatype Outcome = Analyzed(analysis: Analysis) | Failed(failure: Failure)

  function Lines(es: seq<Entry>): (r: seq<Advantage>)
    ensures |r| == |es| && forall i :: 0 <= i < |es| ==> r[i] == es[i].1
  {
    seq(|es|, i requires 0 <= i < |es| => es[i].1)
  }

  /** The advantages dict: one list per name; when both names coincide the
      dict has one key and its list takes every line in order. */
  function Distribute(home: string, away: string, es: seq<Entry>): (r: map<string, seq<Advantage>>)
    ensures r.Keys == {home, away}
    ensures home != away ==> r[home] == Sided(es, First) && r[away] == Sided(es, Second)
  {
    if home == away then map[home := Lines(es)]
    else map[home := Sided(es, First), away := Sided(es, Second)]
  }

  predicate NoneOfKind(l: seq<Advantage>, kind: Kind)
  {
    forall i :: 0 <= i < |l| ==> l[i].kind != kind
  }

  /** Once a line of `kind` appears, every later line is of that kind too. */
  predicate KindLast(l: seq<Advantage>, kind: Kind)
  {
    forall i, j :: 0 <= i < j < |l| && l[i].kind == kind ==> l[j].kind == kind
  }

  lemma KindLastAppend(f: seq<Advantage>, b: seq<Advantage>, kind: Kind)
    requires NoneOfKind(f, kind)
    requires forall i :: 0 <= i < |b| ==> b[i].kind == kind
    ensures KindLast(f + b, kind)
  {
  }

  lemma SidedKinds(es: seq<Entry>, s: Side, kind: Kind, same: bool)
    requires forall e :: e in es ==> (e.1.kind == kind) == same
    ensures forall i :: 0 <= i < |Sided(es, s)| ==> (Sided(es, s)[i].kind == kind) == same
  {
    forall i | 0 <= i < |Sided(es, s)| ensures (Sided(es, s)[i].kind == kind) == same {
      assert Sided(es, s)[i] in Sided(es, s);
    }
  }

  lemma LinesKinds(es: seq<Entry>, kind: Kind, same: bool)
    requires forall e :: e in es ==> (e.1.kind == kind) == same
    ensures forall i :: 0 <= i < |Lines(es)| ==> (Lines(es)[i].kind == kind) == same
  {
    forall i | 0 <= i < |Lines(es)| ensures (Lines(es)[i].kind == kind) == same {
      assert es[i] in es;
    }
  }

  /** Lines of one kind come after all others in each list, and none at all
      when the later entries are empty. */
  lemma DistributeOrdered(home: string, away: string, front: seq<Entry>, back: seq<Entry>, kind: Kind)
    requires forall e :: e in front ==> e.1.kind != kind
    requires forall e :: e in back ==> e.1.kind == kind
    ensures var adv := Distribute(home, away, front + back);
      forall t :: t in adv ==> KindLast(adv[t], kind) && (back == [] ==> NoneOfKind(adv[t], kind))
  {
    var adv: map<string, seq<Advantage>> := Distribute(home, away, front + back);
    forall t | t in adv ensures KindLast(adv[t], kind) && (back == [] ==> NoneOfKind(adv[t], kind)) {
      var f: seq<Advantage>, b: seq<Advantage>;
      if home == away {
        f, b := Lines(front), Lines(back);
        assert Lines(front + back) == f + b;
        LinesKinds(front, kind, false);
        LinesKinds(back, kind, true);
      } else {
        var s := if t == home then First else Second;
        SidedAppend(front, back, s);
        f, b := Sided(front, s), Sided(back, s);
        SidedKinds(front, s, kind, false);
        SidedKinds(back, s, kind, true);
      }
      assert adv[t] == f + b;
      KindLastAppend(f, b, kind);
      if back == [] {
        assert b == [];
        assert f + b == f;
      }
    }
  }

  /** With distinct names, exchanging the teams and the sides of every line
      gives the same dict. */
  lemma DistributeSwap(home: string, away: string, es: seq<Entry>)
    requires home != away
    ensures Distribute(away, home, SwapAll(es)) == Distribute(home, away, es)
  {
    SidedSwap(es, First);
    SidedSwap(es, Second);
  }

  function QbEntries(ms: seq<Metric>, qb1: seq<Snapshot>, qb2: seq<Snapshot>): seq<Entry>
  {
    if |qb1| > 0 && |qb2| > 0 then CompareAll(ms, NumericMeans(qb1), NumericMeans(qb2)) else []
  }

  function Report(team1: string, team2: string, a1: map<string, real>, a2: map<string, real>, es: seq<Entry>): Analysis
  {
    Analysis(map[Upper(team1) := a1, Upper(team2) := a2], Distribute(Upper(team1), Upper(team2), es),
             Upper(team1), Upper(team2))
  }

  /** `analyze_matchup` over the two teams' recent game snapshots and QB snapshots. */
  function Matchup(team1: string, team2: string, stats1: seq<Snapshot>, stats2: seq<Snapshot>,
                   qb1: seq<Snapshot>, qb2: seq<Snapshot>): Outcome
  {
    if |stats1| == 0 || |stats2| == 0 then Failed(StatsUnavailable)
    else
      var m1 := FrameMean(stats1);
      var m2 := FrameMean(stats2);
      if m1.None? || m2.None? then Failed(Raised)
      else
        var es := CompareAll(MatchupMetrics, m1.value, m2.value) + QbEntries(MatchupQbMetrics, qb1, qb2);
        Analyzed(Report(team1, team2, m1.value, m2.value, es))
  }

  method AnalyzeMatchup(team1: string, team2: string, stats1: seq<Snapshot>, stats2: seq<Snapshot>,
                        qb1: seq<Snapshot>, qb2: seq<Snapshot>) returns (r: Outcome)
    ensures r == Matchup(team1, team2, stats1, stats2, qb1, qb2)
  {
    if |stats1| == 0 || |stats2| == 0 {
      return Failed(StatsUnavailable);
    }
    var avg1 := FrameMean(stats1);
    var avg2 := FrameMean(stats2);
    if avg1.None? || avg2.None? {
      return Failed(Raised);
    }
    var entries := CompareMetrics(MatchupMetrics, avg1.value, avg2.value);
    var qbEntries := [];
    if |qb1| > 0 && |qb2| > 0 {
      qbEntries := CompareMetrics(MatchupQbMetrics, NumericMeans(qb1), NumericMeans(qb2));
    }
    entries := entries + qbEntries;
    r := Analyzed(Report(team1, team2, avg1.value, avg2.value, entries));
  }

  /** The `error` result comes back exactly when either team has no cached games. */
  lemma MatchupNeedsStats(team1: string, team2: string, stats1: seq<Snapshot>, stats2: seq<Snapshot>,
                          qb1: seq<Snapshot>, qb2: seq<Snapshot>)
    ensures (Matchup(team1, team2, stats1, stats2, qb1, qb2) == Failed(StatsUnavailable))
              <==> (|stats1| == 0 || |stats2| == 0)
  {
  }

  /** Frames of numbers always yield an analysis, with every column averaged. */
  lemma MatchupOfNumbers(team1: string, team2: string, stats1: seq<Snapshot>, stats2: seq<Snapshot>,
                         qb1: seq<Snapshot>, qb2: seq<Snapshot>)
    requires |stats1| > 0 && |stats2| > 0 && AllNumeric(stats1) && AllNumeric(stats2)
    ensures Matchup(team1, team2, stats1, stats2, qb1, qb2).Analyzed?
    ensures Upper(team1) != Upper(team2) ==>
              Matchup(team1, team2, stats1, stats2, qb1, qb2).analysis.teamStats[Upper(team1)].Keys == Columns(stats1) &&
              Matchup(team1, team2, stats1, stats2, qb1, qb2).analysis.teamStats[Upper(team2)].Keys == Columns(stats2)
  {
    NumericFrameMean(stats1);
    NumericFrameMean(stats2);
  }

  /** QB lines appear only when both QB frames are non-empty, and in each
      team's list they come after all team-metric lines. */
  lemma MatchupQbLines(team1: string, team2: string, stats1: seq<Snapshot>, stats2: seq<Snapshot>,
                       qb1: seq<Snapshot>, qb2: seq<Snapshot>)
    requires Matchup(team1, team2, stats1, stats2, qb1, qb2).Analyzed?
    ensures var adv := Matchup(team1, team2, stats1, stats2, qb1, qb2).analysis.advantages;
      forall t :: t in adv ==> KindLast(adv[t], Qb) && (|qb1| == 0 || |qb2| == 0 ==> NoneOfKind(adv[t], Qb))
  {
    var a1 := FrameMean(stats1).value;
    var a2 := FrameMean(stats2).value;
    KindsFromTable(MatchupMetrics, a1, a2, Qb);
    KindsOfTable(MatchupQbMetrics, NumericMeans(qb1), NumericMeans(qb2), Qb);
    DistributeOrdered(Upper(team1), Upper(team2), CompareAll(MatchupMetrics, a1, a2),
                      QbEntries(MatchupQbMetrics, qb1, qb2), Qb);
  }

  /** Every line in the first team's list was earned by it, on a team
      metric over the two frames' averages or on a QB metric over the two
      QB frames' averages (the latter only when both are non-empty). */
  lemma MatchupLinesEarned(team1: string, team2: string, stats1: seq<Snapshot>, stats2: seq<Snapshot>,
                           qb1: seq<Snapshot>, qb2: seq<Snapshot>)
    requires Upper(team1) != Upper(team2)
    requires Matchup(team1, team2, stats1, stats2, qb1, qb2).Analyzed?
    ensures var an := Matchup(team1, team2, stats1, stats2, qb1, qb2).analysis;
      forall a :: a in an.advantages[an.homeTeam] ==>
        Earned(MatchupMetrics, a, an.teamStats[an.homeTeam], an.teamStats[an.awayTeam]) ||
        (|qb1| > 0 && |qb2| > 0 && Earned(MatchupQbMetrics, a, NumericMeans(qb1), NumericMeans(qb2)))
  {
    var a1 := FrameMean(stats1).value;
    var a2 := FrameMean(stats2).value;
    TablesWellFormed();
    SidedEarned(MatchupMetrics, a1, a2);
    SidedEarned(MatchupQbMetrics, NumericMeans(qb1), NumericMeans(qb2));
    SidedAppend(CompareAll(MatchupMetrics, a1, a2), QbEntries(MatchupQbMetrics, qb1, qb2), First);
  }

  lemma ReportSwap(team1: string, team2: string, a1: map<string, real>, a2: map<string, real>, es: seq<Entry>)
    requires Upper(team1) != Upper(team2)
    ensures Report(team2, team1, a2, a1, SwapAll(es)) ==
            Report(team1, team2, a1, a2, es).(homeTeam := Upper(team2), awayTeam := Upper(team1))
  {
    DistributeSwap(Upper(team1), Upper(team2), es);
    assert map[Upper(team2) := a2, Upper(team1) := a1] == map[Upper(team1) := a1, Upper(team2) := a2];
  }

  lemma EntriesSwap(ms: seq<Metric>, qs: seq<Metric>, a1: map<string, real>, a2: map<string, real>,
                    qb1: seq<Snapshot>, qb2: seq<Snapshot>)
    requires NonNegativeThresholds(ms) && NonNegativeThresholds(qs)
    ensures CompareAll(ms, a2, a1) + QbEntries(qs, qb2, qb1) ==
            SwapAll(CompareAll(ms, a1, a2) + QbEntries(qs, qb1, qb2))
  {
    CompareAllSwap(ms, a1, a2);
    QbEntriesSwap(qs, qb1, qb2);
    SwapAppend(CompareAll(ms, a1, a2), QbEntries(qs, qb1, qb2));
  }

  lemma QbEntriesSwap(qs: seq<Metric>, qb1: seq<Snapshot>, qb2: seq<Snapshot>)
    requires NonNegativeThresholds(qs)
    ensures QbEntries(qs, qb2, qb1) == SwapAll(QbEntries(qs, qb1, qb2))
  {
    if |qb1| > 0 && |qb2| > 0 {
      CompareAllSwap(qs, NumericMeans(qb1), NumericMeans(qb2));
    } else {
      assert SwapAll([]) == [];
    }
  }

  lemma SwapAppend(a: seq<Entry>, b: seq<Entry>)
    ensures SwapAll(a + b) == SwapAll(a) + SwapAll(b)
  {
    assert |SwapAll(a + b)| == |SwapAll(a) + SwapAll(b)|;
    forall i | 0 <= i < |a + b| ensures SwapAll(a + b)[i] == (SwapAll(a) + SwapAll(b))[i] {
      if i < |a| {
        assert (a + b)[i] == a[i];
      } else {
        assert (a + b)[i] == b[i - |a|];
      }
    }
  }

  /** Swapping the two teams swaps home and away and changes nothing else. */
  lemma MatchupSymmetric(team1: string, team2: string, stats1: seq<Snapshot>, stats2: seq<Snapshot>,
                         qb1: seq<Snapshot>, qb2: seq<Snapshot>)
    requires Upper(team1) != Upper(team2)
    ensures var r := Matchup(team1, team2, stats1, stats2, qb1, qb2);
            var s := Matchup(team2, team1, stats2, stats1, qb2, qb1);
      (r.Failed? ==> s == r) &&
      (r.Analyzed? ==> s.Analyzed? && s.analysis == r.analysis.(homeTeam := r.analysis.awayTeam, awayTeam := r.analysis.homeTeam))
  {
    var r := Matchup(team1, team2, stats1, stats2, qb1, qb2);
    if r.Analyzed? {
      var a1 := FrameMean(stats1).value;
      var a2 := FrameMean(stats2).value;
      TablesWellFormed();
      EntriesSwap(MatchupMetrics, MatchupQbMetrics, a1, a2, qb1, qb2);
      ReportSwap(team1, team2, a1, a2, CompareAll(MatchupMetrics, a1, a2) + QbEntries(MatchupQbMetrics, qb1, qb2));
    }
  }

  // ---------------------------------------------------------------------
  // The overridden analyser (data_fetcher.py analyze_matchup)
  // ---------------------------------------------------------------------

  /** A team's QB entry: the latest QB's name and the means of the numeric QB columns. */
  datatype QbSummary = QbSummary(name: Scalar, averages: map<string, real>)

  datatype FetcherAnalysis = FetcherAnalysis(
    teamStats: map<string, map<string, real>>,
    qbStats: map<string, Option<QbSummary>>,
    advantages: map<string, seq<Advantage>>)

  datatype FetcherOutcome = Fetched(analysis: FetcherAnalysis) | FetchFailed(failure: Failure)

  /** `qb[numeric_columns].mean()` and `qb['player_name'].iloc[-1]`: an empty
      frame has no entry; a missing column (KeyError) or a text cell in a
      numeric column (TypeError) raises; a latest row without a name gives NaN. */
  function QbAverages(qb: seq<Snapshot>): (r: Option<Option<QbSummary>>)
    ensures |qb| == 0 ==> r == Some(None)
    ensures r.Some? && r.value.Some? ==> r.value.value.averages.Keys <= set c | c in QbNumericColumns
  {
    if |qb| == 0 then Some(None)
    else if exists k :: 0 <= k < |QbNumericColumns| && QbNumericColumns[k] !in Columns(qb) then None
    else if "player_name" !in Columns(qb) then None
    else if exists k :: 0 <= k < |QbNumericColumns| && MeanOfColumn(qb, QbNumericColumns[k]).NotNumeric? then None
    else
      var latest := qb[|qb| - 1];
      var name := if "player_name" in latest then latest["player_name"] else Null;
      Some(Some(QbSummary(name, map c | c in QbNumericColumns && MeanOfColumn(qb, c).MeanOf? :: MeanOfColumn(qb, c).v)))
  }

  function FetcherMatchup(team1: string, team2: string, stats1: seq<Snapshot>, stats2: seq<Snapshot>,
                          qb1: seq<Snapshot>, qb2: seq<Snapshot>): FetcherOutcome
  {
    if |stats1| == 0 || |stats2| == 0 then FetchFailed(StatsUnavailable)
    else
      var m1 := FrameMean(stats1);
      var m2 := FrameMean(stats2);
      var s1 := QbAverages(qb1);
      var s2 := QbAverages(qb2);
      if m1.None? || m2.None? || s1.None? || s2.None? then FetchFailed(Raised)
      else
        var qbLines := if s1.value.Some? && s2.value.Some?
                       then CompareAll(FetcherQbMetrics, s1.value.value.averages, s2.value.value.averages)
                       else [];
        var es := CompareAll(FetcherMetrics, m1.value, m2.value) + qbLines;
        var home := Upper(team1);
        var away := Upper(team2);
        Fetched(FetcherAnalysis(map[home := m1.value, away := m2.value],
                                map[home := s1.value, away := s2.value],
                                Distribute(home, away, es)))
  }

  method AnalyzeMatchupFetcher(team1: string, team2: string, stats1: seq<Snapshot>, stats2: seq<Snapshot>,
                               qb1: seq<Snapshot>, qb2: seq<Snapshot>) returns (r: FetcherOutcome)
    ensures r == FetcherMatchup(team1, team2, stats1, stats2, qb1, qb2)
  {
    if |stats1| == 0 || |stats2| == 0 {
      return FetchFailed(StatsUnavailable);
    }
    var avg1 := FrameMean(stats1);
    var avg2 := FrameMean(stats2);
    var qbAvg1 := QbAverages(qb1);
    var qbAvg2 := QbAverages(qb2);
    if avg1.None? || avg2.None? || qbAvg1.None? || qbAvg2.None? {
      return FetchFailed(Raised);
    }
    var entries := CompareMetrics(FetcherMetrics, avg1.value, avg2.value);
    var qbEntries := [];
    if qbAvg1.value.Some? && qbAvg2.value.Some? {
      qbEntries := CompareMetrics(FetcherQbMetrics, qbAvg1.value.value.averages, qbAvg2.value.value.averages);
    }
    entries := entries + qbEntries;
    var home := Upper(team1);
    var away := Upper(team2);
    r := Fetched(FetcherAnalysis(map[home := avg1.value, away := avg2.value],
                                 map[home := qbAvg1.value, away := qbAvg2.value],
                                 Distribute(home, away, entries)));
  }

  /** Unlike the live analyser, which skips a QB metric it cannot average,
      this version raises when a non-empty QB frame lacks a numeric column. */
  lemma FetcherMissingQbColumnRaises(team1: string, team2: string, stats1: seq<Snapshot>, stats2: seq<Snapshot>,
                                     qb1: seq<Snapshot>, qb2: seq<Snapshot>, k: nat)
    requires |stats1| > 0 && |stats2| > 0
    requires |qb1| > 0 && k < |QbNumericColumns| && QbNumericColumns[k] !in Columns(qb1)
    ensures FetcherMatchup(team1, team2, stats1, stats2, qb1, qb2) == FetchFailed(Raised)
  {
  }

  /** All three analysers emit the same offence lines first, then their own
      defence lines; they differ only in the defence rows and their order. */
  lemma OffenceLinesFirst(a1: map<string, real>, a2: map<string, real>)
    ensures CompareAll(MatchupMetrics, a1, a2) == CompareAll(OffenceMetrics, a1, a2) + CompareAll(MatchupDefence, a1, a2)
    ensures CompareAll(FetcherMetrics, a1, a2) == CompareAll(OffenceMetrics, a1, a2) + CompareAll(FetcherDefence, a1, a2)
    ensures CompareAll(CachedMetrics, a1, a2) == CompareAll(OffenceMetrics, a1, a2) + CompareAll(CachedDefence, a1, a2)
  {
    CompareAllAppend(OffenceMetrics, MatchupDefence, a1, a2);
    CompareAllAppend(OffenceMetrics, FetcherDefence, a1, a2);
    CompareAllAppend(OffenceMetrics, CachedDefence, a1, a2);
  }

  lemma {:induction false} CompareAllAppend(ms: seq<Metric>, ns: seq<Metric>, avg1: map<string, real>, avg2: map<string, real>)
    ensures CompareAll(ms + ns, avg1, avg2) == CompareAll(ms, avg1, avg2) + CompareAll(ns, avg1, avg2)
    decreases |ns|
  {
    if |ns| == 0 {
      assert ms + ns == ms;
    } else {
      var init := ns[..|ns| - 1];
      CompareAllAppend(ms, init, avg1, avg2);
      assert (ms + ns)[..|ms + ns| - 1] == ms + init;
      assert (ms + ns)[|ms + ns| - 1] == ns[|ns| - 1];
    }
  }

  // ---------------------------------------------------------------------
  // Analysing cached averages (analyze_cached_stats)
  // ---------------------------------------------------------------------

  datatype CachedAnalysis = CachedAnalysis(
    teamStats: map<string, map<string, Scalar>>,
    advantages: map<string, seq<Advantage>>)

  /** A row present for both teams whose value `float()` rejects: the call raises. */
  predicate Unconvertible(m: Metric, s1: map<string, Scalar>, s2: map<string, Scalar>)
  {
    m.column in s1 && m.column in s2 && (Float(s1[m.column]).None? || Float(s2[m.column]).None?)
  }

  /** One row over cached values: no line, one line, or None when `float()` raises. */
  function CachedStep(m: Metric, s1: map<string, Scalar>, s2: map<string, Scalar>): Option<seq<Entry>>
  {
    if m.column in s1 && m.column in s2 then
      match (Float(s1[m.column]), Float(s2[m.column]))
      case (Some(v1), Some(v2)) => Some(match Compare(m, v1, v2) case Some(e) => [e] case None => [])
      case _ => None
    else Some([])
  }

  /** The lines over cached values, or None once a value fails to convert. */
  function CachedEntries(ms: seq<Metric>, s1: map<string, Scalar>, s2: map<string, Scalar>): Option<seq<Entry>>
    decreases |ms|
  {
    if |ms| == 0 then Some([])
    else
      match CachedEntries(ms[..|ms| - 1], s1, s2)
      case None => None
      case Some(es) =>
        match CachedStep(ms[|ms| - 1], s1, s2)
        case None => None
        case Some(t) => Some(es + t)
  }

  function CachedMatchup(team1: string, team2: string, s1: map<string, Scalar>, s2: map<string, Scalar>): Option<CachedAnalysis>
  {
    match CachedEntries(CachedMetrics, s1, s2)
    case None => None
    case Some(es) =>
      Some(CachedAnalysis(map[Upper(team1) := s1, Upper(team2) := s2], Distribute(Upper(team1), Upper(team2), es)))
  }

  /** The comparison loop over cached values, converting each with `float()`. */
  method CompareCached(ms: seq<Metric>, s1: map<string, Scalar>, s2: map<string, Scalar>)
    returns (r: Option<seq<Entry>>)
    ensures r == CachedEntries(ms, s1, s2)
  {
    var entries: seq<Entry> := [];
    var i := 0;
    while i < |ms|
      invariant 0 <= i <= |ms|
      invariant CachedEntries(ms[..i], s1, s2) == Some(entries)
    {
      var m := ms[i];
      assert ms[..i + 1][..i] == ms[..i];
      if m.column in s1 && m.column in s2 {
        var value1 := Float(s1[m.column]);
        var value2 := Float(s2[m.column]);
        if value1.None? || value2.None? {
          assert CachedStep(m, s1, s2).None?;
          NoneSticks(ms, i + 1, s1, s2);
          return None;
        }
        var diff := if m.lowerIsBetter then value2.value - value1.value else value1.value - value2.value;
        ghost var step := Compare(m, value1.value, value2.value);
        assert CachedStep(m, s1, s2) == Some(match step case Some(e) => [e] case None => []);
        if Abs(diff) > m.threshold {
          if diff > 0.0 {
            assert step == Some((First, Advantage(m.display, m.kind, value1.value, value2.value)));
            entries := entries + [(First, Advantage(m.display, m.kind, value1.value, value2.value))];
          } else {
            assert step == Some((Second, Advantage(m.display, m.kind, value2.value, value1.value)));
            entries := entries + [(Second, Advantage(m.display, m.kind, value2.value, value1.value))];
          }
        } else {
          assert step == None;
          assert entries + [] == entries;
        }
      } else {
        assert CachedStep(m, s1, s2) == Some([]);
        assert entries + [] == entries;
      }
      i := i + 1;
    }
    assert ms[..i] == ms;
    r := Some(entries);
  }

  method AnalyzeCachedStats(team1: string, team2: string, s1: map<string, Scalar>, s2: map<string, Scalar>)
    returns (r: Option<CachedAnalysis>)
    ensures r == CachedMatchup(team1, team2, s1, s2)
  {
    var entries := CompareCached(CachedMetrics, s1, s2);
    if entries.None? {
      return None;
    }
    r := Some(CachedAnalysis(map[Upper(team1) := s1, Upper(team2) := s2],
                             Distribute(Upper(team1), Upper(team2), entries.value)));
  }

  /** Once a value fails to convert, the whole call raises. */
  lemma {:induction false} NoneSticks(ms: seq<Metric>, i: nat, s1: map<string, Scalar>, s2: map<string, Scalar>)
    requires i <= |ms| && CachedEntries(ms[..i], s1, s2).None?
    ensures CachedEntries(ms, s1, s2).None?
    decreases |ms| - i
  {
    if i < |ms| {
      assert ms[..i + 1][..i] == ms[..i];
      NoneSticks(ms, i + 1, s1, s2);
    } else {
      assert ms[..i] == ms;
    }
  }

  /** The cached values that `float()` accepts. */
  function Floats(s: map<string, Scalar>): map<string, real>
  {
    map k | k in s && Float(s[k]).Some? :: Float(s[k]).value
  }

  lemma CachedStepAsLive(m: Metric, s1: map<string, Scalar>, s2: map<string, Scalar>)
    ensures CachedStep(m, s1, s2) ==
            if Unconvertible(m, s1, s2) then None
            else Some(if Fires(m, Floats(s1), Floats(s2)) then [EntryOf(m, Floats(s1), Floats(s2))] else [])
  {
    if m.column in s1 && m.column in s2 && !Unconvertible(m, s1, s2) {
      assert m.column in Floats(s1) && Floats(s1)[m.column] == Float(s1[m.column]).value;
      assert m.column in Floats(s2) && Floats(s2)[m.column] == Float(s2[m.column]).value;
    }
  }

  /** The cached analyser raises exactly when some row present for both
      teams holds a value `float()` rejects; otherwise its lines are those
      of the live comparison over the converted values. */
  lemma {:induction false} CachedAsLive(ms: seq<Metric>, s1: map<string, Scalar>, s2: map<string, Scalar>)
    ensures CachedEntries(ms, s1, s2) ==
            if exists j :: 0 <= j < |ms| && Unconvertible(ms[j], s1, s2) then None
            else Some(CompareAll(ms, Floats(s1), Floats(s2)))
    decreases |ms|
  {
    if |ms| > 0 {
      var init := ms[..|ms| - 1];
      CachedAsLive(init, s1, s2);
      var m := ms[|ms| - 1];
      CachedStepAsLive(m, s1, s2);
      if exists j :: 0 <= j < |init| && Unconvertible(init[j], s1, s2) {
        var j :| 0 <= j < |init| && Unconvertible(init[j], s1, s2);
        assert ms[j] == init[j];
      } else if !Unconvertible(m, s1, s2) {
        forall j | 0 <= j < |ms| ensures !Unconvertible(ms[j], s1, s2) {
          if j < |init| { assert ms[j] == init[j]; }
        }
      }
    }
  }

  // ---------------------------------------------------------------------
  // Advantage text
  // ---------------------------------------------------------------------

  /** Python's `f"{x:.1f}"`: the value rounded half-to-even to one decimal,
      with a minus sign for a negative value even when it rounds to zero. */
  function OneDecimal(x: real): (r: string)
    ensures forall i :: 0 <= i < |r| ==> IsDigit(r[i]) || r[i] == '-' || r[i] == '.'
  {
    var n := RoundHalfEven(x * 10.0);
    var a: nat := if n < 0 then -n else n;
    (if x < 0.0 then "-" else "") + NatText(a / 10) + "." + [DigitChar(a % 10)]
  }

  /** `[QB ]Better {display}: {mine:.1f} vs {theirs:.1f}`. */
  function LineText(a: Advantage): (r: string)
    ensures a.kind == Qb ==> IsPrefix("QB Better " + a.display + ": ", r)
    ensures a.kind != Qb ==> IsPrefix("Better " + a.display + ": ", r)
  {
    (if a.kind == Qb then "QB " else "") + "Better " + a.display + ": " + OneDecimal(a.mine) + " vs " + OneDecimal(a.theirs)
  }
}
