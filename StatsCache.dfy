/** The stats cache of data_fetcher.py: selection of a team's recent
    completed games, grouping of cached rows into per-game snapshots, the
    cache-hit rules, and the backfills that write team and quarterback rows
    and either commit them all or roll them all back. */
module StatsCache {
  import opened Common
  import opened Sorting
  import opened Table
  import opened StatNormalizer

  /** One game's statistics as a column → value record (a DataFrame row). */
  type Snapshot = map<string, Scalar>

  // ---------------------------------------------------------------------
  // Recent completed games (get_recent_games)
  // ---------------------------------------------------------------------

  /** A game of the schedule response: id, status code, and its calendar day
      as a day count (no value when the date text does not parse). */
  datatype ApiGame = ApiGame(id: int, status: string, day: Option<int>)

  function Day(g: ApiGame): int
  {
    match g.day
    case Some(d) => d
    case None => 0
  }

  /** The games whose status is "FT", in response order. */
  function Completed(games: seq<ApiGame>): (r: seq<ApiGame>)
    ensures forall g :: g in r <==> g in games && g.status == "FT"
    decreases |games|
  {
    if |games| == 0 then []
    else Completed(games[..|games| - 1])
         + (if games[|games| - 1].status == "FT" then [games[|games| - 1]] else [])
  }

  /** The length of `xs[:k]` for a list of length n. */
  function SliceLength(n: nat, k: int): (r: nat)
    ensures r <= n
  {
    if k >= 0 then (if k < n then k else n)
    else if n + k > 0 then n + k else 0
  }

  /** The games get_recent_games keeps: completed, newest first, at most
      `limit` of them. No value when the request failed or a completed game's
      date does not parse (both end in the `except` that returns []). */
  function SelectedGames(response: Option<seq<ApiGame>>, limit: int): Option<seq<ApiGame>>
  {
    match response
    case None => None
    case Some(games) =>
      var done := Completed(games);
      if exists g :: g in done && g.day.None? then None
      else
        var sorted := SortDesc(done, Day);
        SortDescLength(done, Day);
        Some(sorted[..SliceLength(|sorted|, limit)])
  }

  function RecentGames(response: Option<seq<ApiGame>>, limit: int): (ids: seq<int>)
  {
    match SelectedGames(response, limit)
    case None => []
    case Some(gs) => seq(|gs|, i requires 0 <= i < |gs| => gs[i].id)
  }

  /** The selection is sorted newest first, holds only completed games of
      the response, holds min(limit, #completed) of them for a non-negative
      limit, and games of the same day keep their response order. */
  lemma RecentGamesFacts(response: Option<seq<ApiGame>>, limit: int)
    requires SelectedGames(response, limit).Some?
    ensures var gs := SelectedGames(response, limit).value;
      && SortedDesc(gs, Day)
      && (forall g :: g in gs ==> g in response.value && g.status == "FT")
      && (limit >= 0 ==> |gs| == Min(limit, |Completed(response.value)|))
      && (forall k :: IsPrefixOf(WithKey(gs, Day, k), WithKey(Completed(response.value), Day, k)))
      && RecentGames(response, limit) == seq(|gs|, i requires 0 <= i < |gs| => gs[i].id)
  {
    var done := Completed(response.value);
    var sorted := SortDesc(done, Day);
    SortDescFacts(done, Day);
    SortDescLength(done, Day);
    var n := SliceLength(|sorted|, limit);
    var gs := sorted[..n];
    forall g | g in gs ensures g in response.value && g.status == "FT" {
      assert g in multiset(sorted);
    }
    forall k ensures IsPrefixOf(WithKey(gs, Day, k), WithKey(done, Day, k)) {
      WithKeyPrefix(sorted, n, Day, k);
    }
  }

  /** A failed request, or a completed game whose date does not parse,
      yields no ids. */
  lemma RecentGamesFailure(response: Option<seq<ApiGame>>, limit: int, g: ApiGame)
    requires response.None? || (g in response.value && g.status == "FT" && g.day.None?)
    ensures RecentGames(response, limit) == []
  {
  }

  ghost predicate IsPrefixOf<T>(p: seq<T>, s: seq<T>)
  {
    |p| <= |s| && s[..|p|] == p
  }

  lemma {:induction false} WithKeyPrefix<T>(s: seq<T>, n: nat, key: T -> int, k: int)
    requires n <= |s|
    ensures IsPrefixOf(WithKey(s[..n], key, k), WithKey(s, key, k))
    decreases |s|
  {
    if n > 0 {
      assert s[..n][1..] == s[1..][..n - 1];
      WithKeyPrefix(s[1..], n - 1, key, k);
    }
  }

  // ---------------------------------------------------------------------
  // Grouping cached rows into per-game snapshots
  // ---------------------------------------------------------------------

  /** A row of a cache query: its game, the columns a new snapshot starts
      with, and one stat. */
  datatype CachedRow = CachedRow(gameId: int, header: Snapshot, name: string, value: Scalar)

  function GameOf(r: CachedRow): int { r.gameId }

  /** Maximal runs of consecutive rows with the same game. */
  function Runs(rows: seq<CachedRow>): (r: seq<seq<CachedRow>>)
    ensures forall i :: 0 <= i < |r| ==> |r[i]| > 0
    ensures |rows| > 0 <==> |r| > 0
    ensures |rows| > 0 ==> r[|r| - 1][|r[|r| - 1]| - 1] == rows[|rows| - 1]
    decreases |rows|
  {
    if |rows| == 0 then []
    else Grow(Runs(rows[..|rows| - 1]), rows[|rows| - 1])
  }

  /** One more row: it joins the last run when of the same game, else it
      opens a run of its own. */
  function Grow(init: seq<seq<CachedRow>>, x: CachedRow): seq<seq<CachedRow>>
  {
    if |init| > 0 && |init[|init| - 1]| > 0 && init[|init| - 1][0].gameId == x.gameId then
      init[..|init| - 1] + [init[|init| - 1] + [x]]
    else init + [[x]]
  }

  lemma RunsSnoc(rows: seq<CachedRow>, x: CachedRow)
    ensures Runs(rows + [x]) == Grow(Runs(rows), x)
  {
    assert (rows + [x])[..|rows|] == rows;
  }

  /** All rows of each run belong to the run's game. */
  predicate Uniform(r: seq<seq<CachedRow>>)
  {
    forall i, j :: 0 <= i < |r| && 0 <= j < |r[i]| ==> r[i][j].gameId == r[i][0].gameId
  }

  /** Neighbouring runs belong to different games. */
  predicate Separated(r: seq<seq<CachedRow>>)
    requires forall i :: 0 <= i < |r| ==> |r[i]| > 0
  {
    forall i :: 0 <= i < |r| - 1 ==> r[i][0].gameId != r[i + 1][0].gameId
  }

  lemma UniformGrow(init: seq<seq<CachedRow>>, x: CachedRow)
    requires Uniform(init)
    ensures Uniform(Grow(init, x))
  {
    var r: seq<seq<CachedRow>> := Grow(init, x);
    forall i, j | 0 <= i < |r| && 0 <= j < |r[i]| ensures r[i][j].gameId == r[i][0].gameId {
      if i < |init| - 1 {
        assert r[i] == init[i];
      } else if i == |init| - 1 && |init[i]| > 0 && init[i][0].gameId == x.gameId {
        assert r[i] == init[i] + [x];
        if j < |init[i]| { assert r[i][j] == init[i][j]; }
      } else if i == |init| - 1 {
        assert r[i] == init[i];
      }
    }
  }

  /** All rows of a run belong to the same game. */
  lemma {:induction false} RunsUniform(rows: seq<CachedRow>)
    ensures Uniform(Runs(rows))
    decreases |rows|
  {
    if |rows| > 0 {
      var p := rows[..|rows| - 1];
      RunsUniform(p);
      UniformGrow(Runs(p), rows[|rows| - 1]);
    }
  }

  function Flatten<T>(rss: seq<seq<T>>): seq<T>
    decreases |rss|
  {
    if |rss| == 0 then [] else Flatten(rss[..|rss| - 1]) + rss[|rss| - 1]
  }

  lemma FlattenSnoc<T>(rss: seq<seq<T>>, xs: seq<T>)
    ensures Flatten(rss + [xs]) == Flatten(rss) + xs
  {
    assert (rss + [xs])[..|rss|] == rss;
  }

  /** The runs cover the rows exactly, in order. */
  lemma {:induction false} RunsFlatten(rows: seq<CachedRow>)
    ensures Flatten(Runs(rows)) == rows
    decreases |rows|
  {
    if |rows| > 0 {
      var p := rows[..|rows| - 1];
      RunsFlatten(p);
      FlattenGrow(Runs(p), rows[|rows| - 1]);
      assert p + [rows[|rows| - 1]] == rows;
    }
  }

  lemma FlattenGrow(init: seq<seq<CachedRow>>, x: CachedRow)
    ensures Flatten(Grow(init, x)) == Flatten(init) + [x]
  {
    if |init| > 0 && |init[|init| - 1]| > 0 && init[|init| - 1][0].gameId == x.gameId {
      var front: seq<seq<CachedRow>> := init[..|init| - 1];
      var last: seq<CachedRow> := init[|init| - 1];
      assert init == front + [last];
      FlattenSnoc(front, last);
      FlattenSnoc(front, last + [x]);
    } else {
      FlattenSnoc(init, [x]);
    }
  }

  /** Neighbouring runs belong to different games. */
  lemma {:induction false} RunsSeparated(rows: seq<CachedRow>)
    ensures Separated(Runs(rows))
    decreases |rows|
  {
    if |rows| > 0 {
      var p := rows[..|rows| - 1];
      RunsSeparated(p);
      SeparatedGrow(Runs(p), rows[|rows| - 1]);
    }
  }

  lemma SeparatedGrow(init: seq<seq<CachedRow>>, x: CachedRow)
    requires forall i :: 0 <= i < |init| ==> |init[i]| > 0
    requires Separated(init)
    ensures var r := Grow(init, x);
      (forall i :: 0 <= i < |r| ==> |r[i]| > 0) && Separated(r)
  {
    var r: seq<seq<CachedRow>> := Grow(init, x);
    forall i | 0 <= i < |r| - 1 ensures r[i][0].gameId != r[i + 1][0].gameId {
      assert r[i][0] == init[i][0];
      if i + 1 < |init| { assert r[i + 1][0] == init[i + 1][0]; }
    }
  }

  /** Run heads in strictly descending game order. */
  predicate HeadsDescending(r: seq<seq<CachedRow>>)
    requires forall i :: 0 <= i < |r| ==> |r[i]| > 0
  {
    forall i, j :: 0 <= i < j < |r| ==> r[i][0].gameId > r[j][0].gameId
  }

  /** The last row of a sorted prefix is no smaller than the next row. */
  lemma SortedStep(rows: seq<CachedRow>)
    requires |rows| >= 2 && SortedDesc(rows, GameOf)
    ensures SortedDesc(rows[..|rows| - 1], GameOf)
    ensures rows[|rows| - 2].gameId >= rows[|rows| - 1].gameId
  {
    var p := rows[..|rows| - 1];
    forall i, j | 0 <= i < j < |p| ensures GameOf(p[i]) >= GameOf(p[j]) {
      assert p[i] == rows[i] && p[j] == rows[j];
    }
    assert GameOf(rows[|rows| - 2]) >= GameOf(rows[|rows| - 1]);
  }

  lemma HeadsGrow(init: seq<seq<CachedRow>>, x: CachedRow)
    requires forall i :: 0 <= i < |init| ==> |init[i]| > 0
    requires HeadsDescending(init)
    requires |init| > 0 ==> init[|init| - 1][0].gameId >= x.gameId
    ensures var r := Grow(init, x);
      (forall i :: 0 <= i < |r| ==> |r[i]| > 0) && HeadsDescending(r)
  {
    var r: seq<seq<CachedRow>> := Grow(init, x);
    if |init| > 0 && init[|init| - 1][0].gameId == x.gameId {
      assert forall i :: 0 <= i < |r| ==> r[i][0] == init[i][0];
    } else {
      assert forall i :: 0 <= i < |init| ==> r[i] == init[i];
    }
  }

  /** On rows ordered by game id descending (the query's ORDER BY), every
      game forms exactly one run, and runs come in descending game order. */
  lemma {:induction false} SortedRunsDistinct(rows: seq<CachedRow>)
    requires SortedDesc(rows, GameOf)
    ensures HeadsDescending(Runs(rows))
    decreases |rows|
  {
    if |rows| > 0 {
      var p := rows[..|rows| - 1];
      var x := rows[|rows| - 1];
      var init := Runs(p);
      if |p| > 0 {
        SortedStep(rows);
        SortedRunsDistinct(p);
        LastRunGame(p);
      }
      HeadsGrow(init, x);
    }
  }

  /** The snapshot of one run: the first row's header, then each row's stat
      written in order. */
  function SnapOf(run: seq<CachedRow>): (s: Snapshot)
    requires |run| > 0
    ensures run[|run| - 1].name in s && s[run[|run| - 1].name] == run[|run| - 1].value
    decreases |run|
  {
    var x := run[|run| - 1];
    if |run| == 1 then x.header[x.name := x.value]
    else SnapOf(run[..|run| - 1])[x.name := x.value]
  }

  /** Every stat of a run is in its snapshot with the value of its last row
      of that name; nothing else is, beyond the header's columns. */
  lemma {:induction false} SnapOfContents(run: seq<CachedRow>, j: nat)
    requires j < |run|
    requires forall k :: j < k < |run| ==> run[k].name != run[j].name
    ensures run[j].name in SnapOf(run) && SnapOf(run)[run[j].name] == run[j].value
    decreases |run|
  {
    if j < |run| - 1 {
      SnapOfContents(run[..|run| - 1], j);
    }
  }

  lemma {:induction false} SnapOfKeys(run: seq<CachedRow>, c: string)
    requires |run| > 0 && c in SnapOf(run)
    ensures c in run[0].header || exists k :: 0 <= k < |run| && run[k].name == c
    decreases |run|
  {
    if |run| > 1 && c != run[|run| - 1].name {
      SnapOfKeys(run[..|run| - 1], c);
    }
  }

  function SnapsOf(runs: seq<seq<CachedRow>>): (s: seq<Snapshot>)
    requires forall i :: 0 <= i < |runs| ==> |runs[i]| > 0
    ensures |s| == |runs|
    decreases |runs|
  {
    if |runs| == 0 then [] else SnapsOf(runs[..|runs| - 1]) + [SnapOf(runs[|runs| - 1])]
  }

  function Snapshots(rows: seq<CachedRow>): (s: seq<Snapshot>)
    ensures |s| == |Runs(rows)|
  {
    SnapsOf(Runs(rows))
  }

  /** There are never more snapshots than rows. */
  lemma {:induction false} SnapshotCount(rows: seq<CachedRow>)
    ensures |Snapshots(rows)| <= |rows|
    decreases |rows|
  {
    if |rows| > 0 {
      SnapshotCount(rows[..|rows| - 1]);
    }
  }

  lemma SnapsOfMerge(init: seq<seq<CachedRow>>, x: CachedRow)
    requires |init| > 0 && forall i :: 0 <= i < |init| ==> |init[i]| > 0
    ensures var s := SnapsOf(init);
      SnapsOf(init[..|init| - 1] + [init[|init| - 1] + [x]])
        == s[..|s| - 1] + [s[|s| - 1][x.name := x.value]]
  {
    var front := init[..|init| - 1];
    var last := init[|init| - 1];
    assert (last + [x])[..|last|] == last;
    assert (front + [last + [x]])[..|front|] == front;
    SnapsOfAppend(front, last + [x]);
    var s := SnapsOf(init);
    assert s == SnapsOf(front) + [SnapOf(last)];
  }

  lemma SnapsOfAppend(init: seq<seq<CachedRow>>, run: seq<CachedRow>)
    requires |run| > 0 && forall i :: 0 <= i < |init| ==> |init[i]| > 0
    ensures SnapsOf(init + [run]) == SnapsOf(init) + [SnapOf(run)]
  {
    assert (init + [run])[..|init|] == init;
  }

  /** The last run's game is the game of the last row. */
  lemma LastRunGame(rows: seq<CachedRow>)
    requires |rows| > 0
    ensures var r := Runs(rows); r[|r| - 1][0].gameId == rows[|rows| - 1].gameId
  {
    RunsUniform(rows);
    var r: seq<seq<CachedRow>> := Runs(rows);
    var last: seq<CachedRow> := r[|r| - 1];
    assert last[|last| - 1].gameId == last[0].gameId;
  }

  /** A row of the same game as the previous one extends the last snapshot;
      any other row starts a new snapshot from its header. */
  lemma SnapshotsSnoc(rows: seq<CachedRow>, x: CachedRow)
    ensures var s := Snapshots(rows);
      if |rows| > 0 && rows[|rows| - 1].gameId == x.gameId then
        |s| > 0 && Snapshots(rows + [x]) == s[..|s| - 1] + [s[|s| - 1][x.name := x.value]]
      else Snapshots(rows + [x]) == s + [x.header[x.name := x.value]]
  {
    RunsSnoc(rows, x);
    var init: seq<seq<CachedRow>> := Runs(rows);
    if |rows| > 0 {
      LastRunGame(rows);
    }
    if |rows| > 0 && rows[|rows| - 1].gameId == x.gameId {
      SnapsOfMerge(init, x);
    } else {
      SnapsOfAppend(init, [x]);
    }
  }

  /** The grouping loop of get_team_recent_stats / get_team_recent_qb_stats. */
  method GroupSnapshots(rows: seq<CachedRow>) returns (snaps: seq<Snapshot>)
    ensures snaps == Snapshots(rows)
  {
    snaps := [];
    var current: Option<int> := None;
    var gameStats: Snapshot := map[];
    for i := 0 to |rows|
      invariant i == 0 ==> current.None? && snaps == [] && gameStats == map[]
      invariant i > 0 ==> current == Some(rows[i - 1].gameId) && rows[i - 1].name in gameStats
      invariant i > 0 ==> snaps + [gameStats] == Snapshots(rows[..i])
    {
      var row := rows[i];
      assert rows[..i + 1] == rows[..i] + [row];
      SnapshotsSnoc(rows[..i], row);
      ghost var s := Snapshots(rows[..i]);
      if i > 0 {
        assert s[..|s| - 1] == snaps && s[|s| - 1] == gameStats;
      }
      if current != Some(row.gameId) {
        if current.Some? {
          snaps := snaps + [gameStats];
        }
        current := Some(row.gameId);
        gameStats := row.header;
      }
      gameStats := gameStats[row.name := row.value];
    }
    assert rows[..|rows|] == rows;
    if gameStats != map[] {
      snaps := snaps + [gameStats];
    }
  }

  // ---------------------------------------------------------------------
  // The team_stats and qb_stats tables
  // ---------------------------------------------------------------------

  datatype TeamStatRow = TeamStatRow(gameId: int, teamId: int, name: string, value: real)

  datatype QbStatRow = QbStatRow(gameId: int, teamId: int, playerId: Scalar, playerName: Scalar,
                                 name: string, value: Scalar)

  /** PRIMARY KEY (game_id, team_id, stat_name). */
  function TeamKey(r: TeamStatRow): (int, int, string) { (r.gameId, r.teamId, r.name) }

  /** PRIMARY KEY (game_id, team_id, player_id, stat_name). */
  function QbKey(r: QbStatRow): (int, int, Scalar, string) { (r.gameId, r.teamId, r.playerId, r.name) }

  function TeamRowAsCached(r: TeamStatRow): CachedRow
  {
    CachedRow(r.gameId, map["game_id" := Num(r.gameId as real)], r.name, Num(r.value))
  }

  /** What a `REAL` column makes of a value on insert: text that reads as
      a number is stored as that number; anything else is stored as given. */
  function RealAffinity(v: Scalar): (r: Scalar)
    ensures !v.Text? ==> r == v
    ensures Float(r) == Float(v)
    ensures r.Text? <==> v.Text? && ParseFloat(v.s).None?
  {
    match v
    case Text(t) => if ParseFloat(t).Some? then Num(ParseFloat(t).value) else v
    case _ => v
  }

  function QbRowAsCached(r: QbStatRow): CachedRow
  {
    CachedRow(r.gameId, map["game_id" := Num(r.gameId as real), "player_id" := r.playerId,
                            "player_name" := r.playerName], r.name, r.value)
  }

  /** `SELECT ... FROM team_stats WHERE team_id = ? ORDER BY game_id DESC
      LIMIT ?`; rows of one game come in table order. */
  function TeamQuery(t: seq<TeamStatRow>, teamId: int, limit: int): seq<CachedRow>
  {
    var mine := Where(t, (r: TeamStatRow) => r.teamId == teamId);
    var rows := seq(|mine|, i requires 0 <= i < |mine| => TeamRowAsCached(mine[i]));
    Limit(SortDesc(rows, GameOf), limit)
  }

  /** The same query on qb_stats. */
  function QbQuery(q: seq<QbStatRow>, teamId: int, limit: int): seq<CachedRow>
  {
    var mine := Where(q, (r: QbStatRow) => r.teamId == teamId);
    var rows := seq(|mine|, i requires 0 <= i < |mine| => QbRowAsCached(mine[i]));
    Limit(SortDesc(rows, GameOf), limit)
  }

  /** The team cache is used iff it has rows for the team and they form at
      least `numGames` snapshots (the query reads num_games * 32 rows). */
  predicate TeamHit(t: seq<TeamStatRow>, teamId: int, numGames: int)
  {
    var rows := TeamQuery(t, teamId, numGames * 32);
    |rows| > 0 && |Snapshots(rows)| >= numGames
  }

  /** The query orders by game, so a hit holds `numGames` distinct games. */
  lemma TeamHitDistinctGames(t: seq<TeamStatRow>, teamId: int, numGames: int)
    requires TeamHit(t, teamId, numGames)
    ensures |Runs(TeamQuery(t, teamId, numGames * 32))| >= numGames
    ensures HeadsDescending(Runs(TeamQuery(t, teamId, numGames * 32)))
  {
    var mine := Where(t, (r: TeamStatRow) => r.teamId == teamId);
    var rows := seq(|mine|, i requires 0 <= i < |mine| => TeamRowAsCached(mine[i]));
    var sorted := SortDesc(rows, GameOf);
    SortDescFacts(rows, GameOf);
    var q := Limit(sorted, numGames * 32);
    assert SortedDesc(q, GameOf) by {
      forall i, j | 0 <= i < j < |q| ensures GameOf(q[i]) >= GameOf(q[j]) {
        assert q[i] == sorted[i] && q[j] == sorted[j];
      }
    }
    SortedRunsDistinct(q);
  }

  /** The quarterback read limits ROWS to `numGames`, so for a non-negative
      count it can never see more than `numGames` stats in all. */
  lemma QbQueryRowBound(q: seq<QbStatRow>, teamId: int, numGames: int)
    requires numGames >= 0
    ensures |QbQuery(q, teamId, numGames)| <= numGames
    ensures |Snapshots(QbQuery(q, teamId, numGames))| <= numGames
  {
    SnapshotCount(QbQuery(q, teamId, numGames));
  }

  // ---------------------------------------------------------------------
  // Team backfill (_fetch_and_cache_team_stats)
  // ---------------------------------------------------------------------

  /** One team's entry in a game-statistics response; no statistics means
      the block's statistics are empty. */
  datatype TeamGameBlock = TeamGameBlock(teamId: int, statistics: Option<RawTeamStats>)

  /** The snapshots gathered so far and the uncommitted table. */
  datatype TeamFill = TeamFill(snaps: seq<Snapshot>, staged: seq<TeamStatRow>)

  predicate HasGame(t: seq<TeamStatRow>, gameId: int, teamId: int)
  {
    exists r :: r in t && r.gameId == gameId && r.teamId == teamId
  }

  /** A cached game read back: `{'game_id': id}` then its rows in order. */
  function GameSnapshot(t: seq<TeamStatRow>, gameId: int, teamId: int): (s: Snapshot)
    ensures "game_id" in s
    decreases |t|
  {
    if |t| == 0 then map["game_id" := Num(gameId as real)]
    else
      var r := t[|t| - 1];
      var s := GameSnapshot(t[..|t| - 1], gameId, teamId);
      if r.gameId == gameId && r.teamId == teamId then s[r.name := Num(r.value)] else s
  }

  /** The `next(...)` over the response: the first block of the team. */
  function FirstBlock(blocks: seq<TeamGameBlock>, teamId: int): (r: Option<TeamGameBlock>)
    ensures r.Some? ==> r.value in blocks && r.value.teamId == teamId
    ensures r.None? ==> forall b :: b in blocks ==> b.teamId != teamId
    decreases |blocks|
  {
    if |blocks| == 0 then None
    else if blocks[0].teamId == teamId then Some(blocks[0])
    else FirstBlock(blocks[1..], teamId)
  }

  /** The stats written for a fresh game, game_id last; no value when
      cleaning raised. */
  function FreshEntries(b: TeamGameBlock, gameId: int): Option<seq<(string, real)>>
  {
    match b.statistics
    case None => Some([("game_id", gameId as real)])
    case Some(raw) =>
      match CleanTeamStats(raw)
      case None => None
      case Some(line) => Some(TeamLineEntries(line) + [("game_id", gameId as real)])
  }

  /** The record the backfill gathers for a fresh game, game_id last:
      the cleaned record as returned, before the `float()` of the write.
      Name by name it is what is written, up to that `float()`. */
  function FreshRecord(b: TeamGameBlock, gameId: int): (r: seq<(string, Scalar)>)
    requires FreshEntries(b, gameId).Some?
    ensures var es := FreshEntries(b, gameId).value;
      && |r| == |es|
      && forall i :: 0 <= i < |r| ==> r[i].0 == es[i].0 && Float(r[i].1) == Some(es[i].1)
  {
    match b.statistics
    case None => [("game_id", Num(gameId as real))]
    case Some(raw) =>
      var line := CleanTeamStats(raw).value;
      CleanedRecordStored(raw, line);
      CleanedRecord(raw, line) + [("game_id", Num(gameId as real))]
  }

  /** The dict of a record: a later entry under a name replaces an earlier one. */
  function RecordSnapshot(rs: seq<(string, Scalar)>): Snapshot
    decreases |rs|
  {
    if |rs| == 0 then map[]
    else RecordSnapshot(rs[..|rs| - 1])[rs[|rs| - 1].0 := rs[|rs| - 1].1]
  }

  /** The `INSERT OR REPLACE` of each entry, in order. */
  function WriteEntries(t: seq<TeamStatRow>, gameId: int, teamId: int, es: seq<(string, real)>): seq<TeamStatRow>
    decreases |es|
  {
    if |es| == 0 then t
    else
      var e := es[|es| - 1];
      Upsert(WriteEntries(t, gameId, teamId, es[..|es| - 1]), TeamStatRow(gameId, teamId, e.0, e.1), TeamKey)
  }

  /** One game of the backfill loop; no value when it raised. */
  function TeamStep(f: TeamFill, teamId: int, gameId: int, api: map<int, seq<TeamGameBlock>>): Option<TeamFill>
  {
    if HasGame(f.staged, gameId, teamId) then
      Some(TeamFill(f.snaps + [GameSnapshot(f.staged, gameId, teamId)], f.staged))
    else if gameId !in api || |api[gameId]| == 0 then Some(f)
    else
      match FirstBlock(api[gameId], teamId)
      case None => Some(f)
      case Some(b) =>
        match FreshEntries(b, gameId)
        case None => None
        case Some(es) => Some(TeamFill(f.snaps + [RecordSnapshot(FreshRecord(b, gameId))], WriteEntries(f.staged, gameId, teamId, es)))
  }

  function TeamFillAll(t: seq<TeamStatRow>, teamId: int, ids: seq<int>, api: map<int, seq<TeamGameBlock>>): Option<TeamFill>
    decreases |ids|
  {
    if |ids| == 0 then Some(TeamFill([], t))
    else
      match TeamFillAll(t, teamId, ids[..|ids| - 1], api)
      case None => None
      case Some(f) => TeamStep(f, teamId, ids[|ids| - 1], api)
  }

  /** The outcome of a backfill: snapshots and the table after it. A raise
      anywhere leaves the table as it was and yields no snapshots. */
  function BackfillTeam(t: seq<TeamStatRow>, teamId: int, numGames: int, games: Option<seq<ApiGame>>,
                        api: map<int, seq<TeamGameBlock>>): (seq<Snapshot>, seq<TeamStatRow>)
  {
    match TeamFillAll(t, teamId, RecentGames(games, numGames), api)
    case None => ([], t)
    case Some(f) => (f.snaps, f.staged)
  }

  /** A game already in the table is read back and never looked up in the
      response: the step does not depend on the response at all. */
  lemma CachedGameReused(f: TeamFill, teamId: int, gameId: int, api1: map<int, seq<TeamGameBlock>>,
                         api2: map<int, seq<TeamGameBlock>>)
    requires HasGame(f.staged, gameId, teamId)
    ensures TeamStep(f, teamId, gameId, api1) == TeamStep(f, teamId, gameId, api2)
    ensures TeamStep(f, teamId, gameId, api1).Some?
    ensures TeamStep(f, teamId, gameId, api1).value.staged == f.staged
  {
  }

  /** A game with no statistics in the response, or none for this team, is
      skipped: nothing is gathered or written. */
  lemma MissingGameSkipped(f: TeamFill, teamId: int, gameId: int, api: map<int, seq<TeamGameBlock>>)
    requires !HasGame(f.staged, gameId, teamId)
    requires gameId !in api || forall b :: b in api[gameId] ==> b.teamId != teamId
    ensures TeamStep(f, teamId, gameId, api) == Some(f)
  {
  }

  /** Once a step raises, the whole backfill has raised. */
  lemma {:induction false} TeamFillNoneSticks(t: seq<TeamStatRow>, teamId: int, ids: seq<int>,
                                            api: map<int, seq<TeamGameBlock>>, k: nat)
    requires k <= |ids| && TeamFillAll(t, teamId, ids[..k], api).None?
    ensures TeamFillAll(t, teamId, ids, api).None?
    decreases |ids| - k
  {
    if k < |ids| {
      assert ids[..k + 1][..k] == ids[..k];
      TeamFillNoneSticks(t, teamId, ids, api, k + 1);
    } else {
      assert ids[..k] == ids;
    }
  }

  /** Writes stay inside the one (game, team): every other row is kept and
      no other row appears. */
  lemma {:induction false} WriteEntriesScope(t: seq<TeamStatRow>, gameId: int, teamId: int,
                                           es: seq<(string, real)>, r: TeamStatRow)
    requires r.gameId != gameId || r.teamId != teamId
    ensures r in WriteEntries(t, gameId, teamId, es) <==> r in t
    decreases |es|
  {
    if |es| > 0 {
      WriteEntriesScope(t, gameId, teamId, es[..|es| - 1], r);
    }
  }

  lemma {:induction false} WriteEntriesUnique(t: seq<TeamStatRow>, gameId: int, teamId: int, es: seq<(string, real)>)
    requires UniqueBy(t, TeamKey)
    ensures UniqueBy(WriteEntries(t, gameId, teamId, es), TeamKey)
    decreases |es|
  {
    if |es| > 0 {
      WriteEntriesUnique(t, gameId, teamId, es[..|es| - 1]);
      var e := es[|es| - 1];
      UpsertUnique(WriteEntries(t, gameId, teamId, es[..|es| - 1]), TeamStatRow(gameId, teamId, e.0, e.1), TeamKey);
    }
  }

  /** Every entry written is in the table afterwards with its value, when no
      later entry has its name. */
  lemma {:induction false} WriteEntriesStored(t: seq<TeamStatRow>, gameId: int, teamId: int,
                                            es: seq<(string, real)>, j: nat)
    requires j < |es| && forall k :: j < k < |es| ==> es[k].0 != es[j].0
    ensures TeamStatRow(gameId, teamId, es[j].0, es[j].1) in WriteEntries(t, gameId, teamId, es)
    decreases |es|
  {
    if j < |es| - 1 {
      WriteEntriesStored(t, gameId, teamId, es[..|es| - 1], j);
    }
  }

  /** A backfill only changes the rows of its own team. */
  lemma {:induction false} TeamFillScope(t: seq<TeamStatRow>, teamId: int, ids: seq<int>,
                                       api: map<int, seq<TeamGameBlock>>, r: TeamStatRow)
    requires r.teamId != teamId
    requires TeamFillAll(t, teamId, ids, api).Some?
    ensures r in TeamFillAll(t, teamId, ids, api).value.staged <==> r in t
    decreases |ids|
  {
    if |ids| > 0 {
      var f := TeamFillAll(t, teamId, ids[..|ids| - 1], api).value;
      TeamFillScope(t, teamId, ids[..|ids| - 1], api, r);
      var gid := ids[|ids| - 1];
      if !HasGame(f.staged, gid, teamId) && gid in api && |api[gid]| > 0 {
        match FirstBlock(api[gid], teamId)
        case None =>
        case Some(b) =>
          match FreshEntries(b, gid)
          case None =>
          case Some(es) => WriteEntriesScope(f.staged, gid, teamId, es, r);
      }
    }
  }

  lemma {:induction false} TeamFillUnique(t: seq<TeamStatRow>, teamId: int, ids: seq<int>, api: map<int, seq<TeamGameBlock>>)
    requires UniqueBy(t, TeamKey)
    requires TeamFillAll(t, teamId, ids, api).Some?
    ensures UniqueBy(TeamFillAll(t, teamId, ids, api).value.staged, TeamKey)
    decreases |ids|
  {
    if |ids| > 0 {
      var f := TeamFillAll(t, teamId, ids[..|ids| - 1], api).value;
      TeamFillUnique(t, teamId, ids[..|ids| - 1], api);
      var gid := ids[|ids| - 1];
      if !HasGame(f.staged, gid, teamId) && gid in api && |api[gid]| > 0 {
        match FirstBlock(api[gid], teamId)
        case None =>
        case Some(b) =>
          match FreshEntries(b, gid)
          case None =>
          case Some(es) => WriteEntriesUnique(f.staged, gid, teamId, es);
      }
    }
  }

  /** At most one snapshot per selected game. */
  lemma {:induction false} TeamFillCount(t: seq<TeamStatRow>, teamId: int, ids: seq<int>, api: map<int, seq<TeamGameBlock>>)
    requires TeamFillAll(t, teamId, ids, api).Some?
    ensures |TeamFillAll(t, teamId, ids, api).value.snaps| <= |ids|
    decreases |ids|
  {
    if |ids| > 0 {
      TeamFillCount(t, teamId, ids[..|ids| - 1], api);
    }
  }

  /** All or nothing: either the whole backfill is committed, keeping every
      other team's rows and the table's key unique, with at most one
      snapshot per recent game; or nothing is, and the result is empty. */
  lemma BackfillTeamAllOrNothing(t: seq<TeamStatRow>, teamId: int, numGames: int,
                                 games: Option<seq<ApiGame>>, api: map<int, seq<TeamGameBlock>>)
    requires UniqueBy(t, TeamKey)
    ensures var (snaps, t') := BackfillTeam(t, teamId, numGames, games, api);
      var ids := RecentGames(games, numGames);
      && UniqueBy(t', TeamKey)
      && |snaps| <= |ids|
      && (forall r: TeamStatRow :: r.teamId != teamId ==> (r in t' <==> r in t))
      && (TeamFillAll(t, teamId, ids, api).None? ==> snaps == [] && t' == t)
  {
    var ids := RecentGames(games, numGames);
    if TeamFillAll(t, teamId, ids, api).Some? {
      TeamFillUnique(t, teamId, ids, api);
      TeamFillCount(t, teamId, ids, api);
      forall r: TeamStatRow | r.teamId != teamId ensures r in BackfillTeam(t, teamId, numGames, games, api).1 <==> r in t {
        TeamFillScope(t, teamId, ids, api, r);
      }
    }
  }

  /** A fresh game yields one more snapshot and is stored under (game,
      team), its game id included as a stat of its own. */
  lemma FreshGameStored(f: TeamFill, teamId: int, gameId: int, api: map<int, seq<TeamGameBlock>>,
                        b: TeamGameBlock, line: TeamLine)
    requires !HasGame(f.staged, gameId, teamId)
    requires gameId in api && FirstBlock(api[gameId], teamId) == Some(b)
    requires b.statistics.Some? && CleanTeamStats(b.statistics.value) == Some(line)
    ensures var r := TeamStep(f, teamId, gameId, api);
      && r.Some?
      && TeamStatRow(gameId, teamId, "game_id", gameId as real) in r.value.staged
      && HasGame(r.value.staged, gameId, teamId)
      && |r.value.snaps| == |f.snaps| + 1
  {
    var es := TeamLineEntries(line) + [("game_id", gameId as real)];
    WriteEntriesStored(f.staged, gameId, teamId, es, |es| - 1);
  }

  // ---------------------------------------------------------------------
  // Quarterback backfill (_fetch_and_cache_qb_stats)
  // ---------------------------------------------------------------------

  /** The order in which a record's stats are written. The SQL orders rows
      only by game, so any fixed order is one the source can produce. */
  const QbWriteOrder: seq<string> := [
    "completions", "attempts", "completion_pct", "sacks", "sack_yards",
    "yards", "passing_touch_downs", "interceptions", "two_pt",
    "yards_per_attempt", "average", "passer_rating", "rating"]

  datatype QbFill = QbFill(snaps: seq<Snapshot>, staged: seq<QbStatRow>)

  /** The team records get_qb_stats returns for one game: {} when the game
      is missing from the responses or its payload raised. */
  function GameQbRecords(api: map<int, seq<QbTeamBlock>>, gameId: int): map<string, map<string, Scalar>>
  {
    if gameId !in api then map[]
    else match PrimaryRecords(api[gameId])
      case None => map[]
      case Some(m) => m
  }

  /** The writes for one record: each stat in write order except the
      player's name and id and the game id. */
  function WriteQbStats(q: seq<QbStatRow>, gameId: int, teamId: int, rec: map<string, Scalar>,
                        names: seq<string>): seq<QbStatRow>
    requires "player_id" in rec && "player_name" in rec
    decreases |names|
  {
    if |names| == 0 then q
    else
      var q' := WriteQbStats(q, gameId, teamId, rec, names[..|names| - 1]);
      var n := names[|names| - 1];
      if n in rec && n !in {"player_name", "player_id", "game_id"} then
        Upsert(q', QbStatRow(gameId, teamId, rec["player_id"], rec["player_name"], n, RealAffinity(rec[n])), QbKey)
      else q'
  }

  function QbStep(f: QbFill, teamId: int, teamName: string, gameId: int, api: map<int, seq<QbTeamBlock>>): QbFill
  {
    var recs := GameQbRecords(api, gameId);
    if teamName !in recs || |recs[teamName]| == 0 then f
    else
      var rec := recs[teamName];
      RecordHasPlayer(api, gameId, teamName);
      var rec' := rec["game_id" := Num(gameId as real)];
      QbFill(f.snaps + [rec'], WriteQbStats(f.staged, gameId, teamId, rec', QbWriteOrder))
  }

  lemma RecordHasPlayer(api: map<int, seq<QbTeamBlock>>, gameId: int, teamName: string)
    requires teamName in GameQbRecords(api, gameId)
    ensures "player_id" in GameQbRecords(api, gameId)[teamName]
    ensures "player_name" in GameQbRecords(api, gameId)[teamName]
  {
    PrimaryRecordsSound(api[gameId], teamName);
  }

  function QbFillAll(q: seq<QbStatRow>, teamId: int, teamName: string, ids: seq<int>,
                     api: map<int, seq<QbTeamBlock>>): QbFill
    decreases |ids|
  {
    if |ids| == 0 then QbFill([], Where(q, (r: QbStatRow) => r.teamId != teamId))
    else QbStep(QbFillAll(q, teamId, teamName, ids[..|ids| - 1], api), teamId, teamName, ids[|ids| - 1], api)
  }

  lemma {:induction false} WriteQbStatsScope(q: seq<QbStatRow>, gameId: int, teamId: int,
                                           rec: map<string, Scalar>, names: seq<string>, r: QbStatRow)
    requires "player_id" in rec && "player_name" in rec
    ensures r in WriteQbStats(q, gameId, teamId, rec, names) ==> r in q || (r.teamId == teamId && r.gameId == gameId)
    ensures r.teamId != teamId ==> (r in WriteQbStats(q, gameId, teamId, rec, names) <==> r in q)
    decreases |names|
  {
    if |names| > 0 {
      WriteQbStatsScope(q, gameId, teamId, rec, names[..|names| - 1], r);
    }
  }

  /** Each row the writes add is a stat of the record under its own name,
      stored with the column's affinity: numeric text comes back as a
      number, and the value converts as the record's did. */
  lemma {:induction false} WriteQbStatsValues(q: seq<QbStatRow>, gameId: int, teamId: int,
                                            rec: map<string, Scalar>, names: seq<string>, r: QbStatRow)
    requires "player_id" in rec && "player_name" in rec
    requires r in WriteQbStats(q, gameId, teamId, rec, names) && r !in q
    ensures r.name in rec && r.name in names && r.name !in {"player_name", "player_id", "game_id"}
    ensures r.playerId == rec["player_id"] && r.playerName == rec["player_name"]
    ensures r.value == RealAffinity(rec[r.name])
    ensures Float(r.value) == Float(rec[r.name]) && (r.value.Text? ==> ParseFloat(r.value.s).None?)
    decreases |names|
  {
    var init := names[..|names| - 1];
    var n := names[|names| - 1];
    var q' := WriteQbStats(q, gameId, teamId, rec, init);
    if r in q' {
      WriteQbStatsValues(q, gameId, teamId, rec, init, r);
      assert r.name in init;
    } else {
      assert n in rec && n !in {"player_name", "player_id", "game_id"};
      assert r == QbStatRow(gameId, teamId, rec["player_id"], rec["player_name"], n, RealAffinity(rec[n]));
    }
  }

  /** After the backfill the team's rows are exactly the ones it wrote, all
      for the selected games; every other team's rows are untouched. */
  lemma {:induction false} QbFillScope(q: seq<QbStatRow>, teamId: int, teamName: string, ids: seq<int>,
                                     api: map<int, seq<QbTeamBlock>>, r: QbStatRow)
    ensures var q' := QbFillAll(q, teamId, teamName, ids, api).staged;
      && (r.teamId != teamId ==> (r in q' <==> r in q))
      && (r in q' && r.teamId == teamId ==> r.gameId in ids)
    decreases |ids|
  {
    if |ids| > 0 {
      var init := ids[..|ids| - 1];
      QbFillScope(q, teamId, teamName, init, api, r);
      var f := QbFillAll(q, teamId, teamName, init, api);
      var gid := ids[|ids| - 1];
      var recs := GameQbRecords(api, gid);
      if teamName in recs && |recs[teamName]| > 0 {
        RecordHasPlayer(api, gid, teamName);
        var rec' := recs[teamName]["game_id" := Num(gid as real)];
        WriteQbStatsScope(f.staged, gid, teamId, rec', QbWriteOrder, r);
      }
      if r.gameId in init { assert r.gameId in ids; }
    }
  }

  lemma {:induction false} WriteQbStatsUnique(q: seq<QbStatRow>, gameId: int, teamId: int,
                                            rec: map<string, Scalar>, names: seq<string>)
    requires "player_id" in rec && "player_name" in rec
    requires UniqueBy(q, QbKey)
    ensures UniqueBy(WriteQbStats(q, gameId, teamId, rec, names), QbKey)
    decreases |names|
  {
    if |names| > 0 {
      var q' := WriteQbStats(q, gameId, teamId, rec, names[..|names| - 1]);
      WriteQbStatsUnique(q, gameId, teamId, rec, names[..|names| - 1]);
      var n := names[|names| - 1];
      if n in rec && n !in {"player_name", "player_id", "game_id"} {
        UpsertUnique(q', QbStatRow(gameId, teamId, rec["player_id"], rec["player_name"], n, RealAffinity(rec[n])), QbKey);
      }
    }
  }

  lemma {:induction false} QbFillUnique(q: seq<QbStatRow>, teamId: int, teamName: string, ids: seq<int>,
                                      api: map<int, seq<QbTeamBlock>>)
    requires UniqueBy(q, QbKey)
    ensures UniqueBy(QbFillAll(q, teamId, teamName, ids, api).staged, QbKey)
    decreases |ids|
  {
    if |ids| == 0 {
      WhereUnique(q, (r: QbStatRow) => r.teamId != teamId, QbKey);
    } else {
      var init := ids[..|ids| - 1];
      QbFillUnique(q, teamId, teamName, init, api);
      var f := QbFillAll(q, teamId, teamName, init, api);
      var gid := ids[|ids| - 1];
      var recs := GameQbRecords(api, gid);
      if teamName in recs && |recs[teamName]| > 0 {
        RecordHasPlayer(api, gid, teamName);
        var rec' := recs[teamName]["game_id" := Num(gid as real)];
        WriteQbStatsUnique(f.staged, gid, teamId, rec', QbWriteOrder);
      }
    }
  }

  function BackfillQb(q: seq<QbStatRow>, teamId: int, teamName: string, numGames: int,
                      games: Option<seq<ApiGame>>, api: map<int, seq<QbTeamBlock>>): (seq<Snapshot>, seq<QbStatRow>)
  {
    var f := QbFillAll(q, teamId, teamName, RecentGames(games, numGames), api);
    (f.snaps, f.staged)
  }

  // ---------------------------------------------------------------------
  // The fetcher's cache state
  // ---------------------------------------------------------------------

  class StatsStore {
    var teamStats: seq<TeamStatRow>
    var qbStats: seq<QbStatRow>

    predicate Valid()
      reads this
    {
      UniqueBy(teamStats, TeamKey) && UniqueBy(qbStats, QbKey)
    }

    constructor ()
      ensures Valid() && teamStats == [] && qbStats == []
    {
      teamStats := [];
      qbStats := [];
    }

    /** The stat writes of one fresh game. */
    method WriteGame(staged: seq<TeamStatRow>, gameId: int, teamId: int, es: seq<(string, real)>)
      returns (t: seq<TeamStatRow>)
      ensures t == WriteEntries(staged, gameId, teamId, es)
    {
      t := staged;
      for i := 0 to |es|
        invariant t == WriteEntries(staged, gameId, teamId, es[..i])
      {
        assert es[..i + 1][..i] == es[..i];
        t := Upsert(t, TeamStatRow(gameId, teamId, es[i].0, es[i].1), TeamKey);
      }
      assert es[..|es|] == es;
    }

    /** `_fetch_and_cache_team_stats`: the ids come from `games`, the
        per-game statistics from `api`. Writes are staged and committed only
        when no game raised; otherwise the table is left as it was. */
    method FetchAndCacheTeamStats(teamId: int, numGames: int, games: Option<seq<ApiGame>>,
                                  api: map<int, seq<TeamGameBlock>>) returns (snaps: seq<Snapshot>)
      requires Valid()
      modifies this
      ensures Valid()
      ensures (snaps, teamStats) == BackfillTeam(old(teamStats), teamId, numGames, games, api)
      ensures qbStats == old(qbStats)
    {
      var ids := RecentGames(games, numGames);
      var fill := FillGames(teamStats, teamId, ids, api);
      if fill.None? {
        return [];
      }
      TeamFillUnique(teamStats, teamId, ids, api);
      teamStats := fill.value.staged;
      snaps := fill.value.snaps;
    }

    /** The loop over the selected games, staging in a local table. */
    method FillGames(t0: seq<TeamStatRow>, teamId: int, ids: seq<int>, api: map<int, seq<TeamGameBlock>>)
      returns (r: Option<TeamFill>)
      ensures r == TeamFillAll(t0, teamId, ids, api)
    {
      var staged := t0;
      var gathered: seq<Snapshot> := [];
      for i := 0 to |ids|
        invariant TeamFillAll(t0, teamId, ids[..i], api) == Some(TeamFill(gathered, staged))
      {
        assert ids[..i + 1][..i] == ids[..i];
        var step := FillGame(TeamFill(gathered, staged), teamId, ids[i], api);
        if step.None? {
          TeamFillNoneSticks(t0, teamId, ids, api, i + 1);
          return None;
        }
        gathered, staged := step.value.snaps, step.value.staged;
      }
      assert ids[..|ids|] == ids;
      r := Some(TeamFill(gathered, staged));
    }

    /** One game of the backfill loop: reuse the cached game, skip a game
        the response lacks, or stage the fresh one; no value when it raises. */
    method FillGame(f: TeamFill, teamId: int, gid: int, api: map<int, seq<TeamGameBlock>>)
      returns (r: Option<TeamFill>)
      ensures r == TeamStep(f, teamId, gid, api)
    {
      if HasGame(f.staged, gid, teamId) {
        return Some(TeamFill(f.snaps + [GameSnapshot(f.staged, gid, teamId)], f.staged));
      }
      r := Some(f);
      if gid in api && |api[gid]| > 0 {
        var b := FirstBlock(api[gid], teamId);
        if b.Some? {
          var es := FreshEntries(b.value, gid);
          if es.None? {
            return None;
          }
          var staged := WriteGame(f.staged, gid, teamId, es.value);
          r := Some(TeamFill(f.snaps + [RecordSnapshot(FreshRecord(b.value, gid))], staged));
        }
      }
    }

    /** `get_team_recent_stats`: the cache when it holds enough games,
        else the backfill. */
    method GetTeamRecentStats(teamId: int, numGames: int, games: Option<seq<ApiGame>>,
                              api: map<int, seq<TeamGameBlock>>) returns (snaps: seq<Snapshot>)
      requires Valid()
      modifies this
      ensures Valid()
      ensures TeamHit(old(teamStats), teamId, numGames) ==>
        snaps == Snapshots(TeamQuery(old(teamStats), teamId, numGames * 32)) && teamStats == old(teamStats)
      ensures !TeamHit(old(teamStats), teamId, numGames) ==>
        (snaps, teamStats) == BackfillTeam(old(teamStats), teamId, numGames, games, api)
      ensures qbStats == old(qbStats)
    {
      var rows := TeamQuery(teamStats, teamId, numGames * 32);
      if |rows| > 0 {
        var cached := GroupSnapshots(rows);
        if |cached| >= numGames {
          return cached;
        }
      }
      snaps := FetchAndCacheTeamStats(teamId, numGames, games, api);
    }

    /** The stat writes of one quarterback record. */
    method WriteQbRecord(staged: seq<QbStatRow>, gameId: int, teamId: int, rec: map<string, Scalar>)
      returns (q: seq<QbStatRow>)
      requires "player_id" in rec && "player_name" in rec
      ensures q == WriteQbStats(staged, gameId, teamId, rec, QbWriteOrder)
    {
      q := staged;
      for i := 0 to |QbWriteOrder|
        invariant q == WriteQbStats(staged, gameId, teamId, rec, QbWriteOrder[..i])
      {
        assert QbWriteOrder[..i + 1][..i] == QbWriteOrder[..i];
        var n := QbWriteOrder[i];
        if n in rec && n !in {"player_name", "player_id", "game_id"} {
          q := Upsert(q, QbStatRow(gameId, teamId, rec["player_id"], rec["player_name"], n, RealAffinity(rec[n])), QbKey);
        }
      }
      assert QbWriteOrder[..|QbWriteOrder|] == QbWriteOrder;
    }

    /** `_fetch_and_cache_qb_stats`: the team's rows are deleted, then the
        primary quarterback of each recent game is written; per-game
        responses come from `api`. */
    method FetchAndCacheQbStats(teamId: int, teamName: string, numGames: int, games: Option<seq<ApiGame>>,
                                api: map<int, seq<QbTeamBlock>>) returns (snaps: seq<Snapshot>)
      requires Valid()
      modifies this
      ensures Valid()
      ensures (snaps, qbStats) == BackfillQb(old(qbStats), teamId, teamName, numGames, games, api)
      ensures teamStats == old(teamStats)
    {
      var ids := RecentGames(games, numGames);
      var fill := FillQbGames(qbStats, teamId, teamName, ids, api);
      QbFillUnique(qbStats, teamId, teamName, ids, api);
      qbStats := fill.staged;
      snaps := fill.snaps;
    }

    /** The delete, then the loop over the selected games, staging in a
        local table. */
    method FillQbGames(q0: seq<QbStatRow>, teamId: int, teamName: string, ids: seq<int>,
                       api: map<int, seq<QbTeamBlock>>) returns (r: QbFill)
      ensures r == QbFillAll(q0, teamId, teamName, ids, api)
    {
      var staged := Where(q0, (r: QbStatRow) => r.teamId != teamId);
      var gathered: seq<Snapshot> := [];
      for i := 0 to |ids|
        invariant QbFillAll(q0, teamId, teamName, ids[..i], api) == QbFill(gathered, staged)
      {
        assert ids[..i + 1][..i] == ids[..i];
        var gid := ids[i];
        var recs := GameQbRecords(api, gid);
        if teamName in recs && |recs[teamName]| > 0 {
          RecordHasPlayer(api, gid, teamName);
          var rec := recs[teamName]["game_id" := Num(gid as real)];
          gathered := gathered + [rec];
          staged := WriteQbRecord(staged, gid, teamId, rec);
        }
      }
      assert ids[..|ids|] == ids;
      r := QbFill(gathered, staged);
    }

    /** `get_team_recent_qb_stats`: any cached row for the team is a hit. */
    method GetTeamRecentQbStats(teamId: int, teamName: string, numGames: int, games: Option<seq<ApiGame>>,
                                api: map<int, seq<QbTeamBlock>>) returns (snaps: seq<Snapshot>)
      requires Valid()
      modifies this
      ensures Valid()
      ensures |QbQuery(old(qbStats), teamId, numGames)| > 0 ==>
        snaps == Snapshots(QbQuery(old(qbStats), teamId, numGames)) && qbStats == old(qbStats)
      ensures |QbQuery(old(qbStats), teamId, numGames)| == 0 ==>
        (snaps, qbStats) == BackfillQb(old(qbStats), teamId, teamName, numGames, games, api)
      ensures teamStats == old(teamStats)
    {
      var rows := QbQuery(qbStats, teamId, numGames);
      if |rows| > 0 {
        snaps := GroupSnapshots(rows);
        return;
      }
      snaps := FetchAndCacheQbStats(teamId, teamName, numGames, games, api);
    }
  }
}
