/** NFLWeeklyDataManager (weekly_manager.py): the weekly refresh of the
    schedule, the upcoming-games read, and the odds and team-stat caches.
    Times are seconds; the tables' timestamps are UTC, as SQLite's
    `datetime('now')` gives them. API answers are parameters. */
module WeeklyManager {
  import opened Common
  import opened Dict
  import opened Table
  import opened Sorting

  const Day := 86400
  const RefreshDays := 7

  // ---------------------------------------------------------------------
  // The weekly marker
  // ---------------------------------------------------------------------

  /** The `weekly` row of `data_updates`: a time, or text `strptime`
      rejects. */
  datatype Stamp = Stamp(at: int) | Unreadable

  /** `needs_update` as written: whole days from the marker to the local
      clock (`datetime.now()`, UTC plus `localOffset`); no marker or an
      error means an update is due. */
  function NeedsUpdateAsWritten(marker: Option<Stamp>, now: int, localOffset: int): bool
  {
    match marker
    case None => true
    case Some(Unreadable) => true
    case Some(Stamp(at)) => (now + localOffset - at) / Day >= RefreshDays
  }

  /** `needs_update` with both clocks in UTC. */
  function NeedsUpdate(marker: Option<Stamp>, now: int): bool
  {
    match marker
    case None => true
    case Some(Unreadable) => true
    case Some(Stamp(at)) => (now - at) / Day >= RefreshDays
  }

  /** An update is due exactly when there is no readable marker or a full
      week has passed since it. */
  lemma NeedsUpdateIff(marker: Option<Stamp>, now: int)
    ensures NeedsUpdate(marker, now) <==>
      marker.None? || marker.value.Unreadable? || now - marker.value.at >= RefreshDays * Day
  {
    if marker.Some? && marker.value.Stamp? {
      var x := now - marker.value.at;
      if x >= RefreshDays * Day {
        assert x / Day >= RefreshDays;
      } else {
        assert x / Day < RefreshDays;
      }
    }
  }

  /** With the local clock in UTC the code as written is the intended test. */
  lemma NeedsUpdateInUtc(marker: Option<Stamp>, now: int)
    ensures NeedsUpdateAsWritten(marker, now, 0) == NeedsUpdate(marker, now)
  {
  }

  /** Ten hours ahead of UTC, a marker written at time 0 already asks for an
      update 6 days and 14 hours later; five hours behind, it still does not
      after 7 days and 4 hours. */
  lemma LocalClockSkewsRefresh()
    ensures NeedsUpdateAsWritten(Some(Stamp(0)), 6 * Day + 14 * 3600, 10 * 3600)
    ensures !NeedsUpdate(Some(Stamp(0)), 6 * Day + 14 * 3600)
    ensures !NeedsUpdateAsWritten(Some(Stamp(0)), 7 * Day + 4 * 3600, -5 * 3600)
    ensures NeedsUpdate(Some(Stamp(0)), 7 * Day + 4 * 3600)
  {
  }

  // ---------------------------------------------------------------------
  // The schedule
  // ---------------------------------------------------------------------

  type Minute = m: int | 0 <= m < 1440

  /** A `weekly_schedule` row: the date as a day number, the kick-off time
      in minutes (NULL read as midnight). */
  datatype Game = Game(id: int, day: int, time: Option<Minute>, home: string, away: string,
                       stadium: string, city: string, status: string)

  function GameId(g: Game): int { g.id }

  /** `datetime(date || ' ' || COALESCE(time, '00:00'))`. */
  function Kickoff(g: Game): int
  {
    g.day * Day + (if g.time.None? then 0 else g.time.value * 60)
  }

  /** `ORDER BY date, time` as one number; NULL times sort first. */
  function ScheduleOrder(g: Game): int
  {
    g.day * 1441 + (if g.time.None? then 0 else g.time.value + 1)
  }

  function Lateness(g: Game): int { -ScheduleOrder(g) }

  function After(now: int): Game -> bool
  {
    g => Kickoff(g) > now
  }

  /** `get_cached_schedule`: the games kicking off strictly after now,
      by date then time; games of equal date and time keep table order. */
  function Upcoming(schedule: seq<Game>, now: int): seq<Game>
  {
    SortDesc(Where(schedule, After(now)), Lateness)
  }

  predicate TimeNotAfter(a: Option<Minute>, b: Option<Minute>)
  {
    a.None? || (b.Some? && a.value <= b.value)
  }

  /** The upcoming games are exactly the stored games after now, each as
      often as stored, ordered by date and then by time; a schedule keyed
      by game id lists each upcoming game once. */
  lemma UpcomingFacts(schedule: seq<Game>, now: int)
    ensures UniqueBy(schedule, GameId) ==> UniqueBy(Upcoming(schedule, now), GameId)
    ensures var r := Upcoming(schedule, now);
      multiset(r) == multiset(Where(schedule, After(now))) &&
      (forall g :: g in r <==> g in schedule && Kickoff(g) > now) &&
      (forall i, j :: 0 <= i < j < |r| ==>
        r[i].day < r[j].day || (r[i].day == r[j].day && TimeNotAfter(r[i].time, r[j].time)))
  {
    var w := Where(schedule, After(now));
    SortDescFacts(w, Lateness);
    var r := Upcoming(schedule, now);
    if UniqueBy(schedule, GameId) {
      WhereUnique(schedule, After(now), GameId);
      PermutationUnique(w, r, GameId);
    }
    forall g ensures g in r <==> g in w {
      assert g in r <==> g in multiset(r);
    }
    forall i, j | 0 <= i < j < |r|
      ensures r[i].day < r[j].day || (r[i].day == r[j].day && TimeNotAfter(r[i].time, r[j].time))
    {
      DayThenTime(r[i], r[j]);
    }
  }

  /** An earlier or equal schedule position means an earlier date, or the
      same date and a time not after. */
  lemma DayThenTime(a: Game, b: Game)
    requires Lateness(a) >= Lateness(b)
    ensures a.day < b.day || (a.day == b.day && TimeNotAfter(a.time, b.time))
  {
    var ta := if a.time.None? then 0 else a.time.value + 1;
    var tb := if b.time.None? then 0 else b.time.value + 1;
    assert 0 <= ta <= 1440 && 0 <= tb <= 1440;
    assert (a.day - b.day) * 1441 <= tb - ta;
  }

  /** Stages `INSERT OR REPLACE` of each game in turn. */
  function Stage(t: seq<Game>, games: seq<Game>): seq<Game>
    decreases |games|
  {
    if |games| == 0 then t
    else Upsert(Stage(t, games[..|games| - 1]), games[|games| - 1], GameId)
  }

  /** The last game with an id. */
  function LastWithId(games: seq<Game>, id: int): Option<Game>
    decreases |games|
  {
    if |games| == 0 then None
    else if games[|games| - 1].id == id then Some(games[|games| - 1])
    else LastWithId(games[..|games| - 1], id)
  }

  /** A schedule staged from nothing holds each id once, with the values
      last written for it, and nothing else. */
  lemma {:induction false} StageLastWins(games: seq<Game>)
    ensures UniqueBy(Stage([], games), GameId)
    ensures forall g :: g in Stage([], games) <==> LastWithId(games, g.id) == Some(g)
    decreases |games|
  {
    if |games| > 0 {
      var init := games[..|games| - 1];
      StageLastWins(init);
      UpsertUnique(Stage([], init), games[|games| - 1], GameId);
    }
  }

  /** The games of the first `n` days, in fetch order; `None` when a day's
      request or its payload fails. */
  function Fetched(fetch: nat -> Option<seq<Game>>, n: nat): Option<seq<Game>>
    decreases n
  {
    if n == 0 then Some([])
    else
      match Fetched(fetch, n - 1)
      case None => None
      case Some(gs) =>
        match fetch(n - 1)
        case None => None
        case Some(day) => Some(gs + day)
  }

  /** What `update_weekly_data` returns: nothing when no update is due,
      the fetched games on success, `[]` after a rollback. */
  datatype UpdateOutcome = UpToDate | Updated(games: seq<Game>) | RolledBack

  /** `update_weekly_data`: the schedule is emptied and refilled from the
      seven days' games, and the marker set, in one commit; any failure
      rolls back to the old schedule and marker. */
  function UpdateWeekly(schedule: seq<Game>, marker: Option<Stamp>, now: int, fetch: nat -> Option<seq<Game>>)
    : (seq<Game>, Option<Stamp>, UpdateOutcome)
  {
    if !NeedsUpdate(marker, now) then (schedule, marker, UpToDate)
    else
      match Fetched(fetch, RefreshDays)
      case None => (schedule, marker, RolledBack)
      case Some(games) => (Stage([], games), Some(Stamp(now)), Updated(games))
  }

  /** Without a due update, or after a rollback, schedule and marker stay;
      after an update the schedule holds each fetched id once with its last
      values, and the next update is due exactly a week later. */
  lemma UpdateWeeklyFacts(schedule: seq<Game>, marker: Option<Stamp>, now: int, fetch: nat -> Option<seq<Game>>, later: int)
    ensures var (s, m, o) := UpdateWeekly(schedule, marker, now, fetch);
      (o.UpToDate? <==> !NeedsUpdate(marker, now)) &&
      (!o.Updated? ==> s == schedule && m == marker) &&
      (o.Updated? ==>
        Fetched(fetch, RefreshDays) == Some(o.games) &&
        UniqueBy(s, GameId) &&
        (forall g :: g in s <==> LastWithId(o.games, g.id) == Some(g)) &&
        (NeedsUpdate(m, later) <==> later - now >= RefreshDays * Day))
  {
    var (s, m, o) := UpdateWeekly(schedule, marker, now, fetch);
    if o.Updated? {
      StageLastWins(o.games);
      NeedsUpdateIff(m, later);
    }
  }

  // ---------------------------------------------------------------------
  // The odds cache
  // ---------------------------------------------------------------------

  /** A `market_odds` row as this class writes it. */
  datatype OddsEntry = OddsEntry(gameId: int, betType: string, betValue: string, odd: real)

  function OfGame(gameId: int): OddsEntry -> bool
  {
    (e: OddsEntry) => e.gameId == gameId
  }

  function NotOfGame(gameId: int): OddsEntry -> bool
  {
    (e: OddsEntry) => e.gameId != gameId
  }

  /** The rows of one bet type, in its lines' order. */
  function BucketRows(gameId: int, betType: string, lines: Dict<real>): (r: seq<OddsEntry>)
    ensures forall e :: e in r ==> e.gameId == gameId
    decreases |lines|
  {
    if |lines| == 0 then []
    else
      var (v, odd) := lines[|lines| - 1];
      BucketRows(gameId, betType, lines[..|lines| - 1]) + [OddsEntry(gameId, betType, v, odd)]
  }

  /** The rows `cache_odds` inserts, bet type by bet type. */
  function OddsRows(gameId: int, d: Dict<Dict<real>>): (r: seq<OddsEntry>)
    ensures forall e :: e in r ==> e.gameId == gameId
    decreases |d|
  {
    if |d| == 0 then []
    else OddsRows(gameId, d[..|d| - 1]) + BucketRows(gameId, d[|d| - 1].0, d[|d| - 1].1)
  }

  /** `cache_odds`: the game's rows are deleted and the new ones appended. */
  function CacheOddsTable(t: seq<OddsEntry>, gameId: int, d: Dict<Dict<real>>): seq<OddsEntry>
  {
    Where(t, NotOfGame(gameId)) + OddsRows(gameId, d)
  }

  const BetTypes: seq<string> := ["spread", "total", "moneyline"]

  function EmptyBuckets(): (r: Dict<Dict<real>>)
    ensures Keys(r) == BetTypes
  {
    [("spread", []), ("total", []), ("moneyline", [])]
  }

  /** `processed_odds[bet_type][bet_value] = odd`; an unknown bet type
      raises `KeyError`. */
  function Bucket(acc: Option<Dict<Dict<real>>>, e: OddsEntry): Option<Dict<Dict<real>>>
  {
    if acc.None? then None
    else
      match Get(acc.value, e.betType)
      case None => None
      case Some(b) => Some(Put(acc.value, e.betType, Put(b, e.betValue, e.odd)))
  }

  function BucketsFrom(acc: Option<Dict<Dict<real>>>, rows: seq<OddsEntry>): Option<Dict<Dict<real>>>
    decreases |rows|
  {
    if |rows| == 0 then acc
    else Bucket(BucketsFrom(acc, rows[..|rows| - 1]), rows[|rows| - 1])
  }

  /** `get_cached_odds`: `None` without rows or on an unknown bet type,
      otherwise the rows bucketed by bet type and keyed by bet value. */
  function CachedOdds(t: seq<OddsEntry>, gameId: int): Option<Dict<Dict<real>>>
  {
    var rows := Where(t, OfGame(gameId));
    if |rows| == 0 then None else BucketsFrom(Some(EmptyBuckets()), rows)
  }

  /** The three buckets filled with the cached dict's lines. */
  function Filled(d: Dict<Dict<real>>): Dict<Dict<real>>
    decreases |d|
  {
    if |d| == 0 then EmptyBuckets()
    else Put(Filled(d[..|d| - 1]), d[|d| - 1].0, d[|d| - 1].1)
  }

  /** A dict `cache_odds` can store and read back: distinct bet types among
      the three known ones, distinct bet values in each. */
  predicate Storable(d: Dict<Dict<real>>)
  {
    DistinctKeys(d) &&
    (forall i :: 0 <= i < |d| ==> d[i].0 in BetTypes && DistinctKeys(d[i].1))
  }

  /** The lines cached for a bet type, none when it was not cached. */
  function LinesOf(d: Dict<Dict<real>>, bt: string): Dict<real>
  {
    match Get(d, bt)
    case None => []
    case Some(lines) => lines
  }

  /** A storable dict without its last bet type is storable, and that bet
      type is new to it. */
  lemma StorableInit(d: Dict<Dict<real>>)
    requires |d| > 0 && Storable(d)
    ensures Storable(d[..|d| - 1])
    ensures d[|d| - 1].0 !in Keys(d[..|d| - 1])
    ensures d[|d| - 1].0 in BetTypes && DistinctKeys(d[|d| - 1].1)
  {
    LastKeyNew(d);
    var init := d[..|d| - 1];
    forall i | 0 <= i < |init| ensures init[i].0 in BetTypes && DistinctKeys(init[i].1) {
      assert init[i] == d[i];
    }
  }

  /** Filling never adds a bucket. */
  lemma {:induction false} FilledKeys(d: Dict<Dict<real>>)
    requires Storable(d)
    ensures Keys(Filled(d)) == BetTypes
    decreases |d|
  {
    if |d| > 0 {
      var init := d[..|d| - 1];
      StorableInit(d);
      FilledKeys(init);
      PutKeys(Filled(init), d[|d| - 1].0, d[|d| - 1].1);
    }
  }

  /** Each bucket holds the cached lines of its bet type, or none. */
  lemma {:induction false} FilledGet(d: Dict<Dict<real>>, bt: string)
    requires Storable(d) && bt in BetTypes
    ensures Get(Filled(d), bt) == Some(LinesOf(d, bt))
    decreases |d|
  {
    if |d| > 0 {
      var init := d[..|d| - 1];
      var (k, lines) := d[|d| - 1];
      assert d == init + [(k, lines)];
      StorableInit(d);
      FilledGet(init, bt);
      GetSnoc(init, k, lines, bt);
      if bt == k {
        assert Get(d, bt) == Some(lines);
      } else {
        assert Get(Filled(d), bt) == Get(Filled(init), bt);
        assert Get(d, bt) == Get(init, bt);
      }
    }
  }

  lemma {:induction false} BucketsAppend(acc: Option<Dict<Dict<real>>>, a: seq<OddsEntry>, b: seq<OddsEntry>)
    ensures BucketsFrom(acc, a + b) == BucketsFrom(BucketsFrom(acc, a), b)
    decreases |b|
  {
    if |b| > 0 {
      assert (a + b)[..|a + b| - 1] == a + b[..|b| - 1];
      BucketsAppend(acc, a, b[..|b| - 1]);
    } else {
      assert a + b == a;
    }
  }

  /** Bucketing one more line of a bet type whose bucket holds the earlier
      lines. */
  lemma BucketStep(acc: Dict<Dict<real>>, gameId: int, bt: string, lines: Dict<real>)
    requires |lines| > 0 && DistinctKeys(lines)
    ensures Bucket(Some(Put(acc, bt, lines[..|lines| - 1])),
                   OddsEntry(gameId, bt, lines[|lines| - 1].0, lines[|lines| - 1].1)) ==
      Some(Put(acc, bt, lines))
  {
    var init := lines[..|lines| - 1];
    var (v, odd) := lines[|lines| - 1];
    var mid := Put(acc, bt, init);
    assert Get(mid, bt) == Some(init);
    LastKeyNew(lines);
    PutNew(init, v, odd);
    assert init + [(v, odd)] == lines;
    PutTwice(acc, bt, init, lines);
  }

  /** Bucketing one bet type's rows into an empty bucket gives its lines. */
  lemma {:induction false} BucketFill(acc: Dict<Dict<real>>, gameId: int, bt: string, lines: Dict<real>)
    requires Get(acc, bt) == Some([]) && DistinctKeys(lines)
    ensures BucketsFrom(Some(acc), BucketRows(gameId, bt, lines)) == Some(Put(acc, bt, lines))
    decreases |lines|
  {
    if |lines| == 0 {
      PutSame(acc, bt, []);
    } else {
      var init := lines[..|lines| - 1];
      var rows := BucketRows(gameId, bt, lines);
      assert rows[..|rows| - 1] == BucketRows(gameId, bt, init);
      LastKeyNew(lines);
      BucketFill(acc, gameId, bt, init);
      BucketStep(acc, gameId, bt, lines);
    }
  }

  /** Bucketing the rows of a storable dict fills the three buckets. */
  lemma {:induction false} BucketsOfRows(gameId: int, d: Dict<Dict<real>>)
    requires Storable(d)
    ensures BucketsFrom(Some(EmptyBuckets()), OddsRows(gameId, d)) == Some(Filled(d))
    decreases |d|
  {
    if |d| > 0 {
      var init := d[..|d| - 1];
      var (k, lines) := d[|d| - 1];
      StorableInit(d);
      BucketsOfRows(gameId, init);
      BucketsAppend(Some(EmptyBuckets()), OddsRows(gameId, init), BucketRows(gameId, k, lines));
      FilledGet(init, k);
      assert Get(init, k).None?;
      BucketFill(Filled(init), gameId, k, lines);
    }
  }

  /** After `cache_odds`, `get_cached_odds` gives back the three buckets
      holding exactly the cached lines, or `None` when nothing was cached. */
  lemma CacheOddsRoundTrip(t: seq<OddsEntry>, gameId: int, d: Dict<Dict<real>>)
    requires Storable(d)
    ensures |OddsRows(gameId, d)| == 0 ==> CachedOdds(CacheOddsTable(t, gameId, d), gameId).None?
    ensures |OddsRows(gameId, d)| > 0 ==>
      var r := CachedOdds(CacheOddsTable(t, gameId, d), gameId);
      r == Some(Filled(d)) && Keys(r.value) == BetTypes &&
      forall bt :: bt in BetTypes ==> Get(r.value, bt) == Some(LinesOf(d, bt))
  {
    CachedRowsAfterWrite(t, gameId, d);
    BucketsOfRows(gameId, d);
    FilledKeys(d);
    forall bt | bt in BetTypes
      ensures Get(Filled(d), bt) == Some(LinesOf(d, bt))
    {
      FilledGet(d, bt);
    }
  }

  /** After `cache_odds` the game's rows are exactly the new ones. */
  lemma CachedRowsAfterWrite(t: seq<OddsEntry>, gameId: int, d: Dict<Dict<real>>)
    ensures Where(CacheOddsTable(t, gameId, d), OfGame(gameId)) == OddsRows(gameId, d)
  {
    var keep := OfGame(gameId);
    WhereAppend(Where(t, NotOfGame(gameId)), OddsRows(gameId, d), keep);
    WhereNone(Where(t, NotOfGame(gameId)), keep);
    WhereAll(OddsRows(gameId, d), keep);
  }

  /** `cache_odds` touches no other game. */
  lemma CacheOddsOthers(t: seq<OddsEntry>, gameId: int, d: Dict<Dict<real>>, other: int)
    requires other != gameId
    ensures Where(CacheOddsTable(t, gameId, d), OfGame(other)) == Where(t, OfGame(other))
    ensures CachedOdds(CacheOddsTable(t, gameId, d), other) == CachedOdds(t, other)
  {
    var keep := OfGame(other);
    WhereAppend(Where(t, NotOfGame(gameId)), OddsRows(gameId, d), keep);
    WhereWhere(t, NotOfGame(gameId), keep);
    WhereNone(OddsRows(gameId, d), keep);
    assert Where(t, keep) + [] == Where(t, keep);
  }

  // ---------------------------------------------------------------------
  // The team-stat cache
  // ---------------------------------------------------------------------

  /** A `team_stats` row as this class writes it. */
  datatype StatEntry = StatEntry(teamId: int, name: string, value: real)

  function OfTeam(teamId: int): StatEntry -> bool
  {
    (e: StatEntry) => e.teamId == teamId
  }

  function NotOfTeam(teamId: int): StatEntry -> bool
  {
    (e: StatEntry) => e.teamId != teamId
  }

  /** The value stored for a stat: none for `game_id` or for a value
      `float()` rejects. */
  function Kept(name: string, v: Scalar): Option<real>
  {
    if name == "game_id" then None else Float(v)
  }

  /** The rows `cache_team_stats` inserts, in the stats' order. */
  function StatRows(teamId: int, stats: Dict<Scalar>): (r: seq<StatEntry>)
    ensures forall e :: e in r ==> e.teamId == teamId
    decreases |stats|
  {
    if |stats| == 0 then []
    else
      var (name, v) := stats[|stats| - 1];
      var x := Kept(name, v);
      StatRows(teamId, stats[..|stats| - 1]) + (if x.Some? then [StatEntry(teamId, name, x.value)] else [])
  }

  /** `cache_team_stats`: nothing for a team missing from the mapping;
      otherwise the team's rows are replaced. */
  function CacheTeamStatsTable(mapping: map<string, int>, t: seq<StatEntry>, teamName: string, stats: Dict<Scalar>)
    : seq<StatEntry>
  {
    if teamName !in mapping then t
    else Where(t, NotOfTeam(mapping[teamName])) + StatRows(mapping[teamName], stats)
  }

  /** `{stat_name: stat_value for ...}`: a repeated name keeps its first
      place and its last value. */
  function StatDict(rows: seq<StatEntry>): Dict<real>
    decreases |rows|
  {
    if |rows| == 0 then []
    else Put(StatDict(rows[..|rows| - 1]), rows[|rows| - 1].name, rows[|rows| - 1].value)
  }

  /** `get_cached_team_stats`: the team's rows as a dict, empty for a team
      missing from the mapping. */
  function CachedTeamStats(mapping: map<string, int>, t: seq<StatEntry>, teamName: string): Dict<real>
  {
    if teamName !in mapping then [] else StatDict(Where(t, OfTeam(mapping[teamName])))
  }

  /** Reading back the rows of a dict with distinct names gives, for every
      name, the value kept for it. */
  lemma {:induction false} StatDictOfRows(teamId: int, stats: Dict<Scalar>, k: string)
    requires DistinctKeys(stats)
    ensures Get(StatDict(StatRows(teamId, stats)), k) ==
      match Get(stats, k) case None => None case Some(v) => Kept(k, v)
    decreases |stats|
  {
    if |stats| > 0 {
      var init := stats[..|stats| - 1];
      var (name, v) := stats[|stats| - 1];
      assert stats == init + [(name, v)];
      StatDictOfRows(teamId, init, k);
      GetSnoc(init, name, v, k);
      LastKeyNew(stats);
      var rs := StatRows(teamId, init);
      if Kept(name, v).Some? {
        var e := StatEntry(teamId, name, Kept(name, v).value);
        assert (rs + [e])[..|rs|] == rs;
      } else {
        assert rs + [] == rs;
      }
    }
  }

  /** After `cache_team_stats` for a mapped team, reading its stats gives
      every stat except `game_id` whose value `float()` accepts, as a
      number, and nothing else. An unmapped team changes nothing. */
  lemma CacheTeamStatsRoundTrip(mapping: map<string, int>, t: seq<StatEntry>, teamName: string,
                                stats: Dict<Scalar>, k: string)
    requires DistinctKeys(stats)
    ensures teamName !in mapping ==> CacheTeamStatsTable(mapping, t, teamName, stats) == t
    ensures teamName in mapping ==>
      Get(CachedTeamStats(mapping, CacheTeamStatsTable(mapping, t, teamName, stats), teamName), k) ==
        match Get(stats, k) case None => None case Some(v) => Kept(k, v)
  {
    if teamName in mapping {
      var id := mapping[teamName];
      var base := Where(t, NotOfTeam(id));
      var rows := StatRows(id, stats);
      WhereAppend(base, rows, OfTeam(id));
      WhereNone(base, OfTeam(id));
      WhereAll(rows, OfTeam(id));
      assert Where(base + rows, OfTeam(id)) == rows;
      StatDictOfRows(id, stats, k);
    }
  }

  /** `cache_team_stats` leaves every team with another id as it was. */
  lemma CacheTeamStatsOthers(mapping: map<string, int>, t: seq<StatEntry>, teamName: string,
                             stats: Dict<Scalar>, other: string)
    requires teamName in mapping && other in mapping && mapping[other] != mapping[teamName]
    ensures CachedTeamStats(mapping, CacheTeamStatsTable(mapping, t, teamName, stats), other) ==
      CachedTeamStats(mapping, t, other)
  {
    var id := mapping[teamName];
    var rows := StatRows(id, stats);
    var keep := OfTeam(mapping[other]);
    WhereAppend(Where(t, NotOfTeam(id)), rows, keep);
    WhereWhere(t, NotOfTeam(id), keep);
    WhereNone(rows, keep);
    assert Where(t, keep) + [] == Where(t, keep);
  }

  // ---------------------------------------------------------------------
  // The manager's tables
  // ---------------------------------------------------------------------

  /** The tables the weekly manager reads and writes. */
  class WeeklyStore {
    var schedule: seq<Game>
    var weekly: Option<Stamp>
    var marketOdds: seq<OddsEntry>
    var teamMapping: map<string, int>
    var teamStats: seq<StatEntry>

    /** `game_id` is the schedule's primary key. */
    predicate Valid()
      reads this
    {
      UniqueBy(schedule, GameId)
    }

    constructor (mapping: map<string, int>)
      ensures Valid() && schedule == [] && weekly == None && marketOdds == [] && teamMapping == mapping && teamStats == []
    {
      schedule := [];
      weekly := None;
      marketOdds := [];
      teamMapping := mapping;
      teamStats := [];
    }

    method NeedsUpdateNow(now: int) returns (due: bool)
      ensures due == NeedsUpdate(weekly, now)
    {
      if weekly.None? || weekly.value.Unreadable? {
        return true;
      }
      var daysSinceUpdate := (now - weekly.value.at) / Day;
      due := daysSinceUpdate >= RefreshDays;
    }

    method GetCachedSchedule(now: int) returns (games: seq<Game>)
      requires Valid()
      ensures games == Upcoming(schedule, now)
      ensures UniqueBy(games, GameId)
    {
      UpcomingFacts(schedule, now);
      games := SortDesc(Where(schedule, After(now)), Lateness);
    }

    method UpdateWeeklyData(now: int, fetch: nat -> Option<seq<Game>>) returns (outcome: UpdateOutcome)
      requires Valid()
      modifies this
      ensures Valid()
      ensures (schedule, weekly, outcome) == UpdateWeekly(old(schedule), old(weekly), now, fetch)
      ensures marketOdds == old(marketOdds) && teamMapping == old(teamMapping) && teamStats == old(teamStats)
    {
      var due := NeedsUpdateNow(now);
      if !due {
        return UpToDate;
      }
      var staged, games := StageWeek(fetch);
      if staged.None? {
        return RolledBack;
      }
      StageLastWins(games);
      schedule := staged.value;
      weekly := Some(Stamp(now));
      outcome := Updated(games);
    }

    /** `cache_odds`. */
    method CacheOdds(gameId: int, d: Dict<Dict<real>>)
      modifies this
      ensures marketOdds == CacheOddsTable(old(marketOdds), gameId, d)
      ensures schedule == old(schedule) && weekly == old(weekly) && teamMapping == old(teamMapping) && teamStats == old(teamStats)
    {
      marketOdds := InsertOdds(Where(marketOdds, NotOfGame(gameId)), gameId, d);
    }

    /** `get_cached_odds`. */
    method GetCachedOdds(gameId: int) returns (r: Option<Dict<Dict<real>>>)
      ensures r == CachedOdds(marketOdds, gameId)
    {
      var rows := Where(marketOdds, OfGame(gameId));
      if |rows| == 0 {
        return None;
      }
      r := BucketOdds(rows);
    }

    /** `cache_team_stats`. */
    method CacheTeamStats(teamName: string, stats: Dict<Scalar>)
      modifies this
      ensures teamStats == CacheTeamStatsTable(old(teamMapping), old(teamStats), teamName, stats)
      ensures schedule == old(schedule) && weekly == old(weekly) && marketOdds == old(marketOdds) && teamMapping == old(teamMapping)
    {
      if teamName !in teamMapping {
        return;
      }
      var teamId := teamMapping[teamName];
      teamStats := InsertStats(Where(teamStats, NotOfTeam(teamId)), teamId, stats);
    }

    /** `get_cached_team_stats`. */
    method GetCachedTeamStats(teamName: string) returns (r: Dict<real>)
      ensures r == CachedTeamStats(teamMapping, teamStats, teamName)
    {
      if teamName !in teamMapping {
        return [];
      }
      r := ReadStats(Where(teamStats, OfTeam(teamMapping[teamName])));
    }
  }

  /** The seven days' requests, staging each game as it arrives; `None`
      as soon as a day fails. */
  method StageWeek(fetch: nat -> Option<seq<Game>>) returns (staged: Option<seq<Game>>, games: seq<Game>)
    ensures staged.None? <==> Fetched(fetch, RefreshDays).None?
    ensures staged.Some? ==> Fetched(fetch, RefreshDays) == Some(games) && staged.value == Stage([], games)
  {
    staged, games := StageDays(fetch, RefreshDays);
  }

  /** The day loop, over any number of days. */
  method StageDays(fetch: nat -> Option<seq<Game>>, days: nat) returns (staged: Option<seq<Game>>, games: seq<Game>)
    ensures staged.None? <==> Fetched(fetch, days).None?
    ensures staged.Some? ==> Fetched(fetch, days) == Some(games) && staged.value == Stage([], games)
  {
    var t: seq<Game> := [];
    games := [];
    for i := 0 to days
      invariant Fetched(fetch, i) == Some(games) && t == Stage([], games)
    {
      var ok;
      ok, t, games := StageNextDay(fetch, i, t, games);
      if !ok {
        FetchedFails(fetch, i + 1, days);
        return None, games;
      }
    }
    staged := Some(t);
  }

  /** One day of the loop: its request, then each of its games staged. */
  method StageNextDay(fetch: nat -> Option<seq<Game>>, i: nat, t0: seq<Game>, games0: seq<Game>)
    returns (ok: bool, t: seq<Game>, games: seq<Game>)
    requires Fetched(fetch, i) == Some(games0) && t0 == Stage([], games0)
    ensures !ok <==> Fetched(fetch, i + 1).None?
    ensures ok ==> Fetched(fetch, i + 1) == Some(games) && t == Stage([], games)
  {
    var day := fetch(i);
    if day.None? {
      return false, t0, games0;
    }
    t := StageDay(t0, day.value);
    StageAppend([], games0, day.value);
    ok, games := true, games0 + day.value;
  }

  /** Stages one day's games after the games staged so far. */
  method StageDay(t0: seq<Game>, dayGames: seq<Game>) returns (t: seq<Game>)
    ensures t == Stage(t0, dayGames)
  {
    t := t0;
    for j := 0 to |dayGames|
      invariant t == Stage(t0, dayGames[..j])
    {
      assert dayGames[..j + 1][..j] == dayGames[..j];
      t := Upsert(t, dayGames[j], GameId);
    }
    assert dayGames[..|dayGames|] == dayGames;
  }

  /** Staging two batches is staging the second after the first. */
  lemma {:induction false} StageAppend(t: seq<Game>, a: seq<Game>, b: seq<Game>)
    ensures Stage(t, a + b) == Stage(Stage(t, a), b)
    decreases |b|
  {
    if |b| == 0 {
      assert a + b == a;
    } else {
      assert (a + b)[..|a + b| - 1] == a + b[..|b| - 1];
      StageAppend(t, a, b[..|b| - 1]);
    }
  }

  /** A failed day fails every longer fetch. */
  lemma {:induction false} FetchedFails(fetch: nat -> Option<seq<Game>>, n: nat, m: nat)
    requires n <= m && Fetched(fetch, n).None?
    ensures Fetched(fetch, m).None?
    decreases m - n
  {
    if n < m {
      FetchedFails(fetch, n + 1, m);
    }
  }

  /** The inserts of `cache_odds`, bet type by bet type. */
  method InsertOdds(base: seq<OddsEntry>, gameId: int, d: Dict<Dict<real>>) returns (t: seq<OddsEntry>)
    ensures t == base + OddsRows(gameId, d)
  {
    t := base;
    for i := 0 to |d|
      invariant t == base + OddsRows(gameId, d[..i])
    {
      assert d[..i + 1][..i] == d[..i];
      var (betType, bets) := d[i];
      ghost var before := t;
      for j := 0 to |bets|
        invariant t == before + BucketRows(gameId, betType, bets[..j])
      {
        assert bets[..j + 1][..j] == bets[..j];
        t := t + [OddsEntry(gameId, betType, bets[j].0, bets[j].1)];
      }
      assert bets[..|bets|] == bets;
    }
    assert d[..|d|] == d;
  }

  /** The bucketing loop of `get_cached_odds`. */
  method BucketOdds(rows: seq<OddsEntry>) returns (r: Option<Dict<Dict<real>>>)
    ensures r == BucketsFrom(Some(EmptyBuckets()), rows)
  {
    var processed := EmptyBuckets();
    for i := 0 to |rows|
      invariant BucketsFrom(Some(EmptyBuckets()), rows[..i]) == Some(processed)
    {
      assert rows[..i + 1][..i] == rows[..i];
      var e := rows[i];
      var bucket := Get(processed, e.betType);
      if bucket.None? {
        BucketsFails(rows, i + 1);
        return None;
      }
      processed := Put(processed, e.betType, Put(bucket.value, e.betValue, e.odd));
    }
    assert rows[..|rows|] == rows;
    r := Some(processed);
  }

  /** Once bucketing has failed it stays failed. */
  lemma {:induction false} BucketsFails(rows: seq<OddsEntry>, n: nat)
    requires n <= |rows| && BucketsFrom(Some(EmptyBuckets()), rows[..n]).None?
    ensures BucketsFrom(Some(EmptyBuckets()), rows).None?
    decreases |rows| - n
  {
    if n < |rows| {
      assert rows[..n + 1][..n] == rows[..n];
      BucketsFails(rows, n + 1);
    } else {
      assert rows[..n] == rows;
    }
  }

  /** The inserts of `cache_team_stats`, skipping `game_id` and values
      `float()` rejects. */
  method InsertStats(base: seq<StatEntry>, teamId: int, stats: Dict<Scalar>) returns (t: seq<StatEntry>)
    ensures t == base + StatRows(teamId, stats)
  {
    t := base;
    for i := 0 to |stats|
      invariant t == base + StatRows(teamId, stats[..i])
    {
      assert stats[..i + 1][..i] == stats[..i];
      var (statName, statValue) := stats[i];
      if statName != "game_id" {
        var x := Float(statValue);
        if x.Some? {
          t := t + [StatEntry(teamId, statName, x.value)];
        }
      }
    }
    assert stats[..|stats|] == stats;
  }

  /** The dict comprehension of `get_cached_team_stats`. */
  method ReadStats(rows: seq<StatEntry>) returns (r: Dict<real>)
    ensures r == StatDict(rows)
  {
    r := [];
    for i := 0 to |rows|
      invariant r == StatDict(rows[..i])
    {
      assert rows[..i + 1][..i] == rows[..i];
      r := Put(r, rows[i].name, rows[i].value);
    }
    assert rows[..|rows|] == rows;
  }
}
