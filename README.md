# NFL predictor core, modelled in Dafny

This project models the data-processing core of avax-nfl-predictor. That core sits between a
sports-data API and the HTTP layer. It does five things:

- **Stat normaliser** (`data_fetcher.py`): it parses ratio strings (`"4-13"`, `"19/24"`) and
  clock strings (`"29:20"`). It derives percentages that are 0 when the denominator is 0. It
  builds the per-game team record and the quarterback record, and picks each team's primary
  quarterback.
- **Stats cache** (`data_fetcher.py`):
  - It selects a team's recent completed games.
  - It groups cached rows into per-game snapshots.
  - It applies the cache-hit rules for team and quarterback stats.
  - It backfills from the API. A backfill either commits all its rows or rolls all of them back.
- **Matchup analyser and confidence scorer** (`predictor.py` and the `data_fetcher.py` variant it
  overrides). The analyser averages each team's snapshots and runs fixed metric tables, with a
  strict threshold and a lower-is-better flip. It emits ordered advantage lines. The scorer
  weights those lines 1.5 / 1.2 / 1.0, caps the score at 85, and gives 50/50 when there are no
  advantages.
- **Odds engine** (`predictor.py`):
  - `get_game_odds` filters and formats single-bookmaker odds and caches them.
  - `_process_bookmaker_odds` aggregates quotes per line across books.
  - `_calculate_consensus` picks the modal consensus line.
  - `_analyze_key_numbers` raises key-number alerts.
  - `find_best_odds` recommends a spread play and at most one totals play.
- **Caches and refresh policy**: the prediction / game-data cache of `predictor.py`, and the
  weekly manager of `weekly_manager.py`. The manager covers the weekly refresh gate, the
  rollback-safe schedule rebuild, the upcoming-games read, and the odds and team-stat caches.

How the model is built:

- **Tables.** SQLite tables are fields of Dafny classes: `seq`s of rows in insertion order, or
  `map`s for tables read by key only.
- **Commit / rollback.** A method computes the staged table in a local variable. It assigns the
  field only on success.
- **Inputs.** API answers, the clock (`now`, integer seconds, UTC) and the machine's
  local-time offset are parameters.
- **Python values.**
  - Python dicts are insertion-ordered sequences of entries with distinct keys (module `Dict`),
    because ties and output order depend on insertion order.
  - Python's `round` is half-to-even, on exact reals.
  - `sort(reverse=True)` is a stable descending sort (module `Sorting`).
  - `INSERT OR REPLACE` is "delete the row with the same key, append the new one" (module
    `Table`).

Each stateful operation is a method. Each method is proved equal to a specification function
over the old state and the inputs. The properties below are proved about those functions.

Modules: `Common` (Python text and number built-ins), `Dict`, `Table`, `Sorting`,
`StatNormalizer`, `StatsCache`, `Analyzer`, `Confidence`, `Odds`, `Recommend`, `PredictionCache`,
`WeeklyManager`.

Behaviours of the code worth knowing, all modelled as written:

- **QB normaliser.** A stat name the normaliser does not list is dropped
  (data_fetcher.py:411-421). A raw value is kept only when converting a listed stat fails.
- **Key-number margin.** The margin test is `<=` (predictor.py:597), so a spread of 7.5 counts
  as near key 7 (`Odds.KeyNumberExamples`).
- **Upcoming schedule.** Only games with `date‖time` strictly after now are returned
  (weekly_manager.py:63).
- **Prediction expiry.** A cached prediction is served only while `expiry > now`
  (predictor.py:1108), so not when `now == expiry`.
- **Team cache read.**
  - The query limits *rows* to `numGames * 32` (data_fetcher.py:315). A hit can therefore
    return more than `numGames` snapshots.
  - The quarterback read has no "at least N games" rule. Any cached row is a hit, and its
    `LIMIT` counts rows, not games (data_fetcher.py:699-710).
- **Null prices.** In `get_game_odds`, a quote whose price is JSON null passes the points
  filter and then raises in `float()` (predictor.py:317). Only the per-bet handler catches this
  (predictor.py:329-331), so the rest of that bet is abandoned (`Odds.Reached`).

## Model

| member | source | states |
|---|---|---|
| Common.RoundHalfEven | predictor.py:634 | Python `round`: the result is within 0.5 of the argument, and an exact tie goes to the even integer |
| Common.Round2 | data_fetcher.py:182 | `round(x, 2)` stays within 0.005 of `x` |
| Common.TruncInt | predictor.py:956 | `int(x)` truncates toward zero, for both signs |
| Common.Split | data_fetcher.py:143 | `str.split(sep)` gives at least one piece, and no piece contains the separator |
| Common.JoinSplit | data_fetcher.py:143 | joining the pieces of `split(sep)` with `sep` gives back the text |
| Common.Words | predictor.py:311 | `str.split()` gives non-empty words without whitespace |
| Common.MeanBounds | predictor.py:101-102 | a mean of values in `[lo, hi]` lies in `[lo, hi]` |
| Dict.Get | predictor.py:877 | `d.get(k)` is absent exactly when `k` is not a key; otherwise it is the value of an entry with key `k` |
| Dict.Put | predictor.py:317 | after `d[k] = v`, `k` maps to `v` and every other key keeps its value |
| Dict.PutKeys | predictor.py:317 | `d[k] = v` keeps an existing key in its place and appends a new key last |
| Dict.Append | predictor.py:525-530 | `d.setdefault(k, []).append(x)`: `k`'s list grows by `x`, other keys unchanged |
| Table.Where | weekly_manager.py:288-291 | a `WHERE`/`DELETE` filter keeps exactly the rows satisfying the predicate, and never more rows than it had |
| Table.Upsert | weekly_manager.py:118-132 | `INSERT OR REPLACE`: the new row is present and last; other rows stay exactly when their key differs |
| Table.UpsertUnique | weekly_manager.py:118-132 | `INSERT OR REPLACE` keeps the primary key unique |
| Sorting.SortDescFacts | data_fetcher.py:277-280 | the descending sort is sorted, a permutation, and stable (rows with equal keys keep their order) |
| StatNormalizer.CleanRatioStat | data_fetcher.py:136-152 | empty text, or text with neither `-` nor `/`, gives (0, 0); neither component is ever negative |
| StatNormalizer.CleanRatioStatCases | data_fetcher.py:142-152 | the text is cut at every dash when it holds one, else at every slash. Fewer than two pieces, or a first or second piece that `int()` rejects, gives (0, 0). Otherwise the result is the two integers. |
| StatNormalizer.DashBeforeSlash | data_fetcher.py:142-152 | the dash is looked for first: a first piece holding a slash (`"4/13-2"`) makes the line read as (0, 0) |
| Common.IntRejects | data_fetcher.py:149-150 | `int()` refuses a text holding any character other than whitespace, a sign or a digit |
| StatNormalizer.RatioDashRoundTrip | data_fetcher.py:142-150 | `"a-b"` parses to (a, b) |
| StatNormalizer.RatioSlashRoundTrip | data_fetcher.py:144-150 | `"a/b"` parses to (a, b) |
| StatNormalizer.RatioExtraPiecesIgnored | data_fetcher.py:149-150 | only the first two pieces count: `"a-b-rest"` parses to (a, b) |
| StatNormalizer.RatioNegativeRejected | data_fetcher.py:142-152 | a leading minus sign gives an empty first piece, hence (0, 0) |
| StatNormalizer.RatioField | data_fetcher.py:138-147 | a text field parses as a ratio; JSON null is falsy and gives (0, 0) |
| StatNormalizer.ClockRoundTrip | data_fetcher.py:154-158 | `"MM:SS"` reads as MM + SS/60 |
| StatNormalizer.ClockMalformed | data_fetcher.py:156-160 | text without a colon, or with two or more, reads as 0.0 |
| StatNormalizer.Percentage | data_fetcher.py:182 | a zero denominator gives 0; otherwise the value is num/den*100 to within rounding |
| StatNormalizer.PercentageBounds | data_fetcher.py:182 | a share of at most the whole is a percentage in [0, 100] |
| StatNormalizer.TeamLineEntries | data_fetcher.py:175-207 | the cleaned record lists its 31 stat names in the record's own order, each paired with its own field of the record (`StatField`: `third_down_pct` with the third-down percentage, and so on) |
| StatNormalizer.CleanedRecord | data_fetcher.py:175-207 | the record `_clean_team_stats` returns pairs each of the 31 names with its value: a count copied from the feed keeps the feed's value, and a derived stat is a number |
| StatNormalizer.RawCountsStored | data_fetcher.py:176-205 | in a successfully cleaned record, each count copied from the feed is `float()` of the feed's value |
| StatNormalizer.RecordFieldStored | data_fetcher.py:175-207 | under each name, converting the returned value gives the cleaned field |
| StatNormalizer.CleanedRecordStored | data_fetcher.py:175-207 | row by row, the returned record and the written values have the same names, and each written value is `float()` of the returned one |
| StatNormalizer.CleanedRatioFields | data_fetcher.py:168-192 | third-down and comp/att land as (made, attempted) in their fields. Each percentage is 0 for zero attempts and otherwise made/attempted*100 to within 0.005. Neither is negative. |
| StatNormalizer.CleanedOtherRatios | data_fetcher.py:168-203 | fourth downs and red-zone visits land as (made, attempted), with a percentage that is 0 for zero attempts and otherwise made/attempted*100 to within 0.005. Sacks and penalties land as their two counts, first piece first. |
| StatNormalizer.ZeroAttemptsZeroPercent | data_fetcher.py:180-182 | `"0-0"` gives a third-down percentage of 0, not an error |
| StatNormalizer.NumericRatioRaises | data_fetcher.py:142 | a non-zero number where a ratio is expected makes the cleaner raise |
| StatNormalizer.Underscored | data_fetcher.py:415 | `replace(' ', '_')` changes each space to `_` and nothing else |
| StatNormalizer.CleanQbStats | data_fetcher.py:392-423 | the normaliser loop computes the quarterback record, or no record when an entry raises |
| StatNormalizer.QbRecordKeys | data_fetcher.py:402-421 | every key written is one of the normaliser's fields |
| StatNormalizer.UnknownEntryDropped | data_fetcher.py:411-421 | an unlisted stat name changes nothing |
| StatNormalizer.CompAttEntry | data_fetcher.py:402-406 | `comp att` sets completions and attempts, and completion_pct, which is 0 for zero attempts |
| StatNormalizer.ConversionOutcomes | data_fetcher.py:413-421 | a listed integer stat that fails to convert keeps its raw value under the underscored name; `average` becomes yards_per_attempt; a failed `rating` stays under `rating` |
| StatNormalizer.PlayerRecord | data_fetcher.py:443-447 | the quarterback record names its player |
| StatNormalizer.PrimaryQbStats | data_fetcher.py:438-452 | the team-block loop computes the per-team primary-QB records, or `{}` when a block raises |
| StatNormalizer.PrimaryRecordsSound | data_fetcher.py:439-447 | a team's record comes from its own block's first player and that player's cleaned stats |
| StatsCache.Completed | data_fetcher.py:273-276 | keeps exactly the games with status `FT` |
| StatsCache.RecentGamesFacts | data_fetcher.py:273-282 | the ids are those of completed games of the response, newest first, `min(limit, #completed)` of them; games of equal date keep response order |
| StatsCache.RecentGamesFailure | data_fetcher.py:267-286 | a failed request, or a completed game whose date does not parse, gives `[]` |
| StatsCache.RunsFlatten | data_fetcher.py:324-333 | the grouping loses, adds and reorders no row |
| StatsCache.RunsUniform | data_fetcher.py:324-330 | every row of a group has the group's game |
| StatsCache.RunsSeparated | data_fetcher.py:325-329 | consecutive groups are of different games |
| StatsCache.SortedRunsDistinct | data_fetcher.py:309-333 | over rows ordered by game id descending, the groups' games strictly descend, so each game is one snapshot |
| StatsCache.SnapOfContents | data_fetcher.py:329-330 | a snapshot holds each stat's last value in its group |
| StatsCache.SnapOfKeys | data_fetcher.py:322-330 | every snapshot key is a header key or a stat name of its group |
| StatsCache.SnapshotCount | data_fetcher.py:319-333 | there are never more snapshots than rows |
| StatsCache.SnapshotsSnoc | data_fetcher.py:324-330 | a row of the current game updates the last snapshot; a row of another game opens a new one |
| StatsCache.GroupSnapshots | data_fetcher.py:319-333 | the grouping loop computes the snapshots of the rows |
| StatsCache.TeamHitDistinctGames | data_fetcher.py:335-336 | a hit means the limited rows hold at least `num_games` distinct games |
| StatsCache.QbQueryRowBound | data_fetcher.py:699-705 | the QB query returns at most `num_games` rows, hence at most `num_games` snapshots |
| StatsCache.FirstBlock | data_fetcher.py:664-668 | `next(...)` finds a block of the team, or none when no block is the team's |
| StatsCache.FreshRecord | data_fetcher.py:670-681 | the record gathered for a fresh game is the cleaned record as returned, `game_id` last. Name by name it matches the written rows, each written value being `float()` of the gathered one. |
| StatsCache.CachedGameReused | data_fetcher.py:640-657 | a game already cached is reused and the API answer is not consulted |
| StatsCache.MissingGameSkipped | data_fetcher.py:659-668 | a game with no stats for the team is skipped |
| StatsCache.FreshGameStored | data_fetcher.py:660-681 | a fresh game's stats, its `game_id` row included, are staged as `float()` values, and one snapshot is added |
| StatsCache.WriteEntriesScope | data_fetcher.py:676-681 | the writes touch only rows of that game and team |
| StatsCache.WriteEntriesUnique | data_fetcher.py:677-681 | the writes keep the (game, team, stat) key unique |
| StatsCache.WriteEntriesStored | data_fetcher.py:676-681 | each stat's value is stored |
| StatsCache.TeamFillScope | data_fetcher.py:638-682 | the backfill touches no other team's rows |
| StatsCache.TeamFillUnique | data_fetcher.py:638-682 | the backfill keeps the key unique |
| StatsCache.TeamFillCount | data_fetcher.py:638-673 | the backfill yields at most one snapshot per selected game |
| StatsCache.BackfillTeamAllOrNothing | data_fetcher.py:632-689 | the backfill is all or nothing: on failure the result is empty and the table is unchanged; other teams are untouched either way |
| StatsCache.RecordHasPlayer | data_fetcher.py:443-447 | every fetched QB record names its player and id |
| StatsCache.WriteQbStatsScope | data_fetcher.py:758-772 | the QB writes touch only rows of that game and team |
| StatsCache.WriteQbStatsUnique | data_fetcher.py:761-772 | the QB writes keep the key unique |
| StatsCache.RealAffinity | data_fetcher.py:114 | the `REAL` column stores numeric text as its number and any other value as given. The stored value converts as the original did, and stays text exactly when it is text that does not read as a number. |
| StatsCache.WriteQbStatsValues | data_fetcher.py:758-772 | each row the writes add is a record stat under its own name and player, stored through the column's affinity, so numeric text kept raw by the normaliser is cached as a number |
| StatsCache.QbFillScope | data_fetcher.py:745-772 | the QB backfill leaves other teams alone; the team's rows afterwards are from selected games only (delete first) |
| StatsCache.QbFillUnique | data_fetcher.py:744-774 | the QB backfill keeps the key unique |
| StatsCache.StatsStore.WriteGame | data_fetcher.py:676-681 | the insert loop stages exactly the specified writes |
| StatsCache.StatsStore.FetchAndCacheTeamStats | data_fetcher.py:632-689 | the new table and the result are the backfill's; the QB table is unchanged |
| StatsCache.StatsStore.FillGames | data_fetcher.py:637-673 | the game loop gathers and stages exactly the specified backfill, and has no value exactly when some game's conversion raises |
| StatsCache.StatsStore.FillGame | data_fetcher.py:639-681 | one game: a cached game is reused as stored, a game the response lacks is skipped, a fresh game is gathered and its stats staged; no value when its conversion raises |
| StatsCache.StatsStore.GetTeamRecentStats | data_fetcher.py:301-344 | on a hit it returns the grouped snapshots and changes nothing; on a miss it is the backfill |
| StatsCache.StatsStore.WriteQbRecord | data_fetcher.py:758-772 | the QB insert loop stages exactly the specified writes |
| StatsCache.StatsStore.FetchAndCacheQbStats | data_fetcher.py:739-780 | the new QB table and the result are the QB backfill's; the team table is unchanged |
| StatsCache.StatsStore.FillQbGames | data_fetcher.py:744-772 | the delete of the team's rows, then the game loop, gathers and stages exactly the specified QB backfill |
| StatsCache.StatsStore.GetTeamRecentQbStats | data_fetcher.py:691-737 | any cached row is a hit, served as snapshots of the stored values, numeric text as numbers; otherwise it is the QB backfill |
| Analyzer.TablesWellFormed | predictor.py:147-157 | every metric table has non-negative thresholds and distinct display names |
| Analyzer.Compare | predictor.py:160-177 | no line exactly when the difference is at most the threshold; a line credits the team whose value is better (lower for points against), with its value first |
| Analyzer.CompareSwap | predictor.py:167-177 | swapping the teams swaps which team a line credits |
| Analyzer.CompareAllIndexed | predictor.py:159-180 | the lines are exactly those of the metrics that fire, in table order |
| Analyzer.MissingMetricSkipped | predictor.py:161 | a metric missing from either team gives no line |
| Analyzer.AtMostOneLinePerMetric | predictor.py:169-177 | each metric credits at most one team |
| Analyzer.CompareAllSwap | predictor.py:159-180 | swapping the teams swaps every line |
| Analyzer.CompareMetrics | predictor.py:159-180 | the metric loop computes the specified lines |
| Analyzer.ColumnCells | predictor.py:101-102 | a column of the frame is made of the snapshots' cells, and is empty only when no snapshot has it |
| Analyzer.NumericFrameMean | predictor.py:101-102 | `DataFrame.mean()` of an all-numeric frame gives a mean for each column |
| Analyzer.ColumnMeanWithin | predictor.py:101-102 | a column mean lies between the bounds of its cells |
| Analyzer.Sided | predictor.py:170-177 | a team's list holds exactly the lines credited to it |
| Analyzer.SidedEarned | predictor.py:169-177 | every line in a team's list was earned by beating the other team by more than the threshold |
| Analyzer.EarnedListed | predictor.py:169-173 | conversely, a metric won by more than the threshold is listed for the winner |
| Analyzer.Distribute | predictor.py:140-143 | the advantages dict has the two teams as keys, each with its own lines |
| Analyzer.DistributeOrdered | predictor.py:159-208 | QB lines follow all other lines, and there are none when the QB part is skipped |
| Analyzer.AnalyzeMatchup | predictor.py:90-221 | the analyser computes the specified outcome |
| Analyzer.MatchupNeedsStats | predictor.py:97-98 | the result is the error exactly when either team has no stats |
| Analyzer.MatchupOfNumbers | predictor.py:100-108 | with numeric stats the analysis succeeds, and each team's `team_stats` are its column means |
| Analyzer.MatchupQbLines | predictor.py:182-208 | QB lines come last, and there are none when either QB frame is empty |
| Analyzer.MatchupLinesEarned | predictor.py:159-208 | every home line is earned on the team averages, or on the QB averages when both QB frames are non-empty |
| Analyzer.MatchupSymmetric | predictor.py:90-217 | swapping the two teams only swaps the home and away roles of the result |
| Analyzer.QbAverages | data_fetcher.py:486-492 | an empty QB frame gives no summary; averages cover only the numeric QB columns |
| Analyzer.AnalyzeMatchupFetcher | data_fetcher.py:455-597 | the overridden analyser computes its specified outcome |
| Analyzer.FetcherMissingQbColumnRaises | data_fetcher.py:487 | a QB frame lacking one of the numeric columns makes the overridden analyser raise |
| Analyzer.OffenceLinesFirst | data_fetcher.py:541-577 | offence lines precede defence lines in every analyser variant |
| Analyzer.CompareCached | predictor.py:1064-1098 | the cached-stats loops compute the specified lines |
| Analyzer.AnalyzeCachedStats | predictor.py:1034-1100 | `analyze_cached_stats` computes its specified result |
| Analyzer.CachedAsLive | predictor.py:1064-1098 | on cached stats the rule is the live one applied to `float()` of the values; a value `float()` rejects raises |
| Analyzer.LineText | predictor.py:171-177 | a line reads `Better <display>: …`, or `QB Better <display>: …` for QB lines |
| Confidence.Weight | predictor.py:625-630 | an advantage weighs 1.0, 1.2 or 1.5 |
| Confidence.Weighted | predictor.py:623-630 | a list's weight lies between its length and 1.5 times its length |
| Confidence.ConfidenceScores | predictor.py:615-640 | scores are keyed by the same teams, in the same order |
| Confidence.WeightedScore | predictor.py:623-630 | the weighting loop computes the list's weight |
| Confidence.TotalAdvantages | predictor.py:617 | the loop computes the total number of advantages |
| Confidence.CalculateConfidenceScores | predictor.py:615-640 | the scorer computes the specified scores |
| Confidence.TeamScore | predictor.py:620-638 | a team's score is its lines' weight over one and a half times all lines, rounded and capped at 85, or 50 when no team has a line |
| Confidence.PutTeamScore | predictor.py:621-634 | each step of the team loop extends the scores written so far by the next team's specified score |
| Confidence.ScoresInRange | predictor.py:632-634 | every score is in [0, 85] |
| Confidence.NoAdvantagesEvenSplit | predictor.py:635-638 | with no advantages every team scores 50 |
| Confidence.NoLinesScoresZero | predictor.py:633-634 | a team without lines scores 0 when others have some |
| Confidence.AllQbLinesCapped | predictor.py:625-634 | a team holding every line, all of them QB lines, is capped at 85 |
| Confidence.OnePlainLineExample | predictor.py:620-634 | one plain line for A and none for B gives A=67, B=0 (no sum to 100) |
| Confidence.TwoThirdsRounds | predictor.py:633-634 | 1.0 / 1.5 · 100 rounds to 67 |
| Confidence.TextWeight | predictor.py:624-630 | a classifiable line's text weighs what its kind says (QB 1.5, Defense 1.2, plain 1.0) |
| Confidence.TablesClassifiable | predictor.py:147-157 | every metric table's display names classify as their kind |
| Confidence.WeightedByKind | predictor.py:623-630 | the weight of lines' texts is the sum of their kinds' weights |
| Confidence.TwoTeamScores | predictor.py:617-634 | with two teams, each score is computed from its own kind weights and the joint total |
| Confidence.MatchupScoresByKind | predictor.py:615-640 | scoring an analysed matchup weighs each team's lines by kind over the joint total |
| Odds.FloatText | predictor.py:316 | `str(abs(points))` is non-empty, has no whitespace and starts with a digit |
| Odds.FloatTextExamples | predictor.py:316 | 3.5 prints as `3.5`, 7.0 as `7.0` |
| Odds.SpreadLabelWords | predictor.py:313-316 | a spread label splits back into side and signed number, with `+` exactly when points ≥ 0 |
| Odds.SpreadLabelExamples | predictor.py:313-316 | (Home, -3.5) gives `Home -3.5`; (Away, 7) gives `Away +7.0` |
| Odds.LineFacts | predictor.py:308-328 | a kept quote has parsable points and price; spreads have abs(points) ≤ 14 and are relabelled, totals lie in [35, 55] and keep their text |
| Odds.LineDropped | predictor.py:310-328 | a quote is dropped exactly when its text, points or price fail, or its points are out of range |
| Odds.AddLinesGet | predictor.py:309-317 | over a run of reached quotes, a line's price is that of its last quote yielding it, and other lines keep theirs |
| Odds.FilteredIsOnePass | predictor.py:306-332 | bet-by-bet processing is one pass over each market's reached quotes: each bet's quotes up to the first one that raises. Moneyline stays empty. |
| Odds.FilteredLines | predictor.py:300-332 | each served line carries the price of its last reached quote. Quotes after a null price in the same bet are never reached. Keys are distinct. |
| Odds.SpreadServed | predictor.py:308-317 | every served spread comes from a handicap quote with abs(points) ≤ 14 |
| Odds.TotalServed | predictor.py:321-326 | every served total has points in [35, 55] |
| Odds.SpreadKept | predictor.py:311-317 | every reached handicap quote that passes the filters is served |
| Odds.ReachedUpTo | predictor.py:305-331 | the quotes reached in a bet are exactly those before its first raising quote |
| Odds.AfterRaiseUnreached | predictor.py:305-331 | nothing after a raising quote is reached, whatever follows it in the bet |
| Odds.RaisedBetAddsNothing | predictor.py:305-331 | a bet whose first quote has a null price and passes the filter adds no line |
| Odds.ReadRowsOf | predictor.py:279-280 | reading back one bet type's rows restores its lines |
| Odds.WriteOddsFresh | predictor.py:336-342 | writing a game with no rows for the bookmaker appends its lines |
| Odds.ReadOddsRows | predictor.py:273-281 | the written lines read back as the odds written |
| Odds.GameOddsCached | predictor.py:262-345 | odds fetched and cached once are served unchanged from the cache by later calls, which leave the table alone |
| Odds.GameOddsWrites | predictor.py:334-343 | the cache is written only on a miss with some line kept, and only rows of this game and bookmaker 18 change |
| Odds.WriteLinesOthers | predictor.py:336-342 | the inserts touch no row of another game or bookmaker |
| Odds.WriteLinesUnique | predictor.py:338-342 | the inserts keep the row key unique |
| Odds.AddQuotes | predictor.py:309-319 | the quote loop stops at the first quote that raises and computes the lines of the quotes before it |
| Odds.AddQuote | predictor.py:309-319 | one quote either raises, exactly when its price is null and its points pass the filter, or adds its line as `AddLines` does |
| Odds.FilterOdds | predictor.py:300-332 | the bet loop computes the filtered odds; a raising quote ends only its own bet |
| Odds.ReadCached | predictor.py:273-281 | the cached-row loop computes the specified read |
| Odds.OddsStore.WriteBetType | predictor.py:336-342 | one bet type's inserts are the specified writes |
| Odds.OddsStore.GetGameOdds | predictor.py:262-353 | the result and new table are the specified cache-or-fetch outcome |
| Odds.AppendQuotesPriced | predictor.py:522-530 | with every price parsable, each line gains exactly this book's quotes of it, in order |
| Odds.AppendQuotesStops | predictor.py:524 | the first unparsable price raises: the quotes before it are appended, none after |
| Odds.AppendQuotesValid | predictor.py:525-530 | every line keeps at least one quote, and labels stay distinct |
| Odds.ProcessBetsPriced | predictor.py:519-542 | with every price parsable, a book appends its handicap quotes to the spread lines and its over/under quotes to the totals |
| Odds.ProcessBetsSticks | predictor.py:519-542 | once a book has raised, its later bets change nothing |
| Odds.AppendRun | predictor.py:522-530 | the quote loop computes the specified append |
| Odds.MarketBook.AppendBet | predictor.py:520-542 | one bet's quotes go to the spread or the total lines, the other market unchanged |
| Odds.MarketBook.ProcessBookmakerOdds | predictor.py:515-542 | the book's bets update the market data as specified |
| Odds.MaxCount | predictor.py:564 | the largest quote count: no line has more, and some line has it |
| Odds.FirstWithCount | predictor.py:565-567 | the first line with the given count, after lines that all have another count |
| Odds.ConsensusFacts | predictor.py:553-568 | no lines, no consensus; otherwise the chosen line has the maximal count and beats every earlier line strictly, and its figures are its count and mean price |
| Odds.ConsensusPriceBounds | predictor.py:557 | the mean price lies between the lowest and highest price |
| Odds.CalculateConsensus | predictor.py:553-568 | the consensus loop computes the specified consensus |
| Odds.LineStats | predictor.py:555-561 | every line's count and mean price, in order |
| Odds.MaxCountOf | predictor.py:564 | the loop computes the largest count |
| Odds.FirstWithCountOf | predictor.py:565-567 | the loop finds the first line with the largest count |
| Odds.ConsensusOf | predictor.py:544-586 | both markets' consensus |
| Odds.NearMember | predictor.py:596-598 | an alert fires for exactly the keys within the inclusive 0.5 margin |
| Odds.SpreadAlertIff | predictor.py:592-603 | a spread alert fires exactly for keys within 0.5, marked secondary exactly for the secondary keys |
| Odds.PrimaryFirst | predictor.py:595-603 | primary alerts precede secondary ones |
| Odds.TotalsPrimaryOnly | predictor.py:605-611 | totals are checked against the primary totals keys only |
| Odds.KeyNumberExamples | predictor.py:592-603 | 7.5 is near 7; 3.5 is near 3 and the secondary 4 |
| Odds.SpreadSignDropped | predictor.py:592-593 | the spread's sign is dropped before comparing |
| Odds.UnparsableLabel | predictor.py:593-606 | a label whose number does not parse raises and loses every alert |
| Odds.AppendNear | predictor.py:596-598 | the loop appends one list's alerts in key order |
| Odds.AnalyzeLabel | predictor.py:592-611 | one label's alerts as specified |
| Odds.AnalyzeKeyNumbers | predictor.py:588-613 | the alerts of both labels, spread first |
| Recommend.FavouriteIndex | predictor.py:831 | the favourite has the maximal score and beats every earlier team strictly |
| Recommend.BackedSide | predictor.py:855-864 | the side names the backed team; the favourite is backed exactly when its confidence is above 55 |
| Recommend.BestLine | predictor.py:867-874 | the kept line's label contains the side; there is none exactly when no label contains it |
| Recommend.BestLineHighest | predictor.py:870-874 | with non-zero odds, the kept line has the highest odd of the side and every earlier such line pays strictly less |
| Recommend.FindBestLine | predictor.py:866-874 | the loop finds the specified best line |
| Recommend.CitedList | predictor.py:879 | cites the first `min(2, n)` advantages, each cut at its colon |
| Recommend.ExplanationCites | predictor.py:877-879 | the explanation contains each cited part, none holding a colon |
| Recommend.RecConfidenceCaps | predictor.py:881 | the favourite's play is capped at 75; the underdog's is `min(65, score + 5)`; a missing underdog score raises |
| Recommend.TeamRatingsFrom | predictor.py:910-925 | every contribution is a normaliser applied to a team value that has the metric |
| Recommend.NoMetricsHalf | predictor.py:927-928 | with no metric present the rating is 0.5 |
| Recommend.AverageBounds | predictor.py:927-928 | a rating lies between the bounds of its contributions |
| Recommend.AddTeamRatings | predictor.py:911-917 | the loop adds a team's contributions to the running total and count |
| Recommend.EfficiencyRatings | predictor.py:906-928 | the offensive and defensive ratings are the means of the contributions, 0.5 when none |
| Recommend.RateTeams | predictor.py:907-928 | the two rating loops over any tables with non-zero divisors give the means of the specified contributions |
| Recommend.Clamp | predictor.py:966 | the confidence is clamped into [45, 75] and kept when already inside |
| Recommend.PlayFacts | predictor.py:941-966 | Over only when offence leads, Under only when defence leads; points in the market's range; confidence in [45, 75] |
| Recommend.LinePlays | predictor.py:943-980 | one candidate per line of the market, in order |
| Recommend.BestFromFacts | predictor.py:931-976 | the kept play is at least as confident as every play offered, above 45, and strictly above every earlier play |
| Recommend.BestTotalPlay | predictor.py:930-983 | the totals loop keeps the specified best play |
| Recommend.BestOfLines | predictor.py:943-976 | the loop over one market's lines continues the best-play search, its threshold always the kept play's confidence |
| Recommend.FindBestOddsShape | predictor.py:813-988 | empty when scores or names are missing; at most a spread play, then at most one totals play, all capped at 75 |
| Recommend.SpreadPlayShape | predictor.py:850-889 | the spread part yields at most one play, of type Spread, capped at 75 |
| Recommend.TotalsPlayShape | predictor.py:891-983 | the totals part yields at most one play, above 45 and at most 75 |
| Recommend.FindBestOddsMethod | predictor.py:813-988 | the method computes the specified recommendations |
| Recommend.SpreadPart | predictor.py:826-889 | the spread half gives the specified spread play, and no value when the underdog's score lookup raises |
| Recommend.TotalsPart | predictor.py:892-983 | the totals half gives the specified totals play |
| Recommend.Favourite | predictor.py:831 | the loop finds the favourite |
| PredictionCache.PredictionServedUntilExpiry | predictor.py:1102-1118 | a prediction written at `w` is served exactly while `now < w + 6h` |
| PredictionCache.GameDataServedForADay | predictor.py:1123-1141 | game data written at `w` is served exactly while younger than 24 h |
| PredictionCache.WritesEvictEachOther | predictor.py:1146-1172 | `INSERT OR REPLACE` of one payload nulls the other column |
| PredictionCache.WritesLocal | predictor.py:1146-1172 | a write touches no other game |
| PredictionCache.MalformedIsMiss | predictor.py:1112-1117 | malformed JSON is a miss |
| PredictionCache.AsWrittenInUtc | predictor.py:1137 | with the local clock at UTC the code as written is the intended read |
| PredictionCache.LocalClockSkewsGameData | predictor.py:1137 | with a +10 h local clock, data 15 h old is already a miss; with −5 h, data 26 h old is still served |
| PredictionCache.PredictionStore.CachePredictionData | predictor.py:1146-1160 | the table becomes the specified write |
| PredictionCache.PredictionStore.CacheGameData | predictor.py:1162-1176 | the table becomes the specified write |
| PredictionCache.PredictionStore.GetCachedPrediction | predictor.py:1102-1121 | returns the specified read |
| PredictionCache.PredictionStore.GetCachedGameData | predictor.py:1123-1144 | returns the corrected (UTC) read |
| WeeklyManager.NeedsUpdateIff | weekly_manager.py:27-52 | an update is due exactly when no readable marker exists or at least 7 days have passed since it |
| WeeklyManager.NeedsUpdateInUtc | weekly_manager.py:41-48 | with the local clock at UTC the code as written is the intended gate |
| WeeklyManager.LocalClockSkewsRefresh | weekly_manager.py:41-48 | with a +10 h local clock the gate opens 10 h early; with −5 h it opens 5 h late |
| WeeklyManager.UpcomingFacts | weekly_manager.py:58-65 | the upcoming games are exactly the stored games kicking off after now, each once per row, ordered by date then time; with `game_id` the key, no game is listed twice |
| Table.PermutationUnique | weekly_manager.py:58-65 | reordering rows keeps their key unique |
| WeeklyManager.StageLastWins | weekly_manager.py:118-132 | the staged schedule holds each game id once, with the values last written for it |
| WeeklyManager.UpdateWeeklyFacts | weekly_manager.py:89-148 | no-op when up to date; rollback keeps schedule and marker; after an update each id appears once with its last values, and the next update is due exactly a week later |
| WeeklyManager.FilledGet | weekly_manager.py:271-280 | each bucket holds exactly the cached lines of its bet type, or none |
| WeeklyManager.CacheOddsRoundTrip | weekly_manager.py:258-306 | after `cache_odds`, `get_cached_odds` gives the three buckets holding the cached lines, or `None` when nothing was cached |
| WeeklyManager.CachedRowsAfterWrite | weekly_manager.py:287-302 | after `cache_odds` the game's rows are exactly the new ones |
| WeeklyManager.CacheOddsOthers | weekly_manager.py:287-302 | `cache_odds` leaves every other game's rows and read unchanged |
| WeeklyManager.BucketsFails | weekly_manager.py:277-282 | an unknown bet type raises and the whole read is `None` |
| WeeklyManager.CacheTeamStatsRoundTrip | weekly_manager.py:150-212 | unmapped team: nothing changes; otherwise each stat reads back as its `float()` value, and `game_id` and unconvertible values are absent |
| WeeklyManager.CacheTeamStatsOthers | weekly_manager.py:189-193 | teams with another id are untouched |
| WeeklyManager.StageWeek | weekly_manager.py:100-132 | the seven-day loop stages the fetched games, or fails exactly when some day fails |
| WeeklyManager.StageDays | weekly_manager.py:101-133 | the day loop, over any number of days, stages the fetched games, or fails exactly when some day fails |
| WeeklyManager.StageNextDay | weekly_manager.py:114-133 | one day fails exactly when its request fails; otherwise its games extend the fetched games and their staging |
| WeeklyManager.StageDay | weekly_manager.py:117-133 | the per-game insert loop stages exactly the day's games after the games staged before |
| WeeklyManager.InsertOdds | weekly_manager.py:294-300 | the insert loop appends the specified rows |
| WeeklyManager.BucketOdds | weekly_manager.py:271-280 | the bucketing loop computes the specified read |
| WeeklyManager.InsertStats | weekly_manager.py:196-208 | the insert loop appends the rows of kept stats |
| WeeklyManager.ReadStats | weekly_manager.py:165 | the dict comprehension is the specified fold |
| WeeklyManager.WeeklyStore.NeedsUpdateNow | weekly_manager.py:27-52 | computes the gate |
| WeeklyManager.WeeklyStore.GetCachedSchedule | weekly_manager.py:54-87 | returns the upcoming games, each game once |
| WeeklyManager.WeeklyStore.UpdateWeeklyData | weekly_manager.py:89-148 | schedule, marker and outcome are the specified update; other tables unchanged |
| WeeklyManager.WeeklyStore.CacheOdds | weekly_manager.py:285-306 | the odds table becomes the specified rewrite |
| WeeklyManager.WeeklyStore.GetCachedOdds | weekly_manager.py:258-283 | returns the specified read |
| WeeklyManager.WeeklyStore.CacheTeamStats | weekly_manager.py:174-212 | the stats table becomes the specified rewrite |
| WeeklyManager.WeeklyStore.GetCachedTeamStats | weekly_manager.py:150-172 | returns the specified read |

## Left out

- Network calls (`requests.get`), logging, `print` and the `api_calls` counter are left out. Every API answer is a parameter: `Option` for a failed request, a map from game id to response for per-game calls.
- `get_team_info`, `get_future_game_id`, `verify_team_mapping`, `_initialize_team_mapping`, `_get_cached_team_mapping`, `_cache_team_mapping`, `init_team_mapping`, `get_cached_game` and `get_team_id` are lookups and loaders that only move data between the network and the mapping tables. The model takes the team mapping as given.
- `get_market_data`, `_fetch_and_cache_market_data`, `_cache_odds`, `_process_and_cache_odds` and `get_odds_for_bookmaker` are left out. They only orchestrate network fetches and tables around the modelled aggregation and consensus.
- `predict_game` and `find_best_value_bets` are left out: they only compose modelled operations with network calls.
- `calculate_sos_impact`, `calculate_rest_impact` and `adjusted_confidence` are left out. They are network-driven, and the recommendation never uses their result.
- Floating point is modelled as exact reals. `Odds.FloatText` prints the exact decimal expansion, cut at 17 fraction digits, rather than Python's shortest round-tripping `repr`. The two agree on the one- and two-decimal lines the feed carries.
- `Common.ParseFloat` accepts signed decimal text only. Exponents, `inf` and `nan` are not modelled. `Common.ParseInt` and `Common.ParseFloat` take ASCII digits and the whitespace space, tab, newline and carriage return only. Python's `int()` and `float()` also accept `_` digit separators, Unicode digits and Unicode whitespace.
- `Common.LowerChar` and `Common.UpperChar` change ASCII letters only. Python's `str.lower` and `str.upper` also change other letters. This affects the text matching in `Recommend.Cited` and the team names the analyser and recommender compare.
- `PredictionCache.Payload` takes `json.loads(json.dumps(d))` to be the identity on the cached prediction. Python's round trip turns tuples into lists and non-string keys into strings.
- A bet quote whose `value` is not a string is not modelled. Its `.split()` would raise and abandon the rest of the bet, as a null price does.
- GetCachedTeamStats: `get_cached_team_stats` shares the `team_stats` table of `nfl_data.db` with the per-game cache of `data_fetcher.py` (weekly_manager.py:21, data_fetcher.py:95-103). The model keeps the two caches as separate tables, so the read does not fold per-game rows (their `game_id` stat included) into its dict.
- CacheTeamStats: for the same reason, its `DELETE FROM team_stats WHERE team_id = ?` (weekly_manager.py:190-193) is modelled as wiping only the weekly manager's rows for the team. In the source it also wipes that team's per-game cache.
- GetTeamRecentStats: the cached read does not see the weekly manager's rows, whose NULL `game_id` would form one more snapshot in the source (data_fetcher.py:308-333).
- SQL errors inside `cache_odds`, `cache_team_stats` and the odds inserts of `get_game_odds` are not modelled (their rollback paths included). The model writes the intended rows. The schema mismatches between revisions (`team_mapping` and `market_odds` columns) are not modelled either.
- `ORDER BY` ties: rows with equal sort keys come out in table order. SQLite does not promise any order for them.
- Schedule dates and times are modelled as a day number and minutes. NULL time is read as midnight. The empty time string that `game.get('time', '')` can store is not modelled.
- `find_best_odds` with `odds = None` is not modelled: the odds are always a dict.
- Team names in `get_cached_team_stats` and `cache_team_stats` map to one id through a `map`. A `team_mapping` holding two rows for one name is not modelled.
- `WeeklyManager.WeeklyStore.GetCachedOdds`, `WeeklyManager.CacheOddsRoundTrip`: the round trip assumes each bet type's values are distinct keys, as any Python dict's are, and bet types among spread/total/moneyline.
- `PredictionCache.PredictionStore.GetCachedGameData`, `WeeklyManager.WeeklyStore.NeedsUpdateNow`: both read the clock in UTC, which is the corrected behaviour; the code as written is modelled by `CachedGameDataAsWritten` and `NeedsUpdateAsWritten` (see Findings).
- UpdateWeeklyFacts: the refresh gate is the corrected UTC `NeedsUpdate`. `update_weekly_data` calls `needs_update` as written (weekly_manager.py:92), which compares the local clock with a UTC stamp. With a non-UTC local clock, the source's gate opens early or late by the offset (`LocalClockSkewsRefresh`), so "due exactly a week later" holds for the source only at offset 0 (`NeedsUpdateInUtc`).
- UpdateWeeklyData (`WeeklyManager.WeeklyStore.UpdateWeeklyData`): for the same reason, it gates on the corrected `NeedsUpdateNow`, not on the local-clock check the code as written makes.
- The `INTEGER` affinity of `qb_stats.player_id` and the `TEXT` affinity of `player_name` are not modelled: the ids and names are stored as the feed gives them. `StatsCache.RealAffinity` recognises numeric text with `Common.ParseFloat`, which stands in for SQLite's own numeric-literal test.

## Findings

| source | as written | input that shows it | evidently intended | confidence | as-written member | corrected member |
|---|---|---|---|---|---|---|
| predictor.py:1137 | the age of cached game data is `datetime.now()` (local time) minus `last_updated`, which SQLite's `datetime('now')` stores in UTC | local clock 10 h ahead of UTC, data written at 0, read 15 h later: a miss; 5 h behind, read 26 h later: served | data served exactly while younger than 24 h | not executed | PredictionCache.CachedGameDataAsWritten | PredictionCache.CachedGameData |
| weekly_manager.py:41-48 | days since the weekly update are `datetime.now()` (local) minus a UTC `datetime('now')` stamp | local clock 10 h ahead, stamp at 0, now 6 d 14 h: update due; 5 h behind, now 7 d 4 h: not due | an update is due exactly when 7 full days have passed | not executed | WeeklyManager.NeedsUpdateAsWritten | WeeklyManager.NeedsUpdate |
