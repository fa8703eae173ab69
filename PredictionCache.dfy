/** The `game_predictions_cache` table of predictor.py:1102-1176: one row per
    game holding either a prediction (kept six hours) or the game's data
    (kept a day). Times are seconds; the table's timestamps are UTC, as
    SQLite's `datetime('now')` gives them. */
module PredictionCache {
  import opened Common

  const Hour := 3600
  const PredictionTtl := 6 * Hour
  const GameDataTtl := 24 * Hour

  /** A stored JSON text: one that parses to a document, or one that
      `json.loads` rejects. */
  datatype Payload<D> = Parsed(doc: D) | Malformed

  /** One row. `INSERT OR REPLACE` rewrites the whole row, so the column a
      write does not name becomes NULL. */
  datatype CacheRow<D> = CacheRow(prediction: Option<Payload<D>>, gameData: Option<Payload<D>>,
                                  lastUpdated: int, expiry: int)

  type CacheTable<D> = map<int, CacheRow<D>>

  /** `cache_prediction_data`: the prediction, stamped now, expiring in six
      hours; the row's game data is dropped. */
  function WritePrediction<D>(t: CacheTable<D>, gameId: int, doc: D, now: int): CacheTable<D>
  {
    t[gameId := CacheRow(Some(Parsed(doc)), None, now, now + PredictionTtl)]
  }

  /** `cache_game_data`: the game data, stamped now, expiring in a day; the
      row's prediction is dropped. */
  function WriteGameData<D>(t: CacheTable<D>, gameId: int, doc: D, now: int): CacheTable<D>
  {
    t[gameId := CacheRow(None, Some(Parsed(doc)), now, now + GameDataTtl)]
  }

  function Decoded<D>(p: Option<Payload<D>>): Option<D>
  {
    if p.Some? && p.value.Parsed? then Some(p.value.doc) else None
  }

  /** `get_cached_prediction`: a row whose expiry is still ahead and whose
      prediction is present and parses; anything else is a miss. */
  function CachedPrediction<D>(t: CacheTable<D>, gameId: int, now: int): Option<D>
  {
    if gameId !in t || t[gameId].expiry <= now then None
    else Decoded(t[gameId].prediction)
  }

  /** `get_cached_game_data` as written: the age is measured from the
      local clock (`datetime.now()`, UTC plus `localOffset`) back to the
      UTC stamp. A NULL or malformed payload raises and is a miss. */
  function CachedGameDataAsWritten<D>(t: CacheTable<D>, gameId: int, now: int, localOffset: int): Option<D>
  {
    if gameId !in t || now + localOffset - t[gameId].lastUpdated >= GameDataTtl then None
    else Decoded(t[gameId].gameData)
  }

  /** `get_cached_game_data` with both clocks in UTC. */
  function CachedGameData<D>(t: CacheTable<D>, gameId: int, now: int): Option<D>
  {
    if gameId !in t || now - t[gameId].lastUpdated >= GameDataTtl then None
    else Decoded(t[gameId].gameData)
  }

  /** A prediction written at `written` is served exactly until it is six
      hours old. */
  lemma PredictionServedUntilExpiry<D>(t: CacheTable<D>, gameId: int, doc: D, written: int, now: int)
    ensures CachedPrediction(WritePrediction(t, gameId, doc, written), gameId, now) ==
      if now < written + PredictionTtl then Some(doc) else None
  {
  }

  /** Game data written at `written` is served exactly while it is younger
      than a day. */
  lemma GameDataServedForADay<D>(t: CacheTable<D>, gameId: int, doc: D, written: int, now: int)
    ensures CachedGameData(WriteGameData(t, gameId, doc, written), gameId, now) ==
      if now < written + GameDataTtl then Some(doc) else None
  {
  }

  /** The two writes evict each other: a prediction write leaves no game
      data for the game, and a game-data write leaves no prediction. */
  lemma WritesEvictEachOther<D>(t: CacheTable<D>, gameId: int, doc: D, written: int, now: int, localOffset: int)
    ensures CachedGameData(WritePrediction(t, gameId, doc, written), gameId, now).None?
    ensures CachedGameDataAsWritten(WritePrediction(t, gameId, doc, written), gameId, now, localOffset).None?
    ensures CachedPrediction(WriteGameData(t, gameId, doc, written), gameId, now).None?
  {
  }

  /** A write touches no other game. */
  lemma WritesLocal<D>(t: CacheTable<D>, gameId: int, other: int, doc: D, written: int, now: int)
    requires other != gameId
    ensures CachedPrediction(WritePrediction(t, gameId, doc, written), other, now) == CachedPrediction(t, other, now)
    ensures CachedPrediction(WriteGameData(t, gameId, doc, written), other, now) == CachedPrediction(t, other, now)
    ensures CachedGameData(WritePrediction(t, gameId, doc, written), other, now) == CachedGameData(t, other, now)
    ensures CachedGameData(WriteGameData(t, gameId, doc, written), other, now) == CachedGameData(t, other, now)
  {
  }

  /** A malformed payload is a miss, however fresh the row. */
  lemma MalformedIsMiss<D>(t: CacheTable<D>, gameId: int, now: int)
    requires gameId in t && t[gameId].prediction == Some(Malformed) && t[gameId].gameData == Some(Malformed)
    ensures CachedPrediction(t, gameId, now).None? && CachedGameData(t, gameId, now).None?
  {
  }

  /** With the local clock in UTC the code as written is the intended read. */
  lemma AsWrittenInUtc<D>(t: CacheTable<D>, gameId: int, now: int)
    ensures CachedGameDataAsWritten(t, gameId, now, 0) == CachedGameData(t, gameId, now)
  {
  }

  /** Ten hours ahead of UTC, game data written at time 0 is a miss after
      fifteen hours; five hours behind, it is still served after 26 hours. */
  lemma LocalClockSkewsGameData<D>(t: CacheTable<D>, gameId: int, doc: D)
    ensures CachedGameDataAsWritten(WriteGameData(t, gameId, doc, 0), gameId, 15 * Hour, 10 * Hour).None?
    ensures CachedGameData(WriteGameData(t, gameId, doc, 0), gameId, 15 * Hour) == Some(doc)
    ensures CachedGameDataAsWritten(WriteGameData(t, gameId, doc, 0), gameId, 26 * Hour, -5 * Hour) == Some(doc)
    ensures CachedGameData(WriteGameData(t, gameId, doc, 0), gameId, 26 * Hour).None?
  {
  }

  /** The cache table and its four operations. */
  class PredictionStore<D> {
    var rows: CacheTable<D>

    constructor ()
      ensures rows == map[]
    {
      rows := map[];
    }

    method CachePredictionData(gameId: int, doc: D, now: int)
      modifies this
      ensures rows == WritePrediction(old(rows), gameId, doc, now)
    {
      rows := rows[gameId := CacheRow(Some(Parsed(doc)), None, now, now + PredictionTtl)];
    }

    method CacheGameData(gameId: int, doc: D, now: int)
      modifies this
      ensures rows == WriteGameData(old(rows), gameId, doc, now)
    {
      rows := rows[gameId := CacheRow(None, Some(Parsed(doc)), now, now + GameDataTtl)];
    }

    method GetCachedPrediction(gameId: int, now: int) returns (r: Option<D>)
      ensures r == CachedPrediction(rows, gameId, now)
    {
      if gameId !in rows {
        return None;
      }
      var row := rows[gameId];
      if row.expiry <= now {
        return None;
      }
      r := if row.prediction.Some? && row.prediction.value.Parsed? then Some(row.prediction.value.doc) else None;
    }

    method GetCachedGameData(gameId: int, now: int) returns (r: Option<D>)
      ensures r == CachedGameData(rows, gameId, now)
    {
      if gameId !in rows {
        return None;
      }
      var row := rows[gameId];
      if now - row.lastUpdated >= GameDataTtl {
        return None;
      }
      r := if row.gameData.Some? && row.gameData.value.Parsed? then Some(row.gameData.value.doc) else None;
    }
  }
}
