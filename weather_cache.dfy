/**
 * The weather cache: a table of `(LAT_LON, WEATHER_PROVIDER, PERIOD, TIMESTAMP, WEATHER_DATA)`
 * rows with no unique constraint, read by first match and written by insert-if-absent,
 * update-only-if-stale. Each storage call may fail; whether it does is a parameter.
 */
module WeatherCache {
  import opened Outcomes
  import opened ProviderStrategy

  /**
   * The exceptions of the cache. The three storage errors subclass `FailedToCheckWeatherCache`;
   * `FailedToUpdateWeatherCache` stands alone.
   */
  datatype CacheError =
    | FailedToCheckWeatherCache
    | FailedToInsertWeatherDataIntoDB
    | FailedToGetWeatherDataFromDB
    | FailedToUpdateWeatherDataInDB
    | FailedToUpdateWeatherCache

  /** `isinstance(e, handler)`: whether `except handler` catches `e`. */
  predicate CaughtBy(e: CacheError, handler: CacheError)
  {
    e == handler
    || (handler == FailedToCheckWeatherCache
        && (e == FailedToInsertWeatherDataIntoDB || e == FailedToGetWeatherDataFromDB || e == FailedToUpdateWeatherDataInDB))
  }

  /** The three columns a row is looked up by. */
  datatype CacheKey = CacheKey(latLon: string, provider: string, period: ForecastType)

  datatype CacheRow = CacheRow(latLon: string, provider: string, period: ForecastType, timestamp: int, weatherData: string)

  function KeyOf(row: CacheRow): CacheKey
  {
    CacheKey(row.latLon, row.provider, row.period)
  }

  function NewRow(key: CacheKey, timestamp: int, weatherData: string): (row: CacheRow)
    ensures KeyOf(row) == key && row.timestamp == timestamp && row.weatherData == weatherData
  {
    CacheRow(key.latLon, key.provider, key.period, timestamp, weatherData)
  }

  /** How long a row stays fresh, in seconds. */
  const FreshnessWindow: int := 3600

  /** `check_time_frame`: a row stamped `dbTimestamp` is fresh until `FreshnessWindow` seconds after it. */
  function CheckTimeFrame(dbTimestamp: int, currentTimestamp: int): (inWindow: bool)
    ensures inWindow <==> currentTimestamp <= dbTimestamp + FreshnessWindow
  {
    !(currentTimestamp - dbTimestamp > FreshnessWindow)
  }

  /** Exactly one hour old is fresh, one second more is stale, and a timestamp in the future is fresh. */
  lemma TimeFrameBoundaries(ts: int, ahead: nat)
    ensures CheckTimeFrame(ts, ts + 3600)
    ensures !CheckTimeFrame(ts, ts + 3601)
    ensures CheckTimeFrame(ts + ahead, ts)
    ensures forall now :: CheckTimeFrame(ts, now) <==> now <= ts + FreshnessWindow
  {
  }

  /** `SELECT ... fetchone()`: the first row of the table, in table order, with the key. */
  function FirstMatch(rows: seq<CacheRow>, key: CacheKey): (r: Option<CacheRow>)
    ensures r.None? <==> forall i :: 0 <= i < |rows| ==> KeyOf(rows[i]) != key
    ensures r.Some? ==> exists i :: 0 <= i < |rows| && rows[i] == r.value && FirstAt(rows, key, i)
  {
    if |rows| == 0 then None
    else if KeyOf(rows[0]) == key then
      assert FirstAt(rows, key, 0);
      Some(rows[0])
    else
      var r := FirstMatch(rows[1..], key);
      if r.Some? then
        var i :| 0 <= i < |rows[1..]| && rows[1..][i] == r.value && FirstAt(rows[1..], key, i);
        assert FirstAt(rows, key, i + 1);
        r
      else
        r
  }

  /** Row `i` has the key and no row before it has. */
  predicate FirstAt(rows: seq<CacheRow>, key: CacheKey, i: int)
    requires 0 <= i < |rows|
  {
    KeyOf(rows[i]) == key && forall j :: 0 <= j < i ==> KeyOf(rows[j]) != key
  }

  /** `UPDATE ... SET TIMESTAMP, WEATHER_DATA WHERE <key>`: every row with the key is rewritten. */
  function UpdateRows(rows: seq<CacheRow>, key: CacheKey, timestamp: int, weatherData: string): seq<CacheRow>
  {
    seq(|rows|, i requires 0 <= i < |rows| =>
      if KeyOf(rows[i]) == key then rows[i].(timestamp := timestamp, weatherData := weatherData) else rows[i])
  }

  /** At most one row per key: what insert-if-absent keeps when it is the only writer. */
  predicate UniqueKeys(rows: seq<CacheRow>)
  {
    forall i, j :: 0 <= i < j < |rows| ==> KeyOf(rows[i]) != KeyOf(rows[j])
  }

  // ---------------------------------------------------------------------------------------
  // The two entry points as values on the table

  /** `check_weather_cache`: whether the first row with the key is fresh, and that row. */
  function CheckCache(rows: seq<CacheRow>, key: CacheKey, now: int, readOk: bool)
    : (r: Result<(bool, Option<CacheRow>), CacheError>)
    ensures r.Err? <==> !readOk
    ensures r.Err? ==> r.error == FailedToCheckWeatherCache
    ensures r.Ok? ==> (r.value.1.None? <==> forall i :: 0 <= i < |rows| ==> KeyOf(rows[i]) != key)
    ensures r.Ok? && r.value.0 ==> r.value.1.Some? && KeyOf(r.value.1.value) == key
  {
    if !readOk then Err(FailedToCheckWeatherCache)
    else
      match FirstMatch(rows, key)
      case None => Ok((false, None))
      case Some(row) => Ok((CheckTimeFrame(row.timestamp, now), Some(row)))
  }

  /** `update_weather_cache`: the outcome and the new table. */
  function UpdateCache(rows: seq<CacheRow>, key: CacheKey, timestamp: int, weatherData: string, readOk: bool, writeOk: bool)
    : (u: (Result<(), CacheError>, seq<CacheRow>))
    ensures u.0.Err? ==> u.0.error == FailedToUpdateWeatherCache && u.1 == rows
    ensures !readOk ==> u.0.Err?
    ensures |u.1| == |rows| || (FirstMatch(rows, key).None? && u.1 == rows + [NewRow(key, timestamp, weatherData)])
  {
    if !readOk then (Err(FailedToUpdateWeatherCache), rows)
    else
      match FirstMatch(rows, key)
      case Some(row) =>
        if CheckTimeFrame(row.timestamp, timestamp) then (Ok(()), rows)
        else if writeOk then (Ok(()), UpdateRows(rows, key, timestamp, weatherData))
        else (Err(FailedToUpdateWeatherCache), rows)
      case None =>
        if writeOk then (Ok(()), rows + [NewRow(key, timestamp, weatherData)])
        else (Err(FailedToUpdateWeatherCache), rows)
  }

  // ---------------------------------------------------------------------------------------
  // The table

  class WeatherCacheDb {
    var rows: seq<CacheRow>

    /** The table as created when it is absent: empty. */
    constructor ()
      ensures rows == []
    {
      rows := [];
    }

    /** `get_weather_item_from_db`: the first row with the key; the table is not changed. */
    method GetWeatherItemFromDb(key: CacheKey, ok: bool) returns (r: Result<Option<CacheRow>, CacheError>)
      ensures !ok ==> r == Err(FailedToGetWeatherDataFromDB)
      ensures ok ==> r.Ok? && (r.value.None? <==> forall i :: 0 <= i < |rows| ==> KeyOf(rows[i]) != key)
      ensures ok && r.value.Some? ==> exists i :: 0 <= i < |rows| && rows[i] == r.value.value && FirstAt(rows, key, i)
      ensures ok ==> r == Ok(FirstMatch(rows, key))
    {
      if !ok {
        return Err(FailedToGetWeatherDataFromDB);
      }
      r := Ok(FirstMatch(rows, key));
    }

    /** `insert_weather_item_into_db`: append one row. */
    method InsertWeatherItemIntoDb(key: CacheKey, timestamp: int, weatherData: string, ok: bool)
      returns (r: Result<(), CacheError>)
      modifies this
      ensures ok ==> r.Ok? && rows == old(rows) + [NewRow(key, timestamp, weatherData)]
      ensures !ok ==> r == Err(FailedToInsertWeatherDataIntoDB) && rows == old(rows)
    {
      if !ok {
        return Err(FailedToInsertWeatherDataIntoDB);
      }
      rows := rows + [NewRow(key, timestamp, weatherData)];
      r := Ok(());
    }

    /** `update_weather_item_in_db`: rewrite every row with the key. */
    method UpdateWeatherItemInDb(key: CacheKey, timestamp: int, weatherData: string, ok: bool)
      returns (r: Result<(), CacheError>)
      modifies this
      ensures ok ==> r.Ok? && rows == UpdateRows(old(rows), key, timestamp, weatherData)
      ensures !ok ==> r == Err(FailedToUpdateWeatherDataInDB) && rows == old(rows)
    {
      if !ok {
        return Err(FailedToUpdateWeatherDataInDB);
      }
      rows := UpdateRows(rows, key, timestamp, weatherData);
      r := Ok(());
    }

    /** `check_weather_cache`; a read failure is caught as its base class and re-raised as it. */
    method CheckWeatherCache(key: CacheKey, timestamp: int, readOk: bool)
      returns (r: Result<(bool, Option<CacheRow>), CacheError>)
      ensures r == CheckCache(rows, key, timestamp, readOk)
    {
      var result := GetWeatherItemFromDb(key, readOk);
      if result.Err? {
        assert CaughtBy(result.error, FailedToCheckWeatherCache);
        return Err(FailedToCheckWeatherCache);
      }
      if result.value.None? {
        return Ok((false, None));
      }
      var row := result.value.value;
      r := Ok((CheckTimeFrame(row.timestamp, timestamp), Some(row)));
    }

    /**
     * `update_weather_cache`: insert when no row has the key, update when the first one is
     * stale relative to `timestamp`, otherwise nothing. Every storage error is caught as
     * `FailedToCheckWeatherCache` and re-raised as `FailedToUpdateWeatherCache`.
     */
    method UpdateWeatherCache(key: CacheKey, timestamp: int, weatherData: string, readOk: bool, writeOk: bool)
      returns (r: Result<(), CacheError>)
      modifies this
      ensures (r, rows) == UpdateCache(old(rows), key, timestamp, weatherData, readOk, writeOk)
    {
      var raised: Option<CacheError> := None;
      var result := GetWeatherItemFromDb(key, readOk);
      if result.Err? {
        raised := Some(result.error);
      } else if result.value.Some? {
        if !CheckTimeFrame(result.value.value.timestamp, timestamp) {
          var written := UpdateWeatherItemInDb(key, timestamp, weatherData, writeOk);
          if written.Err? {
            raised := Some(written.error);
          }
        }
      } else {
        var written := InsertWeatherItemIntoDb(key, timestamp, weatherData, writeOk);
        if written.Err? {
          raised := Some(written.error);
        }
      }
      if raised.Some? {
        assert CaughtBy(raised.value, FailedToCheckWeatherCache);
        return Err(FailedToUpdateWeatherCache);
      }
      r := Ok(());
    }
  }

  // ---------------------------------------------------------------------------------------
  // Properties

  /** The storage errors are caught by the base-class handler; the update-cache error is not. */
  lemma ErrorHierarchy()
    ensures CaughtBy(FailedToGetWeatherDataFromDB, FailedToCheckWeatherCache)
    ensures CaughtBy(FailedToInsertWeatherDataIntoDB, FailedToCheckWeatherCache)
    ensures CaughtBy(FailedToUpdateWeatherDataInDB, FailedToCheckWeatherCache)
    ensures !CaughtBy(FailedToUpdateWeatherCache, FailedToCheckWeatherCache)
    ensures !CaughtBy(FailedToCheckWeatherCache, FailedToUpdateWeatherCache)
  {
  }

  /**
   * What the check answers: a read failure is `FailedToCheckWeatherCache`; otherwise "fresh"
   * exactly when some row has the key and the first such row is at most an hour old.
   */
  lemma CheckCacheMeaning(rows: seq<CacheRow>, key: CacheKey, now: int, readOk: bool)
    ensures !readOk ==> CheckCache(rows, key, now, readOk) == Err(FailedToCheckWeatherCache)
    ensures readOk && (forall i :: 0 <= i < |rows| ==> KeyOf(rows[i]) != key) ==>
      CheckCache(rows, key, now, readOk) == Ok((false, None))
    ensures forall i :: 0 <= i < |rows| && readOk && FirstAt(rows, key, i) ==>
      CheckCache(rows, key, now, readOk) == Ok((now - rows[i].timestamp <= FreshnessWindow, Some(rows[i])))
  {
    forall i | 0 <= i < |rows| && readOk && FirstAt(rows, key, i)
      ensures CheckCache(rows, key, now, readOk) == Ok((now - rows[i].timestamp <= FreshnessWindow, Some(rows[i])))
    {
      FirstAtUnique(rows, key, i);
    }
  }

  /** There is only one first row with a key. */
  lemma FirstAtUnique(rows: seq<CacheRow>, key: CacheKey, i: nat)
    requires i < |rows| && FirstAt(rows, key, i)
    ensures FirstMatch(rows, key) == Some(rows[i])
  {
    var j :| 0 <= j < |rows| && rows[j] == FirstMatch(rows, key).value && FirstAt(rows, key, j);
    assert FirstAt(rows, key, j);
    assert KeyOf(rows[j]) == key;
    assert j == i;
  }

  /** No row with the key: exactly one row is appended, the others are untouched. */
  lemma UpdateCacheInserts(rows: seq<CacheRow>, key: CacheKey, ts: int, data: string)
    requires forall i :: 0 <= i < |rows| ==> KeyOf(rows[i]) != key
    ensures UpdateCache(rows, key, ts, data, true, true) == (Ok(()), rows + [CacheRow(key.latLon, key.provider, key.period, ts, data)])
  {
  }

  /**
   * A stale first row: every row with the key gets the new timestamp and data, the table keeps
   * its length, and rows with other keys are unchanged.
   */
  lemma UpdateCacheRefreshes(rows: seq<CacheRow>, key: CacheKey, ts: int, data: string, i: nat)
    requires i < |rows| && FirstAt(rows, key, i) && ts - rows[i].timestamp > FreshnessWindow
    ensures var (r, after) := UpdateCache(rows, key, ts, data, true, true);
      && r.Ok? && |after| == |rows|
      && forall k :: 0 <= k < |rows| ==>
           if KeyOf(rows[k]) == key then after[k] == NewRow(key, ts, data) else after[k] == rows[k]
  {
    FirstAtUnique(rows, key, i);
  }

  /** A first row still fresh relative to the new timestamp: nothing changes, and no write is attempted. */
  lemma UpdateCacheKeepsFresh(rows: seq<CacheRow>, key: CacheKey, ts: int, data: string, writeOk: bool, i: nat)
    requires i < |rows| && FirstAt(rows, key, i) && ts - rows[i].timestamp <= FreshnessWindow
    ensures UpdateCache(rows, key, ts, data, true, writeOk) == (Ok(()), rows)
  {
    FirstAtUnique(rows, key, i);
  }

  /** Any storage failure leaves the table as it was and surfaces as `FailedToUpdateWeatherCache`. */
  lemma UpdateCacheFailure(rows: seq<CacheRow>, key: CacheKey, ts: int, data: string, readOk: bool, writeOk: bool)
    ensures var (r, after) := UpdateCache(rows, key, ts, data, readOk, writeOk);
      r.Err? ==> r.error == FailedToUpdateWeatherCache && after == rows
    ensures !readOk ==> UpdateCache(rows, key, ts, data, readOk, writeOk).0 == Err(FailedToUpdateWeatherCache)
  {
  }

  /** Rewriting the rows with a key does not change any key. */
  lemma UpdateRowsKeys(rows: seq<CacheRow>, key: CacheKey, ts: int, data: string)
    ensures |UpdateRows(rows, key, ts, data)| == |rows|
    ensures forall i :: 0 <= i < |rows| ==> KeyOf(UpdateRows(rows, key, ts, data)[i]) == KeyOf(rows[i])
  {
  }

  /** The cache's own writes keep at most one row per key. */
  lemma UpdateCacheKeepsUnique(rows: seq<CacheRow>, key: CacheKey, ts: int, data: string, readOk: bool, writeOk: bool)
    requires UniqueKeys(rows)
    ensures UniqueKeys(UpdateCache(rows, key, ts, data, readOk, writeOk).1)
  {
    UpdateRowsKeys(rows, key, ts, data);
    var after := UpdateCache(rows, key, ts, data, readOk, writeOk).1;
    if readOk && FirstMatch(rows, key).None? && writeOk {
      forall i, j | 0 <= i < j < |after| ensures KeyOf(after[i]) != KeyOf(after[j]) {
        if j == |rows| {
          assert KeyOf(after[j]) == key;
        }
      }
    }
  }

  /** Writes under one key leave the lookup of every other key as it was. */
  lemma UpdateCacheOtherKeys(rows: seq<CacheRow>, key: CacheKey, other: CacheKey, ts: int, data: string, readOk: bool, writeOk: bool)
    requires other != key
    ensures FirstMatch(UpdateCache(rows, key, ts, data, readOk, writeOk).1, other) == FirstMatch(rows, other)
  {
    var after := UpdateCache(rows, key, ts, data, readOk, writeOk).1;
    UpdateRowsKeys(rows, key, ts, data);
    if after != rows {
      if FirstMatch(rows, other).Some? {
        var i :| 0 <= i < |rows| && rows[i] == FirstMatch(rows, other).value && FirstAt(rows, other, i);
        assert after[i] == rows[i];
        assert FirstAt(after, other, i);
        FirstAtUnique(after, other, i);
      } else {
        assert forall i :: 0 <= i < |after| ==> KeyOf(after[i]) != other;
      }
    }
  }

  /**
   * Write, then read: after a successful write the first row with the key holds the new data
   * and timestamp, so a check at any time within the hour after `ts` is a fresh hit on it.
   */
  lemma WriteThenRead(rows: seq<CacheRow>, key: CacheKey, ts: int, data: string, now: int)
    requires FirstMatch(rows, key).None? || !CheckTimeFrame(FirstMatch(rows, key).value.timestamp, ts)
    requires now <= ts + FreshnessWindow
    ensures var (r, after) := UpdateCache(rows, key, ts, data, true, true);
      r.Ok? && CheckCache(after, key, now, true) == Ok((true, Some(NewRow(key, ts, data))))
  {
    var after := UpdateCache(rows, key, ts, data, true, true).1;
    UpdateRowsKeys(rows, key, ts, data);
    if FirstMatch(rows, key).None? {
      assert FirstAt(after, key, |rows|);
      FirstAtUnique(after, key, |rows|);
    } else {
      var i :| 0 <= i < |rows| && rows[i] == FirstMatch(rows, key).value && FirstAt(rows, key, i);
      assert FirstAt(after, key, i);
      FirstAtUnique(after, key, i);
    }
  }
}
