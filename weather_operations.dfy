/**
 * The request pipeline behind every weather answer: read the cache, serve a fresh row as it
 * is, otherwise ask the provider's strategy, render what it returns and, for forecasts only,
 * write the rendered text back. Every exception out of the pipeline becomes `RuntimeError`;
 * an unknown forecast type raises `ValueError` before the pipeline starts.
 */
module WeatherOperations {
  import opened Outcomes
  import opened ProviderStrategy
  import opened WeatherCache
  import WeatherFormatting
  import Openweathermap
  import Geocoding
  import Strings

  /** What `compile_weather_output` raises. */
  datatype OutputError = ValueError | RuntimeError

  /** Why the pipeline under `compile_weather_output` raised. */
  datatype Failure =
    | CacheCheckFailed  // `FailedToCheckWeatherCache`, logged and re-raised
    | NoStrategy        // the strategy lookup gave `None`, and calling on it raised
    | ProviderRaised    // the call to the strategy's `fetch_weather_data` raised
    | NothingFetched    // `__return_weather_data` returned `None`, which cannot be unpacked
    | TimestampNotInt   // `int(...timestamp)` raised

  /** The two strategies of `WEATHER_PROVIDER_STRATEGY_DICT`. */
  datatype Strategy = OpenweathermapStrategy | MeteomaticsStrategy

  /** `WEATHER_PROVIDER_STRATEGY_DICT.get(name)`: keyed by the enum values; `Sinoptik` has no entry. */
  function StrategyFor(name: string): (s: Option<Strategy>)
    ensures s == Some(OpenweathermapStrategy) <==> name == ProviderNameValue(Openweathermap)
    ensures s == Some(MeteomaticsStrategy) <==> name == ProviderNameValue(Meteomatics)
    ensures s.None? <==> name !in {ProviderNameValue(Openweathermap), ProviderNameValue(Meteomatics)}
  {
    if name == ProviderNameValue(Openweathermap) then Some(OpenweathermapStrategy)
    else if name == ProviderNameValue(Meteomatics) then Some(MeteomaticsStrategy)
    else None
  }

  /**
   * What one request sees of the world: the current time as a timestamp and as the displayed
   * `%Y-%m-%d %H:%M` text, the OpenWeatherMap strategy's `fetch_weather_data(lat_lon, city_name,
   * period)` (which `OwmFetch` pins down as the modelled strategy behind a given HTTP outcome
   * and clock), and whether each of the three storage calls succeeds (the cache check's read,
   * and the cache update's read and write).
   */
  datatype Environment = Environment(
    now: int,
    nowText: string,
    owm: (string, string, ForecastType) -> Result<Option<ProviderResult>, Openweathermap.OwmError>,
    checkReadOk: bool,
    updateReadOk: bool,
    writeOk: bool)

  /** The environment's OpenWeatherMap strategy is the modelled one, for this request, behind `http` and `clock`. */
  predicate OwmFetch(env: Environment, latLon: string, cityName: string, period: ForecastType,
                     http: Openweathermap.HttpOutcome, clock: Openweathermap.Clock)
  {
    env.owm(latLon, cityName, period) == Openweathermap.FetchWeatherData(latLon, cityName, period, http, clock)
  }

  /**
   * `strategy.fetch_weather_data(lat_lon=..., city_name=..., period=...)`. The Meteomatics
   * stub declares its third parameter as `period_option`, so the keyword `period` makes the
   * call itself raise `TypeError` before the empty body runs.
   */
  function Fetch(s: Strategy, latLon: string, cityName: string, period: ForecastType, env: Environment)
    : (r: Result<Option<ProviderResult>, Failure>)
    ensures s.MeteomaticsStrategy? ==> r == Err(ProviderRaised)
    ensures s.OpenweathermapStrategy? ==>
      && (r.Err? <==> env.owm(latLon, cityName, period).Err?)
      && (r.Ok? ==> r.value == env.owm(latLon, cityName, period).value)
    ensures r.Err? ==> r.error == ProviderRaised
  {
    match s
    case OpenweathermapStrategy =>
      (match env.owm(latLon, cityName, period)
       case Err(_) => Err(ProviderRaised)
       case Ok(data) => Ok(data))
    case MeteomaticsStrategy => Err(ProviderRaised)
  }

  /** What `__return_weather_data` hands back: a cache row (a tuple) or the provider's answer. */
  datatype Source = Cached(row: CacheRow) | Fetched(data: ProviderResult)

  /** A request for `key` is not answered from the cache: the read works and finds no fresh row. */
  predicate Miss(rows: seq<CacheRow>, key: CacheKey, now: int, readOk: bool)
  {
    readOk && (FirstMatch(rows, key).None? || !CheckTimeFrame(FirstMatch(rows, key).value.timestamp, now))
  }

  // ---------------------------------------------------------------------------------------
  // The pipeline as values on the cache table

  /**
   * `__return_weather_data`: `Ok(None)` where it falls off its end after a falsy provider
   * answer; a provider answer it hands back is truthy.
   */
  function Lookup(rows: seq<CacheRow>, name: string, cityName: string, period: ForecastType, latLon: string, env: Environment)
    : (r: Result<Option<Source>, Failure>)
    ensures r.Ok? && r.value.Some? && r.value.value.Cached? ==>
      && FirstMatch(rows, CacheKey(latLon, name, period)) == Some(r.value.value.row)
      && CheckTimeFrame(r.value.value.row.timestamp, env.now)
    ensures r.Ok? && r.value.Some? && r.value.value.Fetched? ==>
      && Miss(rows, CacheKey(latLon, name, period), env.now, env.checkReadOk)
      && name == ProviderNameValue(Openweathermap)
      && env.owm(latLon, cityName, period) == Ok(Some(r.value.value.data))
      && ResultTruthy(r.value.value.data)
  {
    match CheckCache(rows, CacheKey(latLon, name, period), env.now, env.checkReadOk)
    case Err(_) => Err(CacheCheckFailed)
    case Ok((actual, cached)) =>
      if actual && cached.Some? then Ok(Some(Cached(cached.value)))
      else
        match StrategyFor(name)
        case None => Err(NoStrategy)
        case Some(s) =>
          match Fetch(s, latLon, cityName, period, env)
          case Err(e) => Err(e)
          case Ok(data) =>
            if data.None? || !ResultTruthy(data.value) then Ok(None) else Ok(Some(Fetched(data.value)))
  }

  /**
   * `__get_and_update_weather`: the answer and the new cache table. A cache row answers with
   * its `WEATHER_DATA` column. A provider answer is rendered; because of how the conditional
   * expression parses, only a list is written back, under the first record's key and
   * timestamp, and a failed write is only logged.
   */
  function Resolution(rows: seq<CacheRow>, name: string, latLon: string, cityName: string, period: ForecastType, env: Environment)
    : (res: (Result<string, Failure>, seq<CacheRow>))
    ensures res.0.Err? ==> res.1 == rows
    ensures res.1 != rows ==>
      var found := Lookup(rows, name, cityName, period, latLon, env);
      found.Ok? && found.value.Some? && found.value.value.Fetched? && found.value.value.data.Many?
    ensures var found := Lookup(rows, name, cityName, period, latLon, env);
      found.Ok? && found.value.Some? && found.value.value.Cached? ==>
        res == (Ok(found.value.value.row.weatherData), rows)
  {
    match Lookup(rows, name, cityName, period, latLon, env)
    case Err(e) => (Err(e), rows)
    case Ok(None) => (Err(NothingFetched), rows)
    case Ok(Some(Cached(row))) => (Ok(row.weatherData), rows)
    case Ok(Some(Fetched(data))) =>
      var text := WeatherFormatting.CompiledOutput(data, period, env.nowText).value;
      match data
      case Single(w) =>
        if IntOf(w.timestamp).None? then (Err(TimestampNotInt), rows) else (Ok(text), rows)
      case Many(ws) =>
        if IntOf(ws[0].timestamp).None? then (Err(TimestampNotInt), rows)
        else
          var key := CacheKey(Show(ws[0].latLon), name, period);
          (Ok(text), UpdateCache(rows, key, IntOf(ws[0].timestamp).value, text, env.updateReadOk, env.writeOk).1)
  }

  /** `compile_weather_output`: the answer or the exception, and the new cache table. */
  function Output(rows: seq<CacheRow>, latLon: string, name: string, forecastType: string, cityName: string, env: Environment)
    : (o: (Result<string, OutputError>, seq<CacheRow>))
    ensures o.0 == Err(ValueError) <==> ParseForecastType(forecastType).None?
    ensures o.0.Err? ==> o.1 == rows
  {
    match ParseForecastType(forecastType)
    case None => (Err(ValueError), rows)
    case Some(period) =>
      var (r, after) := Resolution(rows, name, latLon, cityName, period, env);
      (if r.Ok? then Ok(r.value) else Err(RuntimeError), after)
  }

  // ---------------------------------------------------------------------------------------
  // The pipeline over the cache table

  /** `__return_weather_data`. */
  method ReturnWeatherData(db: WeatherCacheDb, name: string, cityName: string, period: ForecastType, latLon: string, env: Environment)
    returns (r: Result<Option<Source>, Failure>)
    ensures r == Lookup(db.rows, name, cityName, period, latLon, env)
  {
    var checked := db.CheckWeatherCache(CacheKey(latLon, name, period), env.now, env.checkReadOk);
    if checked.Err? {
      return Err(CacheCheckFailed);
    }
    var (actual, cached) := checked.value;
    if actual && cached.Some? {
      return Ok(Some(Cached(cached.value)));
    }
    var strategy := StrategyFor(name);
    if strategy.None? {
      return Err(NoStrategy);
    }
    var data := Fetch(strategy.value, latLon, cityName, period, env);
    if data.Err? {
      return Err(data.error);
    }
    if data.value.None? || !ResultTruthy(data.value.value) {
      // `FailedFetchWeatherDataFromProvider` is raised, caught and logged; the function returns `None`
      return Ok(None);
    }
    r := Ok(Some(Fetched(data.value.value)));
  }

  /** `__get_and_update_weather`. */
  method GetAndUpdateWeather(db: WeatherCacheDb, name: string, latLon: string, cityName: string, period: ForecastType, env: Environment)
    returns (r: Result<string, Failure>)
    modifies db
    ensures (r, db.rows) == Resolution(old(db.rows), name, latLon, cityName, period, env)
  {
    var found := ReturnWeatherData(db, name, cityName, period, latLon, env);
    if found.Err? {
      return Err(found.error);
    }
    if found.value.None? {
      return Err(NothingFetched);
    }
    match found.value.value
    case Cached(row) =>
      return Ok(row.weatherData);
    case Fetched(data) =>
      var text := WeatherFormatting.CompileWeatherString(data, period, env.nowText);
      match data
      case Single(w) =>
        if IntOf(w.timestamp).None? {
          return Err(TimestampNotInt);
        }
        return Ok(text.value);
      case Many(ws) =>
        var ts := IntOf(ws[0].timestamp);
        if ts.None? {
          return Err(TimestampNotInt);
        }
        // a `FailedToUpdateWeatherCache` out of the update is logged and the text returned all the same
        var written := db.UpdateWeatherCache(CacheKey(Show(ws[0].latLon), name, period), ts.value, text.value, env.updateReadOk, env.writeOk);
        return Ok(text.value);
  }

  /** `compile_weather_output`. */
  method CompileWeatherOutput(db: WeatherCacheDb, latLon: string, name: string, forecastType: string, cityName: string, env: Environment)
    returns (r: Result<string, OutputError>)
    modifies db
    ensures (r, db.rows) == Output(old(db.rows), latLon, name, forecastType, cityName, env)
  {
    var period := ParseForecastType(forecastType);
    if period.None? {
      return Err(ValueError);
    }
    var text := GetAndUpdateWeather(db, name, latLon, cityName, period.value, env);
    if text.Err? {
      return Err(RuntimeError);
    }
    r := Ok(text.value);
  }

  // ---------------------------------------------------------------------------------------
  // Properties

  /**
   * A fresh row is served as it is: the answer is its `WEATHER_DATA` column, the table is
   * unchanged, and nothing the provider or the cache update would see makes a difference.
   */
  lemma FreshHitServed(rows: seq<CacheRow>, latLon: string, name: string, period: ForecastType, cityName: string,
                       env: Environment, row: CacheRow,
                       owm: (string, string, ForecastType) -> Result<Option<ProviderResult>, Openweathermap.OwmError>,
                       readOk: bool, writeOk: bool)
    requires env.checkReadOk
    requires FirstMatch(rows, CacheKey(latLon, name, period)) == Some(row)
    requires CheckTimeFrame(row.timestamp, env.now)
    ensures Output(rows, latLon, name, ForecastTypeValue(period), cityName, env) == (Ok(row.weatherData), rows)
    ensures Output(rows, latLon, name, ForecastTypeValue(period), cityName, env)
         == Output(rows, latLon, name, ForecastTypeValue(period), cityName,
                   env.(owm := owm, updateReadOk := readOk, writeOk := writeOk))
  {
    ForecastTypeRoundTrip(period);
  }

  /** A failed cache read ends the request in `RuntimeError`, whatever the provider would say. */
  lemma CacheReadFailureFails(rows: seq<CacheRow>, latLon: string, name: string, period: ForecastType, cityName: string, env: Environment)
    requires !env.checkReadOk
    ensures Output(rows, latLon, name, ForecastTypeValue(period), cityName, env) == (Err(RuntimeError), rows)
  {
    ForecastTypeRoundTrip(period);
  }

  /** A forecast type that is no member's value raises `ValueError`, outside the `RuntimeError` wrapper. */
  lemma UnknownForecastTypeFails(rows: seq<CacheRow>, latLon: string, name: string, forecastType: string, cityName: string, env: Environment)
    ensures Output(rows, latLon, name, forecastType, cityName, env).0 == Err(ValueError)
        <==> forall t: ForecastType :: ForecastTypeValue(t) != forecastType
    ensures Output(rows, latLon, name, forecastType, cityName, env).0 == Err(ValueError)
        ==> Output(rows, latLon, name, forecastType, cityName, env).1 == rows
  {
    if ParseForecastType(forecastType).Some? {
      var period := ParseForecastType(forecastType).value;
      assert ForecastTypeValue(period) == forecastType;
    }
  }

  /** On a miss, a provider name without a strategy (such as `Sinoptik`) ends in `RuntimeError` and writes nothing. */
  lemma UnknownProviderFails(rows: seq<CacheRow>, latLon: string, name: string, period: ForecastType, cityName: string, env: Environment)
    requires Miss(rows, CacheKey(latLon, name, period), env.now, env.checkReadOk)
    requires name != ProviderNameValue(Openweathermap) && name != ProviderNameValue(Meteomatics)
    ensures Output(rows, latLon, name, ForecastTypeValue(period), cityName, env) == (Err(RuntimeError), rows)
  {
    ForecastTypeRoundTrip(period);
  }

  /**
   * On a miss, the call into the Meteomatics strategy raises (its parameter is named
   * `period_option`, not `period`), and the request ends in `RuntimeError`.
   */
  lemma MeteomaticsFails(rows: seq<CacheRow>, latLon: string, period: ForecastType, cityName: string, env: Environment)
    requires Miss(rows, CacheKey(latLon, ProviderNameValue(Meteomatics), period), env.now, env.checkReadOk)
    ensures Lookup(rows, ProviderNameValue(Meteomatics), cityName, period, latLon, env) == Err(ProviderRaised)
    ensures Output(rows, latLon, ProviderNameValue(Meteomatics), ForecastTypeValue(period), cityName, env) == (Err(RuntimeError), rows)
  {
    ForecastTypeRoundTrip(period);
  }

  /**
   * On a miss, an OpenWeatherMap fetch that raises or answers `None` (a transport error or a
   * status other than 200, say) ends in `RuntimeError`, not in a text message.
   */
  lemma ProviderFailureFails(rows: seq<CacheRow>, latLon: string, period: ForecastType, cityName: string, env: Environment)
    requires Miss(rows, CacheKey(latLon, ProviderNameValue(Openweathermap), period), env.now, env.checkReadOk)
    requires env.owm(latLon, cityName, period).Err?
          || env.owm(latLon, cityName, period) == Ok(None)
    ensures Output(rows, latLon, ProviderNameValue(Openweathermap), ForecastTypeValue(period), cityName, env) == (Err(RuntimeError), rows)
  {
    ForecastTypeRoundTrip(period);
  }

  /**
   * With the modelled OpenWeatherMap strategy, a transport error or a status other than 200
   * ends a missed request in `RuntimeError`.
   */
  lemma HttpFailureFails(rows: seq<CacheRow>, latLon: string, period: ForecastType, cityName: string, env: Environment,
                         http: Openweathermap.HttpOutcome, clock: Openweathermap.Clock)
    requires Miss(rows, CacheKey(latLon, ProviderNameValue(Openweathermap), period), env.now, env.checkReadOk)
    requires OwmFetch(env, latLon, cityName, period, http, clock)
    requires http.TransportError? || http.status != 200
    ensures Output(rows, latLon, ProviderNameValue(Openweathermap), ForecastTypeValue(period), cityName, env) == (Err(RuntimeError), rows)
  {
    Openweathermap.FetchWeatherDataMeaning(latLon, cityName, period, http, clock);
    ProviderFailureFails(rows, latLon, period, cityName, env);
  }

  /** A failed request never changes the cache. */
  lemma FailureLeavesCache(rows: seq<CacheRow>, latLon: string, name: string, forecastType: string, cityName: string, env: Environment)
    ensures Output(rows, latLon, name, forecastType, cityName, env).0.Err?
        ==> Output(rows, latLon, name, forecastType, cityName, env).1 == rows
  {
  }

  /** The current weather is never written to the cache, whatever happens. */
  lemma CurrentNeverCached(rows: seq<CacheRow>, latLon: string, name: string, cityName: string, env: Environment,
                           http: Openweathermap.HttpOutcome, clock: Openweathermap.Clock)
    requires OwmFetch(env, latLon, cityName, Current, http, clock)
    ensures Output(rows, latLon, name, ForecastTypeValue(Current), cityName, env).1 == rows
  {
    OutputOfPeriod(rows, latLon, name, Current, cityName, env);
    var found := Lookup(rows, name, cityName, Current, latLon, env);
    if found.Ok? && found.value.Some? && found.value.value.Fetched? {
      Openweathermap.FetchWeatherDataMeaning(latLon, cityName, Current, http, clock);
      assert found.value.value.data.Single?;
    }
  }

  /**
   * On a miss, a fetched current record is rendered as the single-record text with the
   * current time shown, and returned.
   */
  lemma CurrentServedFresh(rows: seq<CacheRow>, latLon: string, cityName: string, env: Environment, w: WeatherData)
    requires Miss(rows, CacheKey(latLon, ProviderNameValue(Openweathermap), Current), env.now, env.checkReadOk)
    requires env.owm(latLon, cityName, Current) == Ok(Some(Single(w)))
    requires IntOf(w.timestamp).Some?
    ensures Output(rows, latLon, ProviderNameValue(Openweathermap), ForecastTypeValue(Current), cityName, env)
         == (Ok(WeatherFormatting.SingleOutput(w, Current, env.nowText)), rows)
  {
    var name := ProviderNameValue(Openweathermap);
    OutputOfPeriod(rows, latLon, name, Current, cityName, env);
    LookupFetched(rows, latLon, cityName, Current, env, Single(w));
    FetchedRecord(rows, name, latLon, cityName, Current, env, w);
  }

  /**
   * On a miss, a fetched record whose timestamp `int()` rejects ends in `RuntimeError`, and
   * the cache is left as it was.
   */
  lemma SingleTimestampNotIntFails(rows: seq<CacheRow>, latLon: string, cityName: string, period: ForecastType,
                                   env: Environment, w: WeatherData)
    requires Miss(rows, CacheKey(latLon, ProviderNameValue(Openweathermap), period), env.now, env.checkReadOk)
    requires env.owm(latLon, cityName, period) == Ok(Some(Single(w)))
    requires IntOf(w.timestamp).None?
    ensures Output(rows, latLon, ProviderNameValue(Openweathermap), ForecastTypeValue(period), cityName, env)
         == (Err(RuntimeError), rows)
  {
    OutputOfPeriod(rows, latLon, ProviderNameValue(Openweathermap), period, cityName, env);
    LookupFetched(rows, latLon, cityName, period, env, Single(w));
  }

  /** The same for a fetched forecast whose first timestamp `int()` rejects: nothing is written. */
  lemma ForecastTimestampNotIntFails(rows: seq<CacheRow>, latLon: string, cityName: string, period: ForecastType,
                                     env: Environment, ws: seq<WeatherData>)
    requires Miss(rows, CacheKey(latLon, ProviderNameValue(Openweathermap), period), env.now, env.checkReadOk)
    requires env.owm(latLon, cityName, period) == Ok(Some(Many(ws)))
    requires |ws| > 0 && IntOf(ws[0].timestamp).None?
    ensures Output(rows, latLon, ProviderNameValue(Openweathermap), ForecastTypeValue(period), cityName, env)
         == (Err(RuntimeError), rows)
  {
    OutputOfPeriod(rows, latLon, ProviderNameValue(Openweathermap), period, cityName, env);
    LookupFetched(rows, latLon, cityName, period, env, Many(ws));
  }

  /** A fetched single record with an integral timestamp is rendered and not written back. */
  lemma FetchedRecord(rows: seq<CacheRow>, name: string, latLon: string, cityName: string, period: ForecastType, env: Environment,
                      w: WeatherData)
    requires Lookup(rows, name, cityName, period, latLon, env) == Ok(Some(Fetched(Single(w))))
    requires IntOf(w.timestamp).Some?
    ensures Resolution(rows, name, latLon, cityName, period, env)
         == (Ok(WeatherFormatting.SingleOutput(w, period, env.nowText)), rows)
  {
    assert WeatherFormatting.CompiledOutput(Single(w), period, env.nowText) == Some(WeatherFormatting.SingleOutput(w, period, env.nowText));
  }

  /**
   * On a miss, a fetched forecast is rendered and returned, and the cache is updated with that
   * text under the first record's key and provider timestamp, not the current time; the text is
   * returned even when the update fails.
   */
  lemma ForecastCached(rows: seq<CacheRow>, latLon: string, cityName: string, env: Environment, ws: seq<WeatherData>, ts: int)
    requires Miss(rows, CacheKey(latLon, ProviderNameValue(Openweathermap), FiveDays), env.now, env.checkReadOk)
    requires env.owm(latLon, cityName, FiveDays) == Ok(Some(Many(ws)))
    requires |ws| > 0 && IntOf(ws[0].timestamp) == Some(ts)
    ensures var text := WeatherFormatting.ListOutput(ws).value;
      var key := CacheKey(Show(ws[0].latLon), ProviderNameValue(Openweathermap), FiveDays);
      Output(rows, latLon, ProviderNameValue(Openweathermap), ForecastTypeValue(FiveDays), cityName, env)
        == (Ok(text), UpdateCache(rows, key, ts, text, env.updateReadOk, env.writeOk).1)
  {
    var name := ProviderNameValue(Openweathermap);
    OutputOfPeriod(rows, latLon, name, FiveDays, cityName, env);
    LookupFetched(rows, latLon, cityName, FiveDays, env, Many(ws));
    FetchedForecast(rows, name, latLon, cityName, FiveDays, env, ws, ts);
  }

  /** With a valid forecast type, the answer is the pipeline's, any failure turned into `RuntimeError`. */
  lemma OutputOfPeriod(rows: seq<CacheRow>, latLon: string, name: string, period: ForecastType, cityName: string, env: Environment)
    ensures var (r, after) := Resolution(rows, name, latLon, cityName, period, env);
      Output(rows, latLon, name, ForecastTypeValue(period), cityName, env) == (if r.Ok? then Ok(r.value) else Err(RuntimeError), after)
  {
    ForecastTypeRoundTrip(period);
  }

  /** On a miss, a truthy OpenWeatherMap answer is what `__return_weather_data` hands back. */
  lemma LookupFetched(rows: seq<CacheRow>, latLon: string, cityName: string, period: ForecastType, env: Environment, data: ProviderResult)
    requires Miss(rows, CacheKey(latLon, ProviderNameValue(Openweathermap), period), env.now, env.checkReadOk)
    requires env.owm(latLon, cityName, period) == Ok(Some(data))
    requires ResultTruthy(data)
    ensures Lookup(rows, ProviderNameValue(Openweathermap), cityName, period, latLon, env) == Ok(Some(Fetched(data)))
  {
  }

  /** A fetched list with an integral first timestamp is rendered and written back under its first record's key. */
  lemma FetchedForecast(rows: seq<CacheRow>, name: string, latLon: string, cityName: string, period: ForecastType, env: Environment,
                        ws: seq<WeatherData>, ts: int)
    requires Lookup(rows, name, cityName, period, latLon, env) == Ok(Some(Fetched(Many(ws))))
    requires |ws| > 0 && IntOf(ws[0].timestamp) == Some(ts)
    ensures var text := WeatherFormatting.ListOutput(ws).value;
      Resolution(rows, name, latLon, cityName, period, env)
        == (Ok(text), UpdateCache(rows, CacheKey(Show(ws[0].latLon), name, period), ts, text, env.updateReadOk, env.writeOk).1)
  {
    var text := WeatherFormatting.CompiledOutput(Many(ws), period, env.nowText);
    assert text == WeatherFormatting.ListOutput(ws) && text.Some?;
  }

  /** Every request keeps the cache at most one row per key. */
  lemma OutputKeepsUnique(rows: seq<CacheRow>, latLon: string, name: string, forecastType: string, cityName: string, env: Environment)
    requires UniqueKeys(rows)
    ensures UniqueKeys(Output(rows, latLon, name, forecastType, cityName, env).1)
  {
    var period := ParseForecastType(forecastType);
    if period.Some? {
      var found := Lookup(rows, name, cityName, period.value, latLon, env);
      if found.Ok? && found.value.Some? && found.value.value.Fetched? && found.value.value.data.Many? {
        var ws := found.value.value.data.records;
        if IntOf(ws[0].timestamp).Some? {
          var text := WeatherFormatting.CompiledOutput(found.value.value.data, period.value, env.nowText).value;
          UpdateCacheKeepsUnique(rows, CacheKey(Show(ws[0].latLon), name, period.value), IntOf(ws[0].timestamp).value,
                                 text, env.updateReadOk, env.writeOk);
        }
      }
    }
  }

  /**
   * Fetch, write, then serve: when a forecast for a key with exactly one `-` is fetched and
   * written, a later request for it within the hour after the provider's timestamp is
   * answered with the same text from the cache.
   */
  lemma ForecastServedFromCache(rows: seq<CacheRow>, latLon: string, cityName: string, env: Environment, later: Environment,
                                http: Openweathermap.HttpOutcome, clock: Openweathermap.Clock, ws: seq<WeatherData>, ts: int)
    requires |Strings.Split(latLon, '-')| == 2
    requires OwmFetch(env, latLon, cityName, FiveDays, http, clock)
    requires Miss(rows, CacheKey(latLon, ProviderNameValue(Openweathermap), FiveDays), env.now, env.checkReadOk)
    requires env.owm(latLon, cityName, FiveDays) == Ok(Some(Many(ws)))
    requires |ws| > 0 && IntOf(ws[0].timestamp) == Some(ts)
    requires var key := CacheKey(latLon, ProviderNameValue(Openweathermap), FiveDays);
      FirstMatch(rows, key).None? || !CheckTimeFrame(FirstMatch(rows, key).value.timestamp, ts)
    requires env.updateReadOk && env.writeOk
    requires later.checkReadOk && later.now <= ts + FreshnessWindow
    ensures var (r, after) := Output(rows, latLon, ProviderNameValue(Openweathermap), ForecastTypeValue(FiveDays), cityName, env);
      r.Ok? && Output(after, latLon, ProviderNameValue(Openweathermap), ForecastTypeValue(FiveDays), cityName, later) == (r, after)
  {
    ForecastCarriesKey(latLon, cityName, http, clock, ws);
    ForecastServedAgain(rows, latLon, cityName, env, later, ws, ts);
  }

  /** The step of `ForecastServedFromCache` once the records are known to carry the requested key. */
  lemma ForecastServedAgain(rows: seq<CacheRow>, latLon: string, cityName: string, env: Environment, later: Environment,
                            ws: seq<WeatherData>, ts: int)
    requires Miss(rows, CacheKey(latLon, ProviderNameValue(Openweathermap), FiveDays), env.now, env.checkReadOk)
    requires env.owm(latLon, cityName, FiveDays) == Ok(Some(Many(ws)))
    requires |ws| > 0 && IntOf(ws[0].timestamp) == Some(ts) && Show(ws[0].latLon) == latLon
    requires var key := CacheKey(latLon, ProviderNameValue(Openweathermap), FiveDays);
      FirstMatch(rows, key).None? || !CheckTimeFrame(FirstMatch(rows, key).value.timestamp, ts)
    requires env.updateReadOk && env.writeOk
    requires later.checkReadOk && later.now <= ts + FreshnessWindow
    ensures var (r, after) := Output(rows, latLon, ProviderNameValue(Openweathermap), ForecastTypeValue(FiveDays), cityName, env);
      r.Ok? && Output(after, latLon, ProviderNameValue(Openweathermap), ForecastTypeValue(FiveDays), cityName, later) == (r, after)
  {
    var key := CacheKey(latLon, ProviderNameValue(Openweathermap), FiveDays);
    ForecastCached(rows, latLon, cityName, env, ws, ts);
    ServedAfterWrite(rows, latLon, cityName, later, ts, WeatherFormatting.ListOutput(ws).value);
  }

  /** A text written under a missing or stale key is served from the cache within the hour after its timestamp. */
  lemma ServedAfterWrite(rows: seq<CacheRow>, latLon: string, cityName: string, later: Environment, ts: int, text: string)
    requires var key := CacheKey(latLon, ProviderNameValue(Openweathermap), FiveDays);
      FirstMatch(rows, key).None? || !CheckTimeFrame(FirstMatch(rows, key).value.timestamp, ts)
    requires later.checkReadOk && later.now <= ts + FreshnessWindow
    ensures var after := UpdateCache(rows, CacheKey(latLon, ProviderNameValue(Openweathermap), FiveDays), ts, text, true, true).1;
      Output(after, latLon, ProviderNameValue(Openweathermap), ForecastTypeValue(FiveDays), cityName, later) == (Ok(text), after)
  {
    var name := ProviderNameValue(Openweathermap);
    var key := CacheKey(latLon, name, FiveDays);
    var after := UpdateCache(rows, key, ts, text, true, true).1;
    WriteThenRead(rows, key, ts, text, later.now);
    var row := NewRow(key, ts, text);
    assert FirstMatch(after, key) == Some(row) && CheckTimeFrame(row.timestamp, later.now);
    FreshHitServed(after, latLon, name, FiveDays, cityName, later, row, later.owm, later.updateReadOk, later.writeOk);
  }

  /** The modelled strategy's forecast records carry the requested key when it has exactly one `-`. */
  lemma ForecastCarriesKey(latLon: string, cityName: string, http: Openweathermap.HttpOutcome, clock: Openweathermap.Clock,
                           ws: seq<WeatherData>)
    requires |Strings.Split(latLon, '-')| == 2
    requires Openweathermap.FetchWeatherData(latLon, cityName, FiveDays, http, clock) == Ok(Some(Many(ws)))
    ensures |ws| > 0 && Show(ws[0].latLon) == latLon
  {
    Openweathermap.FetchWeatherDataMeaning(latLon, cityName, FiveDays, http, clock);
    Geocoding.LatLonRebuilt(latLon);
  }
}
