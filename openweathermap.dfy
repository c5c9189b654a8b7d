/**
 * The OpenWeatherMap strategy: one "onecall" request per lat-lon key, parsed into one
 * `WeatherData` (current weather) or six of them (the forecast). Every parse failure is
 * caught and turns the whole answer into `None`; there is never a partial list.
 */
module Openweathermap {
  import opened Outcomes
  import opened ProviderStrategy
  import Strings
  import Geocoding
  import WeatherEmoji
  import WindDirection
  import Utils

  // ---------------------------------------------------------------------------------------
  // The decoded JSON body. A key the body lacks is `None`.

  /** `response["current"]`; `weather` is the list whose first entry's `id` is the condition code. */
  datatype CurrentBlock = CurrentBlock(
    dt: Option<int>,
    temp: Option<Number>,
    tempMax: Option<Number>,
    tempMin: Option<Number>,
    windSpeed: Option<Number>,
    windDeg: Option<Number>,
    pressure: Option<Number>,
    precipitation: Option<Number>,
    humidity: Option<Number>,
    sunrise: Option<int>,
    sunset: Option<int>,
    weather: Option<seq<Option<int>>>)

  /** `response["daily"][i]["temp"]`. */
  datatype TempBlock = TempBlock(max: Option<Number>, min: Option<Number>, temp: Option<Number>)

  /** `response["daily"][i]`. */
  datatype DailyBlock = DailyBlock(
    dt: Option<int>,
    temp: Option<TempBlock>,
    windSpeed: Option<Number>,
    windDeg: Option<Number>,
    pressure: Option<Number>,
    precipitation: Option<Number>,
    humidity: Option<Number>,
    sunrise: Option<int>,
    sunset: Option<int>)

  datatype OneCallBody = OneCallBody(current: Option<CurrentBlock>, daily: Option<seq<DailyBlock>>)

  /**
   * What the HTTP call gave: it raised, or a status and a body, where `body` is `None` when
   * the text is not JSON at all (`json.loads` raises).
   */
  datatype HttpOutcome = TransportError | Response(status: int, body: Option<OneCallBody>)

  /** The pair `_get_weather_response` returns: the body and the rejoined lat-lon key. */
  datatype WeatherResponse = WeatherResponse(body: OneCallBody, latLon: string)

  /** Exceptions that leave the strategy instead of becoming `None`. */
  datatype OwmError = IndexError | JsonDecodeError

  /** The local clock: `datetime.now()` as a date, and `fromtimestamp(...).strftime(...)` of both formats. */
  datatype Clock = Clock(today: string, formatDate: int -> string, formatDateTime: int -> string)

  /** The enum value the strategy passes to the emoji lookup. */
  const ProviderNameText: string := ProviderNameValue(Openweathermap)

  // ---------------------------------------------------------------------------------------
  // The request

  /**
   * `_get_weather_response`. Splitting the key happens before the `try`, so a key without `-`
   * raises; a transport error or a status other than 200 gives `None`.
   */
  function GetWeatherResponse(latLon: string, http: HttpOutcome): (r: Result<Option<WeatherResponse>, OwmError>)
    ensures r == Err(IndexError) <==> '-' !in latLon
    ensures r.Ok? && r.value.Some? <==>
      '-' in latLon && http.Response? && http.status == 200 && http.body.Some?
    ensures r.Ok? && r.value.Some? ==>
      var (lat, lng) := Geocoding.GetLatLonFromAttribute(latLon).value;
      r.value.value == WeatherResponse(http.body.value, Geocoding.FormatLatLon(lat, lng))
  {
    match Geocoding.GetLatLonFromAttribute(latLon)
    case Err(_) => Err(IndexError)
    case Ok((lat, lng)) =>
      match http
      case TransportError => Ok(None)
      case Response(status, body) =>
        if status != 200 then Ok(None)
        else if body.None? then Err(JsonDecodeError)
        else Ok(Some(WeatherResponse(body.value, Geocoding.FormatLatLon(lat, lng))))
  }

  // ---------------------------------------------------------------------------------------
  // Parsing

  /** A JSON number as an attribute: `None` stays `None`. */
  function NumberField(n: Option<Number>): Field
  {
    if n.None? then NoneField else Num(n.value)
  }

  /** A JSON number as the `Option<real>` the wind-direction lookup takes. */
  function Degrees(n: Option<Number>): Option<real>
  {
    if n.None? then None else Some(n.value.value)
  }

  /** The emoji triple of `current.weather[0].id`; `None` where a lookup raises or no table entry holds the code. */
  function CurrentEmoji(body: OneCallBody): Option<WeatherEmoji.EmojiTriple>
  {
    if body.current.None? || body.current.value.weather.None? then None
    else
      var entries := body.current.value.weather.value;
      if |entries| == 0 || entries[0].None? then None
      else WeatherEmoji.GetWeatherEmoji(ProviderNameText, entries[0].value)
  }

  /** `math_round(x) if x else None`. */
  function RoundedIfTruthy(n: Option<Number>): Field
  {
    if n.Some? && n.value.value != 0.0 then Whole(Utils.MathRound(n.value.value)) else NoneField
  }

  /** `_parse_current_weather`: `None` when any lookup or conversion raises. */
  function ParseCurrentWeather(cityName: string, response: WeatherResponse, clock: Clock): (r: Option<WeatherData>)
    ensures CurrentEmoji(response.body).None? ==> r.None?
    ensures r.Some? ==>
      && r.value.cityName == Text(cityName) && r.value.latLon == Text(response.latLon)
      && r.value.date == Text(clock.today)
  {
    var emoji := CurrentEmoji(response.body);
    if emoji.None? then None
    else
      var c := response.body.current.value;
      if c.temp.None? || c.pressure.None? || c.sunrise.None? || c.sunset.None? then None
      else
        Some(WeatherData(
          cityName := Text(cityName),
          latLon := Text(response.latLon),
          timestamp := if c.dt.None? then NoneField else Whole(c.dt.value),
          date := Text(clock.today),
          weatherEmoji := Text(emoji.value.emoji),
          weatherSummary := Text(emoji.value.ua),
          temperature := Whole(Utils.MathRound(c.temp.value.value)),
          maxTemperature := RoundedIfTruthy(c.tempMax),
          minTemperature := RoundedIfTruthy(c.tempMin),
          windSpeed := NumberField(c.windSpeed),
          windDirection := Text(WindDirection.GetWindDirectionEmoji(Degrees(c.windDeg))),
          pressure := Whole(Utils.HpaToMmHg(c.pressure.value.value)),
          precipitation := NumberField(c.precipitation),
          humidity := NumberField(c.humidity),
          sunrise := Text(clock.formatDateTime(c.sunrise.value)),
          sunset := Text(clock.formatDateTime(c.sunset.value))))
  }

  /** A day holds every key the forecast loop looks up without a default. */
  predicate DayComplete(day: DailyBlock)
  {
    && day.dt.Some? && day.temp.Some? && day.temp.value.max.Some? && day.temp.value.min.Some?
    && day.pressure.Some? && day.sunrise.Some? && day.sunset.Some?
  }

  /** One iteration of the forecast loop: the record for one complete day. */
  function DayRecord(cityName: string, latLon: string, emoji: WeatherEmoji.EmojiTriple, day: DailyBlock, clock: Clock)
    : WeatherData
    requires DayComplete(day)
  {
    WeatherData(
      cityName := Text(cityName),
      latLon := Text(latLon),
      timestamp := Whole(day.dt.value),
      date := Text(clock.formatDate(day.dt.value)),
      weatherEmoji := Text(emoji.emoji),
      weatherSummary := Text(emoji.ua),
      temperature := RoundedIfTruthy(day.temp.value.temp),
      maxTemperature := Whole(Utils.MathRound(day.temp.value.max.value.value)),
      minTemperature := Whole(Utils.MathRound(day.temp.value.min.value.value)),
      windSpeed := NumberField(day.windSpeed),
      windDirection := Text(WindDirection.GetWindDirectionEmoji(Degrees(day.windDeg))),
      pressure := Whole(Utils.HpaToMmHg(day.pressure.value.value)),
      precipitation := NumberField(day.precipitation),
      humidity := NumberField(day.humidity),
      sunrise := Text(clock.formatDateTime(day.sunrise.value)),
      sunset := Text(clock.formatDateTime(day.sunset.value)))
  }

  /** The number of days the forecast loop reads. */
  const ForecastDays: nat := 6

  /** The records the forecast loop builds from `days` with one shared emoji; `None` when any of them fails. */
  function ForecastRecords(cityName: string, latLon: string, emoji: WeatherEmoji.EmojiTriple, days: seq<DailyBlock>, clock: Clock)
    : (r: Option<seq<WeatherData>>)
    ensures r.Some? <==> |days| >= ForecastDays && forall k :: 0 <= k < ForecastDays ==> DayComplete(days[k])
    ensures r.Some? ==> |r.value| == ForecastDays && forall k :: 0 <= k < ForecastDays ==>
      r.value[k] == DayRecord(cityName, latLon, emoji, days[k], clock)
  {
    if |days| >= ForecastDays && forall k :: 0 <= k < ForecastDays ==> DayComplete(days[k])
    then Some(seq(ForecastDays, k requires 0 <= k < ForecastDays => DayRecord(cityName, latLon, emoji, days[k], clock)))
    else None
  }

  /**
   * `_parse_weather_forecast` as a value: six records, one per `daily[0..6]` entry, every one
   * with the emoji of the CURRENT condition code; `None` when any of them fails.
   */
  function ParseWeatherForecast(cityName: string, response: WeatherResponse, clock: Clock): (r: Option<seq<WeatherData>>)
    ensures CurrentEmoji(response.body).None? || response.body.daily.None? ==> r.None?
    ensures r.Some? ==> |r.value| == ForecastDays
  {
    var emoji := CurrentEmoji(response.body);
    if emoji.None? || response.body.daily.None? then None
    else ForecastRecords(cityName, response.latLon, emoji.value, response.body.daily.value, clock)
  }

  /** The loop of `_parse_weather_forecast` over `range(6)`, appending one record per day. */
  method BuildForecast(cityName: string, latLon: string, emoji: WeatherEmoji.EmojiTriple, days: seq<DailyBlock>, clock: Clock)
    returns (r: Option<seq<WeatherData>>)
    ensures r == ForecastRecords(cityName, latLon, emoji, days, clock)
  {
    var records: seq<WeatherData> := [];
    for item := 0 to ForecastDays
      invariant |records| == item <= |days|
      invariant forall k :: 0 <= k < item ==> DayComplete(days[k])
      invariant forall k :: 0 <= k < item ==> records[k] == DayRecord(cityName, latLon, emoji, days[k], clock)
    {
      if item >= |days| {
        assert ForecastRecords(cityName, latLon, emoji, days, clock).None?;
        return None;
      }
      if !DayComplete(days[item]) {
        assert ForecastRecords(cityName, latLon, emoji, days, clock).None?;
        return None;
      }
      records := records + [DayRecord(cityName, latLon, emoji, days[item], clock)];
    }
    ghost var expected := ForecastRecords(cityName, latLon, emoji, days, clock);
    assert expected.Some?;
    assert forall k :: 0 <= k < ForecastDays ==> records[k] == expected.value[k];
    assert records == expected.value;
    r := Some(records);
  }

  /** `_parse_weather_forecast`: the emoji lookup, then the loop. */
  method ParseWeatherForecastLoop(cityName: string, response: WeatherResponse, clock: Clock) returns (r: Option<seq<WeatherData>>)
    ensures r == ParseWeatherForecast(cityName, response, clock)
  {
    var emoji := CurrentEmoji(response.body);
    if emoji.None? || response.body.daily.None? {
      return None;
    }
    r := BuildForecast(cityName, response.latLon, emoji.value, response.body.daily.value, clock);
  }

  // ---------------------------------------------------------------------------------------
  // The strategy's entry point

  /**
   * `fetch_weather_data`: `Ok(None)` where the source returns `None`, `Err` where an exception
   * leaves the strategy.
   */
  function FetchWeatherData(latLon: string, cityName: string, period: ForecastType, http: HttpOutcome, clock: Clock)
    : (r: Result<Option<ProviderResult>, OwmError>)
    ensures '-' !in latLon ==> r == Err(IndexError)
    ensures r.Ok? && r.value.Some? ==> (r.value.value.Single? <==> period == Current)
    ensures r.Ok? && r.value.Some? && r.value.value.Many? ==> |r.value.value.records| == ForecastDays
  {
    match GetWeatherResponse(latLon, http)
    case Err(e) => Err(e)
    case Ok(None) => Ok(None)
    case Ok(Some(response)) =>
      match period
      case Current =>
        var record := ParseCurrentWeather(cityName, response, clock);
        if record.None? then Ok(None) else Ok(Some(Single(record.value)))
      case FiveDays =>
        var records := ParseWeatherForecast(cityName, response, clock);
        if records.None? || |records.value| == 0 then Ok(None) else Ok(Some(Many(records.value)))
  }

  // ---------------------------------------------------------------------------------------
  // Properties

  /**
   * A parsed current record: it is stamped with `current.dt`, its emoji and summary are those
   * of the condition holding the code, its temperature is the rounded reading, the wind symbol
   * is an arrow or the unknown symbol, and the maximum and minimum are dropped exactly when
   * the reading is missing or zero.
   */
  lemma CurrentWeatherMeaning(cityName: string, response: WeatherResponse, clock: Clock, c: WeatherEmoji.Condition)
    requires ParseCurrentWeather(cityName, response, clock).Some?
    ensures var w := ParseCurrentWeather(cityName, response, clock).value;
      var cur := response.body.current.value;
      && response.body.current.Some? && cur.temp.Some? && cur.pressure.Some? && cur.sunrise.Some? && cur.sunset.Some?
      && w.latLon == Text(response.latLon)
      && w.timestamp == (if cur.dt.None? then NoneField else Whole(cur.dt.value))
      && (cur.weather.value[0].value in WeatherEmoji.OpenweathermapCodes(c) ==>
            w.weatherEmoji == Text(WeatherEmoji.WeatherEmojiOf(c).emoji)
            && w.weatherSummary == Text(WeatherEmoji.WeatherEmojiOf(c).ua))
      && w.temperature.Whole?
      && cur.temp.value.value - 0.5 < w.temperature.n as real <= cur.temp.value.value + 0.5 + Utils.Nudge
      && w.windDirection.Text?
      && (w.windDirection.s == WindDirection.Unknown || w.windDirection.s in WindDirection.Arrows)
      && (w.maxTemperature == NoneField <==> cur.tempMax.None? || cur.tempMax.value.value == 0.0)
      && (w.minTemperature == NoneField <==> cur.tempMin.None? || cur.tempMin.value.value == 0.0)
  {
    WeatherEmoji.EmojiOfHoldingCondition(ProviderNameText, response.body.current.value.weather.value[0].value, c);
  }

  /**
   * A parsed forecast: six records, record `k` stamped with `daily[k].dt`, every one carrying
   * the key and the emoji and summary of the condition holding the CURRENT code.
   */
  lemma ForecastMeaning(cityName: string, response: WeatherResponse, clock: Clock, c: WeatherEmoji.Condition)
    requires ParseWeatherForecast(cityName, response, clock).Some?
    ensures var records := ParseWeatherForecast(cityName, response, clock).value;
      var code := response.body.current.value.weather.value[0].value;
      && response.body.current.Some? && response.body.daily.Some?
      && |records| == ForecastDays <= |response.body.daily.value|
      && forall k :: 0 <= k < ForecastDays ==>
           && records[k].latLon == Text(response.latLon)
           && response.body.daily.value[k].dt.Some?
           && records[k].timestamp == Whole(response.body.daily.value[k].dt.value)
           && (code in WeatherEmoji.OpenweathermapCodes(c) ==>
                 records[k].weatherEmoji == Text(WeatherEmoji.WeatherEmojiOf(c).emoji)
                 && records[k].weatherSummary == Text(WeatherEmoji.WeatherEmojiOf(c).ua))
  {
    WeatherEmoji.EmojiOfHoldingCondition(ProviderNameText, response.body.current.value.weather.value[0].value, c);
  }

  /** A condition code no table entry holds makes the whole current record fail. */
  lemma UnknownCodeFails(cityName: string, response: WeatherResponse, clock: Clock, code: int)
    requires response.body.current.Some? && response.body.current.value.weather.Some?
    requires |response.body.current.value.weather.value| > 0
    requires response.body.current.value.weather.value[0] == Some(code)
    requires forall c :: code !in WeatherEmoji.OpenweathermapCodes(c)
    ensures ParseCurrentWeather(cityName, response, clock).None?
    ensures ParseWeatherForecast(cityName, response, clock).None?
  {
    WeatherEmoji.EmojiOfHoldingCondition(ProviderNameText, code, WeatherEmoji.ClearSky);
  }

  /** A forecast with fewer than six days fails as a whole. */
  lemma ShortForecastFails(cityName: string, response: WeatherResponse, clock: Clock)
    requires response.body.daily.Some? && |response.body.daily.value| < ForecastDays
    ensures ParseWeatherForecast(cityName, response, clock).None?
  {
  }

  /**
   * What `fetch_weather_data` answers: an exception only for a key without `-` or a body
   * that is not JSON; `None` after a transport error or a status other than 200; otherwise
   * one record for the current weather and exactly six for the forecast, all carrying the
   * rejoined key, record `k` stamped with `daily[k].dt` and all with the same emoji and summary.
   */
  lemma FetchWeatherDataMeaning(latLon: string, cityName: string, period: ForecastType, http: HttpOutcome, clock: Clock)
    ensures var r := FetchWeatherData(latLon, cityName, period, http, clock);
      && (r.Err? <==> '-' !in latLon || (http.Response? && http.status == 200 && http.body.None?))
      && (r.Err? ==> (r.error == IndexError <==> '-' !in latLon))
      && ('-' in latLon && (http.TransportError? || http.status != 200) ==> r == Ok(None))
      && (r.Ok? && r.value.Some? ==> (r.value.value.Single? <==> period == Current))
      && (r.Ok? && r.value.Some? && r.value.value.Many? ==>
            var (lat, lng) := Geocoding.GetLatLonFromAttribute(latLon).value;
            var records := r.value.value.records;
            && |records| == ForecastDays
            && forall k :: 0 <= k < ForecastDays ==>
                 && records[k].latLon == Text(Geocoding.FormatLatLon(lat, lng))
                 && records[k].timestamp == Whole(http.body.value.daily.value[k].dt.value)
                 && records[k].weatherEmoji == records[0].weatherEmoji
                 && records[k].weatherSummary == records[0].weatherSummary)
      && (r.Ok? && r.value.Some? && r.value.value.Single? ==>
            var (lat, lng) := Geocoding.GetLatLonFromAttribute(latLon).value;
            r.value.value.record.latLon == Text(Geocoding.FormatLatLon(lat, lng)))
  {
    var r := FetchWeatherData(latLon, cityName, period, http, clock);
    if r.Ok? && r.value.Some? && r.value.value.Many? {
      var response := GetWeatherResponse(latLon, http).value.value;
      var records := r.value.value.records;
      assert records == ParseWeatherForecast(cityName, response, clock).value;
    }
  }

  /** For a key with exactly one `-` the records carry the requested key unchanged. */
  lemma FetchedKeyUnchanged(latLon: string, http: HttpOutcome)
    requires |Strings.Split(latLon, '-')| == 2
    requires GetWeatherResponse(latLon, http).Ok? && GetWeatherResponse(latLon, http).value.Some?
    ensures GetWeatherResponse(latLon, http).value.value.latLon == latLon
  {
    Geocoding.LatLonRebuilt(latLon);
  }
}
