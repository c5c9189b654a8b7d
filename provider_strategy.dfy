/**
 * Types shared by the weather providers and the resolver: the provider names, the forecast
 * periods and the `WeatherData` record every provider parses its response into.
 */
module ProviderStrategy {
  import opened Outcomes
  import Strings

  /** `WeatherProviderName`: three names, of which only two have a strategy behind them. */
  datatype ProviderName = Openweathermap | Meteomatics | Sinoptik

  /** The enum's `.value`, the string stored in user options and in the cache. */
  function ProviderNameValue(p: ProviderName): string
  {
    match p
    case Openweathermap => "Openweathermap"
    case Meteomatics => "Meteomatics"
    case Sinoptik => "Sinoptik"
  }

  /** `WeatherForecastType`: the current weather or a five-day forecast. */
  datatype ForecastType = Current | FiveDays

  function ForecastTypeValue(t: ForecastType): string
  {
    match t
    case Current => "_forecast_weather_current"
    case FiveDays => "_forecast_weather_five_days"
  }

  /** `WeatherForecastType(value)`: the member with that value; `None` where Python raises `ValueError`. */
  function ParseForecastType(value: string): (r: Option<ForecastType>)
    ensures r.Some? ==> ForecastTypeValue(r.value) == value
    ensures r.None? ==> forall t: ForecastType :: ForecastTypeValue(t) != value
  {
    if value == ForecastTypeValue(Current) then Some(Current)
    else if value == ForecastTypeValue(FiveDays) then Some(FiveDays)
    else None
  }

  /** Every forecast type is recovered from its value. */
  lemma ForecastTypeRoundTrip(t: ForecastType)
    ensures ParseForecastType(ForecastTypeValue(t)) == Some(t)
  {
    assert ForecastTypeValue(Current) != ForecastTypeValue(FiveDays);
  }

  /** A JSON number as Python holds it: its numeric value and `str()` of it. */
  datatype Number = Number(value: real, text: string)

  /**
   * The value of one `WeatherData` attribute. The dataclass annotations are not enforced,
   * so an attribute holds `None`, a `str`, an `int` or a JSON number.
   */
  datatype Field = NoneField | Text(s: string) | Whole(n: int) | Num(x: Number)

  /** Python truthiness of an attribute: `None`, `""`, `0` and `0.0` are false. */
  predicate Truthy(f: Field)
  {
    match f
    case NoneField => false
    case Text(s) => s != ""
    case Whole(n) => n != 0
    case Num(x) => x.value != 0.0
  }

  /** `str(value)`. */
  function Show(f: Field): string
  {
    match f
    case NoneField => "None"
    case Text(s) => s
    case Whole(n) => Strings.IntToString(n)
    case Num(x) => x.text
  }

  /** Python's `int()` truncates toward zero. */
  function Truncate(x: real): (n: int)
    ensures x >= 0.0 ==> n as real <= x < n as real + 1.0
    ensures x < 0.0 ==> n as real - 1.0 < x <= n as real
  {
    if x >= 0.0 then x.Floor else -((-x).Floor)
  }

  /** `int(value)` on an attribute; `None` where Python raises `TypeError`. */
  function IntOf(f: Field): (r: Option<int>)
    ensures r.Some? <==> f.Whole? || f.Num?
    ensures f.Whole? ==> r == Some(f.n)
    ensures f.Num? ==> r == Some(Truncate(f.x.value))
  {
    match f
    case Whole(n) => Some(n)
    case Num(x) => Some(Truncate(x.value))
    case _ => None
  }

  /** The `WeatherData` dataclass, attribute for attribute. */
  datatype WeatherData = WeatherData(
    cityName: Field,
    latLon: Field,
    timestamp: Field,
    date: Field,
    weatherEmoji: Field,
    weatherSummary: Field,
    temperature: Field,
    maxTemperature: Field,
    minTemperature: Field,
    windSpeed: Field,
    windDirection: Field,
    pressure: Field,
    precipitation: Field,
    humidity: Field,
    sunrise: Field,
    sunset: Field)

  /** The attribute names in declaration order, which is the order of `__dict__`. */
  const AttributeNames: seq<string> := [
    "city_name", "lat_lon", "timestamp", "date", "weather_emoji", "weather_summary",
    "temperature", "max_temperature", "min_temperature", "wind_speed", "wind_direction",
    "pressure", "precipitation", "humidity", "sunrise", "sunset"]

  /** The attribute values in declaration order. */
  function AttributeValues(w: WeatherData): (vs: seq<Field>)
    ensures |vs| == |AttributeNames|
  {
    [w.cityName, w.latLon, w.timestamp, w.date, w.weatherEmoji, w.weatherSummary,
     w.temperature, w.maxTemperature, w.minTemperature, w.windSpeed, w.windDirection,
     w.pressure, w.precipitation, w.humidity, w.sunrise, w.sunset]
  }

  /** `w.__dict__.items()`. */
  function Attributes(w: WeatherData): (items: seq<(string, Field)>)
    ensures |items| == |AttributeNames|
    ensures forall k :: 0 <= k < |items| ==> items[k] == (AttributeNames[k], AttributeValues(w)[k])
  {
    seq(|AttributeNames|, k requires 0 <= k < |AttributeNames| => (AttributeNames[k], AttributeValues(w)[k]))
  }

  /** A provider answers with one record (current weather) or a list of records (a forecast). */
  datatype ProviderResult = Single(record: WeatherData) | Many(records: seq<WeatherData>)

  /** Python truthiness of a provider's answer: a dataclass instance is always true, a list when non-empty. */
  predicate ResultTruthy(r: ProviderResult)
  {
    match r
    case Single(_) => true
    case Many(records) => |records| > 0
  }
}
