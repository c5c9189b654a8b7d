/**
 * Provider condition code to an (emoji, Ukrainian label, English label) triple, by the first
 * condition, in declaration order, whose code tuple holds the code.
 */
module WeatherEmoji {
  import opened Outcomes
  import opened ProviderStrategy

  /** The condition names shared by `WEATHER_EMOJI` and both code-range enums. */
  datatype Condition =
    | ClearSky | Clouds | CloudWithRain | Snowflake | SunBehindCloud | Thunderstorm | Drizzle | FogDust

  datatype EmojiTriple = EmojiTriple(emoji: string, ua: string, en: string)

  /** `WEATHER_EMOJI`. Every enum member's name is a key, so the lookup always finds a triple. */
  function WeatherEmojiOf(c: Condition): EmojiTriple
  {
    match c
    case ClearSky => EmojiTriple("\U{2600}", "Ясно", "Clear")
    case Clouds => EmojiTriple("\U{2601}", "Хмарно", "Cloudy")
    case CloudWithRain => EmojiTriple("\U{1F328}", "Дощі", "Rainy")
    case Snowflake => EmojiTriple("\U{2744}", "Сніг", "Snowy")
    case SunBehindCloud => EmojiTriple("\U{1F324}", "Хмарно з проясненнями", "Sun and Clouds")
    case Thunderstorm => EmojiTriple("\U{26C8}", "Гроза", "Thunderstorm")
    case Drizzle => EmojiTriple("\U{26C6}", "Морось", "Drizzle")
    case FogDust => EmojiTriple("\U{1F32B}", "Туман / Попіл", "Gog / Dust")
  }

  /** Enum members in declaration order (the same order in both enums). */
  const DeclarationOrder: seq<Condition> :=
    [ClearSky, Clouds, CloudWithRain, Snowflake, SunBehindCloud, Thunderstorm, Drizzle, FogDust]

  /** `OpenweathermapWeatherConditionsCodeRanges`. */
  function OpenweathermapCodes(c: Condition): seq<int>
  {
    match c
    case ClearSky => [800]
    case Clouds => [803, 804]
    case CloudWithRain => [500, 501, 502, 503, 504, 511, 520, 521, 522, 531]
    case Snowflake => [600, 601, 602, 611, 612, 613, 615, 616, 620, 621, 622]
    case SunBehindCloud => [801, 802]
    case Thunderstorm => [200, 201, 202, 210, 211, 212, 221, 230, 231, 232]
    case Drizzle => [300, 301, 302, 310, 311, 312, 313, 314, 321]
    case FogDust => [701, 711, 721, 731, 741, 751, 761, 762, 771, 781]
  }

  /** `MetromaticsWeatherConditionsCodeRanges`. */
  function MeteomaticsCodes(c: Condition): seq<int>
  {
    match c
    case ClearSky => [1, 101]
    case Clouds => [3, 4, 103, 104]
    case CloudWithRain => [5, 6, 8, 10, 105, 106, 108, 110]
    case Snowflake => [7, 9, 13, 107, 109, 113]
    case SunBehindCloud => [2, 102]
    case Thunderstorm => [14, 114]
    case Drizzle => [15, 115]
    case FogDust => [11, 12, 16, 111, 112, 116]
  }

  /** The code tuple of condition `c` for a provider that has a table. */
  function Codes(p: ProviderName, c: Condition): seq<int>
    requires p != Sinoptik
  {
    if p == Openweathermap then OpenweathermapCodes(c) else MeteomaticsCodes(c)
  }

  /** The provider whose table the name selects, compared with the enum values. */
  function TableFor(name: string): (r: Option<ProviderName>)
    ensures r.Some? <==> name == ProviderNameValue(Openweathermap) || name == ProviderNameValue(Meteomatics)
    ensures r.Some? ==> r.value != Sinoptik && ProviderNameValue(r.value) == name
  {
    if name == ProviderNameValue(Openweathermap) then Some(Openweathermap)
    else if name == ProviderNameValue(Meteomatics) then Some(Meteomatics)
    else None
  }

  /** The first condition of `order` whose codes hold `code`. */
  function FirstCondition(p: ProviderName, order: seq<Condition>, code: int): (r: Option<Condition>)
    requires p != Sinoptik
    ensures r.None? <==> forall k :: 0 <= k < |order| ==> code !in Codes(p, order[k])
    ensures r.Some? ==> r.value in order && code in Codes(p, r.value)
  {
    if |order| == 0 then None
    else if code in Codes(p, order[0]) then Some(order[0])
    else
      var r := FirstCondition(p, order[1..], code);
      assert forall k :: 1 <= k < |order| ==> order[k] == order[1..][k - 1];
      r
  }

  /** `get_weather_emojy`. */
  function GetWeatherEmoji(providerName: string, code: int): (r: Option<EmojiTriple>)
    ensures TableFor(providerName).None? ==> r.None?
    ensures r.Some? ==> exists c :: r.value == WeatherEmojiOf(c)
  {
    match TableFor(providerName)
    case None => None
    case Some(p) =>
      match FirstCondition(p, DeclarationOrder, code)
      case None => None
      case Some(c) => Some(WeatherEmojiOf(c))
  }

  /**
   * The coarse family of a code: OpenWeatherMap groups its codes by hundreds and tens,
   * Meteomatics by the code modulo 100. Used to show that the tuples are disjoint.
   */
  function Family(p: ProviderName, code: int): Option<Condition>
    requires p != Sinoptik
  {
    if p == Openweathermap then
      if 200 <= code < 300 then Some(Thunderstorm)
      else if 300 <= code < 400 then Some(Drizzle)
      else if 500 <= code < 600 then Some(CloudWithRain)
      else if 600 <= code < 700 then Some(Snowflake)
      else if 700 <= code < 800 then Some(FogDust)
      else if code == 800 then Some(ClearSky)
      else if code == 801 || code == 802 then Some(SunBehindCloud)
      else if code == 803 || code == 804 then Some(Clouds)
      else None
    else
      var r := code % 100;
      if r == 1 then Some(ClearSky)
      else if r == 2 then Some(SunBehindCloud)
      else if r == 3 || r == 4 then Some(Clouds)
      else if r == 5 || r == 6 || r == 8 || r == 10 then Some(CloudWithRain)
      else if r == 7 || r == 9 || r == 13 then Some(Snowflake)
      else if r == 14 then Some(Thunderstorm)
      else if r == 15 then Some(Drizzle)
      else if r == 11 || r == 12 || r == 16 then Some(FogDust)
      else None
  }

  lemma OpenweathermapFamily(c: Condition, code: int)
    requires code in OpenweathermapCodes(c)
    ensures Family(Openweathermap, code) == Some(c)
  {
    match c
    case ClearSky =>
    case Clouds =>
    case CloudWithRain =>
    case Snowflake =>
    case SunBehindCloud =>
    case Thunderstorm =>
    case Drizzle =>
    case FogDust =>
  }

  lemma MeteomaticsFamily(c: Condition, code: int)
    requires code in MeteomaticsCodes(c)
    ensures Family(Meteomatics, code) == Some(c)
  {
    match c
    case ClearSky =>
    case Clouds =>
    case CloudWithRain =>
    case Snowflake =>
    case SunBehindCloud =>
    case Thunderstorm =>
    case Drizzle =>
    case FogDust =>
  }

  /** Within each provider's table the code tuples of different conditions share no code. */
  lemma CodesDisjoint(p: ProviderName, c1: Condition, c2: Condition, code: int)
    requires p != Sinoptik && c1 != c2
    ensures !(code in Codes(p, c1) && code in Codes(p, c2))
  {
    if code in Codes(p, c1) && code in Codes(p, c2) {
      if p == Openweathermap {
        OpenweathermapFamily(c1, code);
        OpenweathermapFamily(c2, code);
      } else {
        MeteomaticsFamily(c1, code);
        MeteomaticsFamily(c2, code);
      }
    }
  }

  /**
   * Independent of member order: the result is the triple of the condition holding the code,
   * and `None` exactly when no condition holds it.
   */
  lemma {:induction false} EmojiOfHoldingCondition(providerName: string, code: int, c: Condition)
    requires TableFor(providerName).Some?
    ensures code in Codes(TableFor(providerName).value, c) ==>
      GetWeatherEmoji(providerName, code) == Some(WeatherEmojiOf(c))
    ensures GetWeatherEmoji(providerName, code).None? <==>
      forall c' :: code !in Codes(TableFor(providerName).value, c')
  {
    var p := TableFor(providerName).value;
    var r := FirstCondition(p, DeclarationOrder, code);
    if code in Codes(p, c) {
      assert c in DeclarationOrder by { AllInOrder(c); }
      if r.Some? && r.value != c {
        CodesDisjoint(p, r.value, c, code);
      }
    }
    if r.None? {
      forall c' ensures code !in Codes(p, c') {
        AllInOrder(c');
      }
    }
  }

  lemma AllInOrder(c: Condition)
    ensures c in DeclarationOrder
  {
  }

  /** OpenWeatherMap 615 is snow, 800 clear sky; Meteomatics 101 is clear sky. */
  lemma KnownCodes()
    ensures GetWeatherEmoji("Openweathermap", 615) == Some(EmojiTriple("\U{2744}", "Сніг", "Snowy"))
    ensures GetWeatherEmoji("Openweathermap", 800) == Some(EmojiTriple("\U{2600}", "Ясно", "Clear"))
    ensures GetWeatherEmoji("Meteomatics", 101) == Some(EmojiTriple("\U{2600}", "Ясно", "Clear"))
  {
    EmojiOfHoldingCondition("Openweathermap", 615, Snowflake);
    EmojiOfHoldingCondition("Openweathermap", 800, ClearSky);
    EmojiOfHoldingCondition("Meteomatics", 101, ClearSky);
  }

  /** A name that is not one of the two table providers (for example "Sinoptik") gives `None`. */
  lemma NoTableNoEmoji(code: int)
    ensures GetWeatherEmoji(ProviderNameValue(Sinoptik), code) == None
    ensures GetWeatherEmoji("openweathermap", code) == None
  {
  }
}
