# T3l3 weather bot: the weather pipeline, modelled in Dafny

This project models the part of the Telegram weather bot that turns a chosen location into a
weather message:

- **The weather cache.** This is a table of `(LAT_LON, WEATHER_PROVIDER, PERIOD, TIMESTAMP, WEATHER_DATA)` rows.
  - A lookup reads the first row with the key.
  - A row stays fresh for one hour.
  - A refresh inserts a row when no row has the key, and rewrites a stale row. A row that is still fresh is left alone.
  - Every storage failure surfaces as one of the cache's exceptions.
- **The resolver** (`compile_weather_output` and its helpers).
  - It parses the forecast type and checks the cache.
  - On a miss, it picks the provider strategy and fetches.
  - It renders the answer as HTML text. It caches a forecast list, and the code never caches a single current record.
  - It wraps every failure in `RuntimeError`.
- **The text formatting.** One line is built per truthy attribute, from the template table. Placeholders are replaced attribute by attribute. A forecast list becomes one block per day.
- **The OpenWeatherMap strategy.** This covers the request outcome (transport error, status, body), parsing into one current record or six daily records, and the rounding and pressure conversion it applies.
- **The lookup tables.** These are the condition-code-to-emoji table of both providers and the bearing-to-arrow table.
- **The geocoding helpers.** These split the `lat-lon` key, and keep localities, drop repeated geometries and parse points from a geocoder answer.
- **The user-options table** of the bot: list ids, read one user, insert, update, write (update or insert), delete.

## How the model is built

- **Tables are classes.** The cache table (`WeatherCache.WeatherCacheDb`) and the user-options table (`UserOptions.UserOptionsDb`) are classes with a `rows: seq<...>` field.
  - Each database function is a method that reads or reassigns `rows`.
  - Each method is proved equal to a specification function on sequences (`CheckCache`, `UpdateCache`, `Write`, ...).
  - The properties are lemmas about those functions.
- **The resolver's steps are methods** (`WeatherOperations.ReturnWeatherData`, `GetAndUpdateWeather`, `CompileWeatherOutput`). They call the table's methods. Each is proved to produce exactly the result and the new table given by `Lookup`, `Resolution` and `Output`.
- **The loops of the source are methods with invariants**, proved against a function:
  - the placeholder loop;
  - the loop over a forecast list;
  - the six-day parse loop;
  - the duplicate filter;
  - the point parser.
- **The outside world is a set of inputs.** Storage failures are boolean parameters, one per storage call. The clock is an `Environment` field. The HTTP outcome, the JSON body and the date formatting are inputs.
- **The provider call is a parameter.** The resolver receives the OpenWeatherMap strategy as the function-valued field `env.owm`. The predicate `WeatherOperations.OwmFetch` ties it to `Openweathermap.FetchWeatherData` where a property needs the real strategy.
- **The code is followed where other accounts of it differ:**
  - An unknown provider name is only noticed after the cache check. A fresh cached row is served even under such a name.
  - `update_weather_cache` is called only for a list. The conditional expression around the call parses as `update_weather_cache(...) if isinstance(weather_data, list) else int(...)`, so a single current record is never cached.
  - A refresh does not overwrite a row that is still fresh relative to the provider's timestamp.
  - `update_user_data` interpolates `None` as the text `'None'`.
  - The resolver calls every strategy with `period=`. The Meteomatics method names that parameter `period_option`, so the call raises and a Meteomatics request ends in `RuntimeError`.
  - `get_all_user_ids` lists ids in ascending order, because `USER_ID INTEGER PRIMARY KEY` is the table's rowid.
  - The documentation of `math_round` lists 9.19 -> 10. The code gives 9, and `Utils.MathRoundExamples` proves the code's values.

## Model

| member | source | states |
|---|---|---|
| Strings.Split | geocoding/geocoding_utils.py:43 | `str.split` with a one-character separator gives at least one piece, and at least two exactly when the separator occurs. No piece contains the separator. |
| Strings.Join | weather_providers/weather_openweathermap.py:47 | `str.join` of no parts is empty. Otherwise the text starts with the first part. |
| Strings.JoinSplit | geocoding/geocoding_utils.py:43 | Joining the pieces of a split with the same separator gives back the text. |
| Strings.SplitJoin | weather_providers/weather_openweathermap.py:47 | Splitting a join of separator-free pieces gives back the pieces. |
| Strings.Replace | weather_operations.py:128-130 | `str.replace` with a replacement as long as the pattern keeps the length. Text shorter than the pattern is unchanged. |
| Strings.ReplaceAbsent | weather_operations.py:128-130 | Replacing a pattern that does not occur changes nothing. |
| Strings.ReplaceSingleOccurrence | weather_operations.py:122 | A single occurrence is replaced and the rest copied. |
| Strings.ReplaceFreePrefix | weather_operations.py:128-130 | A prefix without the pattern's first character comes through `str.replace` unchanged. |
| Strings.ReplaceLeadPrefix | weather_operations.py:128-130 | A prefix where the pattern does not start, and whose later characters never begin it, comes through unchanged. |
| Strings.ReplaceAcrossNewline | weather_operations.py:124-130 | A pattern without a line break is replaced in two lines joined by `\n` exactly as in each line on its own. |
| ProviderStrategy.ParseForecastType | weather_providers/weather_provider_strategy.py:13-15 | `WeatherForecastType(value)` gives the member whose value it is. It gives `None` (a `ValueError`) exactly when no member has that value. |
| ProviderStrategy.ForecastTypeRoundTrip | weather_providers/weather_provider_strategy.py:13-15 | Each forecast type is recovered from its value. |
| ProviderStrategy.Truncate | utils.py:14 | `int()` of a number truncates toward zero, for both signs. |
| ProviderStrategy.IntOf | weather_operations.py:72-73 | `int(timestamp)` succeeds exactly on a whole number or a JSON number. A whole number gives itself, and a JSON number gives its value truncated toward zero. |
| ProviderStrategy.Attributes | weather_providers/weather_provider_strategy.py:18-35 | `__dict__.items()` has one `(name, value)` pair per dataclass attribute, in declaration order. |
| Utils.RoundHalfEven | utils.py:9 | Python's `round` lands within one half of its argument. |
| Utils.MathRound | utils.py:4-9 | `math_round(x)` lies in `(x - 0.5, x + 0.5 + 1e-9]`. |
| Utils.MathRoundHalfUp | utils.py:4-9 | Halves round up: `n + 0.5` rounds to `n + 1`. |
| Utils.MathRoundWhole | utils.py:4-9 | A whole number rounds to itself. |
| Utils.MathRoundExamples | utils.py:5-8 | These are the documented examples as the code computes them. 9.19 gives 9, not the documented 10. |
| Utils.HpaToMmHg | utils.py:12-14 | The result is the whole-hPa reading times 0.75006, rounded with `math_round`. |
| Utils.StandardPressure | utils.py:12-14 | 1013 hPa reads 760 mmHg. 1013.9 hPa also reads 760, because the fraction is dropped first. |
| WindDirection.FirstArrow | wind_direction_emoji.py:22-27 | The arrow is the first bucket with a range holding the bearing. The result is `None` exactly when no bucket holds it. |
| WindDirection.CheckPresence | wind_direction_emoji.py:13-16 | `w in range(lo, hi)` holds only for a bearing with `lo <= w < hi`. |
| WindDirection.GetWindDirectionEmoji | wind_direction_emoji.py:19-28 | The result is always one of the eight arrows or the unknown symbol. |
| WindDirection.BucketRanges | wind_direction_emoji.py:1-10 | Bucket `i` carries arrow `i`. North owns `[338,360)` and `[0,23)`. Every other bucket owns `[45i-22, 45i+23)`. |
| WindDirection.CompassSector | wind_direction_emoji.py:1-10 | A sector of the 45-degree compass reference is one bucket's range. |
| WindDirection.BucketMembership | wind_direction_emoji.py:13-16 | A bucket holds a whole bearing in 0..359 exactly when the bearing lies in that bucket's compass sector. |
| WindDirection.FirstHit | wind_direction_emoji.py:22-27 | The first bucket that holds the bearing decides the arrow. |
| WindDirection.MatchesCompass | wind_direction_emoji.py:19-28 | Every whole bearing 0..359 gives the arrow of its compass sector. |
| WindDirection.BucketsPartition | wind_direction_emoji.py:1-10 | Each whole bearing 0..359 lies in exactly one bucket. |
| WindDirection.NorthBucket | wind_direction_emoji.py:2 | Bearings 338..359 and 0..22 give north. |
| WindDirection.OtherBuckets | wind_direction_emoji.py:3-9 | Each other bucket's bearings give its own arrow. |
| WindDirection.UnknownBearings | wind_direction_emoji.py:19-28 | These bearings give the unknown symbol: a missing one, one outside 0..359, and one with a fraction. |
| WeatherEmoji.TableFor | weather_emoji.py:42-47 | Only the exact values "Openweathermap" and "Meteomatics" select a code table. |
| WeatherEmoji.FirstCondition | weather_emoji.py:48-53 | The first condition whose codes hold the code is found. The result is `None` exactly when no condition holds it. |
| WeatherEmoji.GetWeatherEmoji | weather_emoji.py:41-53 | A name with no table gives `None`. Any result is the triple of some condition. |
| WeatherEmoji.CodesDisjoint | weather_emoji.py:19-38 | Within one provider's table, no code belongs to two conditions. |
| WeatherEmoji.EmojiOfHoldingCondition | weather_emoji.py:41-53 | The result is the triple of the condition whose codes hold the code, whatever the member order. It is `None` exactly when no condition holds the code. |
| WeatherEmoji.KnownCodes | weather_emoji.py:7-38 | OpenWeatherMap 615 is snow and 800 is clear sky. Meteomatics 101 is clear sky. |
| WeatherEmoji.NoTableNoEmoji | weather_emoji.py:42-47 | "Sinoptik" gives `None` for every code. So does the lower-case "openweathermap". |
| Geocoding.GetLatLonFromAttribute | geocoding/geocoding_utils.py:38-47 | The key splits at `-`. A key without `-` raises `IndexError`. Neither piece contains `-`. |
| Geocoding.LatLonRoundTrip | geocoding/geocoding_utils.py:38-47 | Splitting `lat + "-" + lng` gives back `(lat, lng)`. |
| Geocoding.LatLonRebuilt | geocoding/geocoding_utils.py:38-47 | A key with exactly one `-` is rebuilt exactly by rejoining its two pieces. |
| Geocoding.NegativeLatitude | geocoding/geocoding_utils.py:43-45 | For a key that starts with `-` (a negative latitude), the latitude comes out as the empty string. |
| Geocoding.KeepLocalities | geocoding/geocoding_utils.py:59-60 | The result keeps exactly the features whose quality is "Locality", in order. Each one occurs as often as in the input, and no other feature occurs. |
| Geocoding.FilterGeoLocations | geocoding/geocoding_utils.py:50-60 | An empty geojson gives `UnableToLocateCoordinates`, and a geojson without `features` gives `TypeError`. With features, it fails exactly when some feature lacks a quality, and then with `KeyError`. Otherwise the result is the localities. |
| Geocoding.LocationsGeometry | geocoding/geocoding_utils.py:83-87 | The result is the geometry of every feature, in order. An empty list gives `[]`. A missing geometry gives `KeyError`. |
| Geocoding.FilterDuplicates | geocoding/geocoding_utils.py:90-100 | The filter fails only with `KeyError`. What it keeps is drawn from the input and is no longer than it. |
| Geocoding.FilterLocationDuplicates | geocoding/geocoding_utils.py:90-100 | The loop computes the duplicate filter `FilterDuplicates`. |
| Geocoding.ErrorPersists | geocoding/geocoding_utils.py:96-99 | Once a missing geometry has raised on a prefix, the whole filter raises the same error. |
| Geocoding.FirstOccurrencesProperties | geocoding/geocoding_utils.py:90-100 | The kept features are a subsequence of the input. Their geometries are pairwise distinct. Together they cover every geometry of the input. |
| Geocoding.FirstOccurrenceIff | geocoding/geocoding_utils.py:96-99 | Feature `n` is kept exactly when its geometry does not occur before it. |
| Geocoding.FilterDuplicatesMeaning | geocoding/geocoding_utils.py:90-100 | The filter succeeds exactly when every feature but the last has a geometry. On success it keeps the first feature of each geometry. Otherwise it raises `KeyError`. |
| Geocoding.ParsePoint | geocoding/geocoding_utils.py:73-75 | A point is `lat-lng` plus the address. There is none when a key is missing. |
| Geocoding.ParseRawGeoOutput | geocoding/geocoding_utils.py:68-80 | One point per feature, in order. Any unparsable feature gives `GeocodingDataParseError`. |
| Geocoding.ParseRawGeoOutputLoop | geocoding/geocoding_utils.py:68-80 | The loop computes `ParseRawGeoOutput`. |
| Geocoding.GetAvailableLocationOptions | geocoding/geocoding_utils.py:18-35 | The sequence of checks after the geocoder call: the call raising, `ok` being false, filtering, an empty result, deduplication, parsing. |
| Geocoding.LocationOptionsMeaning | geocoding/geocoding_utils.py:25-35 | A success is non-empty and parses the first feature of each distinct geometry among the localities. No localities gives `UnableToLocateCoordinates`. |
| Openweathermap.GetWeatherResponse | weather_providers/weather_openweathermap.py:30-47 | A key without `-` raises. The body comes back exactly on status 200 with a JSON body, paired with the rejoined key. |
| Openweathermap.ParseCurrentWeather | weather_providers/weather_openweathermap.py:67-100 | An unknown condition code gives `None`. A record carries the city name, the key and today's date. |
| Openweathermap.ParseWeatherForecast | weather_providers/weather_openweathermap.py:102-136 | An unknown condition code or a missing `daily` gives `None`. A result has exactly six records. |
| Openweathermap.FetchWeatherData | weather_providers/weather_openweathermap.py:49-65 | A key without `-` raises `IndexError`. A current request answers one record, and a forecast answers exactly six. |
| Openweathermap.ForecastRecords | weather_providers/weather_openweathermap.py:108-136 | The result is six records, one per complete day, in order. It is `None` when fewer than six days are present or any of the six is incomplete. |
| Openweathermap.BuildForecast | weather_providers/weather_openweathermap.py:109-136 | The `range(6)` loop computes `ForecastRecords`. |
| Openweathermap.ParseWeatherForecastLoop | weather_providers/weather_openweathermap.py:102-136 | The forecast parser is computed by its loop. |
| Openweathermap.CurrentWeatherMeaning | weather_providers/weather_openweathermap.py:67-100 | A parsed current record carries the key and the timestamp `current.dt`. It carries the emoji and summary of the condition holding the code, the rounded temperature and an arrow or the unknown symbol. Its max and min are dropped exactly when the reading is missing or zero. |
| Openweathermap.ForecastMeaning | weather_providers/weather_openweathermap.py:102-136 | A parsed forecast has six records. Record `k` carries the key and the stamp `daily[k].dt`. Every record carries the emoji and summary of the condition holding the CURRENT code. |
| Openweathermap.UnknownCodeFails | weather_providers/weather_openweathermap.py:67-136 | A condition code in no condition makes both parsers give `None`. |
| Openweathermap.ShortForecastFails | weather_providers/weather_openweathermap.py:102-136 | Fewer than six daily entries make the forecast `None`. |
| Openweathermap.FetchWeatherDataMeaning | weather_providers/weather_openweathermap.py:49-65 | An error comes only from a key without `-` or a non-JSON 200 body. A failed request gives `None`. A current request gives one record carrying the key. A forecast gives six, each carrying the key and its day's timestamp, all with the same emoji and summary. |
| Openweathermap.FetchedKeyUnchanged | weather_providers/weather_openweathermap.py:30-47 | For a key with one `-`, the rejoined key is the key itself. |
| WeatherCache.NewRow | weather_cache/weather_cache_utils.py:64-65 | An inserted row holds the key, the timestamp and the data. |
| WeatherCache.CheckTimeFrame | weather_cache/weather_cache_utils.py:119-121 | A row is fresh exactly while the current time is at most 3600 s past its timestamp. |
| WeatherCache.TimeFrameBoundaries | weather_cache/weather_cache_utils.py:119-121 | A row is fresh exactly up to 3600 s after its timestamp. A timestamp in the future is fresh. |
| WeatherCache.FirstMatch | weather_cache/weather_cache_utils.py:46-56 | The result is the first row with the key. It is `None` exactly when no row has the key. |
| WeatherCache.FirstAtUnique | weather_cache/weather_cache_utils.py:50-52 | `fetchone` returns the row that is first with the key. |
| WeatherCache.CheckCache | weather_cache/weather_cache_utils.py:85-100 | It fails exactly when the read fails, with `FailedToCheckWeatherCache`. No row is returned exactly when no row has the key. A fresh answer always comes with a row under the key. |
| WeatherCache.UpdateCache | weather_cache/weather_cache_utils.py:103-116 | Every failure is `FailedToUpdateWeatherCache` and changes nothing. A failed read always fails. The table grows only by the new row for a key that no row had. |
| WeatherCache.WeatherCacheDb.constructor | weather_cache/weather_cache_utils.py:23-32 | A table created because it was absent is empty. |
| WeatherCache.WeatherCacheDb.GetWeatherItemFromDb | weather_cache/weather_cache_utils.py:46-56 | Gives the first row with the key, or `FailedToGetWeatherDataFromDB`. The table is unchanged. |
| WeatherCache.WeatherCacheDb.InsertWeatherItemIntoDb | weather_cache/weather_cache_utils.py:59-69 | Appends one row, or raises `FailedToInsertWeatherDataIntoDB` and leaves the table as it was. |
| WeatherCache.WeatherCacheDb.UpdateWeatherItemInDb | weather_cache/weather_cache_utils.py:72-82 | Rewrites every row with the key, or raises `FailedToUpdateWeatherDataInDB` and leaves the table as it was. |
| WeatherCache.WeatherCacheDb.CheckWeatherCache | weather_cache/weather_cache_utils.py:85-100 | The method computes `CheckCache`. |
| WeatherCache.WeatherCacheDb.UpdateWeatherCache | weather_cache/weather_cache_utils.py:103-116 | The method's outcome and new table are `UpdateCache` of the old table. |
| WeatherCache.ErrorHierarchy | weather_cache/weather_cache_exceptions.py:4-21 | The three storage errors are caught as `FailedToCheckWeatherCache`. `FailedToUpdateWeatherCache` is not. |
| WeatherCache.CheckCacheMeaning | weather_cache/weather_cache_utils.py:85-100 | A read failure gives `FailedToCheckWeatherCache`. With no row, the answer is `(False, None)`. Otherwise it is whether the first row is at most an hour old, together with that row. |
| WeatherCache.UpdateCacheInserts | weather_cache/weather_cache_utils.py:111-113 | With no row for the key, exactly one row is appended. |
| WeatherCache.UpdateCacheRefreshes | weather_cache/weather_cache_utils.py:107-110 | A stale first row gives every row with the key the new timestamp and data. All other rows and the length are unchanged. |
| WeatherCache.UpdateCacheKeepsFresh | weather_cache/weather_cache_utils.py:107-108 | A first row still fresh relative to the new timestamp leaves the table unchanged, and nothing is written. |
| WeatherCache.UpdateCacheFailure | weather_cache/weather_cache_utils.py:114-116 | Every failure is `FailedToUpdateWeatherCache` and leaves the table as it was. |
| WeatherCache.UpdateRowsKeys | weather_cache/weather_cache_utils.py:76-77 | The UPDATE keeps the length and every row's key. |
| WeatherCache.UpdateCacheKeepsUnique | weather_cache/weather_cache_utils.py:103-116 | The cache's own writes keep at most one row per key. |
| WeatherCache.UpdateCacheOtherKeys | weather_cache/weather_cache_utils.py:103-116 | A write under one key does not change the lookup of any other key. |
| WeatherCache.WriteThenRead | weather_cache/weather_cache_utils.py:103-121 | After a successful write of a missing or stale key, a check within the hour is a fresh hit on the new row. |
| WeatherFormatting.TemplateLines | weather_operations.py:14-25 | The template lines in dictionary order. |
| WeatherFormatting.LookupAttribute | weather_operations.py:116 | `__getattribute__(name)` gives the value paired with the name. It is `None` exactly when no attribute has the name. |
| WeatherFormatting.AttributeLookup | weather_operations.py:116 | Looking up the `k`-th attribute name gives the `k`-th attribute value. |
| WeatherFormatting.TemplateKeysAreAttributes | weather_operations.py:14-25 | Every template key names a `WeatherData` attribute. |
| WeatherFormatting.TemplateLinesDistinct | weather_operations.py:14-25 | No two template lines are equal. |
| WeatherFormatting.SelectLinesOrder | weather_operations.py:115-116 | The selected lines are a subsequence of the template lines. |
| WeatherFormatting.SelectLinesMembers | weather_operations.py:115-116 | A line is selected exactly when its template's attribute is truthy. |
| WeatherFormatting.TemplateSelectedIff | weather_operations.py:115-116 | Template `k` is selected exactly when its attribute's value is truthy. |
| WeatherFormatting.BodyLinesMeaning | weather_operations.py:114-117 | The body lines are the template lines of the truthy attributes, in template order. |
| WeatherFormatting.FalsyFieldsDropped | weather_operations.py:114-117 | A zero maximum temperature and a missing precipitation drop their lines. |
| WeatherFormatting.FillPlaceholders | weather_operations.py:125-130 | The placeholder loop computes `SubstituteAll` over `__dict__.items()`. |
| WeatherFormatting.SubstituteGuardIrrelevant | weather_operations.py:125-130 | The `key in body` guard does not change the result of a replacement step. |
| WeatherFormatting.PlaceholderLead | weather_operations.py:128-130 | Replacing `<name>` leaves a different attribute's placeholder `<key>` in place. |
| WeatherFormatting.StepKeepsLine | weather_operations.py:125-130 | A step for another attribute leaves a template line, with its placeholder or already filled, as it is. |
| WeatherFormatting.StepFillsLine | weather_operations.py:125-130 | The step for a line's own attribute puts the value's text in place of the placeholder, or the current time for `<date>` when it is given. |
| WeatherFormatting.LineFilledUpTo | weather_operations.py:125-130 | Through the attribute steps in order, a one-placeholder line is unchanged until its own attribute's step and filled from then on. |
| WeatherFormatting.TemplateLineFilled | weather_operations.py:125-130 | After the whole loop, a one-placeholder template line reads its caption, the attribute's text and the rest of the line. |
| WeatherFormatting.SubstituteAllEmpty | weather_operations.py:125-130 | The loop leaves an empty body empty. |
| WeatherFormatting.SubstituteStepAcross | weather_operations.py:125-130 | A step rewrites two lines joined by `\n` each on its own. |
| WeatherFormatting.SubstituteAllAcross | weather_operations.py:125-130 | The whole loop rewrites two lines joined by `\n` each on its own. |
| WeatherFormatting.SubstituteAllJoin | weather_operations.py:124-130 | Filling the joined body is joining the lines filled one by one. |
| WeatherFormatting.FilledBodyLines | weather_operations.py:123-130 | A record's filled body is its selected lines, each filled on its own, joined by `\n`. |
| WeatherFormatting.SelectLinesFirst | weather_operations.py:115-116 | When the first template is selected, its line comes first. |
| WeatherFormatting.DateLineFirst | weather_operations.py:14-16 | With a truthy `date`, the date template is the first body line. |
| WeatherFormatting.DateTemplateShape | weather_operations.py:15 | The date template is the bold caption, `<date>`, a line break and the separator. |
| WeatherFormatting.PressureTemplateShape | weather_operations.py:20 | The pressure template is the bold caption, `<pressure>` and the unit. |
| WeatherFormatting.DateLineFilled | weather_operations.py:125-129 | The filled date line shows the current time when one is given, and the record's `date` otherwise. |
| WeatherFormatting.FilledBodyDated | weather_operations.py:123-130 | A body with a truthy `date` starts with `<b>Погода на:</b> \t`, the current time when given or else the record's `date`, a line break and the separator. |
| WeatherFormatting.SingleOutputDated | weather_operations.py:121-132 | The reply for one record is the city header, a blank line and that date line: the current time for the current weather, the record's `date` for a forecast. |
| WeatherFormatting.SelectedLineFilled | weather_operations.py:114-130 | A selected line with one placeholder after its bold caption comes out with the attribute's text in place of the placeholder. |
| WeatherFormatting.PressureLineFilled | weather_operations.py:20 | A truthy pressure is shown as its text followed by `мм рт.ст.` in its line. |
| WeatherFormatting.BuildStringBodyFromList | weather_operations.py:141-150 | The loop computes `ListBody`: one block per record, each ending in the separator and a blank line. |
| WeatherFormatting.ListBodySnoc | weather_operations.py:143-149 | One more record adds exactly its block. |
| WeatherFormatting.ListBodyAppend | weather_operations.py:141-150 | The body of a concatenation is the concatenation of the bodies. |
| WeatherFormatting.ListBodySingle | weather_operations.py:143-149 | The block of one record is its filled body, the separator and a blank line. |
| WeatherFormatting.CompileWeatherString | weather_operations.py:120-138 | The method computes `CompiledOutput` for a record or a list. |
| WeatherFormatting.HeaderShape | weather_operations.py:122 | The header is `<b>** city **</b>` and a newline. |
| WeatherFormatting.SingleOutputShape | weather_operations.py:121-132 | The output is the header, a blank line, the filled body and the separator. The body is filled with the current time for the current weather and without it otherwise. |
| WeatherFormatting.ListOutputShape | weather_operations.py:134-138 | An empty list gives no text. Otherwise the text is the first record's city header, then the blocks in order. |
| WeatherFormatting.SingleAndList | weather_operations.py:120-150 | A one-record list renders as the record's forecast text plus a blank line. |
| WeatherOperations.StrategyFor | weather_operations.py:11-12 | Only "Openweathermap" and "Meteomatics" have a strategy. |
| WeatherOperations.Fetch | weather_operations.py:103-105 | The Meteomatics call raises. The OpenWeatherMap call raises exactly when the strategy does, and otherwise passes its answer on. |
| WeatherOperations.Lookup | weather_operations.py:79-111 | A cached answer is the fresh first row with the key. A fetched answer comes after a miss, from OpenWeatherMap, and is truthy. |
| WeatherOperations.Resolution | weather_operations.py:43-76 | A failure leaves the table unchanged. Only a fetched forecast list changes it. A cached row is answered with its stored text. |
| WeatherOperations.Output | weather_operations.py:28-40 | `ValueError` comes exactly from an unknown forecast type. Any failure leaves the table unchanged. |
| WeatherOperations.ReturnWeatherData | weather_operations.py:79-111 | The method computes `Lookup` on the table. |
| WeatherOperations.GetAndUpdateWeather | weather_operations.py:43-76 | The method's answer and new table are `Resolution` of the old table. |
| WeatherOperations.CompileWeatherOutput | weather_operations.py:28-40 | The method's answer and new table are `Output` of the old table. |
| WeatherOperations.FreshHitServed | weather_operations.py:94-99 | A fresh first row is served as stored, and the table is unchanged. The result does not depend on the provider or on later storage. |
| WeatherOperations.CacheReadFailureFails | weather_operations.py:100-102 | A failing cache read ends in `RuntimeError`, and the table is unchanged. |
| WeatherOperations.UnknownForecastTypeFails | weather_operations.py:31 | The result is `ValueError` exactly when no forecast type has the value. The table is unchanged. |
| WeatherOperations.UnknownProviderFails | weather_operations.py:103-105 | On a miss, a provider name with no strategy ends in `RuntimeError`. |
| WeatherOperations.MeteomaticsFails | weather_providers/weather_meteomatics.py:37-40 | On a miss, the call into Meteomatics raises: its parameter is `period_option`, and the caller passes `period=`. The request ends in `RuntimeError`. |
| WeatherOperations.ProviderFailureFails | weather_operations.py:104-111 | On a miss, a provider that raises ends in `RuntimeError`. |
| WeatherOperations.HttpFailureFails | weather_providers/weather_openweathermap.py:44-46 | On a miss, a transport error or a status other than 200 ends in `RuntimeError`. |
| WeatherOperations.FailureLeavesCache | weather_operations.py:28-40 | Every failure leaves the cache table as it was. |
| WeatherOperations.CurrentNeverCached | weather_operations.py:67-73 | A current-weather request never changes the cache table. |
| WeatherOperations.SingleTimestampNotIntFails | weather_operations.py:72-73 | On a miss, a fetched record whose timestamp `int()` rejects ends in `RuntimeError`, with the table unchanged. |
| WeatherOperations.ForecastTimestampNotIntFails | weather_operations.py:67-72 | On a miss, a fetched forecast whose first timestamp `int()` rejects ends in `RuntimeError`, with the table unchanged. |
| WeatherOperations.CurrentServedFresh | weather_operations.py:60-76 | On a miss, a fetched current record is rendered and returned. The table is unchanged. |
| WeatherOperations.FetchedRecord | weather_operations.py:64-76 | A fetched single record renders as `SingleOutput`. |
| WeatherOperations.ForecastCached | weather_operations.py:64-76 | On a miss, a fetched forecast is rendered. The cache is updated under the record's key with the first day's timestamp. |
| WeatherOperations.FetchedForecast | weather_operations.py:64-76 | A fetched list renders as `ListOutput` and updates the cache with it. |
| WeatherOperations.OutputOfPeriod | weather_operations.py:31-40 | Any failure of the resolution becomes `RuntimeError`. Any success passes through. |
| WeatherOperations.LookupFetched | weather_operations.py:103-108 | On a miss, a truthy OpenWeatherMap answer is the fetched data. |
| WeatherOperations.OutputKeepsUnique | weather_operations.py:28-76 | A request keeps at most one cache row per key. |
| WeatherOperations.ForecastServedFromCache | weather_operations.py:43-111 | After a successful forecast fetch and cache write, a repeat request within the hour returns the same text from the cache, with no change. |
| WeatherOperations.ForecastServedAgain | weather_operations.py:43-111 | A forecast fetched and written under its first record's key is served from the cache by a repeat request within the hour, with no change. |
| WeatherOperations.ServedAfterWrite | weather_operations.py:94-99 | A forecast text written under a missing or stale key is served from the cache until an hour after its timestamp, and the table is unchanged. |
| WeatherOperations.ForecastCarriesKey | weather_providers/weather_openweathermap.py:47 | Fetched forecast records carry the request's own key. |
| UserOptions.Interpolated | bot_init.py:89 | `None` is interpolated as the text `None`. A string is interpolated as itself. |
| UserOptions.Ids | bot_init.py:51-52 | The result is the id of every row, in order. |
| UserOptions.InsertionPoint | bot_init.py:26 | A new id goes after every smaller id and before the first larger one. |
| UserOptions.RowsWithId | bot_init.py:63-65 | The result is the rows with the id. It is empty exactly when no row has the id. |
| UserOptions.RowsWithIdCounts | bot_init.py:63-65 | The lookup returns every row with the id, as often as the table holds it, and no other row. |
| UserOptions.FoundTwiceIff | bot_init.py:66-67 | The lookup finds more than one row exactly when two different rows have the id. |
| UserOptions.UserDataOf | bot_init.py:59-71 | A failed read gives `RuntimeError`. After a successful read, `RuntimeError` comes exactly when two rows have the id, and an id that no row has gives `IndexError`. A success happens exactly when one row has the id, and it is that row. |
| UserOptions.Write | bot_init.py:101-107 | A failure changes nothing, and a failed read always fails. The table grows only by one row, when a new id is inserted. |
| UserOptions.UserOptionsDb.constructor | bot_init.py:24-27 | A table created because it was absent is empty, and so in id order. |
| UserOptions.UserOptionsDb.GetAllUserIds | bot_init.py:41-56 | Failure gives `RuntimeError`. Otherwise the result is every row's id in ascending order, and it is empty for an empty table. |
| UserOptions.UserOptionsDb.GetUserData | bot_init.py:59-71 | The method computes `UserDataOf`: the one row with the id, `IndexError` for none, and `RuntimeError` for a failure or several rows. |
| UserOptions.UserOptionsDb.InsertUserData | bot_init.py:74-83 | Places the row at its id's position, keeping the ids ascending. A failure or an existing id (the primary key) gives `RuntimeError` and no change. |
| UserOptions.UserOptionsDb.UpdateUserData | bot_init.py:86-94 | Sets both columns of the id's rows to their interpolated text, or gives `RuntimeError` with no change. |
| UserOptions.UserOptionsDb.WriteUserData | bot_init.py:101-107 | Updates when the id is listed, and inserts otherwise. |
| UserOptions.UserOptionsDb.DeleteUserData | bot_init.py:97-98 | Always raises `NotImplementedError`. |
| UserOptions.IdsStored | bot_init.py:104 | The id is in the listed ids exactly when a row has it. |
| UserOptions.AtMostOneRow | bot_init.py:26 | Under the primary key, at most one row has an id, and a stored id has exactly one. |
| UserOptions.UserDataUnderKey | bot_init.py:59-71 | Under the primary key, a read succeeds exactly for a stored id and returns its row. Otherwise it gives `IndexError`. |
| UserOptions.InsertDuplicateFails | bot_init.py:74-83 | Inserting a stored id fails and changes nothing. |
| UserOptions.UpdateTouchesOnlyId | bot_init.py:86-94 | Only the id's rows change. Every row keeps its id, and an absent id changes nothing. |
| UserOptions.WriteKeepsUnique | bot_init.py:101-107 | A write keeps ids unique. |
| UserOptions.InsertKeepsOrdered | bot_init.py:26 | Inserting a new id at its position keeps the ids ascending. |
| UserOptions.WriteKeepsOrdered | bot_init.py:101-107 | Every write keeps the ids ascending, which is the order `SELECT USER_ID` lists them in. |
| UserOptions.WriteThenGet | bot_init.py:101-107 | After a write, reading the id returns the written options: as text after an update, and as given after an insert. |
| UserOptions.WriteKeepsOthers | bot_init.py:101-107 | A write leaves the read of every other id unchanged. |
| UserOptions.RowsWithIdConcat | bot_init.py:63-65 | The rows an id selects from two tables laid end to end are those of the first, then those of the second. |
| UserOptions.RowsWithIdInsert | bot_init.py:74-83 | Inserting a row with another id does not change what an id selects. |

## Left out

- **The services themselves are not modelled.** These are SQLite, the HTTP client, the geocoder (`geocoder.arcgis`), Telegram and logging. What they give is an input:
  - each storage call's success;
  - the HTTP outcome and decoded body;
  - the geocoder's answer, or the fact that the call raised.
- **SQL text and parameter binding are not modelled.** The `PERIOD` column holds the forecast type itself. The source interpolates the enum's text form in SELECT and UPDATE. The same holds for quotes in the data breaking the interpolated UPDATE statements, and for the user id interpolated into `get_user_data`.
- **The INSERT of a new cache row binds the enum object.** `WeatherForecastType` is a plain `Enum` (weather_providers/weather_provider_strategy.py:13). The `sqlite3` module binds only `None`, integers, floats, text and bytes. So the INSERT at weather_cache/weather_cache_utils.py:64-66 raises as written, the error reaches `update_weather_cache` as `FailedToUpdateWeatherCache`, and the text is still returned. In the model, the write's success flag is an input; for the insert path the source as written always has it false.
- **WeatherCache.WriteThenRead** assumes the write succeeds. When the key has no row, that write is the INSERT above, which the source as written never completes; so for a missing key the lemma describes the intended path, not one the program takes. The UPDATE of a stale row is not affected, but a cache row exists only if it was stored by other means.
- **FillPlaceholders** is stated as the fold `SubstituteAll`. What the fold yields is proved separately, for lines of the form bold caption, text, one placeholder, text, and for attribute texts without `<`: `FilledBodyLines`, `TemplateLineFilled`, `SelectedLineFilled`, `FilledBodyDated`, `PressureLineFilled`. Not covered: the two lines with two placeholders (`weather_emoji` with `weather_summary`, `wind_speed` with `wind_direction`), and attribute texts that hold `<`, which a later step may rewrite.
- **Row order** is the sequence order of `rows`, and stands for SQLite's rowid order.
  - The cache table has no integer primary key. Its rowid grows with each insert, so an insert appends and a lookup takes the first match.
  - The user-options table declares `USER_ID INTEGER PRIMARY KEY`, which makes the id the rowid. Its rows are kept in ascending id order, and an insert places the row at its id's position.
- **Clock and timestamps.** The current time and its text form are fields of the environment. `datetime.fromtimestamp(...).strftime(...)` and `datetime.now()` are functions passed in (`Openweathermap.Clock`).
- **JSON of another shape is not modelled separately.** The body of an HTTP outcome is either a One Call object or `None` for text that is not JSON (`json.loads` raises). Valid JSON whose top level is not an object, such as a list, makes the source's parsers return `None`. The model has no value for it; its outcome is that of an object with neither `current` nor `daily`, which gives `Ok(None)`.
- **Floating point** is not modelled. JSON numbers are exact reals together with their `str()` text, so binary rounding error in `math_round` and in the mmHg conversion is not modelled.
- **ProviderStrategy.IntOf** covers only `int()` of a text value: it is taken to fail. Python's `int()` would accept a numeric string, but the provider only ever stores a whole number there.
- **The Meteomatics strategy** is modelled only as the call the resolver makes into it. That call passes `period=`, while the method declares `period_option`, so it raises `TypeError` before the method body runs. Its request code is therefore never reached.
- **The unreachable branch of `fetch_weather_data`** (a period that is neither member of the enum) is not modelled, because the type admits only the two members.
- **WeatherOperations.ForecastServedFromCache** holds under stated assumptions. The key has exactly one `-`, and the cache check, the cache update and the write succeed. It also assumes the stored row is missing or stale relative to the provider's first timestamp. For a missing row, the write it assumes is the INSERT that the source as written never completes.
- **WeatherOperations.CurrentNeverCached** assumes the injected strategy is the OpenWeatherMap one (`OwmFetch`). For an arbitrary injected strategy that returns a list for a current request, the code would cache it.
- **Concurrency** is not modelled: the shared database connections, `check_same_thread=False`, and the Telegram handlers running side by side.
- **The bot's handlers and keyboards** are not part of this model. They only call the modelled functions.
