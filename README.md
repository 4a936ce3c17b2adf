# INMET weather integration: a Dafny model

This project models the core of `ha-inmet-weather`, a Home Assistant integration that reads
Brazil's national weather service (INMET). Its four parts:

- **The API client** (`InmetApi`, class `InmetApiClient`). It resolves coordinates to an
  IBGE area geocode through the area-lookup endpoint, keeps that answer in an untimed geocode
  cache, and keeps a station cache whose entries live for two hours. Three "last successful"
  maps answer when a live request fails, for the station, current-weather and forecast
  endpoints. The scan of the area-lookup payload for the nearest centroid is a loop method
  proved against a specification function.
- **The boundary engine** (`GeoUtils`):
  - ray casting over one ring, kept as a loop;
  - the exterior-minus-holes rule for a ring group;
  - the any-group rule for a MultiPolygon;
  - the selection of the geometry from the loaded GeoJSON document;
  - the dispatch on its `type`;
  - the inclusive bounding box used when no geometry can be used.
- **The weather entity's data shaping** (`Weather`):
  - the current period of the day;
  - the condition lookup, a first match over the ordered condition table;
  - one forecast item per period entry;
  - the nested walk over the forecast payload with its final slice;
  - the `condition` property;
  - the safe reading of current values.

  Each nested loop of the source is a method, proved against a function.
- **The constants** (`Const`): the refresh interval and the ordered condition table.
  `StaticResolver` is the older resolver, which picks the nearest of three fixed cities.

The model works on an explicit JSON datatype (`JsonValue`). Objects are association lists in
document order, which is Python's dict order. `Lookup` takes the first entry for a key, and
`JsonValue.LookupDistinct` shows that on objects with distinct keys this is the entry a Python
dict holds. Python's `in`, `.get`, `[]`, `float()`,
truthiness and iteration are written out, and a Python exception is the `Raised` outcome
(`Common.Outcome`). Distances and `float()` comparisons use `Common.Float`, a finite real,
+inf or NaN, so that `<` behaves as IEEE comparison does.

Inputs that come from outside are parameters:

- Each network reply is an input: `Reply(status, body)`, or `Failed` for any exception in a
  request.
- The clock is `now`, or the current hour and today's date string.
- The geocode cache file's contents are `disk`.
- The loaded GeoJSON document is the `geometry` or `doc` parameter.
- `calculate_distance` (haversine) is a `dist` function parameter that may raise.
- `float()` on strings and `datetime.strptime(…, "%d/%m/%Y")` are partial functions,
  `parseFloat` and `parseDate`.

Requests the client sends are recorded in its `requests` field, so that "served from the
cache, nothing sent" is a statement about the state.

Where the code and its docstrings disagree, the model follows the code:

- `get_geocode_from_coordinates` says it caches for two days. The code never checks the age
  of a geocode entry, so a cached geocode is returned at any later time
  (`InmetApi.ResolveAgainIsCached`, `InmetApi.GeocodeCachedWithoutExpiry`).
- The same docstring promises a fallback to a distance calculation when the API fails. The
  code has none: it returns None.
- `CONDITION_MAP` lists "pancadas de chuva"/"pancada de chuva" → pouring and
  "parcialmente nublado" → partlycloudy. The first-match scan reaches "chuva" and "nublado"
  first, so `_map_condition` never returns "pouring" and never picks the
  "parcialmente nublado" entry (`WeatherFacts.NeverPouring`,
  `WeatherFacts.PartlyCloudyPhraseShadowed`).

## Model

Source paths are relative to the repository root.

| member | source | states |
|---|---|---|
| InmetApi.RoundHalfEven | custom_components/inmet_weather/api.py:97 | `round` lands within one half of its argument and breaks ties to the even integer |
| InmetApi.RoundHalfEvenUnique | custom_components/inmet_weather/api.py:97 | the integer strictly within one half of a value is its rounding |
| InmetApi.Round2 | custom_components/inmet_weather/api.py:95-97 | `round(x, 2)` is the nearest number of hundredths, and it prints as negative zero exactly when it rounds to zero from below |
| InmetApi.CacheKeySharedIffRoundedAlike | custom_components/inmet_weather/api.py:95-97 | two queries share a cache slot if and only if both coordinates round alike to two decimals |
| InmetApi.NearbyQueriesShareKey | custom_components/inmet_weather/api.py:95-97 | queries inside the same 0.01-degree cell (away from zero) share one slot |
| InmetApi.DistantQueriesSeparate | custom_components/inmet_weather/api.py:95-97 | latitudes more than 0.01 apart never share a slot |
| InmetApi.SignedZeroSplitsSlot | custom_components/inmet_weather/api.py:95-97 | -0.001 and 0.001 round to the same hundredths yet give different keys ("-0.0" against "0.0") |
| InmetApi.IsCacheValid | custom_components/inmet_weather/api.py:99-106 | a valid entry has a timestamp |
| InmetApi.CacheValidUntilExpiry | custom_components/inmet_weather/api.py:99-106 | an entry stamped at t is valid exactly while now < t + max age, not at that instant, and never without a timestamp |
| InmetApi.CacheValidityMonotone | custom_components/inmet_weather/api.py:99-106 | an entry valid at some time was valid at every earlier time |
| InmetApi.LastKnown | custom_components/inmet_weather/api.py:254-263 | the fallback answers exactly for keys that had a success, with that success's payload |
| InmetApi.CandidateOf | custom_components/inmet_weather/api.py:190-201 | a record is skipped unless it is a dict whose `centroide` holds `lat` and `lon`; such a record is located at the distance to its converted centroid, and fails when a conversion or the distance raises; a non-dict `centroide` is skipped or fails as Python's `in` and subscript do |
| InmetApi.NearestFromApiDataSpec | custom_components/inmet_weather/api.py:180-218 | the payload scan returns the key of the first record at the smallest finite distance; a non-dict or empty payload, a payload with no usable record and a record that raises all give None |
| InmetApi.InmetApiClient.FindNearestFromApiData | custom_components/inmet_weather/api.py:180-218 | the loop returns exactly the specification's answer |
| InmetApi.ResolveGeocodeSpec | custom_components/inmet_weather/api.py:119-178 | a cached key answers with no request and no change; otherwise the lookup is sent, a found geocode writes exactly one entry {geocode, now, lat, lon} at the query's key, and every other outcome returns None and leaves the cache as it was |
| InmetApi.ResolveAgainIsCached | custom_components/inmet_weather/api.py:119-129 | once resolved, any query with the same key returns the same geocode at any later time, whatever the network says, with no request |
| InmetApi.InmetApiClient.constructor | custom_components/inmet_weather/api.py:27-49 | all caches start empty, the file is not loaded yet, and the station invariant holds |
| InmetApi.InmetApiClient.LoadCache | custom_components/inmet_weather/api.py:62-73 | the file's contents replace the cache on first use only, and the cache is marked loaded |
| InmetApi.InmetApiClient.GetGeocodeFromCoordinates | custom_components/inmet_weather/api.py:108-178 | result, new geocode cache and sent requests are the resolution's; the other caches are unchanged |
| InmetApi.InmetApiClient.GetNearestStation | custom_components/inmet_weather/api.py:220-312 | a valid station entry answers with nothing sent; otherwise the geocode is resolved; without a geocode the last success answers; a 200 station reply is cached with `now` and also stored as the last success; any other reply falls back to the last success; the invariant that every station entry is also the last success is kept |
| InmetApi.InmetApiClient.GetCurrentWeather | custom_components/inmet_weather/api.py:314-350 | one station request; a 200 reply is returned and stored as the last success for the geocode; any failure returns that last success or None |
| InmetApi.InmetApiClient.GetForecast | custom_components/inmet_weather/api.py:352-385 | the same policy over the forecast endpoint, with its own map |
| InmetApi.StationServedFromCacheWithinTtl | custom_components/inmet_weather/api.py:228-238 | a second query within two hours returns the first answer, and only two requests were ever sent |
| InmetApi.StationRefetchedAfterTtl | custom_components/inmet_weather/api.py:228-312 | after two hours the station is fetched again (three requests in all, the geocode staying cached); a failing refetch returns the earlier station data |
| InmetApi.StationWithoutGeocode | custom_components/inmet_weather/api.py:252-263 | without a geocode the query returns None after the one lookup request |
| InmetApi.GeocodeCachedWithoutExpiry | custom_components/inmet_weather/api.py:119-178 | a found geocode is served again at any later time with only one lookup sent |
| InmetApi.FetchFallsBackToLastSuccess | custom_components/inmet_weather/api.py:314-385 | after a success, failed current-weather and forecast requests return that success; a geocode that never succeeded gets None from either endpoint |
| Nearest.Scan | custom_components/inmet_weather/api.py:185-205 | the running minimum is the distance at the chosen index, or +inf when nothing was chosen |
| Nearest.ScanFindsFirstMinimum | custom_components/inmet_weather/api.py:185-205 | the strict-`<` scan picks the first index holding the smallest finite distance, and picks none exactly when no distance is finite |
| Nearest.StrictMinimumIsFirst | test_api_direct.py:25-33 | an index whose finite distance is strictly below every other finite one is the first minimum |
| StaticResolver.GetGeocodeFromCoordinates | test_api_direct.py:16-41 | the loop returns exactly the resolver's specified answer |
| StaticResolver.StaticGeocodeSpec | test_api_direct.py:16-41 | None exactly when a distance raises; otherwise the first nearest city's geocode, or the default when no distance is finite |
| StaticResolver.StaticGeocodeIsKnown | test_api_direct.py:16-41 | the answer is always one of the three table geocodes, and with finite distances it is a first minimum's |
| StaticResolver.ExactCityResolvesToItself | test_api_direct.py:16-41 | querying exactly at a known city returns that city |
| StaticResolver.KnownCitiesResolve | test_api_direct.py:78-97 | Rio de Janeiro, São Paulo and Brasília resolve to 3304557, 3550308 and 5300108 |
| JsonValue.LookupDistinct | custom_components/inmet_weather/geo_utils.py:94-98 | on an object with distinct keys, the value `Lookup` finds for a key is exactly the one entry for that key |
| GeoUtils.DecodeVertex | custom_components/inmet_weather/geo_utils.py:29-31 | unpacking a vertex succeeds exactly for a pair whose y is a number |
| GeoUtils.DecodeRing | custom_components/inmet_weather/geo_utils.py:26-31 | a ring decodes exactly when it is a non-empty list of decodable vertices, vertex by vertex |
| GeoUtils.DecodeRingJson | custom_components/inmet_weather/geo_utils.py:26-31 | a ring written as numeric pairs decodes back to those pairs |
| GeoUtils.Crosses | custom_components/inmet_weather/geo_utils.py:32-41 | an edge is crossed only when the query's y lies in its half-open y span; a horizontal edge is never crossed |
| GeoUtils.CrossCount | custom_components/inmet_weather/geo_utils.py:30-42 | at most one crossing per edge |
| GeoUtils.CastRay | custom_components/inmet_weather/geo_utils.py:25-44 | the loop's verdict is the parity of the crossing count, or the raise of the first edge that raises |
| GeoUtils.PointInPolygon | custom_components/inmet_weather/geo_utils.py:15-44 | `_point_in_polygon` on a JSON ring is the ray-casting verdict |
| GeoUtils.CrossCountParityStep | custom_components/inmet_weather/geo_utils.py:40-41 | one more edge flips the parity exactly when that edge is crossed |
| GeoUtils.NoCrossingMeansZero | custom_components/inmet_weather/geo_utils.py:30-42 | with no crossing edge the count is zero |
| GeoUtils.OutsideWhenNoEdgeCrosses | custom_components/inmet_weather/geo_utils.py:25-44 | with no crossing edge the point is outside |
| GeoUtils.OutsideBelowOrAboveAllVertices | custom_components/inmet_weather/geo_utils.py:32-33 | a point at or below every vertex, or above every vertex, is outside |
| GeoUtils.OutsideRightOfAllVertices | custom_components/inmet_weather/geo_utils.py:34 | a point right of every vertex is outside |
| GeoUtils.RectangleInterior | custom_components/inmet_weather/geo_utils.py:15-44 | every point strictly inside an axis-aligned rectangle is inside |
| GeoUtils.UnitSquareExamples | custom_components/inmet_weather/geo_utils.py:15-44 | the unit square holds its centre, and not a point to its right or one on its bottom edge |
| GeoUtils.InAnyHoleIsExists | custom_components/inmet_weather/geo_utils.py:69-73 | with no raise, the hole scan is true exactly when some hole holds the point |
| GeoUtils.InGroupIsExteriorMinusHoles | custom_components/inmet_weather/geo_utils.py:62-76 | a non-empty group holds the point exactly when its exterior holds it and no hole does |
| GeoUtils.InAnyGroupIsExists | custom_components/inmet_weather/geo_utils.py:59-78 | with no raise, a MultiPolygon holds the point exactly when some group does |
| GeoUtils.EmptyGroupSkipped | custom_components/inmet_weather/geo_utils.py:62-63 | an empty group neither holds the point nor raises |
| GeoUtils.HoleScan | custom_components/inmet_weather/geo_utils.py:69-73 | the hole loop's result is the hole scan of the rings after the first |
| GeoUtils.PointInMultipolygon | custom_components/inmet_weather/geo_utils.py:47-78 | the group loop with its early return is the MultiPolygon rule |
| GeoUtils.BboxIsInclusive | custom_components/inmet_weather/geo_utils.py:169-184 | all four corners are in the box, and a point any positive distance past any one side is out |
| GeoUtils.BboxExamples | custom_components/inmet_weather/geo_utils.py:169-184 | the three capitals are in the box; points to the south, north, west and east of it are not |
| GeoUtils.LoadBrazilGeometry | custom_components/inmet_weather/geo_utils.py:89-107 | a selected geometry is truthy |
| GeoUtils.LoadBrazilGeometrySelects | custom_components/inmet_weather/geo_utils.py:94-101 | any FeatureCollection document whose first feature is a dict yields that feature's `geometry` when present and truthy, else None |
| GeoUtils.LoadBrazilGeometryRejects | custom_components/inmet_weather/geo_utils.py:89-117 | no document, a non-dict document, another `type`, missing or falsy `features`, `features` that is not a list, and a first feature that is not a dict each give None |
| GeoUtils.FeatureFileSelectsFirstGeometry | custom_components/inmet_weather/geo_utils.py:94-101 | a document shaped like the boundary file gives its first feature's geometry when truthy |
| GeoUtils.IsInBrazil | custom_components/inmet_weather/geo_utils.py:120-166 | the method's answer is the specified boundary verdict |
| GeoUtils.InPolygonCoordinates | custom_components/inmet_weather/geo_utils.py:150-159 | the Polygon branch answers true exactly when the ring-group rule holds without raising |
| GeoUtils.InBrazilFallbacks | custom_components/inmet_weather/geo_utils.py:133-166 | no geometry or an unsupported type falls back to the box; a geometry that is not a dict answers False |
| GeoUtils.InBrazilDispatch | custom_components/inmet_weather/geo_utils.py:143-162 | MultiPolygon uses the any-group rule, Polygon the exterior-minus-holes rule, on (lon, lat); anything else uses the box |
| GeoUtils.InBrazilPolygon | custom_components/inmet_weather/geo_utils.py:149-158 | a Polygon holds the point exactly when its exterior does and none of its holes does |
| GeoUtils.EmptyPolygonHoldsNothing | custom_components/inmet_weather/geo_utils.py:151-159 | a Polygon with empty coordinates holds no point |
| GeoUtils.InBrazilMultipolygon | custom_components/inmet_weather/geo_utils.py:146-148 | a MultiPolygon holds the point exactly when one of its groups does |
| GeoUtils.InBrazilSingleRing | custom_components/inmet_weather/geo_utils.py:149-158 | a one-ring Polygon holds exactly the points its ring holds |
| GeoUtils.InBrazilSwapsToLonLat | custom_components/inmet_weather/geo_utils.py:143 | a square written [lon, lat] around Rio holds Rio's (lat, lon) query |
| GeoUtils.SwappedSquareMissesRio | custom_components/inmet_weather/geo_utils.py:143 | the same square written [lat, lon] does not: the point is swapped before the test |
| Const.ConditionFor | custom_components/inmet_weather/const.py:10-31 | `CONDITION_MAP.get` finds a value exactly for a table key, and that value is the key's entry |
| Const.KeysAreLowercase | custom_components/inmet_weather/const.py:10-31 | every key is lower case, so lowering it changes nothing |
| Const.ValuesAreConditions | custom_components/inmet_weather/const.py:10-31 | every value is a Home Assistant weather condition |
| Const.KeysAreDistinct | custom_components/inmet_weather/const.py:10-31 | twenty distinct, non-empty keys |
| Const.EntriesFoundByKey | custom_components/inmet_weather/const.py:10-31 | every entry is found by its own key |
| Const.UpdateIntervalIsHalfHour | custom_components/inmet_weather/const.py:7 | the refresh interval is 30 minutes |
| Common.LowerChar | custom_components/inmet_weather/weather.py:208 | upper-case letters map to their lower-case forms and everything else is unchanged |
| Common.Lower | custom_components/inmet_weather/weather.py:208 | `lower()` keeps the length and lowers each character |
| Common.LowerProperties | custom_components/inmet_weather/weather.py:208 | the result is lower case, lowering twice equals lowering once, and a lower-case string is unchanged |
| Weather.CurrentPeriod | custom_components/inmet_weather/weather.py:197-204 | the current period is one of the three periods |
| Weather.CurrentPeriodRanges | custom_components/inmet_weather/weather.py:197-204 | morning before 12, afternoon from 12 to 17, night from 18 on |
| Weather.CurrentPeriodMatchesPeriodHours | custom_components/inmet_weather/weather.py:44-48 | each period's stamp hour falls in that period, and from 6 on the current period is the latest one already started |
| Weather.HourFor | custom_components/inmet_weather/weather.py:245 | a known period's hour, and 6 for no period or an unknown one |
| Weather.PeriodNameHours | custom_components/inmet_weather/weather.py:44-48 | morning 6, afternoon 12, night 18 |
| Weather.FirstMatchSpec | custom_components/inmet_weather/weather.py:206-212 | no match exactly when no key occurs in the string; otherwise the value of the first key that occurs |
| Weather.MapCondition | custom_components/inmet_weather/weather.py:206-212 | the loop returns the first match in the lowered summary |
| Weather.ShadowedEntryNeverFirst | custom_components/inmet_weather/weather.py:209-211 | an entry whose key contains an earlier key is never the first match |
| Weather.ShadowedValueNeverReturned | custom_components/inmet_weather/weather.py:209-211 | a value whose every entry is shadowed by an earlier key is never returned |
| Weather.FirstMatchIsTableValue | custom_components/inmet_weather/weather.py:209-211 | every match is a value of the table |
| Weather.MatchedConditionNonEmpty | custom_components/inmet_weather/weather.py:259-261 | a matched condition is non-empty, so it is always added to the item |
| Weather.ItemOf | custom_components/inmet_weather/weather.py:237-267 | an empty entry gives no item; the entry raises exactly when it is truthy but not a dict or has an unreadable summary; an item has the period's hour, the entry's temperatures and wind bearing, humidity exactly when present, and a condition exactly when the summary matches |
| Weather.GenerateForecastItem | custom_components/inmet_weather/weather.py:237-267 | the method builds exactly that item |
| Weather.ItemOfFields | custom_components/inmet_weather/weather.py:237-267 | the item of a readable entry, field by field |
| Weather.ItemWithSummary | custom_components/inmet_weather/weather.py:257-261 | an entry whose summary matches condition c gets condition c |
| Weather.FlattenRaisedIff | custom_components/inmet_weather/weather.py:282-319 | the walk raises exactly when some step raises |
| Weather.FlattenAppend | custom_components/inmet_weather/weather.py:282-315 | appending steps joins their items in order |
| Weather.ParseForecastData | custom_components/inmet_weather/weather.py:269-319 | the method returns the specified forecast list |
| Weather.ItemsForCity | custom_components/inmet_weather/weather.py:284-313 | the date loop of one city gives that city's items |
| Weather.ItemsForDate | custom_components/inmet_weather/weather.py:285-313 | one date: skipped if unparsable, one item for single-period data, the afternoon for the daily forecast, else the listed periods |
| Weather.ItemsForPeriod | custom_components/inmet_weather/weather.py:307-313 | one listed period: its item when present |
| Weather.ParsedForecastIsBoundedPrefix | custom_components/inmet_weather/weather.py:315-319 | a raise gives []; otherwise the result is a prefix of all items, has at most max_items items, exactly max_items when there are enough, and follows Python's slice for a negative bound |
| Weather.DateStepsSplit | custom_components/inmet_weather/weather.py:284-313 | dates are processed independently and in order |
| Weather.UnparsableDateSkipped | custom_components/inmet_weather/weather.py:286-289 | a date that does not parse contributes nothing |
| Weather.SinglePeriodDateGivesOneItem | custom_components/inmet_weather/weather.py:292-295 | data with "uf" gives one item, stamped 6:00 |
| Weather.DailyForecastUsesAfternoon | custom_components/inmet_weather/weather.py:298-304 | the daily forecast uses the afternoon entry, stamped 12:00, and nothing when it is missing or empty |
| Weather.PresentPeriods | custom_components/inmet_weather/weather.py:307-308 | the present periods are listed periods that the date has |
| Weather.PeriodStepReadable | custom_components/inmet_weather/weather.py:307-313 | a readable listed period gives its one item when present and nothing when absent |
| Weather.PeriodStepsInOrder | custom_components/inmet_weather/weather.py:307-313 | the listed periods give one item per present period, in list order |
| Weather.ListedPeriodsInOrder | custom_components/inmet_weather/weather.py:305-313 | a multi-period date gives one item per present listed period, in list order, each at its period's hour |
| Weather.TwoPeriodItems | custom_components/inmet_weather/weather.py:305-313 | a date with a morning and an afternoon entry yields their two items in that order |
| Weather.MorningAndAfternoonItems | custom_components/inmet_weather/weather.py:305-313 | the same for a literal morning-and-afternoon dict |
| Weather.SingleEntryPayload | custom_components/inmet_weather/weather.py:282-315 | a payload with one city and one date gives that date's items, sliced |
| Weather.EntityForecastWith | custom_components/inmet_weather/weather.py:321-348 | the three forecast properties' shared body |
| Weather.Forecast | custom_components/inmet_weather/weather.py:321-330 | at most 15 items over all three periods |
| Weather.ForecastTwiceDaily | custom_components/inmet_weather/weather.py:332-340 | at most 14 items over all three periods |
| Weather.ForecastDaily | custom_components/inmet_weather/weather.py:342-348 | at most 7 items, afternoon only |
| Weather.ForecastBounded | custom_components/inmet_weather/weather.py:321-348 | never more than max_items items, and None exactly when the data has no "forecast" |
| Weather.ConditionScanDecidedBySummary | custom_components/inmet_weather/weather.py:223-233 | the first city holding a non-empty summary for today's period decides the condition |
| Weather.ConditionScanSkipsCity | custom_components/inmet_weather/weather.py:224-233 | a city without today's date, or without the period, passes the question to the next city |
| Weather.Condition | custom_components/inmet_weather/weather.py:214-235 | the property's method returns the specified condition |
| Weather.SafeFloat | custom_components/inmet_weather/weather.py:137-145 | None for null, lists and dicts; a number itself; a boolean as 1.0 or 0.0; a string's parse |
| Weather.CurrentDataWithoutCurrent | custom_components/inmet_weather/weather.py:125-128 | without "current" there is no value |
| Weather.CurrentDataWithoutReadings | custom_components/inmet_weather/weather.py:130-134 | without "dados" there is no value; a non-dict "dados" raises |
| Weather.CurrentDataReading | custom_components/inmet_weather/weather.py:125-135 | the value is the safe float of the key's reading, or None when the key is missing |
| WeatherFacts.ShadowingKeys | custom_components/inmet_weather/const.py:10-31 | "chuva" occurs in both "pouring" keys, and "nublado" in "parcialmente nublado" |
| WeatherFacts.NeverPouring | custom_components/inmet_weather/weather.py:206-212 | no summary maps to "pouring" |
| WeatherFacts.PartlyCloudyPhraseShadowed | custom_components/inmet_weather/weather.py:206-212 | the "parcialmente nublado" entry is never the one chosen |
| WeatherFacts.ManyCloudsIsCloudy | tests/test_weather.py:144-159 | "Muitas nuvens", in any letter case, is cloudy |
| WeatherFacts.ClearIsSunny | tests/test_weather.py:162-192 | "Limpo", in any letter case, is sunny |
| WeatherFacts.ShowersAreRainy | custom_components/inmet_weather/weather.py:206-212 | "pancadas de chuva" maps to rainy |
| WeatherFacts.PartlyOvercastIsCloudy | custom_components/inmet_weather/weather.py:206-212 | "parcialmente nublado" maps to cloudy |
| WeatherFacts.FewCloudsIsPartlyCloudy | custom_components/inmet_weather/weather.py:206-212 | "poucas nuvens" maps to partlycloudy |
| WeatherFacts.EmptySummaryHasNoCondition | custom_components/inmet_weather/weather.py:206-212 | an empty summary maps to nothing |
| WeatherFacts.SummaryRecordItem | custom_components/inmet_weather/weather.py:237-267 | a summary record gives the item with its temperatures, humidity and matched condition, and no wind bearing |
| WeatherFacts.SampleMorningItem | tests/test_weather.py:241-246 | the test's morning entry gives the 6:00 item 32/20, 90 %, cloudy |
| WeatherFacts.SampleAfternoonItem | tests/test_weather.py:247-252 | the test's afternoon entry gives the 12:00 item 30/22, 85 %, partly cloudy |
| WeatherFacts.SampleForecastParsing | tests/test_weather.py:233-279 | the test's payload parses to exactly those two items, morning first |
| WeatherFacts.MorningConditionIsCloudy | tests/test_weather.py:144-159 | at 10:00 the morning summary "Muitas nuvens" gives cloudy |
| WeatherFacts.AfternoonWithoutEntryHasNoCondition | custom_components/inmet_weather/weather.py:223-235 | at 14:00 a payload with only a morning entry has no condition |
| WeatherFacts.InvalidReadingIsNone | tests/test_weather.py:282-301 | a reading "invalid" gives no temperature |

## Left out

- Haversine distance (`calculate_distance`): floating-point trigonometry. It is the parameter
  `dist`, which may return any `Float` or raise.
- Floating point in general: coordinates are exact reals. The model has no rounding in the
  ray-cast intersection abscissa, the division in it, or `round`. NaN and infinity appear only
  as distances.
- Disk I/O for the geocode cache. `_load_cache_sync` becomes the `disk` input, and
  `_save_cache`/`_save_cache_sync` write nothing in the model. `asyncio.to_thread`, the async
  calls, timeouts and URLs are not modelled, and nor is the POST body's date.
- InmetApi.ResolveGeocode: a cache entry read from disk that lacks "geocode" would raise in the
  source. The model's entries always carry a geocode.
- InmetApi.InmetApiClient.GetNearestStation: one `now` serves the whole call. The source reads
  the clock separately for the TTL check and for each timestamp.
- JsonValue.Lookup: returns the first value of a repeated key, while `json.loads` keeps the last.
  The two agree when keys are distinct (`JsonValue.LookupDistinct`), and objects with repeated
  keys are not modelled differently.
- Logging.
- `lru_cache` on `_load_brazil_geometry` and the reading of the GADM file. The parsed document
  is an input.
- `get_geojson_file_path` and `is_geojson_available`: path formatting and a file-existence
  check, both file-system facts.
- GeoUtils.CastRay: the ring is decoded before the loop and any malformed vertex raises. The
  source raises on such a vertex when it reaches it. Every vertex is reached, so the verdict is
  the same, but the order of the failures is not modelled.
- GeoUtils.HoleScan, GeoUtils.InPolygonCoordinates, Weather.ItemsForCity, Weather.ItemsForDate,
  Weather.ItemsForPeriod: each nested loop is a method of its own. The source has the loops
  inline in the enclosing function.
- Common.Lower: lowers ASCII and Latin-1 letters only (A–Z and À–Þ except ×). The full
  Unicode case mapping is not modelled.
- Forecast keys are modelled without their final string form: the item's date and hour stand
  for `forecast_time.isoformat()`. Home Assistant attribute names are field names.
- `datetime.now()`, `strftime`, `strptime` and `float()` on strings: parameters (the hour,
  today's date string, `parseDate`, `parseFloat`).
- `InmetWeatherCoordinator._async_update_data` (missing data raises `UpdateFailed`),
  `async_setup_entry`, `config_flow.py` and `__init__.py`: Home Assistant glue outside the core.
- `test_api_standalone.py`: a script that repeats the other files' checks.
- Const.EntriesFoundByKey: states once, for the whole table, the concrete `CONDITION_MAP.get`
  checks of the constant tests, instead of one lemma per test line.
