# Weather client core, modelled in Dafny

This project models the logic of a React weather client that reads the
OpenWeather service. It covers:

- **The transform pipeline** (`src/lib/weatherApi.js`):
  - the rule that combines the three responses (current conditions, five-day forecast, air pollution);
  - the day-by-day forecast summary, modelled as a loop method proved against a specification function;
  - the 24-sample hourly projection;
  - the air-quality record, with its level table and dominant pollutant;
  - the current-weather snapshot;
  - the icon URL.
- **The weather provider** (`src/contexts/WeatherContext.jsx`), modelled as the class `WeatherSession`. It holds:
  - the shallow-merged weather state;
  - the case-insensitive search history of at most five cities;
  - the fetch, position and error paths, each proved against a function of the old state.
- **The settings provider** (`src/contexts/SettingsContext.jsx`), modelled as the class `Settings`:
  - the unit and theme toggles, persisted in local storage;
  - temperature conversion and the unit symbol.
- **The authentication provider** (`src/contexts/AuthContext.jsx`), modelled as the class `Auth`:
  - register and login over the stored account array;
  - the session record without the password;
  - email uniqueness.
- **Two display rules**:
  - the background class of the current-weather card;
  - the colour and face bands of the air-quality card, with its render guard.

Modules:
- `Common`: options, JavaScript rounding, lower-casing, substring search, argmax, first appearance, means.
- `WeatherApi`
- `DailyForecast`
- `WeatherContext`
- `SettingsContext`
- `AuthContext`
- `CurrentWeatherView`
- `AirQualityView`

Modelling choices:
- A missing field (`undefined`) is `None`. A JSON `null` is also `None`; the two places where that differs from JavaScript are listed under "Left out".
- A `TypeError` thrown while reading a missing field is the `Throws` outcome.
- Floating-point numbers are `real`.
- `Math.round` is `floor(x + 1/2)`.
- A `NaN` mean is `None`.
- Locale formatting of timestamps is a `Locale` value of uninterpreted functions. The same functions are used wherever the source repeats the same format.
- Randomness, the clock, the geolocation service and the network become parameters:
  - the generated alerts;
  - account id and creation time;
  - whether geolocation exists and what it reported;
  - how each request settled.

### Where the code decides

Four rules of the code, each stated in a lemma or a contract:

- **Dominant condition.** The reduce keeps its accumulator only when that count is strictly greater. A tie therefore goes to the label that first appeared later: Rain, Rain, Clear, Clear gives Clear (`TieGoesToLaterLabel`).
- **Dominant pollutant.** A tie goes to the later component in the same way (the ensures of `DominantPollutant`: every later component is strictly smaller).
- **Search history.** A non-empty city already in the history, under any casing, is neither moved to the front nor re-cased (`KnownCityKeepsHistory`). The empty name is the exception. The history test uses the entry `find` returns, and an empty entry is falsy, so an empty name is always moved to the front: `["Paris", ""]` becomes `["", "Paris"]` (`EmptyNameMovesToFront`).
- **Absent air-quality index.** A first sample whose `main` block has no `aqi` is not an error. Its level is "Unknown", and every threshold comparison with `undefined` is false, so the card shows it in the last band's colour with a frown (`AbsentIndexShowsWorst`).

Two more consequences of the code as written are stated in contracts:

- **Network failures.** A request that fails at the network level, including the optional air-quality request, makes the whole fetch fail (the ensures of `CombineResponses`).
- **AQI scale.** The provider's index runs from 1 to 5. Every index with a known level therefore falls in the first band of the card's 0–500 scale, so the card is always green with a smile (`ProviderIndexAlwaysGood`).

## Model

| member | source | states |
|---|---|---|
| Common.Round | src/lib/weatherApi.js:165-167 | `Math.round`: the integer within half of x, with halves rounded up |
| Common.OrElse | src/lib/weatherApi.js:50-52 | `s || fallback` on a string: the fallback exactly when the value is absent, empty or the fallback itself; otherwise the value |
| Common.Lower | src/contexts/WeatherContext.jsx:62 | `toLowerCase` keeps the length and lower-cases each letter |
| Common.LowerIdempotent | src/contexts/WeatherContext.jsx:62 | lower-casing twice is lower-casing once |
| Common.Contains | src/components/CurrentWeather.jsx:56-61 | `includes`: true when the keyword is a prefix, and only when the keyword is no longer than the text |
| Common.ContainsAt | src/components/CurrentWeather.jsx:56-61 | `includes` holds exactly when the keyword occurs at some position |
| Common.LastMaxIndex | src/lib/weatherApi.js:148-150 | the left-to-right strict-greater reduce returns a maximum, and every later entry is strictly smaller |
| Common.Distinct | src/lib/weatherApi.js:147 | the keys of an object filled in order: the same elements, each once |
| Common.DistinctInFirstAppearanceOrder | src/lib/weatherApi.js:147 | those keys come in order of first insertion |
| WeatherApi.CombineResponses | src/lib/weatherApi.js:12-35 | a rejected request fails the fetch with the browser's message (the first rejected in request order); a non-ok current response fails first, with its message or status text; then a non-ok forecast response; a non-ok air-quality response only makes its data absent; otherwise the three bodies are passed on |
| WeatherApi.FetchError.Message | src/lib/weatherApi.js:20-24 | the failure messages carry the current or forecast prefix before the reason; a network failure shows the browser's message |
| WeatherApi.AirQualityIsOptional | src/lib/weatherApi.js:26-33 | whether the air-quality response was ok never changes whether the fetch fails |
| WeatherApi.ConditionLabel | src/lib/weatherApi.js:51 | a present non-empty `main` of the first entry is returned as it is; with no entry, no `main` or an empty one, 'N/A' |
| WeatherApi.ConditionText | src/lib/weatherApi.js:52 | a present non-empty description of the first entry is returned as it is; otherwise 'N/A' |
| WeatherApi.FirstIcon | src/lib/weatherApi.js:53 | the first entry's icon, absent or not; nothing when there is no entry |
| WeatherApi.KmPerHour | src/lib/weatherApi.js:57 | m/s to km/h: dividing the result by 3.6 gives the input back, and a non-negative speed never shrinks |
| WeatherApi.ToHourlyPoint | src/lib/weatherApi.js:177-185 | the sample's hour label, condition, description, icon and temperature; precipitation is 0 without a probability, otherwise the rounded percentage, in 0..100 for a probability in [0, 1]; wind is the rounded km/h speed |
| WeatherApi.ProjectHours | src/lib/weatherApi.js:177-185 | the map succeeds exactly when every record has `main`, `weather` and `wind`, with one point per record in order |
| WeatherApi.TransformHourlyForecast | src/lib/weatherApi.js:172-186 | no points for an absent payload or list; otherwise exactly min(n, 24) points, in list order, or a throw when one of those samples is malformed |
| WeatherApi.AQILevel | src/lib/weatherApi.js:78-87 | indexes 1..5 map to Good, Fair, Moderate, Poor, Very Poor with their texts; any other index maps to Unknown with "Air quality data is unavailable." |
| WeatherApi.LevelIndex | src/lib/weatherApi.js:78-87 | the inverse table, from a level label back to the index |
| WeatherApi.AQILevelRoundTrip | src/lib/weatherApi.js:78-87 | reading the level back gives the index for 1..5, and nothing otherwise |
| WeatherApi.LevelOf | src/lib/weatherApi.js:75-106 | the level of the sample's index; an absent index falls to the default case, Unknown |
| WeatherApi.PollutantName | src/lib/weatherApi.js:90-103 | each of the six keys gets its display name (pm2_5 as PM2.5, pm10 as PM10, no2 as NO₂, o3 as O₃, so2 as SO₂, co as CO); any other key is shown as itself |
| WeatherApi.DominantPollutant | src/lib/weatherApi.js:89-104 | throws on an empty component set; otherwise the name of a component of greatest concentration, every later component being strictly smaller |
| WeatherApi.TransformAirQuality | src/lib/weatherApi.js:70-115 | null exactly when the list has no first sample; a throw exactly when that sample has no `main` block or no components, or its component object is empty; otherwise the raw index (possibly absent), its level and text, the components, and the dominant pollutant |
| WeatherApi.ClockOrNA | src/lib/weatherApi.js:60-61 | 'N/A' for an absent or zero sunrise or sunset, otherwise the formatted time |
| WeatherApi.TransformCurrentWeather | src/lib/weatherApi.js:43-68 | null exactly when the shape guard fails; throws exactly when a guarded payload lacks coordinates; otherwise the override or provider city name, a present non-empty country kept and 'N/A' for a missing or empty one, condition and description with their 'N/A' defaults, icon, the main readings, wind in km/h, visibility in km, sunrise and sunset formatted or 'N/A', the update time and the coordinates |
| WeatherApi.IconUrl | src/lib/weatherApi.js:188-192 | no URL exactly for an absent or empty code; otherwise the icon base, the code, the size suffix (@4x, @2x or none) and .png; the size defaults to 2x |
| WeatherApi.IconUrlDefaultSize | src/lib/weatherApi.js:188-192 | a non-empty code given without a size gets the @2x icon URL |
| WeatherApi.IconUrlInjective | src/lib/weatherApi.js:188-192 | at one size, different codes give different URLs |
| DailyForecast.Accumulate | src/lib/weatherApi.js:123-145 | a day's accumulator keeps one percentage, humidity and wind entry per sample |
| DailyForecast.Keys | src/lib/weatherApi.js:124 | the day key of every sample, in list order |
| DailyForecast.AddRecord | src/lib/weatherApi.js:137-144 | one step of the loop on a day's accumulator: the running min and max move only to the new sample's values, the label's count goes up by one, and each list grows by one entry |
| DailyForecast.DominantCondition | src/lib/weatherApi.js:148-150 | the reduce's result is the seed or a key of the dictionary, with a count no key exceeds |
| DailyForecast.Summarize | src/lib/weatherApi.js:147-168 | a day's summary: date and weekday of its first sample, the given icon, the running min and max, the dominant condition, humidity and wind within half of their means, precipitation present exactly when every sample has a probability |
| DailyForecast.ForecastSpec | src/lib/weatherApi.js:117-170 | nothing for an absent payload or list; a throw exactly when a sample lacks `main`, `weather` or `wind`; never more than five days |
| DailyForecast.Bucket | src/lib/weatherApi.js:123-136 | a day has samples exactly when its key occurs, all its samples carry that key, and they are well-formed when the list is |
| DailyForecast.TransformForecast | src/lib/weatherApi.js:117-170 | the loop over the list computes exactly `ForecastSpec`: nothing for an absent payload or list, a throw for a malformed sample, otherwise one summary for each of the first five day keys |
| DailyForecast.AccumulateFirstDt | src/lib/weatherApi.js:125-127 | a day is dated by its first sample |
| DailyForecast.AccumulateTemps | src/lib/weatherApi.js:129-139 | the seeded running min and max are the least `temp_min` and greatest `temp_max` of the day's samples |
| DailyForecast.AccumulateSeries | src/lib/weatherApi.js:142-144 | the day's lists are its samples' percentages, humidities and wind speeds in km/h |
| DailyForecast.AccumulateConditions | src/lib/weatherApi.js:140-141 | the condition dictionary counts each label, and its keys are the distinct labels in order of first appearance |
| DailyForecast.DominantPosition | src/lib/weatherApi.js:148-150 | the reduce seeded with 'N/A' picks a key of greatest count, and every key after it counts strictly less |
| DailyForecast.DominantConditionFacts | src/lib/weatherApi.js:140-150 | the dominant condition is a label of the day with maximal count; ties go to the label that first appeared later |
| DailyForecast.TieGoesToLaterLabel | src/lib/weatherApi.js:148-150 | Rain, Rain, Clear, Clear gives Clear |
| DailyForecast.BucketIsFilter | src/lib/weatherApi.js:123-136 | every sample of the list whose day key is `k` is in that day's bucket, and the bucket holds nothing from outside the list |
| DailyForecast.BucketSize | src/lib/weatherApi.js:123-136 | a day's bucket has exactly as many samples as the list has samples with that day key |
| DailyForecast.BucketStartsAtFirstSample | src/lib/weatherApi.js:159-162 | a day's first sample is the first sample of the list with that key |
| DailyForecast.DaySummaryFirstSample | src/lib/weatherApi.js:155-162 | a summary's date, weekday and icon are those of the first sample of its day in the list |
| DailyForecast.DayTemperatures | src/lib/weatherApi.js:129-139 | a summary's min and max temperatures are attained by samples of the day and bound all of them |
| DailyForecast.DayCondition | src/lib/weatherApi.js:140-158 | a summary's condition is the day's dominant label, as above |
| DailyForecast.DayMeans | src/lib/weatherApi.js:151-167 | humidity and wind are the rounded means over the day's samples |
| DailyForecast.DayPrecipitation | src/lib/weatherApi.js:142-165 | precipitation is NaN exactly when a sample lacks its probability, otherwise the rounded mean percentage |
| DailyForecast.DayPrecipitationIsPercentage | src/lib/weatherApi.js:142-165 | with probabilities in [0, 1], precipitation is present and within 0..100 |
| DailyForecast.DayKeysOrder | src/lib/weatherApi.js:123-147 | every sample's day is among the keys, each key appears once, and they are ordered by first appearance |
| DailyForecast.ForecastDays | src/lib/weatherApi.js:117-170 | a well-formed list yields min(days, 5) summaries, the i-th summarising the i-th day key |
| WeatherContext.Merge | src/contexts/WeatherContext.jsx:44-46 | a progress update sets the loading flag and the error; a full update replaces the state |
| WeatherContext.ProgressKeepsData | src/contexts/WeatherContext.jsx:44-46 | a progress update keeps every data field, and applying it twice is applying it once |
| WeatherContext.Failed | src/contexts/WeatherContext.jsx:74-76 | an error shows its message, stops loading and keeps every data field |
| WeatherContext.RemoveMatches | src/contexts/WeatherContext.jsx:63 | the filter keeps exactly the entries that differ from the city ignoring case, and removes nothing when none match |
| WeatherContext.RemoveMatchesAppend | src/contexts/WeatherContext.jsx:63 | filtering works entry by entry, so the kept entries stay in their order |
| WeatherContext.RemoveMatchesCaseDistinct | src/contexts/WeatherContext.jsx:63 | filtering keeps a history free of case-insensitive duplicates |
| WeatherContext.NewHistory | src/contexts/WeatherContext.jsx:62-65 | the position fix leaves the history alone; any other city is in the new history; a changed history starts with the city and holds at most five entries, all but the first taken from the old one |
| WeatherContext.NewCityGoesFirst | src/contexts/WeatherContext.jsx:62-65 | a new city goes in front of the four most recent entries, so the history holds at most five |
| WeatherContext.KnownCityKeepsHistory | src/contexts/WeatherContext.jsx:62 | the position fix and a non-empty city matching ignoring case leave the history untouched |
| WeatherContext.EmptyNameMovesToFront | src/contexts/WeatherContext.jsx:62-64 | the empty entry `find` returns is falsy, so an empty name already present is still moved to the front |
| WeatherContext.SearchedCityIsRemembered | src/contexts/WeatherContext.jsx:62-65 | after a fetch for a named city, the history holds it under some casing |
| WeatherContext.NewHistoryWellFormed | src/contexts/WeatherContext.jsx:62-65 | the history stays at most five entries with no duplicates ignoring case |
| WeatherContext.NewHistoryIdempotent | src/contexts/WeatherContext.jsx:62-65 | fetching the same city twice records it once |
| WeatherContext.EmptyNameIdempotent | src/contexts/WeatherContext.jsx:62-65 | recording the empty name twice is recording it once |
| WeatherContext.CityName | src/contexts/WeatherContext.jsx:49 | the override when it is non-empty; the provider's city name when the override is missing or empty |
| WeatherContext.AfterFetch | src/contexts/WeatherContext.jsx:85-102 | a fetch always ends with loading off; a missing or placeholder key only shows its message; a fetch that ends in an error keeps the history; one without error installs the alerts |
| WeatherContext.Processed | src/contexts/WeatherContext.jsx:48-60 | succeeds exactly when all four transforms do; then every data field is replaced by its transform's result, the alerts are installed, loading is off, the error cleared, and the current-location marker is set by the position override and otherwise kept |
| WeatherContext.FetchWritesProcessed | src/contexts/WeatherContext.jsx:85-102 | a successful fetch writes exactly the state `processWeatherData` computes from the combined responses, starting from the loading state, and records the displayed city name in the history |
| WeatherContext.FetchSettles | src/contexts/WeatherContext.jsx:85-102 | every fetch ends with loading off; there is no error exactly when data was written; a missing or placeholder key gives the configuration message; any other failure gives the fixed fetch message and keeps data and history |
| WeatherContext.FetchLocationMarker | src/contexts/WeatherContext.jsx:59 | the current-location marker is set only by a successful coordinate fetch, and is otherwise kept |
| WeatherContext.FetchKeepsHistoryWellFormed | src/contexts/WeatherContext.jsx:96-101 | a fetch keeps the history short and free of duplicates |
| WeatherContext.LocationErrorMessage | src/contexts/WeatherContext.jsx:126-141 | the location prefix followed by the permission text for code 1, the unavailable text for code 2, the timeout text for code 3, and the unknown-error text exactly for every other code |
| WeatherContext.LocationMessagesDistinct | src/contexts/WeatherContext.jsx:127-140 | the three known codes get three different messages |
| WeatherContext.AfterLocate | src/contexts/WeatherContext.jsx:113-149 | locating always ends with loading off; an unsupported browser only shows its message; a position error shows the message for its code and keeps the history |
| WeatherContext.LocateSettles | src/contexts/WeatherContext.jsx:113-149 | locating ends with loading off; an unsupported browser or a position error shows its message and keeps data and history; success shows the current location and never touches history |
| WeatherContext.WeatherSession.constructor | src/contexts/WeatherContext.jsx:40-41 | the initial state and the stored history, empty when nothing is stored |
| WeatherContext.WeatherSession.UpdateWeatherState | src/contexts/WeatherContext.jsx:44-46 | the new state is the merge of the old state with the update |
| WeatherContext.WeatherSession.SetSearchHistory | src/hooks/useLocalStorage.js:17-30 | the history and its stored copy both become the new list |
| WeatherContext.WeatherSession.HandleError | src/contexts/WeatherContext.jsx:74-83 | the state becomes `Failed` of the old state |
| WeatherContext.WeatherSession.ProcessWeatherData | src/contexts/WeatherContext.jsx:48-72 | when a transform throws, nothing changes; otherwise the state is `Processed` and the history is `NewHistory` of the city name |
| WeatherContext.WeatherSession.FetchWeatherData | src/contexts/WeatherContext.jsx:85-102 | state and history become `AfterFetch` of the old ones |
| WeatherContext.WeatherSession.FetchWeatherByCity | src/contexts/WeatherContext.jsx:104-107 | an empty city changes nothing; otherwise a fetch without override |
| WeatherContext.WeatherSession.FetchWeatherByCoords | src/contexts/WeatherContext.jsx:109-111 | a fetch with the "Current Location" override |
| WeatherContext.WeatherSession.GetCurrentLocation | src/contexts/WeatherContext.jsx:113-149 | state and history become `AfterLocate` of the old ones |
| WeatherContext.WeatherSession.ClearSearchHistory | src/contexts/WeatherContext.jsx:151-158 | the history and its stored copy become empty; the weather state is untouched |
| SettingsContext.ToggledUnit | src/contexts/SettingsContext.jsx:28 | the result is metric or imperial, and imperial exactly when the unit was metric |
| SettingsContext.ToggledTheme | src/contexts/SettingsContext.jsx:34 | the result is light or dark, and dark exactly when the theme was light |
| SettingsContext.ToggleTwice | src/contexts/SettingsContext.jsx:27-38 | two toggles restore a known unit or theme, and any value is settled after one toggle |
| SettingsContext.ConvertTemperature | src/contexts/SettingsContext.jsx:40-45 | under imperial the result converts back to the Celsius input; under any other unit it is the input |
| SettingsContext.TemperatureUnitSymbol | src/contexts/SettingsContext.jsx:47-49 | °C exactly for metric, otherwise °F |
| SettingsContext.ConvertMonotone | src/contexts/SettingsContext.jsx:40-45 | conversion keeps temperatures strictly ordered |
| SettingsContext.SymbolMatchesValue | src/contexts/SettingsContext.jsx:40-49 | for metric and imperial, the symbol names the scale of the shown value |
| SettingsContext.UnknownUnitMislabels | src/contexts/SettingsContext.jsx:40-49 | an unrecognised stored unit shows an unconverted Celsius value under °F |
| SettingsContext.Settings.constructor | src/contexts/SettingsContext.jsx:9-10 | metric and light to begin with |
| SettingsContext.Settings.LoadStored | src/contexts/SettingsContext.jsx:12-25 | a stored unit or theme is adopted; with no stored theme, a dark system preference selects dark; the dark class follows the theme |
| SettingsContext.Settings.ToggleUnit | src/contexts/SettingsContext.jsx:27-31 | the unit toggles and the stored unit equals the new unit |
| SettingsContext.Settings.ToggleTheme | src/contexts/SettingsContext.jsx:33-38 | the theme toggles, is stored, and the dark class follows it |
| AuthContext.WithoutPassword | src/contexts/AuthContext.jsx:40 | the session record keeps the id, name, email and creation time, and has no password |
| AuthContext.FindUser | src/contexts/AuthContext.jsx:33 | finds an account exactly when one matches both email and password, and returns the first such |
| AuthContext.Registered | src/contexts/AuthContext.jsx:73-88 | fails exactly when some account has the same email; otherwise appends exactly the new account at the end |
| AuthContext.RegisterKeepsEmailsUnique | src/contexts/AuthContext.jsx:75-88 | registering preserves email uniqueness |
| AuthContext.LoginAfterRegister | src/contexts/AuthContext.jsx:32-88 | after registering, logging in with the same email and password finds exactly the new account |
| AuthContext.LoginFindsTheAccount | src/contexts/AuthContext.jsx:32-37 | with unique emails, login for an account's email succeeds exactly with its password and finds that account |
| AuthContext.Auth.constructor | src/contexts/AuthContext.jsx:11-12 | nobody signed in, loading; the stored accounts have distinct emails, which every later operation keeps |
| AuthContext.Auth.LoadSession | src/contexts/AuthContext.jsx:16-23 | a stored session signs its user in again; loading ends |
| AuthContext.Auth.Login | src/contexts/AuthContext.jsx:25-64 | succeeds exactly when `FindUser` finds an account; then the session, in state and storage, is that account without its password, and the route is home; otherwise the user is unchanged and the invalid-credentials toast is shown; loading ends on both paths |
| AuthContext.Auth.Register | src/contexts/AuthContext.jsx:66-115 | succeeds exactly when `Registered` does; then the store is the extended array and the session is the new account without its password; otherwise nothing but the email-in-use toast changes; loading ends on both paths |
| AuthContext.Auth.Logout | src/contexts/AuthContext.jsx:117-126 | the user and the stored session are cleared and the route is the login page |
| CurrentWeatherView.BackgroundClass | src/components/CurrentWeather.jsx:54-63 | clear exactly when the lower-cased condition contains clear; cloudy exactly when it contains cloud but not clear; rainy, stormy, snowy and foggy likewise each after the keywords before it; no condition gives the plain gradient |
| CurrentWeatherView.FirstKeyword | src/components/CurrentWeather.jsx:56-61 | an independent reading of the keyword list: the first keyword, from a position on, that the text contains, and none only when it contains none of them |
| CurrentWeatherView.PlainIffNoKeyword | src/components/CurrentWeather.jsx:56-62 | the plain gradient is chosen exactly when the condition contains none of the keywords |
| CurrentWeatherView.BackgroundIgnoresCase | src/components/CurrentWeather.jsx:55 | a condition and its lower-cased form get the same class |
| CurrentWeatherView.FirstMatchWins | src/components/CurrentWeather.jsx:55-62 | the class is the one of the first keyword in the card's order that the lower-cased condition contains, and the plain gradient when there is none |
| AirQualityView.AQIColor | src/components/AirQualityIndex.jsx:15-22 | green exactly up to 50, yellow exactly from 51 to 100, orange to 150, red to 200, purple to 300, and maroon above 300 or for an absent index |
| AirQualityView.AQIColorMonotone | src/components/AirQualityIndex.jsx:15-22 | a larger index never gets an earlier band, and an absent index gets the last band |
| AirQualityView.AQIIcon | src/components/AirQualityIndex.jsx:24-28 | a smile exactly up to 50 and a neutral face exactly from 51 to 100, a frown otherwise (an absent index included), always in the index's band colour |
| AirQualityView.AirQualityPanel | src/components/AirQualityIndex.jsx:11-52 | nothing renders while loading or without data; otherwise the card shows the record's value, level, pollutant and text, in the index's colour |
| AirQualityView.ProviderIndexAlwaysGood | src/components/AirQualityIndex.jsx:15-28 | any air-quality record with a known level renders green with a smile |
| AirQualityView.AbsentIndexShowsWorst | src/components/AirQualityIndex.jsx:15-28 | a sample without an index renders as Unknown, maroon, with a frown |

## Left out

- **Network I/O.** URL building, `fetch`, `Promise.all` and the JSON decoding of bodies are not modelled. This includes a `json()` call that fails on an error body. Each request is given as already settled.
- **Network-failure message.** The message of a rejected request comes from the browser and is a parameter. When several requests reject, the joint wait reports whichever rejects first in time; the model reports the first in request order.
- **JSON `null` index and visibility.** A JSON `null` air-quality index is treated like a missing one, so the card shows it in the last band with a frown (`AirQualityView.AbsentIndexShowsWorst`). JavaScript compares `null` as 0, so the source shows it green with a smile. A JSON `null` visibility is likewise treated like a missing one, which gives no value; JavaScript divides it as 0, giving 0 km.
- **Request parameters.** The coordinates passed to the coordinate fetch only build URLs, so they are unused.
- **Locale formatting.** `toLocaleDateString` and `toLocaleTimeString` are uninterpreted functions of the timestamp.
- **Floating point.** The model uses exact real arithmetic. `NaN` is modelled only for a day whose samples lack a precipitation probability. A JSON `null` probability, which JavaScript multiplies as 0, is treated like a missing one. A missing visibility gives no value instead of `NaN`.
- **Object key order.** The model inserts keys in order of appearance. Integer-like keys and keys that collide with `Object.prototype` names are not modelled. The air-pollution components keep their JSON order.
- **Lower-casing.** `toLowerCase` is modelled on ASCII letters only. Unicode case mapping is not modelled.
- **Concurrency.** Overlapping fetches, stale closures over `weatherState` and `searchHistory`, the geolocation options and the simulated one-second delay in the auth provider are not modelled. Every operation runs to completion.
- **Side effects with no logic.** Toasts of the weather provider and `console` logging are not modelled. The auth provider's toasts are modelled as a field, and so is its navigation.
- **Mock data.** The generated alerts (`src/lib/mockData.js`) are a parameter, because they are random. `src/lib/mockData.js` is not part of this model.
- **Unused list.** The per-day `temps` list is filled but never read, so it is not modelled.
- **Stored values.** The local-storage hook (`src/hooks/useLocalStorage.js`) is modelled as a stored copy of the history that each update rewrites. A stored value that is not valid JSON, or not a list of strings, is not modelled. Neither is a stored account array or session of another shape.
- AuthContext.Auth.constructor: the stored account array is taken to have distinct emails. `register` never writes a second account for an email, so an array that breaks this was not written by the provider.
- **City name.** `CurrentPayload` always has a `name`, so a payload without one is not modelled.
- **Rendering.** The rest of `CurrentWeather.jsx` and `AirQualityIndex.jsx`, and every other component, are not modelled.
- **Dark-mode preference.** `matchMedia` is reduced to a boolean parameter.
