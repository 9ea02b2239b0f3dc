/** The weather provider of the application: the weather state the views
    read, the search history it keeps in local storage, and the operations
    that fetch weather for a city or for the device's position.

    The asynchronous fetch is modelled by its outcome: each operation takes
    the three settled responses (and, for the position, what the
    geolocation service reported) as parameters, and runs to completion. */
module WeatherContext {
  import opened Common
  import opened WeatherApi
  import DailyForecast

  const CurrentLocation := "Current Location"
  const PlaceholderKey := "YOUR_OPENWEATHER_API_KEY_HERE"
  const KeyNotConfigured := "API Key is not configured. Please add your OpenWeather API key."
  const FetchFailedMessage := "Failed to fetch weather data. Please try again."
  const GeolocationUnsupported := "Geolocation is not supported by your browser."
  const LocationFailedPrefix := "Failed to get your location. "
  const PermissionDeniedText := "Please allow location access in your browser settings."
  const PositionUnavailableText := "Location information is unavailable."
  const TimeoutText := "Location request timed out."
  const UnknownLocationErrorText := "An unknown error occurred."

  /** The error codes of the W3C Geolocation API. */
  const PermissionDenied := 1
  const PositionUnavailable := 2
  const Timeout := 3

  /** The history keeps the city just searched and at most four others. */
  const MaxHistory := 5

  /** A weather alert as the alert generator produces it. */
  datatype Alert = Alert(id: string, kind: string, title: string, description: string,
                         severity: string, source: string, timestamp: string)

  /** The provider's weather state; `None` stands for `null`. */
  datatype WeatherState = WeatherState(
    currentWeather: Option<Snapshot>,
    forecast: Option<seq<DailyForecast.DailySummary>>,
    hourlyForecast: Option<seq<HourlyPoint>>,
    alerts: seq<Alert>,
    airQuality: Option<AirQuality>,
    loading: bool,
    error: Option<string>,
    currentLocation: Option<string>)

  const Initial := WeatherState(None, None, None, [], None, false, None, None)

  /** The two shapes of update the provider merges into its state: the
      loading flag with the error message, or every field at once. */
  datatype Patch =
    | Progress(loading: bool, error: Option<string>)
    | Results(next: WeatherState)

  /** `{ ...prevState, ...updates }`: the keys of the update win, every
      other key keeps its value. */
  function Merge(s: WeatherState, p: Patch): (r: WeatherState)
    ensures p.Progress? ==> r.loading == p.loading && r.error == p.error
    ensures p.Results? ==> r == p.next
  {
    match p
    case Progress(loading, error) => s.(loading := loading, error := error)
    case Results(next) => next
  }

  /** The data fields of a state: everything but the loading flag and the
      error. */
  function Data(s: WeatherState): (Option<Snapshot>, Option<seq<DailyForecast.DailySummary>>, Option<seq<HourlyPoint>>,
                                   seq<Alert>, Option<AirQuality>, Option<string>)
  {
    (s.currentWeather, s.forecast, s.hourlyForecast, s.alerts, s.airQuality, s.currentLocation)
  }

  /** A progress update leaves the weather data as it was, and applying the
      same update twice is applying it once. */
  lemma ProgressKeepsData(s: WeatherState, loading: bool, error: Option<string>)
    ensures Data(Merge(s, Progress(loading, error))) == Data(s)
    ensures Merge(Merge(s, Progress(loading, error)), Progress(loading, error)) == Merge(s, Progress(loading, error))
    ensures Merge(s, Progress(s.loading, s.error)) == s
  {
  }

  /** `handleError`'s effect on the state: the message is shown and
      loading stops. */
  function Failed(s: WeatherState, userMessage: string): (r: WeatherState)
    ensures !r.loading && r.error == Some(userMessage) && Data(r) == Data(s)
  {
    Merge(s, Progress(false, Some(userMessage)))
  }

  // ---------------------------------------------------------------------------
  // Search history

  /** Whether the history holds the city, ignoring case (`find` with a
      `toLowerCase` comparison). */
  predicate HasMatch(h: seq<string>, city: string) {
    exists i :: 0 <= i < |h| && Lower(h[i]) == Lower(city)
  }

  /** `filter(item => item.toLowerCase() !== city.toLowerCase())`. */
  function RemoveMatches(h: seq<string>, city: string): (r: seq<string>)
    ensures |r| <= |h|
    ensures forall i :: 0 <= i < |r| ==> Lower(r[i]) != Lower(city)
    ensures forall x :: x in r <==> x in h && Lower(x) != Lower(city)
    ensures !HasMatch(h, city) ==> r == h
    decreases |h|
  {
    if h == [] then []
    else
      var p, x := h[..|h| - 1], h[|h| - 1];
      assert h == p + [x];
      assert HasMatch(p, city) ==> HasMatch(h, city) by {
        if HasMatch(p, city) {
          var i :| 0 <= i < |p| && Lower(p[i]) == Lower(city);
          assert h[i] == p[i];
        }
      }
      var rest := RemoveMatches(p, city);
      if Lower(x) != Lower(city) then rest + [x] else rest
  }

  /** The filter keeps a history free of case-insensitive duplicates. */
  lemma {:induction false} RemoveMatchesCaseDistinct(h: seq<string>, city: string)
    requires CaseDistinct(h)
    ensures CaseDistinct(RemoveMatches(h, city))
    decreases |h|
  {
    if h != [] {
      var p, x := h[..|h| - 1], h[|h| - 1];
      assert forall i :: 0 <= i < |p| ==> p[i] == h[i];
      RemoveMatchesCaseDistinct(p, city);
      var rest := RemoveMatches(p, city);
      forall i | 0 <= i < |rest| ensures Lower(rest[i]) != Lower(x) {
        assert rest[i] in p;
        var j :| 0 <= j < |p| && p[j] == rest[i];
      }
    }
  }

  /** The filter works entry by entry: filtering a concatenation is
      concatenating the filtered parts, so the entries kept stay in their
      order. */
  lemma {:induction false} RemoveMatchesAppend(a: seq<string>, b: seq<string>, city: string)
    ensures RemoveMatches(a + b, city) == RemoveMatches(a, city) + RemoveMatches(b, city)
    decreases |b|
  {
    if b == [] {
      assert a + b == a;
    } else {
      var b', x := b[..|b| - 1], b[|b| - 1];
      assert (a + b)[..|a + b| - 1] == a + b' && (a + b)[|a + b| - 1] == x;
      RemoveMatchesAppend(a, b', city);
    }
  }

  function Min(a: int, b: int): int { if a <= b then a else b }

  /** `!searchHistory.find(item => item.toLowerCase() === city.toLowerCase())`:
      `find` returns the matching entry itself, which is falsy when it is
      the empty string. Only the empty string lower-cases to the empty
      string, so the test passes when nothing matches or the city is empty. */
  predicate FindIsFalsy(h: seq<string>, city: string) {
    city == "" || !HasMatch(h, city)
  }

  /** The history after a successful fetch for `city`: a city not yet in
      the history, ignoring case, and the empty name go to the front, ahead
      of at most four older entries that differ from it; the position fix
      and a non-empty city already present leave it as it was. */
  function NewHistory(h: seq<string>, city: string): (r: seq<string>)
    ensures city == CurrentLocation ==> r == h
    ensures city != CurrentLocation ==> HasMatch(r, city)
    ensures r != h ==> |r| <= MaxHistory && r[0] == city && forall i :: 1 <= i < |r| ==> r[i] in h
  {
    if city != CurrentLocation && FindIsFalsy(h, city) then
      var rest := RemoveMatches(h, city);
      var r := [city] + rest[..Min(MaxHistory - 1, |rest|)];
      assert Lower(r[0]) == Lower(city);
      r
    else h
  }

  /** No two entries of the history are the same city, ignoring case. */
  predicate CaseDistinct(h: seq<string>) {
    forall i, j :: 0 <= i < j < |h| ==> Lower(h[i]) != Lower(h[j])
  }

  predicate HistoryWellFormed(h: seq<string>) {
    |h| <= MaxHistory && CaseDistinct(h)
  }

  /** A city not yet present is put in front of the four most recent
      entries: for such a city the filter removes nothing. */
  lemma NewCityGoesFirst(h: seq<string>, city: string)
    requires city != CurrentLocation && !HasMatch(h, city)
    ensures NewHistory(h, city) == [city] + h[..Min(MaxHistory - 1, |h|)]
    ensures |NewHistory(h, city)| <= MaxHistory
  {
  }

  /** A non-empty city already in the history, under any casing, is
      neither moved to the front nor re-cased; the position fix is never
      recorded. */
  lemma KnownCityKeepsHistory(h: seq<string>, city: string)
    requires city == CurrentLocation || (city != "" && HasMatch(h, city))
    ensures NewHistory(h, city) == h
  {
  }

  /** An empty name already in the history is still moved to the front,
      since the entry `find` returns for it is falsy. */
  lemma EmptyNameMovesToFront()
    ensures NewHistory(["Paris", ""], "") == ["", "Paris"]
  {
    assert HasMatch(["Paris", ""], "") by {
      assert Lower(["Paris", ""][1]) == Lower("");
    }
    assert RemoveMatches(["Paris", ""], "") == ["Paris"] by {
      assert ["Paris", ""][..1] == ["Paris"];
      assert ["Paris"][..0] == [];
    }
  }

  /** After a fetch for a city other than the position fix, the history
      holds that city under some casing. */
  lemma SearchedCityIsRemembered(h: seq<string>, city: string)
    requires city != CurrentLocation
    ensures HasMatch(NewHistory(h, city), city)
  {
    if FindIsFalsy(h, city) {
      assert NewHistory(h, city)[0] == city;
    }
  }

  /** The history stays short and free of case-insensitive duplicates. */
  lemma NewHistoryWellFormed(h: seq<string>, city: string)
    requires HistoryWellFormed(h)
    ensures HistoryWellFormed(NewHistory(h, city))
  {
    if city != CurrentLocation && FindIsFalsy(h, city) {
      RemoveMatchesCaseDistinct(h, city);
      var rest := RemoveMatches(h, city);
      var kept := rest[..Min(MaxHistory - 1, |rest|)];
      assert NewHistory(h, city) == [city] + kept;
      assert forall i :: 0 <= i < |kept| ==> kept[i] == rest[i];
    }
  }

  /** Searching the same city twice in a row records it once. */
  lemma NewHistoryIdempotent(h: seq<string>, city: string)
    ensures NewHistory(NewHistory(h, city), city) == NewHistory(h, city)
  {
    if city == "" {
      EmptyNameIdempotent(h);
    } else if city != CurrentLocation {
      SearchedCityIsRemembered(h, city);
      KnownCityKeepsHistory(NewHistory(h, city), city);
    }
  }

  /** Filtering a city out of a history it heads removes just that head
      when nothing after it matches. */
  lemma RemoveMatchesFront(city: string, t: seq<string>)
    requires !HasMatch(t, city)
    ensures RemoveMatches([city] + t, city) == t
  {
    RemoveMatchesAppend([city], t, city);
    assert RemoveMatches([city], city) == [] by {
      assert [city][..0] == [];
    }
    assert RemoveMatches(t, city) == t;
    assert [] + t == t;
  }

  /** The entries kept behind the empty name never match it. */
  lemma KeptAfterEmptyName(h: seq<string>)
    ensures var rest := RemoveMatches(h, "");
            var kept := rest[..Min(MaxHistory - 1, |rest|)];
            && NewHistory(h, "") == [""] + kept
            && !HasMatch(kept, "")
            && |kept| <= MaxHistory - 1
  {
    var rest := RemoveMatches(h, "");
    var kept := rest[..Min(MaxHistory - 1, |rest|)];
    assert forall i :: 0 <= i < |kept| ==> kept[i] == rest[i];
  }

  /** The empty name, once in front, is filtered out and put back in
      front, and the entries after it are kept. */
  lemma EmptyNameIdempotent(h: seq<string>)
    ensures NewHistory(NewHistory(h, ""), "") == NewHistory(h, "")
  {
    KeptAfterEmptyName(h);
    var rest := RemoveMatches(h, "");
    var kept := rest[..Min(MaxHistory - 1, |rest|)];
    RemoveMatchesFront("", kept);
    assert kept[..Min(MaxHistory - 1, |kept|)] == kept;
  }

  // ---------------------------------------------------------------------------
  // Processing fetched data

  /** `cityOverride || currentData.name`. */
  function CityName(currentData: CurrentPayload, cityOverride: Option<string>): (name: string)
    ensures cityOverride.Some? && cityOverride.value != "" ==> name == cityOverride.value
    ensures cityOverride.None? || cityOverride == Some("") ==> name == currentData.name
  {
    OrElse(cityOverride, currentData.name)
  }

  /** The state `processWeatherData` writes, or `Throws` when one of the
      four transforms throws, in which case nothing is written. */
  function Processed(s: WeatherState, currentData: CurrentPayload, forecastData: ForecastPayload,
                     airQualityData: Option<AirPayload>, cityOverride: Option<string>,
                     alerts: seq<Alert>, loc: Locale): (r: Outcome<WeatherState>)
    ensures r.Ok? <==> && TransformCurrentWeather(Some(currentData), Some(CityName(currentData, cityOverride)), loc).Ok?
                       && DailyForecast.ForecastSpec(Some(forecastData), loc).Ok?
                       && TransformHourlyForecast(Some(forecastData), loc).Ok?
                       && TransformAirQuality(airQualityData).Ok?
    ensures r.Ok? ==> && !r.value.loading && r.value.error.None?
                      && r.value.forecast.Some? && r.value.hourlyForecast.Some?
                      && r.value.alerts == alerts
    ensures r.Ok? ==>
              && r.value.currentWeather
                 == TransformCurrentWeather(Some(currentData), Some(CityName(currentData, cityOverride)), loc).value
              && r.value.forecast == Some(DailyForecast.ForecastSpec(Some(forecastData), loc).value)
              && r.value.hourlyForecast == Some(TransformHourlyForecast(Some(forecastData), loc).value)
              && r.value.airQuality == TransformAirQuality(airQualityData).value
              && r.value.currentLocation
                 == (if cityOverride == Some(CurrentLocation) then Some(CurrentLocation) else s.currentLocation)
  {
    var cityName := CityName(currentData, cityOverride);
    var current := TransformCurrentWeather(Some(currentData), Some(cityName), loc);
    var forecast := DailyForecast.ForecastSpec(Some(forecastData), loc);
    var hourly := TransformHourlyForecast(Some(forecastData), loc);
    var air := TransformAirQuality(airQualityData);
    if current.Throws? || forecast.Throws? || hourly.Throws? || air.Throws? then Throws
    else
      Ok(WeatherState(current.value, Some(forecast.value), Some(hourly.value), alerts, air.value,
                      false, None,
                      if cityOverride == Some(CurrentLocation) then Some(CurrentLocation) else s.currentLocation))
  }

  /** Whether the API key is set and is not the placeholder. */
  predicate KeyConfigured(apiKey: Option<string>) {
    apiKey.Some? && apiKey.value != "" && apiKey.value != PlaceholderKey
  }

  /** What `fetchWeatherData` leaves behind: the new state and history. */
  function AfterFetch(s: WeatherState, h: seq<string>, apiKey: Option<string>,
                      current: Settled<CurrentPayload>, forecast: Settled<ForecastPayload>,
                      air: Settled<AirPayload>, cityOverride: Option<string>,
                      alerts: seq<Alert>, loc: Locale): (r: (WeatherState, seq<string>))
    ensures !r.0.loading
    ensures !KeyConfigured(apiKey) ==> r == (Failed(s, KeyNotConfigured), h)
    ensures r.0.error.None? ==> r.0.alerts == alerts
    ensures r.0.error.Some? ==> r.1 == h
  {
    if !KeyConfigured(apiKey) then (Failed(s, KeyNotConfigured), h)
    else
      var s1 := Merge(s, Progress(true, None));
      match CombineResponses(current, forecast, air)
      case FetchFailed(_) => (Failed(s1, FetchFailedMessage), h)
      case Fetched(c, f, a) =>
        match Processed(s1, c, f, a, cityOverride, alerts, loc)
        case Throws => (Failed(s1, FetchFailedMessage), h)
        case Ok(n) => (n, NewHistory(h, CityName(c, cityOverride)))
  }

  /** Whether the fetch got as far as writing new weather data. */
  predicate FetchSucceeds(apiKey: Option<string>, current: Settled<CurrentPayload>,
                          forecast: Settled<ForecastPayload>, air: Settled<AirPayload>,
                          cityOverride: Option<string>, alerts: seq<Alert>, loc: Locale)
  {
    && KeyConfigured(apiKey)
    && var o := CombineResponses(current, forecast, air);
    && o.Fetched?
    && Processed(Initial, o.currentData, o.forecastData, o.airQualityData, cityOverride, alerts, loc).Ok?
  }

  lemma ProcessedOkIndependentOfState(s: WeatherState, t: WeatherState, c: CurrentPayload, f: ForecastPayload,
                                      a: Option<AirPayload>, cityOverride: Option<string>,
                                      alerts: seq<Alert>, loc: Locale)
    ensures Processed(s, c, f, a, cityOverride, alerts, loc).Ok? == Processed(t, c, f, a, cityOverride, alerts, loc).Ok?
  {
  }

  /** Every fetch ends with loading off; it either writes new data and
      clears the error, or shows one of its two messages and keeps the
      data and the history. */
  lemma FetchSettles(s: WeatherState, h: seq<string>, apiKey: Option<string>,
                                        current: Settled<CurrentPayload>, forecast: Settled<ForecastPayload>,
                                        air: Settled<AirPayload>, cityOverride: Option<string>,
                                        alerts: seq<Alert>, loc: Locale)
    ensures var (s', h') := AfterFetch(s, h, apiKey, current, forecast, air, cityOverride, alerts, loc);
            && !s'.loading
            && (s'.error.None? <==> FetchSucceeds(apiKey, current, forecast, air, cityOverride, alerts, loc))
            && (!KeyConfigured(apiKey) ==> s'.error == Some(KeyNotConfigured))
            && (KeyConfigured(apiKey) && s'.error.Some? ==> s'.error == Some(FetchFailedMessage))
            && (s'.error.Some? ==> Data(s') == Data(s) && h' == h)
  {
  }

  /** A fetch that succeeds writes exactly what `processWeatherData`
      computes from the combined responses, starting from the loading
      state, and records the displayed city name in the history. */
  lemma FetchWritesProcessed(s: WeatherState, h: seq<string>, apiKey: Option<string>,
                             current: Settled<CurrentPayload>, forecast: Settled<ForecastPayload>,
                             air: Settled<AirPayload>, cityOverride: Option<string>,
                             alerts: seq<Alert>, loc: Locale)
    requires FetchSucceeds(apiKey, current, forecast, air, cityOverride, alerts, loc)
    ensures var o := CombineResponses(current, forecast, air);
            var p := Processed(Merge(s, Progress(true, None)), o.currentData, o.forecastData,
                               o.airQualityData, cityOverride, alerts, loc);
            && p.Ok?
            && AfterFetch(s, h, apiKey, current, forecast, air, cityOverride, alerts, loc)
               == (p.value, NewHistory(h, CityName(o.currentData, cityOverride)))
  {
    var o := CombineResponses(current, forecast, air);
    ProcessedOkIndependentOfState(Initial, Merge(s, Progress(true, None)), o.currentData, o.forecastData,
                                  o.airQualityData, cityOverride, alerts, loc);
  }

  /** A successful fetch for the position fix marks the state as showing
      the current location; any other fetch keeps the marker it found. */
  lemma FetchLocationMarker(s: WeatherState, h: seq<string>, apiKey: Option<string>,
                                               current: Settled<CurrentPayload>, forecast: Settled<ForecastPayload>,
                                               air: Settled<AirPayload>, cityOverride: Option<string>,
                                               alerts: seq<Alert>, loc: Locale)
    ensures var s' := AfterFetch(s, h, apiKey, current, forecast, air, cityOverride, alerts, loc).0;
            s'.currentLocation == (if cityOverride == Some(CurrentLocation) && s'.error.None?
                                   then Some(CurrentLocation) else s.currentLocation)
  {
  }

  /** A fetch keeps the history short and free of duplicates. */
  lemma FetchKeepsHistoryWellFormed(s: WeatherState, h: seq<string>, apiKey: Option<string>,
                                                       current: Settled<CurrentPayload>, forecast: Settled<ForecastPayload>,
                                                       air: Settled<AirPayload>, cityOverride: Option<string>,
                                                       alerts: seq<Alert>, loc: Locale)
    requires HistoryWellFormed(h)
    ensures HistoryWellFormed(AfterFetch(s, h, apiKey, current, forecast, air, cityOverride, alerts, loc).1)
  {
    var o := CombineResponses(current, forecast, air);
    if KeyConfigured(apiKey) && o.Fetched? {
      NewHistoryWellFormed(h, CityName(o.currentData, cityOverride));
    }
  }

  // ---------------------------------------------------------------------------
  // Position errors

  /** The message shown for a geolocation error code. */
  function LocationErrorMessage(code: int): (m: string)
    ensures LocationFailedPrefix <= m
    ensures code == PermissionDenied ==> m == LocationFailedPrefix + PermissionDeniedText
    ensures code == PositionUnavailable ==> m == LocationFailedPrefix + PositionUnavailableText
    ensures code == Timeout ==> m == LocationFailedPrefix + TimeoutText
    ensures code != PermissionDenied && code != PositionUnavailable && code != Timeout
            <==> m == LocationFailedPrefix + UnknownLocationErrorText
  {
    LocationFailedPrefix +
      if code == PermissionDenied then PermissionDeniedText
      else if code == PositionUnavailable then PositionUnavailableText
      else if code == Timeout then TimeoutText
      else UnknownLocationErrorText
  }

  /** Different known codes give different messages. */
  lemma LocationMessagesDistinct(a: int, b: int)
    requires a in {PermissionDenied, PositionUnavailable, Timeout} && a != b
    ensures LocationErrorMessage(a) != LocationErrorMessage(b)
  {
  }

  /** What the geolocation service reports: a position, or an error code. */
  datatype PositionResult =
    | Located(latitude: real, longitude: real)
    | PositionFailed(code: int)

  /** What `getCurrentLocation` leaves behind. */
  function AfterLocate(s: WeatherState, h: seq<string>, apiKey: Option<string>, supported: bool,
                       position: PositionResult, current: Settled<CurrentPayload>,
                       forecast: Settled<ForecastPayload>, air: Settled<AirPayload>,
                       alerts: seq<Alert>, loc: Locale): (r: (WeatherState, seq<string>))
    ensures !r.0.loading
    ensures !supported ==> r == (Failed(s, GeolocationUnsupported), h)
    ensures supported && position.PositionFailed? ==> r.0.error == Some(LocationErrorMessage(position.code)) && r.1 == h
  {
    if !supported then (Failed(s, GeolocationUnsupported), h)
    else
      var s1 := Merge(s, Progress(true, None));
      match position
      case Located(_, _) => AfterFetch(s1, h, apiKey, current, forecast, air, Some(CurrentLocation), alerts, loc)
      case PositionFailed(code) => (Failed(s1, LocationErrorMessage(code)), h)
  }

  /** Locating ends with loading off; a failure keeps the data and the
      history; a success shows the current location and leaves the history
      as it was. */
  lemma LocateSettles(s: WeatherState, h: seq<string>, apiKey: Option<string>, supported: bool,
                                         position: PositionResult, current: Settled<CurrentPayload>,
                                         forecast: Settled<ForecastPayload>, air: Settled<AirPayload>,
                                         alerts: seq<Alert>, loc: Locale)
    ensures var (s', h') := AfterLocate(s, h, apiKey, supported, position, current, forecast, air, alerts, loc);
            && !s'.loading
            && (s'.error.Some? ==> Data(s') == Data(s) && h' == h)
            && (s'.error.None? ==> s'.currentLocation == Some(CurrentLocation) && h' == h)
            && (!supported ==> s'.error == Some(GeolocationUnsupported))
            && (supported && position.PositionFailed? ==> s'.error == Some(LocationErrorMessage(position.code)))
  {
  }

  // ---------------------------------------------------------------------------
  // The provider

  class WeatherSession {
    /** The OpenWeather API key from the build environment. */
    const apiKey: Option<string>
    var state: WeatherState
    var searchHistory: seq<string>
    /** The value stored under `weatherSearchHistory` in local storage. */
    var savedHistory: seq<string>

    ghost predicate Valid()
      reads this
    {
      && savedHistory == searchHistory
      && state.currentLocation in {None, Some(CurrentLocation)}
    }

    /** A fresh provider: the initial state, and the history read back
        from local storage (empty when nothing is stored). */
    constructor(apiKey: Option<string>, stored: Option<seq<string>>)
      ensures Valid()
      ensures this.apiKey == apiKey && state == Initial && searchHistory == stored.GetOr([])
    {
      this.apiKey := apiKey;
      state := Initial;
      searchHistory := stored.GetOr([]);
      savedHistory := stored.GetOr([]);
    }

    method UpdateWeatherState(p: Patch)
      modifies this
      requires p.Results? ==> p.next.currentLocation in {None, Some(CurrentLocation)}
      requires Valid()
      ensures Valid()
      ensures state == Merge(old(state), p)
      ensures searchHistory == old(searchHistory)
    {
      state := Merge(state, p);
    }

    /** The history setter of the storage hook: the new history is also
        written to local storage. */
    method SetSearchHistory(h: seq<string>)
      modifies this
      requires Valid()
      ensures Valid()
      ensures state == old(state) && searchHistory == h
    {
      searchHistory := h;
      savedHistory := h;
    }

    method HandleError(userMessage: string)
      modifies this
      requires Valid()
      ensures Valid()
      ensures state == Failed(old(state), userMessage) && searchHistory == old(searchHistory)
    {
      UpdateWeatherState(Progress(false, Some(userMessage)));
    }

    /** `processWeatherData`; `threw` reports that a transform threw, in
        which case nothing was written. */
    method ProcessWeatherData(currentData: CurrentPayload, forecastData: ForecastPayload,
                              airQualityData: Option<AirPayload>, cityOverride: Option<string>,
                              alerts: seq<Alert>, loc: Locale) returns (threw: bool)
      modifies this
      requires Valid()
      ensures Valid()
      ensures var p := Processed(old(state), currentData, forecastData, airQualityData, cityOverride, alerts, loc);
              && threw == p.Throws?
              && (p.Throws? ==> state == old(state) && searchHistory == old(searchHistory))
              && (p.Ok? ==> state == p.value
                            && searchHistory == NewHistory(old(searchHistory), CityName(currentData, cityOverride)))
    {
      var cityName := CityName(currentData, cityOverride);
      var current := TransformCurrentWeather(Some(currentData), Some(cityName), loc);
      var forecast := DailyForecast.TransformForecast(Some(forecastData), loc);
      var hourly := TransformHourlyForecast(Some(forecastData), loc);
      var air := TransformAirQuality(airQualityData);
      if current.Throws? || forecast.Throws? || hourly.Throws? || air.Throws? {
        return true;
      }
      var location := if cityOverride == Some(CurrentLocation) then Some(CurrentLocation) else state.currentLocation;
      UpdateWeatherState(Results(WeatherState(current.value, Some(forecast.value), Some(hourly.value), alerts,
                                              air.value, false, None, location)));
      if cityName != CurrentLocation && FindIsFalsy(searchHistory, cityName) {
        var rest := RemoveMatches(searchHistory, cityName);
        SetSearchHistory([cityName] + rest[..Min(MaxHistory - 1, |rest|)]);
      }
      return false;
    }

    /** `fetchWeatherData`, given how the three requests settled. */
    method FetchWeatherData(current: Settled<CurrentPayload>, forecast: Settled<ForecastPayload>,
                            air: Settled<AirPayload>, cityOverride: Option<string>,
                            alerts: seq<Alert>, loc: Locale)
      modifies this
      requires Valid()
      ensures Valid()
      ensures (state, searchHistory)
              == AfterFetch(old(state), old(searchHistory), apiKey, current, forecast, air, cityOverride, alerts, loc)
    {
      if !KeyConfigured(apiKey) {
        HandleError(KeyNotConfigured);
        return;
      }
      UpdateWeatherState(Progress(true, None));
      var outcome := CombineResponses(current, forecast, air);
      if outcome.FetchFailed? {
        HandleError(FetchFailedMessage);
        return;
      }
      var threw := ProcessWeatherData(outcome.currentData, outcome.forecastData, outcome.airQualityData,
                                      cityOverride, alerts, loc);
      if threw {
        HandleError(FetchFailedMessage);
      }
    }

    /** `fetchWeatherByCity`: an empty city does nothing. */
    method FetchWeatherByCity(city: string, current: Settled<CurrentPayload>, forecast: Settled<ForecastPayload>,
                              air: Settled<AirPayload>, alerts: seq<Alert>, loc: Locale)
      modifies this
      requires Valid()
      ensures Valid()
      ensures city == "" ==> state == old(state) && searchHistory == old(searchHistory)
      ensures city != "" ==>
                (state, searchHistory)
                == AfterFetch(old(state), old(searchHistory), apiKey, current, forecast, air, None, alerts, loc)
    {
      if city == "" {
        return;
      }
      FetchWeatherData(current, forecast, air, None, alerts, loc);
    }

    /** `fetchWeatherByCoords`: the city is shown as the current location. */
    method FetchWeatherByCoords(latitude: real, longitude: real, current: Settled<CurrentPayload>,
                                forecast: Settled<ForecastPayload>, air: Settled<AirPayload>,
                                alerts: seq<Alert>, loc: Locale)
      modifies this
      requires Valid()
      ensures Valid()
      ensures (state, searchHistory)
              == AfterFetch(old(state), old(searchHistory), apiKey, current, forecast, air,
                            Some(CurrentLocation), alerts, loc)
    {
      FetchWeatherData(current, forecast, air, Some(CurrentLocation), alerts, loc);
    }

    /** `getCurrentLocation`, given whether the browser has geolocation and
        what it reported. */
    method GetCurrentLocation(supported: bool, position: PositionResult, current: Settled<CurrentPayload>,
                              forecast: Settled<ForecastPayload>, air: Settled<AirPayload>,
                              alerts: seq<Alert>, loc: Locale)
      modifies this
      requires Valid()
      ensures Valid()
      ensures (state, searchHistory)
              == AfterLocate(old(state), old(searchHistory), apiKey, supported, position, current, forecast, air,
                             alerts, loc)
    {
      if !supported {
        HandleError(GeolocationUnsupported);
        return;
      }
      UpdateWeatherState(Progress(true, None));
      match position
      case Located(latitude, longitude) =>
        FetchWeatherByCoords(latitude, longitude, current, forecast, air, alerts, loc);
      case PositionFailed(code) =>
        HandleError(LocationErrorMessage(code));
    }

    method ClearSearchHistory()
      modifies this
      requires Valid()
      ensures Valid()
      ensures state == old(state) && searchHistory == [] && savedHistory == []
    {
      SetSearchHistory([]);
    }
  }
}
