/** The provider-facing half of the weather client: the shapes of the three
    OpenWeather responses, the rule that combines them, and the transforms
    that turn current conditions, the three-hour forecast list (hour by hour)
    and the air-pollution sample into the records the views read. The
    day-by-day aggregation of the forecast list is in module DailyForecast. */
module WeatherApi {
  import opened Common

  /** Locale formatting of epoch seconds, which this model does not
      interpret: each field is one `toLocale…String` call of the source. */
  datatype Locale = Locale(
    dayKey: int -> string,     // date with short weekday, short month, day number: the bucketing key
    dateLabel: int -> string,  // short month and day number
    weekday: int -> string,    // long weekday name
    hourLabel: int -> string,  // numeric hour, 12-hour clock
    clockLabel: int -> string) // two-digit hour and minute

  // ---------------------------------------------------------------------------
  // Response shapes. A field that may be missing from the JSON is an Option.

  /** One entry of a `weather` array. */
  datatype Condition = Condition(main: Option<string>, description: Option<string>, icon: Option<string>)

  datatype MainBlock = MainBlock(temp: real, feelsLike: real, tempMin: real, tempMax: real,
                                 humidity: real, pressure: real)

  datatype Wind = Wind(speed: real)

  /** One three-hour sample of the forecast list. */
  datatype IntervalRecord = IntervalRecord(dt: int, main: Option<MainBlock>, weather: Option<seq<Condition>>,
                                           wind: Option<Wind>, pop: Option<real>)

  datatype ForecastPayload = ForecastPayload(list: Option<seq<IntervalRecord>>)

  datatype Sys = Sys(country: Option<string>, sunrise: Option<int>, sunset: Option<int>)

  datatype Coord = Coord(lat: real, lon: real)

  datatype CurrentPayload = CurrentPayload(name: string, dt: int, main: Option<MainBlock>,
                                           weather: Option<seq<Condition>>, wind: Option<Wind>,
                                           sys: Option<Sys>, visibility: Option<real>, coord: Option<Coord>)

  /** The `main` block of an air sample; its index may be missing. */
  datatype AirMain = AirMain(aqi: Option<int>)

  /** One sample of the air-pollution list; `components` keeps the JSON
      object's entry order. */
  datatype AirSample = AirSample(main: Option<AirMain>, components: Option<seq<(string, real)>>)

  datatype AirPayload = AirPayload(list: Option<seq<AirSample>>)

  // ---------------------------------------------------------------------------
  // Combining the three responses.

  /** A settled HTTP response: its `ok` flag, its status text, the `message`
      of the error body a failed response carries, and the body of a
      successful one. */
  datatype Response<T> = Response(ok: bool, statusText: string, errorMessage: Option<string>, body: T)

  /** A request either produced a response or its promise rejected with
      the browser's message (a network failure), which makes the joint wait
      reject. */
  datatype Settled<T> = Fulfilled(response: Response<T>) | Rejected(reason: string)

  datatype FetchError =
    | CurrentFailed(reason: string)
    | ForecastFailed(reason: string)
    | NetworkFailure(reason: string)
  {
    function Message(): (m: string)
      ensures CurrentFailed? ==> m == CurrentFailedPrefix + reason
      ensures ForecastFailed? ==> m == ForecastFailedPrefix + reason
      ensures NetworkFailure? ==> m == reason
    {
      match this
      case CurrentFailed(reason) => CurrentFailedPrefix + reason
      case ForecastFailed(reason) => ForecastFailedPrefix + reason
      case NetworkFailure(reason) => reason
    }
  }

  const CurrentFailedPrefix := "Current weather fetch failed: "
  const ForecastFailedPrefix := "Forecast fetch failed: "

  datatype FetchOutcome =
    | Fetched(currentData: CurrentPayload, forecastData: ForecastPayload, airQualityData: Option<AirPayload>)
    | FetchFailed(error: FetchError)

  /** The part of `fetchOpenWeatherData` that follows the joint wait on the
      three requests: current conditions and forecast are mandatory and are
      checked in that order; a failed air-quality response only leaves its
      data absent. When several requests reject, the model reports the
      first in request order. */
  function CombineResponses(current: Settled<CurrentPayload>, forecast: Settled<ForecastPayload>,
                            air: Settled<AirPayload>): (r: FetchOutcome)
    ensures r.Fetched? <==> current.Fulfilled? && current.response.ok && forecast.Fulfilled?
                            && forecast.response.ok && air.Fulfilled?
    ensures current.Rejected? ==> r == FetchFailed(NetworkFailure(current.reason))
    ensures current.Fulfilled? && forecast.Rejected? ==> r == FetchFailed(NetworkFailure(forecast.reason))
    ensures current.Fulfilled? && forecast.Fulfilled? && air.Rejected? ==> r == FetchFailed(NetworkFailure(air.reason))
    ensures current.Fulfilled? && forecast.Fulfilled? && air.Fulfilled? && !current.response.ok ==>
              r == FetchFailed(CurrentFailed(OrElse(current.response.errorMessage, current.response.statusText)))
    ensures current.Fulfilled? && forecast.Fulfilled? && air.Fulfilled? && current.response.ok
            && !forecast.response.ok ==>
              r == FetchFailed(ForecastFailed(OrElse(forecast.response.errorMessage, forecast.response.statusText)))
    ensures r.Fetched? ==> r.currentData == current.response.body && r.forecastData == forecast.response.body
    ensures r.Fetched? ==> (r.airQualityData.Some? <==> air.response.ok)
    ensures r.Fetched? && r.airQualityData.Some? ==> r.airQualityData.value == air.response.body
  {
    if current.Rejected? then FetchFailed(NetworkFailure(current.reason))
    else if forecast.Rejected? then FetchFailed(NetworkFailure(forecast.reason))
    else if air.Rejected? then FetchFailed(NetworkFailure(air.reason))
    else
      var c, f, a := current.response, forecast.response, air.response;
      if !c.ok then FetchFailed(CurrentFailed(OrElse(c.errorMessage, c.statusText)))
      else if !f.ok then FetchFailed(ForecastFailed(OrElse(f.errorMessage, f.statusText)))
      else Fetched(c.body, f.body, if a.ok then Some(a.body) else None)
  }

  /** Whether the air-quality response was ok never decides whether the
      whole fetch fails: only a rejected request does. */
  lemma AirQualityIsOptional(current: Settled<CurrentPayload>, forecast: Settled<ForecastPayload>,
                             a1: Response<AirPayload>, a2: Response<AirPayload>)
    ensures CombineResponses(current, forecast, Fulfilled(a1)).Fetched?
            == CombineResponses(current, forecast, Fulfilled(a2)).Fetched?
    ensures CombineResponses(current, forecast, Fulfilled(a1)).FetchFailed? ==>
              CombineResponses(current, forecast, Fulfilled(a1)) == CombineResponses(current, forecast, Fulfilled(a2))
  {
  }

  // ---------------------------------------------------------------------------
  // Reading a record's `weather` array.

  /** A record has what the transforms dereference without a guard. */
  predicate Complete(r: IntervalRecord) {
    r.main.Some? && r.weather.Some? && r.wind.Some?
  }

  /** `weather[0]?.main || 'N/A'`. */
  function ConditionLabel(weather: seq<Condition>): (name: string)
    ensures name != ""
    ensures name != "N/A" ==> weather != [] && weather[0].main == Some(name)
    ensures weather != [] && weather[0].main.Some? && weather[0].main.value != "" ==> name == weather[0].main.value
    ensures weather == [] || weather[0].main.None? || weather[0].main.value == "" ==> name == "N/A"
  {
    if weather == [] then "N/A" else OrElse(weather[0].main, "N/A")
  }

  /** `weather[0]?.description || 'N/A'`. */
  function ConditionText(weather: seq<Condition>): (text: string)
    ensures text != ""
    ensures text != "N/A" ==> weather != [] && weather[0].description == Some(text)
    ensures weather != [] && weather[0].description.Some? && weather[0].description.value != "" ==>
              text == weather[0].description.value
    ensures weather == [] || weather[0].description.None? || weather[0].description.value == "" ==> text == "N/A"
  {
    if weather == [] then "N/A" else OrElse(weather[0].description, "N/A")
  }

  /** `weather[0]?.icon`. */
  function FirstIcon(weather: seq<Condition>): (icon: Option<string>)
    ensures weather == [] ==> icon.None?
    ensures weather != [] ==> icon == weather[0].icon
  {
    if weather == [] then None else weather[0].icon
  }

  /** m/s to km/h. */
  function KmPerHour(metresPerSecond: real): (kmh: real)
    ensures kmh / 3.6 == metresPerSecond
    ensures metresPerSecond >= 0.0 ==> kmh >= metresPerSecond
  {
    metresPerSecond * 36.0 / 10.0
  }

  // ---------------------------------------------------------------------------
  // transformHourlyForecast

  datatype HourlyPoint = HourlyPoint(time: string, condition: string, description: string, icon: Option<string>,
                                     temperature: real, precipitation: int, windSpeed: int)

  /** Number of forecast samples projected hour by hour. */
  const HourlyWindow := 24

  /** One sample as an hourly point; a missing precipitation probability
      counts as 0. */
  function ToHourlyPoint(r: IntervalRecord, loc: Locale): (p: HourlyPoint)
    requires Complete(r)
    ensures p.time == loc.hourLabel(r.dt)
    ensures p.condition == ConditionLabel(r.weather.value) && p.temperature == r.main.value.temp
    ensures p.description == ConditionText(r.weather.value) && p.icon == FirstIcon(r.weather.value)
    ensures p.windSpeed as real - 1.0 / 2.0 <= KmPerHour(r.wind.value.speed) < p.windSpeed as real + 1.0 / 2.0
    ensures r.pop.None? ==> p.precipitation == 0
    ensures r.pop.Some? && 0.0 <= r.pop.value <= 1.0 ==> 0 <= p.precipitation <= 100
    ensures r.pop.Some? ==> p.precipitation as real - 1.0 / 2.0 <= r.pop.value * 100.0 < p.precipitation as real + 1.0 / 2.0
  {
    HourlyPoint(loc.hourLabel(r.dt), ConditionLabel(r.weather.value), ConditionText(r.weather.value),
                FirstIcon(r.weather.value), r.main.value.temp,
                Round(r.pop.GetOr(0.0) * 100.0), Round(KmPerHour(r.wind.value.speed)))
  }

  /** `records.map(...)`: throws as soon as one record lacks a field it reads. */
  function ProjectHours(records: seq<IntervalRecord>, loc: Locale): (r: Outcome<seq<HourlyPoint>>)
    ensures r.Ok? <==> forall i :: 0 <= i < |records| ==> Complete(records[i])
    ensures r.Ok? ==> |r.value| == |records|
    ensures r.Ok? ==> forall i :: 0 <= i < |records| ==> r.value[i] == ToHourlyPoint(records[i], loc)
  {
    if records == [] then Ok([])
    else if !Complete(records[0]) then Throws
    else
      match ProjectHours(records[1..], loc)
      case Throws => Throws
      case Ok(rest) => Ok([ToHourlyPoint(records[0], loc)] + rest)
  }

  /** `transformHourlyForecast`: the first 24 samples, one point each, in
      list order; an absent payload or list gives no points. */
  function TransformHourlyForecast(data: Option<ForecastPayload>, loc: Locale): (r: Outcome<seq<HourlyPoint>>)
    ensures data.None? || data.value.list.None? ==> r == Ok([])
    ensures data.Some? && data.value.list.Some? ==>
              var list := data.value.list.value;
              var n := if |list| < HourlyWindow then |list| else HourlyWindow;
              && (r.Ok? <==> forall i :: 0 <= i < n ==> Complete(list[i]))
              && (r.Ok? ==> |r.value| == n && forall i :: 0 <= i < n ==> r.value[i] == ToHourlyPoint(list[i], loc))
  {
    if data.None? || data.value.list.None? then Ok([])
    else
      var list := data.value.list.value;
      var n := if |list| < HourlyWindow then |list| else HourlyWindow;
      ProjectHours(list[..n], loc)
  }

  // ---------------------------------------------------------------------------
  // transformAirQuality

  /** The record the air-quality card reads; `value` is the provider's
      index, absent when the sample's `main` has none. */
  datatype AirQuality = AirQuality(value: Option<int>, level: string, dominantPollutant: string,
                                   healthImplications: string, components: seq<(string, real)>)

  const Levels: seq<string> := ["Good", "Fair", "Moderate", "Poor", "Very Poor"]

  const Implications: seq<string> := [
    "Air quality is satisfactory, and air pollution poses little or no risk.",
    "Air quality is acceptable. However, there may be a risk for some people.",
    "Members of sensitive groups may experience health effects.",
    "Everyone may begin to experience health effects.",
    "Health warnings of emergency conditions."]

  const UnknownLevel := "Unknown"
  const UnknownImplication := "Air quality data is unavailable."

  /** `getAQILevel`: the provider's index 1..5 to a level and its health text. */
  function AQILevel(aqi: int): (r: (string, string))
    ensures 1 <= aqi <= 5 ==> r == (Levels[aqi - 1], Implications[aqi - 1])
    ensures !(1 <= aqi <= 5) ==> r == (UnknownLevel, UnknownImplication)
  {
    if 1 <= aqi <= 5 then (Levels[aqi - 1], Implications[aqi - 1]) else (UnknownLevel, UnknownImplication)
  }

  /** The index a level label stands for, the inverse of `AQILevel`. */
  function LevelIndex(level: string): (r: Option<int>)
    ensures r.Some? ==> 1 <= r.value <= 5 && Levels[r.value - 1] == level
  {
    if level == "Good" then Some(1)
    else if level == "Fair" then Some(2)
    else if level == "Moderate" then Some(3)
    else if level == "Poor" then Some(4)
    else if level == "Very Poor" then Some(5)
    else None
  }

  /** The level label determines the index: reading it back gives the
      index for 1..5 and nothing for every other value. */
  lemma AQILevelRoundTrip(aqi: int)
    ensures LevelIndex(AQILevel(aqi).0) == if 1 <= aqi <= 5 then Some(aqi) else None
  {
  }

  /** The display name of a pollutant key, or the key itself when the
      table has none. */
  function PollutantName(key: string): (name: string)
    ensures key == "pm2_5" ==> name == "PM2.5"
    ensures key == "pm10" ==> name == "PM10"
    ensures key == "no2" ==> name == "NO\U{2082}"
    ensures key == "o3" ==> name == "O\U{2083}"
    ensures key == "so2" ==> name == "SO\U{2082}"
    ensures key == "co" ==> name == "CO"
    ensures key !in {"pm2_5", "pm10", "no2", "o3", "so2", "co"} ==> name == key
  {
    if key == "pm2_5" then "PM2.5"
    else if key == "pm10" then "PM10"
    else if key == "no2" then "NO\U{2082}"
    else if key == "o3" then "O\U{2083}"
    else if key == "so2" then "SO\U{2082}"
    else if key == "co" then "CO"
    else key
  }

  function Concentration(entry: (string, real)): real {
    entry.1
  }

  /** `getDominantPollutant`: the entry of greatest concentration, ties going
      to the later entry; an empty component object makes the seedless
      `reduce` throw. */
  function DominantPollutant(components: seq<(string, real)>): (r: Outcome<string>)
    ensures r.Ok? <==> |components| > 0
    ensures r.Ok? ==> exists i :: 0 <= i < |components| && r.value == PollutantName(components[i].0)
                        && (forall j :: 0 <= j < |components| ==> components[j].1 <= components[i].1)
                        && (forall j :: i < j < |components| ==> components[j].1 < components[i].1)
  {
    if components == [] then Throws
    else
      var i := LastMaxIndex(components, Concentration);
      Ok(PollutantName(components[i].0))
  }

  /** `getAQILevel` applied to the sample's index: an absent index falls to
      the default case. */
  function LevelOf(aqi: Option<int>): (r: (string, string))
    ensures aqi.Some? ==> r == AQILevel(aqi.value)
    ensures aqi.None? ==> r == (UnknownLevel, UnknownImplication)
  {
    if aqi.Some? then AQILevel(aqi.value) else (UnknownLevel, UnknownImplication)
  }

  /** `transformAirQuality`: nothing exactly when the list has no first
      sample; that sample must carry its `main` block and a non-empty
      component object. */
  function TransformAirQuality(data: Option<AirPayload>): (r: Outcome<Option<AirQuality>>)
    ensures r == Ok(None) <==> data.None? || data.value.list.None? || data.value.list.value == []
    ensures r.Ok? && r.value.Some? ==>
              var s := data.value.list.value[0];
              && s.main.Some? && s.components.Some?
              && r.value.value.value == s.main.value.aqi
              && (r.value.value.level, r.value.value.healthImplications) == LevelOf(s.main.value.aqi)
              && r.value.value.components == s.components.value
              && DominantPollutant(s.components.value) == Ok(r.value.value.dominantPollutant)
    ensures r == Throws <==> data.Some? && data.value.list.Some? && data.value.list.value != [] &&
                             var s := data.value.list.value[0];
                             s.main.None? || s.components.None? || s.components.value == []
  {
    if data.None? || data.value.list.None? || data.value.list.value == [] then Ok(None)
    else
      var s := data.value.list.value[0];
      if s.main.None? || s.components.None? then Throws
      else
        var aqi := s.main.value.aqi;
        var (level, implications) := LevelOf(aqi);
        match DominantPollutant(s.components.value)
        case Throws => Throws
        case Ok(dominant) => Ok(Some(AirQuality(aqi, level, dominant, implications, s.components.value)))
  }

  // ---------------------------------------------------------------------------
  // transformCurrentWeather

  datatype Snapshot = Snapshot(city: string, country: string, condition: string, description: string,
                               icon: Option<string>, temperature: real, feelsLike: real, humidity: real,
                               windSpeed: real, pressure: real, visibility: Option<real>,
                               sunrise: string, sunset: string, updatedAt: string, coords: Coord)

  /** The shape guard: the nested blocks read without optional chaining. */
  predicate HasShape(d: CurrentPayload) {
    d.main.Some? && d.weather.Some? && d.wind.Some?
  }

  /** A `sys?.sunrise ? format : 'N/A'` field: absent or 0 is falsy. */
  function ClockOrNA(t: Option<int>, loc: Locale): (s: string)
    ensures (t.None? || t.value == 0) ==> s == "N/A"
    ensures t.Some? && t.value != 0 ==> s == loc.clockLabel(t.value)
  {
    if t.Some? && t.value != 0 then loc.clockLabel(t.value) else "N/A"
  }

  /** `transformCurrentWeather`: no snapshot when the guard fails, a throw
      when the guarded payload has no coordinates, otherwise a snapshot
      with 'N/A' defaults for the optional texts. */
  function TransformCurrentWeather(data: Option<CurrentPayload>, cityOverride: Option<string>,
                                   loc: Locale): (r: Outcome<Option<Snapshot>>)
    ensures r == Ok(None) <==> data.None? || !HasShape(data.value)
    ensures r == Throws <==> data.Some? && HasShape(data.value) && data.value.coord.None?
    ensures r.Ok? && r.value.Some? ==>
              var d, s := data.value, r.value.value;
              && s.city == OrElse(cityOverride, d.name)
              && s.country != "" && s.condition != "" && s.description != ""
              && (d.sys.None? || d.sys.value.country.None? || d.sys.value.country == Some("") ==> s.country == "N/A")
              && s.condition == ConditionLabel(d.weather.value)
              && s.description == ConditionText(d.weather.value)
              && s.icon == FirstIcon(d.weather.value)
              && s.temperature == d.main.value.temp && s.feelsLike == d.main.value.feelsLike
              && s.humidity == d.main.value.humidity && s.pressure == d.main.value.pressure
              && s.windSpeed == KmPerHour(d.wind.value.speed)
              && (d.visibility.Some? ==> s.visibility == Some(d.visibility.value / 1000.0))
              && (d.visibility.None? ==> s.visibility.None?)
              && s.updatedAt == loc.clockLabel(d.dt)
              && s.coords == d.coord.value
    ensures r.Ok? && r.value.Some? && data.value.sys.Some? ==>
              var sys, s := data.value.sys.value, r.value.value;
              && (sys.country.Some? && sys.country.value != "" ==> s.country == sys.country.value)
              && s.sunrise == ClockOrNA(sys.sunrise, loc) && s.sunset == ClockOrNA(sys.sunset, loc)
    ensures r.Ok? && r.value.Some? && data.value.sys.None? ==>
              r.value.value.sunrise == "N/A" && r.value.value.sunset == "N/A"
  {
    if data.None? || !HasShape(data.value) then Ok(None)
    else
      var d := data.value;
      if d.coord.None? then Throws
      else
        var sys := d.sys.GetOr(Sys(None, None, None));
        Ok(Some(Snapshot(
          OrElse(cityOverride, d.name),
          OrElse(sys.country, "N/A"),
          ConditionLabel(d.weather.value),
          ConditionText(d.weather.value),
          FirstIcon(d.weather.value),
          d.main.value.temp,
          d.main.value.feelsLike,
          d.main.value.humidity,
          KmPerHour(d.wind.value.speed),
          d.main.value.pressure,
          if d.visibility.Some? then Some(d.visibility.value / 1000.0) else None,
          ClockOrNA(sys.sunrise, loc),
          ClockOrNA(sys.sunset, loc),
          loc.clockLabel(d.dt),
          d.coord.value)))
  }

  // ---------------------------------------------------------------------------
  // getOpenWeatherIconUrl

  const IconBase := "https://openweathermap.org/img/wn/"

  /** The size suffix: "@4x", "@2x", or none for any other size. */
  function SizeSuffix(size: string): string {
    if size == "4x" then "@4x" else if size == "2x" then "@2x" else ""
  }

  /** `getOpenWeatherIconUrl`: no URL for an absent or empty code; the
      size defaults to "2x". */
  function IconUrl(iconCode: Option<string>, size: string := "2x"): (url: Option<string>)
    ensures url.None? <==> iconCode.None? || iconCode.value == ""
    ensures url.Some? ==> url.value == IconBase + iconCode.value + SizeSuffix(size) + ".png"
  {
    if iconCode.None? || iconCode.value == "" then None
    else Some(IconBase + iconCode.value + SizeSuffix(size) + ".png")
  }

  /** A code given without a size gets the double-size icon. */
  lemma IconUrlDefaultSize(code: string)
    requires code != ""
    ensures IconUrl(Some(code)) == Some(IconBase + code + "@2x.png")
  {
    assert SizeSuffix("2x") + ".png" == "@2x.png";
    assert IconBase + code + SizeSuffix("2x") + ".png" == IconBase + code + (SizeSuffix("2x") + ".png");
  }

  /** At one size, distinct icon codes get distinct URLs. */
  lemma IconUrlInjective(a: string, b: string, size: string)
    requires a != "" && b != ""
    requires IconUrl(Some(a), size) == IconUrl(Some(b), size)
    ensures a == b
  {
    var ua, ub := IconBase + a + SizeSuffix(size) + ".png", IconBase + b + SizeSuffix(size) + ".png";
    assert ua == ub;
    assert |a| == |b|;
    forall i | 0 <= i < |a| ensures a[i] == b[i] {
      assert ua[|IconBase| + i] == a[i];
      assert ub[|IconBase| + i] == b[i];
    }
  }
}
