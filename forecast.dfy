/**
  The normalisation step of `getWeather` in app/lib/weather.ts: the forecast
  provider's parsed response is reshaped into the dashboard's view-model.

  The fetch is not modelled: the function receives the response's `ok` flag
  and its body, already parsed (`None` when the body is not JSON). The
  current wall-clock hour comes in as the parameter `startHour` and the
  formatting of a timestamp as an hour label (`new Date(t).toLocaleTimeString`)
  as the parameter `fmt`. Every path on which the source throws, and so
  returns `null` from its `catch`, yields `None`.
*/
module Forecast {

  import opened Options

  // ---------------------------------------------------------------------------
  // The provider's response, field names as the provider sends them. An object
  // that the source dereferences is an Option: a missing one makes the source
  // throw a TypeError.

  datatype RawCurrent = RawCurrent(temperature_2m: real, weather_code: int, wind_speed_10m: real, is_day: int)

  datatype RawDaily = RawDaily(
    time: seq<string>,
    weather_code: seq<int>,
    temperature_2m_max: seq<real>,
    temperature_2m_min: seq<real>)

  datatype RawHourly = RawHourly(time: Option<seq<string>>, temperature_2m: Option<seq<real>>)

  datatype RawForecast = RawForecast(current: Option<RawCurrent>, daily: Option<RawDaily>, hourly: Option<RawHourly>)

  /** What the fetch hands back: the HTTP success flag and the parsed body, if it parsed. */
  datatype Response = Response(ok: bool, body: Option<RawForecast>)

  // ---------------------------------------------------------------------------
  // The view-model

  datatype Current = Current(temperature: real, weatherCode: int, windSpeed: real, isDay: bool)

  datatype Daily = Daily(time: seq<string>, weatherCode: seq<int>, temperatureMax: seq<real>, temperatureMin: seq<real>)

  /** `Math.round` of a number, or NaN when the source rounds an `undefined` read past the end of the array. */
  datatype Temperature = Degrees(value: int) | NaN

  datatype HourlyEntry = HourlyEntry(time: string, temp: Temperature)

  datatype WeatherData = WeatherData(current: Current, daily: Daily, hourly: seq<HourlyEntry>)

  /** At most this many hourly entries are kept. */
  const WindowLength := 24

  function Min(a: int, b: int): int { if a <= b then a else b }

  function Max(a: int, b: int): int { if a >= b then a else b }

  // ---------------------------------------------------------------------------
  // The building blocks: Math.round and Array.prototype.slice

  /** `Math.round` on a finite number: the nearest integer, halves rounded up. */
  function Round(x: real): (r: int)
    ensures x - 0.5 < r as real <= x + 0.5
  {
    (x + 0.5).Floor
  }

  /** The bounds of Round pin its result down: there is one integer in that window. */
  lemma RoundIsTheNearest(x: real, n: int)
    requires x - 0.5 < n as real <= x + 0.5
    ensures Round(x) == n
  {
  }

  /** `s.slice(start, end)` for non-negative bounds: both are clamped to the length, no wrap-around, no padding. */
  function Slice<T>(s: seq<T>, start: nat, end: nat): (r: seq<T>)
    ensures |r| == Max(0, Min(end, |s|) - start)
    ensures forall i :: 0 <= i < |r| ==> r[i] == s[start + i]
  {
    if start >= end || start >= |s| then [] else s[start..Min(end, |s|)]
  }

  /** `Math.round(temps[k])`, where a read past the end gives `undefined` and so NaN. */
  function TemperatureAt(temps: seq<real>, k: nat): Temperature {
    if k < |temps| then Degrees(Round(temps[k])) else NaN
  }

  // ---------------------------------------------------------------------------
  // The specification of the view-model, stated without Round's or Slice's bodies

  /** `t` is what rounding entry `k` of `temps` gives: an integer within one half of it (halves up), or NaN past the end. */
  predicate RoundedFrom(temps: seq<real>, k: nat, t: Temperature) {
    if k < |temps| then t.Degrees? && temps[k] - 0.5 < t.value as real <= temps[k] + 0.5
    else t == NaN
  }

  /** The source reaches the end of the try block: every object it dereferences is there. */
  predicate WellShaped(data: RawForecast, startHour: nat) {
    && data.current.Some?
    && data.daily.Some?
    && data.hourly.Some?
    && data.hourly.value.time.Some?
    // the map callback reads temperature_2m only when the window is not empty
    && (data.hourly.value.temperature_2m.Some? || startHour >= |data.hourly.value.time.value|)
  }

  /**
    The view-model `v` is the normalisation of `data` at `startHour`: current
    and daily fields passed through unrounded, `isDay` the truthiness of
    `is_day`, and the hourly series the entries from `startHour` on, at most
    WindowLength of them, each paired with the rounded temperature of the
    same source index.
  */
  predicate Conforms(data: RawForecast, startHour: nat, fmt: string -> string, v: WeatherData)
    requires WellShaped(data, startHour)
  {
    var cur, day, hours := data.current.value, data.daily.value, data.hourly.value;
    var times := hours.time.value;
    && v.current.temperature == cur.temperature_2m
    && v.current.weatherCode == cur.weather_code
    && v.current.windSpeed == cur.wind_speed_10m
    && (v.current.isDay <==> cur.is_day != 0)
    && v.daily.time == day.time
    && v.daily.weatherCode == day.weather_code
    && v.daily.temperatureMax == day.temperature_2m_max
    && v.daily.temperatureMin == day.temperature_2m_min
    && |v.hourly| == Min(WindowLength, Max(0, |times| - startHour))
    && forall i :: 0 <= i < |v.hourly| ==>
         && v.hourly[i].time == fmt(times[startHour + i])
         && hours.temperature_2m.Some?
         && RoundedFrom(hours.temperature_2m.value, startHour + i, v.hourly[i].temp)
  }

  // ---------------------------------------------------------------------------
  // The normalisation

  /**
    `time.slice(startHour, startHour + 24).map((t, i) => ({time: fmt(t), temp:
    Math.round(temperature_2m[startHour + i])}))`; None when the callback runs
    and `temperature_2m` is missing.
  */
  function HourlyWindow(times: seq<string>, temps: Option<seq<real>>, startHour: nat, fmt: string -> string)
    : (r: Option<seq<HourlyEntry>>)
    ensures r.None? <==> temps.None? && startHour < |times|
    ensures r.Some? ==> |r.value| == Min(WindowLength, Max(0, |times| - startHour))
    ensures r.Some? ==> forall i :: 0 <= i < |r.value| ==>
              && r.value[i].time == fmt(times[startHour + i])
              && temps.Some?
              && RoundedFrom(temps.value, startHour + i, r.value[i].temp)
  {
    var window := Slice(times, startHour, startHour + WindowLength);
    if window == [] then Some([])
    else if temps.None? then None
    else Some(seq(|window|, i requires 0 <= i < |window| =>
      HourlyEntry(fmt(window[i]), TemperatureAt(temps.value, startHour + i))))
  }

  function ToCurrent(cur: RawCurrent): Current {
    Current(cur.temperature_2m, cur.weather_code, cur.wind_speed_10m, cur.is_day != 0)
  }

  function ToDaily(day: RawDaily): Daily {
    Daily(day.time, day.weather_code, day.temperature_2m_max, day.temperature_2m_min)
  }

  /**
    `getWeather` without the fetch: None (the source's `null`) for a response
    that is not ok, a body that did not parse, or any object the source
    dereferences that is missing; otherwise the view-model.
  */
  function Normalize(response: Response, startHour: nat, fmt: string -> string): (r: Option<WeatherData>)
    ensures r.Some? <==> response.ok && response.body.Some? && WellShaped(response.body.value, startHour)
    ensures r.Some? ==> Conforms(response.body.value, startHour, fmt, r.value)
  {
    if !response.ok || response.body.None? then None
    else
      var data := response.body.value;
      if data.hourly.None? || data.hourly.value.time.None? then None
      else
        match HourlyWindow(data.hourly.value.time.value, data.hourly.value.temperature_2m, startHour, fmt)
        case None => None
        case Some(hourly) =>
          if data.current.None? || data.daily.None? then None
          else Some(WeatherData(ToCurrent(data.current.value), ToDaily(data.daily.value), hourly))
  }

  // ---------------------------------------------------------------------------
  // Properties

  /** Conforms leaves no freedom: at most one view-model conforms to a response, so Normalize returns exactly it. */
  lemma ConformingViewIsUnique(data: RawForecast, startHour: nat, fmt: string -> string, v: WeatherData, w: WeatherData)
    requires WellShaped(data, startHour)
    requires Conforms(data, startHour, fmt, v) && Conforms(data, startHour, fmt, w)
    ensures v == w
  {
  }

  /** A view-model conforms to a well-shaped ok response if and only if it is what Normalize returns. */
  lemma NormalizeIsTheConformingView(response: Response, startHour: nat, fmt: string -> string, v: WeatherData)
    requires response.ok && response.body.Some? && WellShaped(response.body.value, startHour)
    ensures Normalize(response, startHour, fmt) == Some(v) <==> Conforms(response.body.value, startHour, fmt, v)
  {
    var r := Normalize(response, startHour, fmt);
    if Conforms(response.body.value, startHour, fmt, v) {
      ConformingViewIsUnique(response.body.value, startHour, fmt, r.value, v);
    }
  }

  /** Mapping the whole hourly series and then slicing it gives the same entries: entry `i` of the window is entry `startHour + i` of the series. */
  lemma {:induction false} WindowIsSliceOfSeries(times: seq<string>, temps: seq<real>, startHour: nat, fmt: string -> string)
    ensures HourlyWindow(times, Some(temps), startHour, fmt)
         == Some(Slice(Series(times, temps, fmt), startHour, startHour + WindowLength))
  {
    var window := Slice(times, startHour, startHour + WindowLength);
    var series := Series(times, temps, fmt);
    var s := Slice(series, startHour, startHour + WindowLength);
    assert |s| == |window|;
    if window != [] {
      var w := seq(|window|, i requires 0 <= i < |window| =>
        HourlyEntry(fmt(window[i]), TemperatureAt(temps, startHour + i)));
      assert HourlyWindow(times, Some(temps), startHour, fmt) == Some(w);
      forall i | 0 <= i < |w| ensures w[i] == s[i] {
        assert s[i] == series[startHour + i];
      }
      assert w == s;
    }
  }

  /** The whole series, entry `i` paired with temperature `i`: `time.map((t, i) => ...)` without the slice. */
  function Series(times: seq<string>, temps: seq<real>, fmt: string -> string): (r: seq<HourlyEntry>)
    ensures |r| == |times|
  {
    seq(|times|, i requires 0 <= i < |times| => HourlyEntry(fmt(times[i]), TemperatureAt(temps, i)))
  }

  /** RoundedFrom determines the temperature. */
  lemma RoundedAt(temps: seq<real>, k: nat, t: Temperature)
    requires RoundedFrom(temps, k, t)
    ensures t == TemperatureAt(temps, k)
  {
  }

  /** Moving the start hour on by one drops the first entry and, while the series lasts, brings in the next one. */
  lemma WindowSlides(times: seq<string>, temps: seq<real>, startHour: nat, fmt: string -> string)
    requires startHour < |times|
    ensures
      var now := HourlyWindow(times, Some(temps), startHour, fmt).value;
      var next := HourlyWindow(times, Some(temps), startHour + 1, fmt).value;
      next == now[1..] + (if startHour + WindowLength < |times|
                          then [HourlyEntry(fmt(times[startHour + WindowLength]), TemperatureAt(temps, startHour + WindowLength))]
                          else [])
  {
  }

  /** A response with three forecast days (72 hourly entries) always yields a full window of 24 hours when started at a clock hour. */
  lemma ThreeDaysGiveAFullWindow(response: Response, startHour: nat, fmt: string -> string)
    requires startHour < 24
    requires response.body.Some? && response.body.value.hourly.Some?
    requires response.body.value.hourly.value.time.Some? && |response.body.value.hourly.value.time.value| == 3 * 24
    requires Normalize(response, startHour, fmt).Some?
    ensures |Normalize(response, startHour, fmt).value.hourly| == 24
  {
  }

  /** A response that is not ok, or whose body did not parse, yields None: the source fails soft. */
  lemma FailsSoft(response: Response, startHour: nat, fmt: string -> string)
    requires !response.ok || response.body.None?
    ensures Normalize(response, startHour, fmt) == None
  {
  }

  /** With 30 hourly entries and the clock at 10, the window holds 20 entries starting at source index 10. */
  lemma ShortSeriesIsNotPadded(times: seq<string>, temps: seq<real>, fmt: string -> string)
    requires |times| == 30
    ensures
      var w := HourlyWindow(times, Some(temps), 10, fmt).value;
      |w| == 20 && w[0].time == fmt(times[10]) && w[19].time == fmt(times[29])
  {
  }

  /** Math.round rounds halves up, also for negative numbers, and keeps whole numbers. */
  lemma RoundExamples()
    ensures Round(28.6) == 29 && Round(2.5) == 3 && Round(-2.5) == -2 && Round(-2.6) == -3 && Round(7.0) == 7
  {
  }
}
