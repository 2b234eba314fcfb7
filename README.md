# Weather dashboard: the weather-code classifier and the forecast normalisation

This project models a small server-rendered weather dashboard. The part of
its logic worth modelling lives in `app/lib/weather.ts`; the rest of the
repository (page composition, coordinate defaulting, geolocation, the chart)
is listed under "## Left out". The two modelled pieces are:

- **The condition classifier** (`getWeatherCondition`). It maps a WMO
  present-weather code (WMO Code Table 4677, as served by Open-Meteo) to a
  label and an icon name. It is a chain of range tests where the first match
  wins, with `Unknown`/`Cloud` as the fallback. Module `WeatherCondition`
  (`weather_condition.dfy`) writes it as that if-chain. It also writes the
  seven tested ranges as a table of bands looked up first-match. The lemmas
  prove that the bands are pairwise disjoint, so the order of the tests never
  changes the result. They also pin down exactly which codes give each
  condition.
- **The forecast normalisation** (`getWeather` without its fetch). It turns
  the provider's parsed response into the dashboard's view-model. Current and
  daily fields pass through unrounded, and `is_day` is coerced to a boolean.
  The hourly series is sliced from the current hour for up to 24 entries, and
  each entry is paired with the rounded temperature at the same source index.
  Any failure gives `null`. Module `Forecast` (`forecast.dfy`) models this as
  the function `Normalize`. Three things that were ambient in the source are
  parameters here: the HTTP `ok` flag with the parsed body, the start hour,
  and the hour-label formatter. `Conforms` is a relational specification of
  the view-model, written without the bodies of `Round` and `Slice`. The
  lemmas prove that `Normalize` returns the one view-model that conforms.

`Options` (`options.dfy`) holds the `Option` datatype. `None` stands for the
source's `null`.

Two facts about the code worth stating plainly:

- Code 999 is `Thunderstorm`, because the last test (`code >= 95`) has no
  upper bound (`CoarseCodes`, `ThunderstormHasNoUpperBound`).
- The daily arrays pass through at whatever length the provider sends.

## Model

| member | source | states |
|---|---|---|
| WeatherCondition.GetWeatherCondition | app/lib/weather.ts:75-85 | The classifier is total: every integer code yields one of the eight label/icon pairs. |
| WeatherCondition.TableIsPairwiseDisjoint | app/lib/weather.ts:77-83 | The seven tested ranges (0, 1..3, 45..48, 51..67, 71..77, 80..82, 95 and up) are pairwise disjoint. |
| WeatherCondition.ClassifierIsTableLookup | app/lib/weather.ts:77-84 | The if-chain is the first-match lookup in the table of those seven ranges, with Unknown as the fallback. |
| WeatherCondition.LookupFindsContainingBand | app/lib/weather.ts:77-83 | In a table of disjoint bands, any band that contains the code decides the result, wherever that band stands in the table. |
| WeatherCondition.LookupWithoutMatch | app/lib/weather.ts:84 | A code that no band contains falls through to Unknown/Cloud. |
| WeatherCondition.LookupAmongTableBands | app/lib/weather.ts:77-83 | In any chain built from the seven tested ranges, in any order and with repeats, first-match lookup stops at the one range that contains the code. |
| WeatherCondition.TestOrderIsIrrelevant | app/lib/weather.ts:77-83 | Any chain of the seven tests, in any order and even with a test repeated, classifies every code exactly as the source's order does. |
| WeatherCondition.ClassifiedByContainingBand | app/lib/weather.ts:77-83 | A code lies in a tested range if and only if it is classified as that range's condition (both directions). |
| WeatherCondition.UnknownIffInGap | app/lib/weather.ts:84 | The result is Unknown exactly for the codes in no range: the negatives and 4..44, 49..50, 68..70, 78..79, 83..94. |
| WeatherCondition.ClearAndPartlyCloudy | app/lib/weather.ts:77-78 | Clear sky/Sun holds for code 0 and no other code. Partly cloudy/CloudSun holds for codes 1..3 and no others. |
| WeatherCondition.ThunderstormHasNoUpperBound | app/lib/weather.ts:83 | Thunderstorm/CloudLightning holds for every code of 95 or more, and only for those codes. |
| WeatherCondition.CoarseCodes | app/lib/weather.ts:80-84 | Codes 56, 57, 66 and 67 are Drizzle / Rain. Snow-shower codes 85 and 86 are Unknown. Code 999 is Thunderstorm. |
| WeatherCondition.LabelDeterminesIcon | app/lib/weather.ts:77-84 | Two codes with the same label have the same icon. |
| WeatherCondition.LabelsAreDistinct | app/lib/weather.ts:77-84 | The eight conditions have eight distinct labels. |
| Forecast.Round | app/lib/weather.ts:50 | `Math.round` on a finite number gives an integer r with x - 1/2 < r <= x + 1/2. This is the nearest integer, with halves rounded up. |
| Forecast.RoundIsTheNearest | app/lib/weather.ts:50 | Exactly one integer satisfies those bounds, so the bounds determine `Math.round`. |
| Forecast.RoundExamples | app/lib/weather.ts:50 | 28.6 rounds to 29, 2.5 to 3, -2.5 to -2, -2.6 to -3, and 7.0 stays 7. |
| Forecast.Slice | app/lib/weather.ts:46-47 | `slice(start, end)` has length max(0, min(end, n) - start) and entry i is source entry start + i. There is no padding and no wraparound. |
| Forecast.HourlyWindow | app/lib/weather.ts:45-51 | The window has min(24, max(0, n - h)) entries. Entry i has the label of source time h + i and the rounding of temperature h + i, or NaN when that read is past the end. It fails exactly when the temperature array is missing and the window is not empty. |
| Forecast.Normalize | app/lib/weather.ts:38-71 | The result is null exactly when the response is not ok, the body did not parse, or an object the code dereferences is missing. Otherwise the result conforms: current and daily values pass through unrounded, isDay is true iff is_day is non-zero, and the hourly window is as above. |
| Forecast.ConformingViewIsUnique | app/lib/weather.ts:53-66 | At most one view-model conforms to a given response and start hour. |
| Forecast.NormalizeIsTheConformingView | app/lib/weather.ts:45-66 | For a well-shaped ok response, a view-model conforms if and only if it is what Normalize returns. |
| Forecast.RoundedAt | app/lib/weather.ts:50 | A temperature within the rounding bounds of source entry k is the rounded entry k. Past the end of the array it is NaN. |
| Forecast.WindowIsSliceOfSeries | app/lib/weather.ts:46-50 | Slicing and then mapping with index offset h gives the same entries as mapping the whole series and then slicing. So the index alignment h + i is correct. |
| Forecast.WindowSlides | app/lib/weather.ts:45-47 | Moving the start hour on by one drops the first entry. While the series lasts, it appends the next one. |
| Forecast.ThreeDaysGiveAFullWindow | app/lib/weather.ts:45-47 | With 72 hourly entries (three forecast days) and a start hour of 0..23, a successful result has exactly 24 hourly entries. |
| Forecast.FailsSoft | app/lib/weather.ts:38-71 | A response that is not ok, or whose body did not parse, gives null and never an exception. |
| Forecast.ShortSeriesIsNotPadded | app/lib/weather.ts:46-47 | With 30 hourly entries and start hour 10, the window holds 20 entries, from source index 10 through 29. |

## Left out

- The request: building the URL parameters, `fetch`, the one-hour `revalidate` cache hint and `console.error` (app/lib/weather.ts:24-36, 69). The model receives only the `ok` flag and the parsed body. A body that is not JSON, or is the JSON `null`, is `body == None`.
- The clock: `new Date().getHours()` is the parameter `startHour`. The lemmas that need a clock hour assume 0..23.
- Locale formatting: `new Date(time).toLocaleTimeString(...)` is the uninterpreted parameter `fmt`.
- Floating point: numbers are reals. NaN, infinities and the -0 that `Math.round` can return are not modelled. The one NaN the code can produce on well-typed input is modelled as `Temperature.NaN`: a temperature read past the end of `temperature_2m` gives `undefined`, and `Math.round` turns that into NaN.
- JSON values of unexpected types: provider fields are typed as the provider documents them. `is_day` is an integer, and the `!!` coercion is modelled as "non-zero". Objects the code dereferences are optional, and a missing one leads to `null`. A present field holding a wrongly typed value is not modelled.
- The `windSpeed` and `weatherCode` fields declared on hourly entries in the `WeatherData` interface (app/lib/weather.ts:17-18): the code never fills them.
- app/page.tsx: UI composition, the sign-in and sign-out actions, the debug panel, `parseFloat` coordinate defaulting (app/page.tsx:26-28), the Unknown/Cloud fallback when there is no weather data (app/page.tsx:31), the `slice(0, 4)` of daily cards (app/page.tsx:126) and the icon-name switch (app/page.tsx:9-18). These are rendering and float parsing.
- app/components/LocationRequester.tsx: the browser geolocation effect, which is asynchronous, uses React state and rounds with float `toFixed(4)`.
- app/components/WeatherChart.tsx: declarative chart configuration with no logic of its own.
