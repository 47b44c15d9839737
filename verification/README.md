# Weather widget — Dafny model

A model of the logic of a browser weather widget (`script/script.js`, class
`WeatherApp`). The widget takes a place name or a "lat, lon" pair from a search
box (or the device position from a button), geocodes names through the
Open-Meteo geocoder, fetches current conditions and a forecast, and fills three
page regions: current conditions, an hourly strip and a daily strip.

The model cuts this logic away from the page and the network:

- `WeatherCodes` — the glyph and description tables for the WMO weather
  interpretation codes (WMO code table 4677, in the subset Open-Meteo reports),
  with an independent grouping of the codes by WMO phenomenon as a cross-check.
- `Hourly` — the selection loop of the hourly strip, as a method over the
  parallel hourly series, against a functional definition (the first twelve
  qualifying indices).
- `Daily` — the first seven days, labelled "Hoy" and then by weekday name.
- `Search` — JavaScript `trim`, the recogniser for
  `^(-?\d+\.?\d*),\s*(-?\d+\.?\d*)$`, the search dispatch, the display name of
  a geocoded place and the geocoder's "first result or nothing" rule.
- `Current` — the current-conditions panel built from one reading.
- `Controller` — the controller as a pure transition function
  `Step(state, event) -> (state, effect)`. The state is the three regions
  (Loading / Populated / Error(message)), the selected location and the
  location button's disabled flag. Events are a submitted search, a settled
  geocode, a settled weather load (the two fetches joined), a click on the
  location button and a settled position request. Effects are the requests
  handed to the host.

Host facilities the model does not define are parameters: `parseFloat` and
`toFixed(4)` (the record `Search.Numerics`), the current instant (the `now`
of a settled load, since the hourly strip reads the clock when it renders),
whether the browser has geolocation, and the outcomes of the geocoder, the
weather service and the position request (events).

Behaviour of the code that the model keeps:

- The selected location is set when a load begins, before fetching, and is
  kept when the load fails (`script/script.js:85`).
- The current panel shows the name the settling load was started with
  (`script/script.js:94`), which after overlapping loads need not be the
  selected location's name.
- After a found device position, the button is re-enabled only when the load
  it started has settled (`script/script.js:70-72`).
- The coordinate pattern accepts a trailing point (`12.`), and rejects a
  leading `+` and exponents.

## Model

| member | source | states |
|---|---|---|
| WeatherCodes.Icon | script/script.js:218-221 | The glyph is the unknown glyph exactly for codes outside the 28 known ones; codes 0 and 1 give sun / sun-behind-cloud by day; the moon appears exactly for codes 0 and 1 at night. |
| WeatherCodes.Description | script/script.js:223-225 | The description is "Desconocido" exactly for codes outside the 28 known ones, and is never empty. |
| WeatherCodes.IconIgnoresDayFlag | script/script.js:219 | For every code other than 0 and 1 the day flag does not change the glyph. |
| WeatherCodes.SameKeySet | script/script.js:218-225 | A code has a real glyph if and only if it has a real description: the two tables have the same keys. |
| WeatherCodes.KnownCodesAreWmoGroups | script/script.js:219 | The known codes are exactly the codes of the WMO 4677 groups in the subset Open-Meteo reports (clear, cloudiness, fog, drizzle, freezing drizzle, rain, freezing rain, snowfall, snow grains, rain showers, snow showers, thunderstorm); WMO's intermittent and other codes of those groups are not in it. |
| WeatherCodes.DescriptionsFollowWmoGroups | script/script.js:224 | The description of every grouped code outside the cloudiness group (whose three descriptions share no stem) starts with the Spanish stem of its WMO group. |
| WeatherCodes.TablesFollowWmoGroups | script/script.js:219 | The thunderstorm, fog, drizzle and rain groups each use one glyph for all their codes, and the freezing-drizzle, freezing-rain and snow-grains groups share the sleet glyph. |
| Hourly.AtOrAfter | script/script.js:162-164 | The qualifying indices are exactly the indices whose timestamp is at or after now, each once, in increasing order. |
| Hourly.AtOrAfterCount | script/script.js:162-164 | There are as many qualifying indices as the reference count of timestamps at or after now. |
| Hourly.SelectHourly | script/script.js:157-174 | The loop that pushes qualifying entries and breaks once twelve are kept returns exactly the first twelve qualifying entries (all of them if fewer). |
| Hourly.WindowShape | script/script.js:160-174 | The strip has min(12, number of qualifying timestamps) entries; entry k is the whole record at the k-th qualifying index, so every field comes from the same index, the entries are a subsequence in source order, and every entry is at or after now. |
| Hourly.WindowComplete | script/script.js:162-173 | No qualifying entry is skipped before the twelfth: an entry at or after now with fewer than twelve qualifying entries before it is in the strip. |
| Daily.View | script/script.js:191-201 | Exactly min(7, number of days) cards; card 0 is labelled "Hoy" and card k>0 by the weekday name of day k; each card's glyph is the daytime glyph of its code and its figures come from the same day. |
| Daily.TodayOnlyFirst | script/script.js:193-199 | A card is labelled "Hoy" if and only if it is the first card, whatever the weekdays. |
| Daily.NeverNight | script/script.js:200 | No daily card shows the night glyph. |
| Daily.ViewDependsOnFirstWeek | script/script.js:197-201 | The strip depends only on the first seven days and not on the weekday of the first. |
| Search.Trim | script/script.js:29 | The result is the infix of the input left after removing white space at both ends; it is empty exactly when the input is all white space, and otherwise starts and ends with a non-space. |
| Search.TrimIdempotent | script/script.js:29 | Trimming a trimmed text changes nothing. |
| Search.MatchCoordinates | script/script.js:32 | A match returned by the recogniser is a decomposition of the text into number, comma, white space, number. |
| Search.MatchCoordinatesExact | script/script.js:32 | The recogniser returns groups (lat, lon) if and only if the text has the coordinate form with those groups, so the groups of a match are unique. |
| Search.Classify | script/script.js:28-39 | Text that is all white space is ignored; a coordinate match yields its two groups; any other text is geocoded, trimmed and non-empty, and then no coordinate decomposition of it exists. |
| Search.MadridCoordinates | script/script.js:32-36 | "40.4168, -3.7038" is taken as coordinates with groups "40.4168" and "-3.7038". |
| Search.PlaceLabel | script/script.js:46 | The place name, followed by ", region" and ", country" each only when present and non-empty; the label always starts with the name, and is just the name exactly when neither part is present and non-empty. |
| Search.FirstResult | script/api.js:7 | A place is found exactly when the result list exists and is non-empty, and it is the first result. |
| Current.Render | script/script.js:128-131 | The panel names the place the load was asked for, keeps the reading, and shows the glyph of the code under the reading's day flag and the code's description; so the moon only for a clear or mainly clear night, and the unknown glyph exactly when the unknown description. |
| Controller.BeginLoad | script/script.js:84-86 | Starting a load selects its location, puts all three regions in Loading and issues the joined weather fetch; the button is untouched. |
| Controller.ShowError | script/script.js:116-126 | All three regions show the same message; the location and button are untouched. |
| Controller.Join | script/script.js:89-92 | The joined load succeeds if and only if both fetches succeed, and then carries both payloads. |
| Controller.OneFailedFetchFailsAll | script/script.js:88-101 | A load whose current-conditions fetch succeeds but whose forecast fetch fails ends with all three regions showing the load error. |
| Controller.FinishLoad | script/script.js:88-101 | On success all three regions are populated from the same load (the current panel under that load's name); on failure all three show the load error; the selected location is kept either way, and a device load re-enables the button. |
| Controller.Step | script/script.js:28-126 | Every event keeps the regions together: all loading, all the same error, or all populated; an event that leaves the regions populated and changes them is a successful load settling, and all three regions are its renderings (its reading under its request's name, its hourly window at its instant, its daily strip); a weather fetch is issued only with its location selected and all regions loading; the location changes only when a weather load begins; only the location button's own events change its flag. |
| Controller.Start | script/script.js:5-26 | Start-up selects Madrid, shows loading everywhere and issues its weather fetch, with the button enabled. |
| Controller.HandleSearch | script/script.js:28-39 | Blank text changes nothing and issues nothing; text whose trim has the coordinate form loads those coordinates without geocoding; any other text is geocoded as trimmed with the state unchanged. |
| Controller.HandleGeocode | script/script.js:42-55 | A first result becomes the selected location under its composed name, every region shows loading and its weather fetch is issued; no result shows the not-found message, an exception the search-error message, and both issue no load and keep the location; the button is untouched. |
| Controller.HandleLocationClick | script/script.js:57-67 | Without geolocation an error shows and the button is untouched; otherwise the button is disabled and the position requested, with regions and location unchanged; a disabled button ignores clicks. |
| Controller.HandlePosition | script/script.js:67-79 | A found position starts a load under "Tu ubicación" with the button still disabled (it is enabled when that load settles, see FinishLoad); a failed position shows its message and enables the button, keeping the location. |
| Controller.RunCoherent | script/script.js:84-126 | After any sequence of events from a coherent state, the three regions are all loading, all the same error, or all populated. |
| Controller.RunLocation | script/script.js:84-85 | After any sequence of events the selected location is that of the last weather load issued, or the starting one if none was. |
| Controller.RunFromOneLoad | script/script.js:84-101 | If populated regions before a run are the renderings of one successful load among the earlier events, then after the run they are the renderings of one successful load among the earlier events and the run's events. |
| Controller.NeverMixed | script/script.js:10-26 | From start-up, after any sequence of events the regions are all loading, all the same error, or all populated; when populated, all three are the renderings of one and the same successful load among those events. |

## Left out

- `script/api.js` request building (`fetch`, `URLSearchParams`, `encodeURIComponent`, the base URLs and field lists): the network is the host's. Its throw on a non-success status is folded into `LoadFailed`, and its first-result rule is `Search.FirstResult`; a geocoder reply that is not JSON is `GeocodeFailed`.
- HTML strings and `innerHTML` writes: only the region state each call produces is modelled, and the button's label only through its disabled flag.
- Floating point and locale formatting (`parseFloat`, `toFixed(4)`, `Math.round`, `toLocaleTimeString`): number parsing and formatting are opaque host functions; readings are passed through as `real`.
- `Date` parsing and `getDay()`, which depend on the host time zone: hourly timestamps are integers on one clock and each daily date is given by its weekday (0 = Sunday).
- Series whose field arrays have different lengths: the renderer assumes the service's aligned series, so the model takes only aligned series.
- `Promise.all` concurrency: each joined load settles as one event; overlapping loads interleave as events in any order, with no ordering guard, as in the code.
- The per-hour glyph and rounding of the hourly strip are HTML building; the strip's model is the selected entries.
- The geolocation options (high accuracy, 10 s timeout, 5 min maximum age) are handed to the host and not modelled.
- Event-listener wiring, `console.error` logging and `DOMContentLoaded` bootstrapping; the default Madrid load is `Controller.Start`.
- The region contents before the first load come from the page markup, which is not part of this model; `Controller.Start` puts them in Loading at once.
