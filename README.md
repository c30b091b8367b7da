# Weather widget: decision logic of `src/weather.js`

The widget lets a user type a city name, pick a suggestion from a geocoding service, and
see the current weather for it, or see the weather for their own position. This project
models the decisions the script makes between its network calls:

- `getWeatherStatus`, the table from WMO weather codes (WMO code table 4677, as reported
  by Open-Meteo) to a description, with its `"Unknown"` fallback (`WeatherCodes`);
- `updateUIState`, which hides the loading, not-found and details screens and then shows
  at most one of them (`Screens.Reveal`, `WeatherPage.Page.UpdateUIState`);
- the autocomplete debounce: the `input` handler, the single timer slot `timeoutId`, the
  empty-query guard of `searchCityOptions`, the Enter/icon search, the suggestion list,
  and what selecting a suggestion or clicking elsewhere does (`Search`, `WeatherPage`);
- what `loadWeather` writes into the weather card for each shape of forecast answer,
  including the partial updates left behind when a missing object makes it throw, and
  the "my location" button rule in its `finally` (`Forecast.Render`, `WeatherPage`);
- the suggestion label, the heading, the flag address and the reverse-geocoding name
  fallback (`Labels`).

JavaScript's `String.prototype.trim` is modelled with the ECMAScript set of whitespace
and line-terminator code points (`Text`). Truthiness of a possibly missing string field
is `Text.Truthy`. Network answers are parameters: a geocoding answer is a `GeoReply`,
a forecast answer an `Option<Reply>`, a reverse-geocoding answer an `Option<Place>`
(`None` when the request or its JSON rejected). Numbers from the forecast are opaque
strings; only the suffixes `"°C"`, `"%"` and `" kmph"` are appended to them. Time is
abstract: `Page.Fire` (or the `TimerFired` event) is the moment the 500 ms debounce
delay has elapsed.

`WeatherPage.Page` holds the page's state as fields (bar text, list visibility, list
contents, the scheduled query, the queries sent, the three screens, the card's texts,
the button's visibility). Each handler is a method whose new state is tied to a
function of the old one (`Search.OnInput`, `Search.OnTimer`, `Forecast.Render`, ...).
The properties are proved about those functions. `Search.Run` replays a sequence of
events, and `Search.Scheduled` states the debounce rule independently, reading the
events backwards from the last one.

## Model

| member | source | states |
|---|---|---|
| `WeatherCodes.WeatherStatus` | src/weather.js:106-114 | the result is never empty; it is "Unknown" exactly for codes outside the table, and the table's description otherwise |
| `WeatherCodes.KnownSkyCodes` | src/weather.js:108-109 | codes 0, 1, 2, 3, 45 and 48 give their listed descriptions |
| `WeatherCodes.KnownPrecipitationCodes` | src/weather.js:109-111 | codes 51, 53, 55, 61, 63, 65, 80 and 95 give their listed descriptions |
| `WeatherCodes.UnknownExactlyOffTable` | src/weather.js:113 | "Unknown" is returned if and only if the code is not one of the 14 listed codes |
| `Text.Trim` | src/weather.js:142 | the trimmed query is empty exactly when the input is blank; otherwise it neither starts nor ends with whitespace |
| `Text.TrimIsSlice` | src/weather.js:142 | the trimmed query is the input less a run of whitespace at the front and a run at the back, and nothing else |
| `Text.TrimIdempotent` | src/weather.js:142 | trimming a trimmed query changes nothing, so a scheduled query is already trimmed |
| `Labels.OptionLabel` | src/weather.js:51-52 | the label starts with the name and is longer than it exactly when admin1 is truthy, the rest then being ", " + admin1 |
| `Labels.HeaderText` | src/weather.js:81 | the heading is the name, then ", ", then the country code, and nothing else |
| `Labels.FlagUrl` | src/weather.js:82 | the flag address is the flagsapi prefix, the country code, and "/shiny/64.png" |
| `Labels.PlaceName` | src/weather.js:199 | the name is locality if truthy, else city if truthy, else "Current Location"; it is never empty |
| `Labels.PlaceCountry` | src/weather.js:200 | the country is empty exactly when countryCode is absent or empty, and is countryCode otherwise |
| `Labels.CurrentPlace` | src/weather.js:197-208 | reverse-geocoded name and country, or "My Location" and "" when the lookup failed; the name is never empty |
| `Screens.Reveal` | src/weather.js:159-175 | at most one screen is shown; "loading", "error" and "success" each show exactly their own screen; any other state hides all three |
| `Forecast.FirstText` | src/weather.js:87 | the first daily value, or "undefined" for an empty array |
| `Forecast.ConditionText` | src/weather.js:84 | the condition is the status of today's code, or "Unknown" for an empty code list; never empty |
| `Forecast.Render` | src/weather.js:74-94 | success exactly when both current and daily are present; on failure the fields written before the throwing statement keep their new values and the rest are unchanged; on success every field holds its value with its unit suffix |
| `Search.SearchCityOptions` | src/weather.js:22-23 | an empty query changes nothing; a non-empty one is sent; no empty query is ever sent |
| `Search.OnInput` | src/weather.js:141-157 | a blank input hides the list and keeps what was scheduled; a non-blank input replaces it with the trimmed input; the invariant is kept |
| `Search.OnTimer` | src/weather.js:154-156 | after the delay nothing is scheduled; the scheduled query, if any, has been sent exactly once |
| `Search.OnSubmit` | src/weather.js:119-128 | Enter or the icon sends the untrimmed bar text unless it is empty, changes nothing else, and does not cancel the scheduled search |
| `Search.OnReply` | src/weather.js:31-42 | a failed request changes nothing; an answer replaces the suggestions and hides the list exactly when results are missing; an empty results array is shown |
| `Search.OnPick` | src/weather.js:55-59 | choosing a suggestion puts its name in the bar and hides the list, and nothing else changes |
| `Search.OnClickOutside` | src/weather.js:131-135 | a click elsewhere hides the list and nothing else changes |
| `Search.StepPending` | src/weather.js:139-157 | only a non-blank input schedules, only the timer clears the slot, every other event leaves it |
| `Search.RunValid` | src/weather.js:23 | over any sequence of events no blank query is ever scheduled and no empty query is ever sent |
| `Search.RunScheduled` | src/weather.js:139-157 | after any events at most one search is scheduled: the trimmed latest non-blank input since the timer last fired |
| `Search.TimerSendsLatest` | src/weather.js:150-156 | when the timer fires after any events it sends exactly the query the debounce rule names, or nothing |
| `Search.TypingOnCancels` | src/weather.js:150-156 | two non-blank inputs before the timer fires send only the second |
| `Search.ClearingDoesNotCancel` | src/weather.js:145-148 | a blank input after a non-blank one hides the list but the non-blank query is still sent |
| `WeatherPage.Page.constructor` | src/weather.js:177 | the page starts with the loading screen shown, an empty bar and list, and nothing scheduled |
| `WeatherPage.Page.UpdateUIState` | src/weather.js:159-175 | the screens become `Reveal(state)`, whatever they were before, so a second identical call changes nothing |
| `WeatherPage.Page.SearchCityOptions` | src/weather.js:22-23 | the search box becomes `Search.SearchCityOptions` of the old one |
| `WeatherPage.Page.Input` | src/weather.js:141-157 | the bar, list and timer become `OnInput` of the old state |
| `WeatherPage.Page.Fire` | src/weather.js:154-156 | the timer and sent queries become `OnTimer` of the old state |
| `WeatherPage.Page.Submit` | src/weather.js:118-128 | the sent queries become `OnSubmit` of the old state |
| `WeatherPage.Page.ClickOutside` | src/weather.js:131-135 | the list becomes hidden as `OnClickOutside` says |
| `WeatherPage.Page.Respond` | src/weather.js:31-42 | the search box becomes `OnReply` of the old one; the error screen is shown when results are missing, and the screens are untouched otherwise; the card is untouched |
| `WeatherPage.Page.LoadWeather` | src/weather.js:73-103 | the card and screens become those `Render` gives; the "my location" button is hidden exactly when `isMyLoc` holds |
| `WeatherPage.Page.ShowForecast` | src/weather.js:80-90 | the card and screens for a forecast that arrived, as `Render` gives them |
| `WeatherPage.Page.Select` | src/weather.js:55-62 | the bar takes the chosen city's name, the list hides, the city's weather is rendered, and the button shows |

## Left out

- Network I/O: the `fetch` calls and JSON parsing of the geocoding, forecast,
  reverse-geocoding and image-search services. Their settled answers are parameters.
- Asynchrony: each handler runs to completion in the model. Interleavings of a pending
  request with later events, answers arriving out of order, and the transient loading
  screen during an `await` are not modelled. `Page.Fire` and `Page.Respond` are separate
  steps, and nothing pairs an answer with the request it belongs to.
- `getUserLocation` and the `navigator.geolocation` callbacks (browser API, asynchronous).
  Only the naming rule its success and failure paths use is modelled (`Labels.CurrentPlace`).
  The permission-denied path, which starts a load for New Delhi and then shows the error
  screen while that load is still pending, depends on that ordering and is left out.
- `updateBackground` and the background cross-fade: DOM animation with real timers.
- Real timer semantics: the 500 ms delay becomes the explicit `Fire` step.
- DOM rendering: list items, their classes and `innerHTML`. The list is the sequence of
  cities it shows; `Labels.OptionLabel` is the text of the item's first span.
- Logging, `alert` and the image-search key.
- Forecast.Reply: a `daily` object that lacks one of its two arrays, and `null` entries in
  them, are not modelled. The model treats numbers as the strings JavaScript renders.
- WeatherCodes.WeatherStatus: takes an integer code. Other values are not modelled: a
  fractional number, `null` or `undefined` would also read "Unknown", but a string key such
  as "3" would find its entry and an inherited key such as "toString" would return a function.
- Text.Trim: works on Unicode scalar values. JavaScript strings are UTF-16 code units,
  but every character `trim` removes lies in the Basic Multilingual Plane, so the result
  is the same.
- WeatherPage.Page.constructor: the initial texts and classes of the HTML markup are not
  part of this model. The constructor uses an empty bar, a hidden list, blank card texts
  and a visible button, and then runs the first `updateUIState("loading")`.
