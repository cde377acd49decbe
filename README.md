# Weather lookup: a verified model

This project models a small weather lookup web application in Dafny. In the
browser, a React component holds the typed city, the report on screen, a
loading flag, an error message and a temperature unit. It posts
`{ city, unit }` to `POST /api/weather` and draws the report it gets back
with an icon and a sentence chosen from the WMO weather code. On the
server, an Express handler validates the city and resolves it with a
geocoding provider. It then asks a weather provider for the current
conditions at those coordinates, in units mapped from the request, and
answers with a renamed copy of the provider's fields or with an error status.

Modules:

- `Wrappers`: `Option` and `Result`.
- `Contract`: the shapes both sides share. These are the request body, the
  weather report, the error body and the response, plus JavaScript values
  and their truthiness.
- `JsText`: JavaScript's `String.prototype.trim`, and the proof that it
  yields the empty string exactly for blank text.
- `WeatherServer`: `getCoordinates` and the `/api/weather` handler as one
  function, `HandleWeather`. The upstream outcomes are its inputs, and it
  returns the calls it made, in order, together with the response.
- `WeatherDisplay`: `pickWeatherIcon`, `describeWeather` and the unit
  labels. They are compared with the application's own category table
  for weather codes (`TableCategory`). That table sends each code to one
  of clear, partly cloudy, overcast, fog, drizzle, rain, snow and
  thunderstorm, and every code it does not list to a clear-day default.
- `WeatherClient`: the component's state as the class `WeatherApp`. Each
  state change is a method: typing, the two halves of `askForWeather`, the
  whole lookup, the unit flip, and the effect that looks the weather up
  again after a unit change. The module also holds lemmas that join the
  client to the server.

The model follows the code in four places where an expected behaviour
differs from it:

- A category table would send every unlisted code to the clear-day
  default. The code's `skyCode <= 2` test (client/src/App.jsx:58) gives
  negative codes, and JSON null, the light-cloud icon instead
  (`NegativeCodesLookCloudy`).
- One might expect the server to reject a blank city. The code rejects
  only a falsy city, so a whitespace-only city is geocoded
  (`WhitespaceCityIsLookedUp`). The client never sends such a city
  (`ClientRequestsPassValidation`).
- No duplicate submission is suppressed while a request is in flight.
  Only one of the two submit buttons is disabled, and the Enter key and
  the search-icon button call `askForWeather` directly.
- The component keeps no list of recent searches, so the model has none.

## Model

| member | source | states |
|---|---|---|
| `JsText.TrimStart` | client/src/App.jsx:20 | the result is a suffix of the input; everything dropped is whitespace; the result is empty or starts with a non-whitespace character |
| `JsText.TrimEnd` | client/src/App.jsx:20 | the result is a prefix of the input; everything dropped is whitespace; the result is empty or ends with a non-whitespace character |
| `JsText.TrimEmptyIffBlank` | client/src/App.jsx:20 | `s.trim()` is empty exactly when every character of `s` is JavaScript whitespace or a line terminator |
| `WeatherServer.GetCoordinates` | server/index.js:18-37 | succeeds exactly when the geocoder answered with a non-empty `results`; the location is then the first result's name, country, latitude and longitude; every failure gives the one message 'City not found or geocoding service unavailable' |
| `WeatherServer.RequestedUnits` | server/index.js:42-53 | the tokens are always ('celsius','kmh') or ('fahrenheit','mph'), so they never disagree; Celsius exactly when `unit` is absent or exactly 'celsius' (null and every other value give Fahrenheit) |
| `WeatherServer.ErrorResponse` | server/index.js:80-84 | status 500 with a non-empty message: the error's own message when it is non-empty, else exactly 'Failed to fetch weather data' |
| `WeatherServer.HandleWeather` | server/index.js:40-86 | the status is one of 200, 400 and 500, and 200 goes with a report; the status is 400 exactly for a falsy city, with 'City name is required' and no upstream call; the geocoder is called first, with the raw city; the forecast is called second, and only when validation passed and a place was found, with that place's coordinates and the mapped units; 200 exactly when both upstream calls answered; error messages are never empty |
| `WeatherServer.AssembleReport` | server/index.js:62-77 | `weatherData`: read back under the provider's names by `ReadingsOf`, the report gives back the provider's record unchanged (a one-to-one renaming with no conversion; the weather code is not checked); city, country and coordinates come from the resolved location; the timestamp is the observation time formatted by the server's locale function |
| `WeatherServer.ReportKeepsReadings` | server/index.js:62-77 | the report's readings, read back under the provider's names, are the provider's record unchanged (weather code included, unchecked); city, country and coordinates come from the first geocoding result; the timestamp is the formatted observation time |
| `WeatherServer.SuccessfulLookup` | server/index.js:60-79 | a valid city that resolves, with an answered forecast, gives status 200 and the assembled report |
| `WeatherServer.GeocodingFailuresCollapse` | server/index.js:20-35 | a failed geocoding call, a missing `results` and an empty `results` all give the same 500 response, and the weather provider is never called |
| `WeatherServer.ForecastFailureResponse` | server/index.js:56-84 | a failed forecast call gives 500 with its message, or 'Failed to fetch weather data' when that message is empty |
| `WeatherServer.ResponseIgnoresCitySpelling` | server/index.js:63-64 | two valid cities that meet the same upstream outcomes get the same response: names come from the geocoder, not the input |
| `WeatherServer.OtherUnitsMeanFahrenheit` | server/index.js:52-53 | a request whose unit is neither absent nor exactly 'celsius' is handled exactly like one asking for 'fahrenheit' |
| `WeatherServer.WhitespaceCityIsLookedUp` | server/index.js:44-49 | every non-empty, whitespace-only city, with any unit, is not rejected and is sent to the geocoder untrimmed |
| `WeatherDisplay.PickWeatherIcon` | client/src/App.jsx:53-68 | for every code from 0 up, the icon is the app table's category icon (sunny for 0 and for every unlisted code); undefined gives the sunny icon; null and negative codes give the light cloud |
| `WeatherDisplay.DescribeWeather` | client/src/App.jsx:71-85 | for every code, the sentence names the app table's category; code 1 gives "Mostly clear skies" and code 2 "A few clouds hanging out"; unlisted codes (negatives, 4, 12, 100, ...) give "Something’s up there..."; undefined gives "Not sure yet..."; null gives the fallback |
| `WeatherDisplay.DescriptionsSplitCategories` | client/src/App.jsx:74-84 | codes 1 and 2 get different sentences; 85 and 86 give "Snow showers", unlike 71-77, which give "Snowy wonderland" |
| `WeatherDisplay.IconAndDescriptionAgree` | client/src/App.jsx:57-84 | for every code from 0 up, the icon is recognised (code 0's sun or any non-sunny icon) exactly when the sentence is not the fallback |
| `WeatherDisplay.NegativeCodesLookCloudy` | client/src/App.jsx:58 | a negative code is unlisted in the table and described with the fallback, yet drawn as a light cloud, not as the table's sunny default |
| `WeatherDisplay.TemperatureSuffix` | client/src/App.jsx:151 | the suffix is 'C' exactly when the unit is 'celsius', otherwise 'F' |
| `WeatherDisplay.WindSpeedLabel` | client/src/App.jsx:171 | the label is 'km/h' exactly when the unit is 'celsius', otherwise 'mph' |
| `WeatherDisplay.LabelsAgree` | client/src/App.jsx:151-171 | the temperature suffix and the wind label never disagree |
| `WeatherClient.ReplyFor` | client/src/App.jsx:26-30 | the request resolves with the data exactly when the service answered with a report (status 200); otherwise it is rejected carrying the error body's message |
| `WeatherClient.WhoopsMessageFor` | client/src/App.jsx:30 | the shown error is the server's message when present and non-empty, else exactly 'Sorry, couldn’t grab the weather!'; it is never empty |
| `WeatherClient.FlipUnit` | client/src/App.jsx:43-45 | 'celsius' becomes 'fahrenheit' and every other value becomes 'celsius'; the result always differs from the input |
| `WeatherClient.FlipTwiceRestores` | client/src/App.jsx:44 | flipping twice restores 'celsius' and 'fahrenheit' |
| `WeatherClient.FlipNormalisesOtherUnits` | client/src/App.jsx:44 | any other value is not restored by two flips: it ends as 'fahrenheit' |
| `WeatherClient.WeatherApp.constructor` | client/src/App.jsx:12-16 | the initial state: empty input, no report, not fetching, no error, 'celsius' |
| `WeatherClient.WeatherApp.TypeCity` | client/src/App.jsx:101 | the input text is stored as typed, and nothing else changes |
| `WeatherClient.WeatherApp.StartLookup` | client/src/App.jsx:19-26 | blank input: no request and no state change; otherwise it sends the raw untrimmed text with the current unit, sets the loading flag, clears the error and keeps the old report |
| `WeatherClient.WeatherApp.FinishLookup` | client/src/App.jsx:27-34 | the loading flag ends false; a delivered reply becomes the shown report; a failure clears the report and shows the server's message or the apology |
| `WeatherClient.WeatherApp.AskForWeather` | client/src/App.jsx:19-35 | blank input: nothing is sent and nothing changes; otherwise the request carries the raw text and current unit; on success the report is the reply's data with no error; on failure there is no report and the message above; the loading flag ends false |
| `WeatherClient.WeatherApp.FlipTemperatureUnit` | client/src/App.jsx:43-45 | only the unit changes, to its flip |
| `WeatherClient.WeatherApp.RefreshAfterUnitChange` | client/src/App.jsx:48-50 | a new lookup is issued exactly when a report is shown and the input is not blank; it uses the input's current text; otherwise nothing changes |
| `WeatherClient.WeatherApp.ToggleUnit` | client/src/App.jsx:136-144 | the unit flips, which always changes it; the shown report is then looked up again, in the new unit, exactly when the input is not blank |
| `WeatherClient.StaleUnitAfterClearingInput` | client/src/App.jsx:48-50 | a lookup of any non-blank city is sent in Celsius; after it, emptying the input and flipping the unit leaves that Celsius report shown under the 'F' suffix, with no new lookup |
| `WeatherClient.ClientRequestsPassValidation` | client/src/App.jsx:20-26 | every request the client sends passes the server's city check, and the server geocodes the text exactly as typed |
| `WeatherClient.ServerErrorsShownVerbatim` | client/src/App.jsx:28-31 | a server response is delivered exactly when its status is 200; for every error response the client shows the server's message, never the apology |
| `WeatherClient.LabelsMatchRequestedUnits` | client/src/App.jsx:151-171 | for every unit the client sends, the suffix is 'C' exactly when the server asks for Celsius, and the label is 'km/h' exactly when it asks for km/h |

## Left out

- HTTP and network plumbing is not modelled. This covers the axios calls,
  Express routing and middleware, CORS, `app.listen`, the port from the
  environment, and serving the built client in production
  (server/index.js:88-99). Upstream calls are abstract outcomes; the
  handler returns which calls it would make.
- The URLs of the two upstream requests are not modelled. Note that the
  city is put into the geocoding URL without encoding. The model records
  the raw city value and the fixed `count=1` only in comments.
- `toLocaleTimeString` depends on the server's locale and time zone. It is
  the function parameter `localTime`.
- Floating point is not modelled. Temperatures, humidity, wind,
  precipitation, cloud cover and coordinates are `real` values passed
  through unchanged. The client's `Math.round` is not modelled.
- Only some JSON value shapes are modelled. Request fields are absent,
  null, a number or a string; booleans, arrays and objects are not
  modelled. A weather code is absent, null or an integer. Fractional and
  non-numeric codes are not modelled, nor is NaN.
- A malformed request body is not modelled, for example a body that is
  missing and cannot be destructured. A forecast reply without `current`
  is folded into `ForecastFailed` with the runtime's TypeError message.
- JSX markup, CSS classes, the footer and the unit checkbox's `checked`
  state are not modelled. Icons are kept only as component plus colour.
- Asynchronous interleaving is not modelled, including stale responses
  arriving after newer ones. `StartLookup` and `FinishLookup` can be
  called in any order, and `Valid()` holds across any order. The
  success-path claim "no error is shown" is stated only for a lookup run
  from start to finish (`AskForWeather`). The `disabled` attribute on one
  button is presentation, so no duplicate suppression is claimed.
- Console logging is not modelled.
