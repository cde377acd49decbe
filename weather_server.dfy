/**
 * The lookup service of server/index.js: `getCoordinates` and the
 * `POST /api/weather` handler, as a function from the request body and the
 * outcomes of the two upstream calls to the calls made and the response sent.
 *
 * The geocoding and weather providers are not called here: their outcomes
 * are inputs, and the handler reports which calls it made, in order, so
 * that a call it never makes cannot influence the response.
 */
module WeatherServer {
  import opened Wrappers
  import opened Contract
  import JsText

  const CityRequiredMessage: string := "City name is required"
  const GeocodingFailedMessage: string := "City not found or geocoding service unavailable"
  const FetchFailedMessage: string := "Failed to fetch weather data"

  /** One entry of the geocoding provider's `results` array. */
  datatype Place = Place(latitude: real, longitude: real, name: string, country: string)

  /**
   * What the geocoding request came back with: a failure (network error,
   * non-2xx status, anything thrown), or a reply whose `results` property
   * may be missing.
   */
  datatype GeoOutcome = GeoFailed(reason: string) | GeoAnswered(results: Option<seq<Place>>)

  /** The value `getCoordinates` resolves to. */
  datatype Location = Location(latitude: real, longitude: real, city: string, country: string)

  /** The provider's `current` record, with the provider's field names. */
  datatype Current = Current(
    time: string,
    temperature_2m: real,
    apparent_temperature: real,
    relative_humidity_2m: real,
    precipitation: real,
    wind_speed_10m: real,
    weather_code: SkyCode,
    cloud_cover: real)

  /**
   * What the forecast request came back with: a failure carrying the thrown
   * error's `message` (a reply without `current` also ends here, through
   * the TypeError raised when the handler reads it), or the `current` record.
   */
  datatype ForecastOutcome = ForecastFailed(message: string) | ForecastAnswered(current: Current)

  /** The `temperature_unit` and `windspeed_unit` tokens sent to the weather provider. */
  datatype Units = Units(temperature: string, windSpeed: string)

  /**
   * An outbound call: the geocoding search for a name (always with
   * `count=1`), or the forecast for a coordinate pair in given units.
   */
  datatype Call = GeocodeCall(name: Value) | ForecastCall(latitude: real, longitude: real, units: Units)

  /** The calls one request made, in order, and the response it sent. */
  datatype Handled = Handled(calls: seq<Call>, response: Response)

  /** The geocoding outcome succeeded with at least one result. */
  predicate HasResult(geo: GeoOutcome) {
    geo.GeoAnswered? && geo.results.Some? && geo.results.value != []
  }

  /**
   * `getCoordinates`: the first result, renamed; every failure, whether the
   * call failed or found nothing, becomes one and the same error.
   */
  function GetCoordinates(geo: GeoOutcome): (r: Result<Location>)
    ensures r.Ok? <==> HasResult(geo)
    ensures r.Err? ==> r.error == GeocodingFailedMessage
    ensures r.Ok? ==>
      var first := geo.results.value[0];
      && r.value.city == first.name
      && r.value.country == first.country
      && r.value.latitude == first.latitude
      && r.value.longitude == first.longitude
  {
    match geo
    case GeoFailed(_) => Err(GeocodingFailedMessage)
    case GeoAnswered(results) =>
      if results.None? || |results.value| == 0 then
        Err(GeocodingFailedMessage)
      else
        var location := results.value[0];
        Ok(Location(location.latitude, location.longitude, location.name, location.country))
  }

  /**
   * The provider units for a request's `unit`: an absent unit defaults to
   * "celsius"; exactly "celsius" asks for Celsius and km/h, and every other
   * value, null included, for Fahrenheit and mph.
   */
  function RequestedUnits(unit: Value): (u: Units)
    ensures u == Units(Celsius, "kmh") || u == Units(Fahrenheit, "mph")
    ensures u.temperature == Celsius <==> unit == Undefined || unit == Str(Celsius)
  {
    var chosen := if unit.Undefined? then Str(Celsius) else unit;
    var temperatureUnit := if chosen == Str(Celsius) then Celsius else Fahrenheit;
    var windSpeedUnit := if chosen == Str(Celsius) then "kmh" else "mph";
    Units(temperatureUnit, windSpeedUnit)
  }

  /**
   * `weatherData`: names from the geocoder, readings renamed from the
   * provider's record, and the observation time formatted by `localTime`
   * (the server's `toLocaleTimeString`, which depends on its locale and
   * time zone).
   */
  function AssembleReport(location: Location, current: Current, localTime: string -> string): (report: WeatherReport)
    ensures ReadingsOf(report, current.time) == current
    ensures report.city == location.city && report.country == location.country
    ensures report.coordinates == Coordinates(location.latitude, location.longitude)
    ensures report.timestamp == localTime(current.time)
  {
    WeatherReport(
      city := location.city,
      country := location.country,
      temperature := current.temperature_2m,
      apparentTemperature := current.apparent_temperature,
      humidity := current.relative_humidity_2m,
      precipitation := current.precipitation,
      windSpeed := current.wind_speed_10m,
      weatherCode := current.weather_code,
      cloudCover := current.cloud_cover,
      timestamp := localTime(current.time),
      coordinates := Coordinates(location.latitude, location.longitude))
  }

  /** The provider record a report was assembled from, given the observation time the report's timestamp hides. */
  function ReadingsOf(report: WeatherReport, time: string): Current {
    Current(
      time := time,
      temperature_2m := report.temperature,
      apparent_temperature := report.apparentTemperature,
      relative_humidity_2m := report.humidity,
      precipitation := report.precipitation,
      wind_speed_10m := report.windSpeed,
      weather_code := report.weatherCode,
      cloud_cover := report.cloudCover)
  }

  /** The `message` of a caught error, or the generic text when it is empty. */
  function ErrorResponse(message: string): (r: Response)
    ensures r.status == 500 && r.body.Message?
    ensures r.body.message != ""
    ensures message != "" ==> r.body.message == message
    ensures message == "" ==> r.body.message == FetchFailedMessage
  {
    Response(500, Message(if message == "" then FetchFailedMessage else message))
  }

  /**
   * The `POST /api/weather` handler: validation, geocoding, unit mapping,
   * the forecast call and the reply, with every thrown error caught and
   * sent as status 500.
   */
  function HandleWeather(body: RequestBody, geo: GeoOutcome, forecast: ForecastOutcome, localTime: string -> string): (h: Handled)
    // every request ends in exactly one of three statuses, with a body to match
    ensures h.response.status in {200, 400, 500}
    ensures h.response.status == 200 <==> h.response.body.Report?
    ensures h.response.body.Message? ==> h.response.body.message != ""
    // a falsy city, and only a falsy city, is rejected before any call
    ensures h.response.status == 400 <==> !Truthy(body.city)
    ensures h.response.status == 400 ==> h.calls == [] && h.response.body == Message(CityRequiredMessage)
    // calls: geocode the raw city first; the forecast only once a place was found
    ensures |h.calls| <= 2
    ensures Truthy(body.city) ==> |h.calls| >= 1 && h.calls[0] == GeocodeCall(body.city)
    ensures |h.calls| == 2 <==> Truthy(body.city) && HasResult(geo)
    ensures |h.calls| == 2 ==>
      var first := geo.results.value[0];
      h.calls[1] == ForecastCall(first.latitude, first.longitude, RequestedUnits(body.unit))
    // success needs both upstream answers
    ensures h.response.status == 200 <==> |h.calls| == 2 && forecast.ForecastAnswered?
  {
    if !Truthy(body.city) then
      Handled([], Response(400, Message(CityRequiredMessage)))
    else
      var geocode := GeocodeCall(body.city);
      match GetCoordinates(geo)
      case Err(message) => Handled([geocode], ErrorResponse(message))
      case Ok(coordinates) =>
        var units := RequestedUnits(body.unit);
        var calls := [geocode, ForecastCall(coordinates.latitude, coordinates.longitude, units)];
        match forecast
        case ForecastFailed(message) => Handled(calls, ErrorResponse(message))
        case ForecastAnswered(current) =>
          Handled(calls, Response(200, Report(AssembleReport(coordinates, current, localTime))))
  }

  /** The report keeps every reading of the provider's record, the geocoder's names and its coordinates. */
  lemma ReportKeepsReadings(geo: GeoOutcome, current: Current, localTime: string -> string)
    requires HasResult(geo)
    ensures
      var first := geo.results.value[0];
      var report := AssembleReport(GetCoordinates(geo).value, current, localTime);
      && ReadingsOf(report, current.time) == current
      && report.city == first.name && report.country == first.country
      && report.coordinates == Coordinates(first.latitude, first.longitude)
      && report.timestamp == localTime(current.time)
  {
  }

  /**
   * A city that passes validation and resolves yields status 200 with the
   * report assembled from the first result and the provider's record.
   */
  lemma SuccessfulLookup(body: RequestBody, geo: GeoOutcome, current: Current, localTime: string -> string)
    requires Truthy(body.city) && HasResult(geo)
    ensures
      var h := HandleWeather(body, geo, ForecastAnswered(current), localTime);
      h.response == Response(200, Report(AssembleReport(GetCoordinates(geo).value, current, localTime)))
  {
  }

  /**
   * Every geocoding failure (the call failing, `results` missing, or empty)
   * gives the same 500 response, and the weather provider is never asked.
   */
  lemma GeocodingFailuresCollapse(body: RequestBody, geo: GeoOutcome, forecast: ForecastOutcome, localTime: string -> string)
    requires Truthy(body.city) && !HasResult(geo)
    ensures HandleWeather(body, geo, forecast, localTime)
         == Handled([GeocodeCall(body.city)], Response(500, Message(GeocodingFailedMessage)))
  {
  }

  /** A failed forecast call yields 500 with its message, or the generic text when that is empty. */
  lemma ForecastFailureResponse(body: RequestBody, geo: GeoOutcome, message: string, localTime: string -> string)
    requires Truthy(body.city) && HasResult(geo)
    ensures
      var r := HandleWeather(body, geo, ForecastFailed(message), localTime).response;
      && r.status == 500
      && r.body == Message(if message == "" then FetchFailedMessage else message)
  {
  }

  /**
   * The response does not depend on how the city was spelled: two requests
   * whose cities both pass validation and that meet the same upstream
   * outcomes get the same response.
   */
  lemma ResponseIgnoresCitySpelling(city1: Value, city2: Value, unit: Value, geo: GeoOutcome, forecast: ForecastOutcome, localTime: string -> string)
    requires Truthy(city1) && Truthy(city2)
    ensures HandleWeather(RequestBody(city1, unit), geo, forecast, localTime).response
         == HandleWeather(RequestBody(city2, unit), geo, forecast, localTime).response
  {
  }

  /** Any unit other than an absent one or exactly "celsius" behaves exactly like "fahrenheit". */
  lemma OtherUnitsMeanFahrenheit(city: Value, unit: Value, geo: GeoOutcome, forecast: ForecastOutcome, localTime: string -> string)
    requires unit != Undefined && unit != Str(Celsius)
    ensures HandleWeather(RequestBody(city, unit), geo, forecast, localTime)
         == HandleWeather(RequestBody(city, Str(Fahrenheit)), geo, forecast, localTime)
  {
  }

  /** A whitespace-only city is not rejected: it is sent to the geocoder untrimmed. */
  lemma WhitespaceCityIsLookedUp(s: string, unit: Value, geo: GeoOutcome, forecast: ForecastOutcome, localTime: string -> string)
    requires s != "" && JsText.IsBlank(s)
    ensures
      var h := HandleWeather(RequestBody(Str(s), unit), geo, forecast, localTime);
      h.response.status != 400 && h.calls[0] == GeocodeCall(Str(s))
  {
  }
}
