/**
 * The shapes exchanged between the browser client (client/src/App.jsx) and
 * the lookup service (server/index.js): the JSON request body of
 * `POST /api/weather`, the weather report it answers with, and its error body.
 */
module Contract {

  const Celsius: string := "celsius"
  const Fahrenheit: string := "fahrenheit"

  /**
   * A property of a parsed JSON request body, as JavaScript code reads it:
   * an absent property reads as `undefined`. Booleans, arrays and objects
   * are not modelled.
   */
  datatype Value = Undefined | Null | Number(x: real) | Str(s: string)

  /** JavaScript truthiness of a value (NaN is not modelled). */
  predicate Truthy(v: Value) {
    match v
    case Undefined => false
    case Null => false
    case Number(x) => x != 0.0
    case Str(s) => s != ""
  }

  /**
   * The `weather_code` the weather provider reports and the service forwards
   * unchecked: absent, JSON null, or a WMO code.
   */
  datatype SkyCode = UndefinedCode | NullCode | Code(n: int)

  datatype Coordinates = Coordinates(latitude: real, longitude: real)

  /** The object the service answers with on success (`weatherData`). */
  datatype WeatherReport = WeatherReport(
    city: string,
    country: string,
    temperature: real,
    apparentTemperature: real,
    humidity: real,
    precipitation: real,
    windSpeed: real,
    weatherCode: SkyCode,
    cloudCover: real,
    timestamp: string,
    coordinates: Coordinates)

  /** The body of `POST /api/weather`: `{ city, unit }`. */
  datatype RequestBody = RequestBody(city: Value, unit: Value)

  datatype ResponseBody = Message(message: string) | Report(report: WeatherReport)

  /** The HTTP status and JSON body the service sends back. */
  datatype Response = Response(status: int, body: ResponseBody)
}
