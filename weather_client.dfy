/**
 * The state of the `WeatherApp` component of client/src/App.jsx and the
 * ways it changes: typing a city, looking up the weather, flipping the
 * temperature unit, and the re-lookup that a unit change triggers.
 *
 * The server's reply is an input: `Delivered` for a 2xx reply and `Failed`
 * for a rejected request. `StartLookup` and `FinishLookup` are the two
 * halves of `askForWeather` on either side of its `await`;
 * `AskForWeather` runs both with nothing in between.
 */
module WeatherClient {
  import opened Wrappers
  import opened Contract
  import JsText
  import WeatherServer
  import WeatherDisplay

  const SorryMessage: string := "Sorry, couldn\U{2019}t grab the weather!"

  /**
   * What the request to `/api/weather` settled with: the reply's data, or
   * a rejection with the `message` of the error body when there was a
   * response carrying one.
   */
  datatype Reply = Delivered(data: WeatherReport) | Failed(message: Option<string>)

  /**
   * The reply the client receives for a response of the service: axios
   * resolves with the report and rejects with the error body's message.
   */
  function ReplyFor(response: Response): (reply: Reply)
    ensures reply.Delivered? <==> response.body.Report?
    ensures reply.Delivered? ==> reply.data == response.body.report
    ensures reply.Failed? ==> reply.message == Some(response.body.message)
  {
    match response.body
    case Report(report) => Delivered(report)
    case Message(message) => Failed(Some(message))
  }

  /** The error text shown for a failed lookup: the server's message when non-empty, else the apology. */
  function WhoopsMessageFor(message: Option<string>): (shown: string)
    ensures shown != ""
    ensures message.Some? && message.value != "" ==> shown == message.value
    ensures message.None? || message.value == "" ==> shown == SorryMessage
  {
    if message.Some? && message.value != "" then message.value else SorryMessage
  }

  /** The updater `flipTemperatureUnit` passes to `setTempUnit`. */
  function FlipUnit(current: string): (next: string)
    ensures next == Celsius || next == Fahrenheit
    ensures next == Fahrenheit <==> current == Celsius
    ensures next != current
  {
    if current == Celsius then Fahrenheit else Celsius
  }

  /** Flipping twice restores either of the two units the app uses. */
  lemma FlipTwiceRestores(unit: string)
    requires unit == Celsius || unit == Fahrenheit
    ensures FlipUnit(FlipUnit(unit)) == unit
  {
  }

  /** Any other value is not restored: one flip gives "celsius" and a second "fahrenheit". */
  lemma FlipNormalisesOtherUnits(unit: string)
    requires unit != Celsius && unit != Fahrenheit
    ensures FlipUnit(FlipUnit(unit)) == Fahrenheit != unit
  {
  }

  class WeatherApp {
    var cityName: string
    var weatherToday: Option<WeatherReport>
    var isFetching: bool
    var whoopsMessage: Option<string>
    var tempUnit: string

    /**
     * What holds in every state the component can reach: the unit is one
     * of the two the app uses, no error is shown while a lookup is under
     * way, and a shown error is never empty.
     */
    ghost predicate Valid()
      reads this
    {
      && (tempUnit == Celsius || tempUnit == Fahrenheit)
      && (isFetching ==> whoopsMessage == None)
      && (whoopsMessage.Some? ==> whoopsMessage.value != "")
    }

    /** The initial state of the `useState` hooks. */
    constructor ()
      ensures Valid()
      ensures cityName == "" && weatherToday == None && !isFetching && whoopsMessage == None
      ensures tempUnit == Celsius
    {
      cityName := "";
      weatherToday := None;
      isFetching := false;
      whoopsMessage := None;
      tempUnit := Celsius;
    }

    /** The input's `onChange`: the text is stored as typed. */
    method TypeCity(text: string)
      requires Valid()
      modifies this
      ensures Valid()
      ensures cityName == text
      ensures weatherToday == old(weatherToday) && isFetching == old(isFetching)
      ensures whoopsMessage == old(whoopsMessage) && tempUnit == old(tempUnit)
    {
      cityName := text;
    }

    /**
     * `askForWeather` up to its `await`: a blank input sends nothing and
     * changes nothing; otherwise the raw, untrimmed text and the current
     * unit are sent, the spinner starts and the old error is cleared, while
     * the old report stays on screen.
     */
    method StartLookup() returns (request: Option<RequestBody>)
      requires Valid()
      modifies this
      ensures Valid()
      ensures request.Some? <==> JsText.Trim(old(cityName)) != ""
      ensures request.None? ==> unchanged(this)
      ensures request.Some? ==>
        && request.value == RequestBody(Str(old(cityName)), Str(old(tempUnit)))
        && isFetching && whoopsMessage == None
        && weatherToday == old(weatherToday)
        && cityName == old(cityName) && tempUnit == old(tempUnit)
    {
      if JsText.Trim(cityName) == "" {
        return None;
      }
      isFetching := true;
      whoopsMessage := None;
      request := Some(RequestBody(Str(cityName), Str(tempUnit)));
    }

    /**
     * `askForWeather` after its `await`: a delivered report replaces the
     * shown one; a failure clears it and shows the server's message or the
     * apology; either way the spinner stops.
     */
    method FinishLookup(reply: Reply)
      requires Valid()
      modifies this
      ensures Valid()
      ensures !isFetching
      ensures reply.Delivered? ==> weatherToday == Some(reply.data) && whoopsMessage == old(whoopsMessage)
      ensures reply.Failed? ==> weatherToday == None && whoopsMessage == Some(WhoopsMessageFor(reply.message))
      ensures cityName == old(cityName) && tempUnit == old(tempUnit)
    {
      match reply {
        case Delivered(data) =>
          weatherToday := Some(data);
        case Failed(message) =>
          whoopsMessage := Some(WhoopsMessageFor(message));
          weatherToday := None;
      }
      isFetching := false;
    }

    /**
     * `askForWeather` from start to finish, with `reply` as the server's
     * answer to the request it sends.
     */
    method AskForWeather(reply: Reply) returns (request: Option<RequestBody>)
      requires Valid()
      modifies this
      ensures Valid()
      ensures request.Some? <==> JsText.Trim(old(cityName)) != ""
      ensures request.None? ==> unchanged(this)
      ensures request.Some? ==>
        && request.value == RequestBody(Str(old(cityName)), Str(old(tempUnit)))
        && !isFetching
        && cityName == old(cityName) && tempUnit == old(tempUnit)
        && (reply.Delivered? ==> weatherToday == Some(reply.data) && whoopsMessage == None)
        && (reply.Failed? ==> weatherToday == None && whoopsMessage == Some(WhoopsMessageFor(reply.message)))
    {
      request := StartLookup();
      if request.Some? {
        FinishLookup(reply);
      }
    }

    /** `flipTemperatureUnit`: only the unit changes. */
    method FlipTemperatureUnit()
      requires Valid()
      modifies this
      ensures Valid()
      ensures tempUnit == FlipUnit(old(tempUnit))
      ensures cityName == old(cityName) && weatherToday == old(weatherToday)
      ensures isFetching == old(isFetching) && whoopsMessage == old(whoopsMessage)
    {
      tempUnit := FlipUnit(tempUnit);
    }

    /**
     * The effect that runs after `tempUnit` changed: a new lookup, answered
     * by `reply`, exactly when a report is shown and the input is not
     * blank. It uses the input's current text, not the shown report's city.
     */
    method RefreshAfterUnitChange(reply: Reply) returns (request: Option<RequestBody>)
      requires Valid()
      modifies this
      ensures Valid()
      ensures request.Some? <==> old(weatherToday).Some? && JsText.Trim(old(cityName)) != ""
      ensures request.None? ==> unchanged(this)
      ensures request.Some? ==>
        && request.value == RequestBody(Str(old(cityName)), Str(old(tempUnit)))
        && !isFetching
        && cityName == old(cityName) && tempUnit == old(tempUnit)
        && (reply.Delivered? ==> weatherToday == Some(reply.data) && whoopsMessage == None)
        && (reply.Failed? ==> weatherToday == None && whoopsMessage == Some(WhoopsMessageFor(reply.message)))
    {
      request := None;
      if weatherToday.Some? {
        request := AskForWeather(reply);
      }
    }

    /**
     * The unit checkbox: the unit flips (which always changes it, so the
     * effect always runs) and the shown report, if any, is looked up again
     * in the new unit.
     */
    method ToggleUnit(reply: Reply) returns (request: Option<RequestBody>)
      requires Valid()
      modifies this
      ensures Valid()
      ensures tempUnit == FlipUnit(old(tempUnit)) && cityName == old(cityName)
      ensures request.Some? <==> old(weatherToday).Some? && JsText.Trim(old(cityName)) != ""
      ensures request.None? ==>
        && weatherToday == old(weatherToday)
        && isFetching == old(isFetching) && whoopsMessage == old(whoopsMessage)
      ensures request.Some? ==>
        && request.value == RequestBody(Str(old(cityName)), Str(tempUnit))
        && !isFetching
        && (reply.Delivered? ==> weatherToday == Some(reply.data) && whoopsMessage == None)
        && (reply.Failed? ==> weatherToday == None && whoopsMessage == Some(WhoopsMessageFor(reply.message)))
    {
      FlipTemperatureUnit();
      request := RefreshAfterUnitChange(reply);
    }
  }

  /**
   * A report fetched in Celsius stays on screen under the Fahrenheit
   * labels when the input was emptied before the unit was flipped: the
   * re-lookup is skipped and the numbers keep their old unit.
   */
  method StaleUnitAfterClearingInput(city: string, report: WeatherReport) returns (sent: Option<RequestBody>, shown: Option<WeatherReport>, unit: string, refetch: Option<RequestBody>)
    requires JsText.Trim(city) != ""
    ensures sent == Some(RequestBody(Str(city), Str(Celsius)))
    ensures shown == Some(report)
    ensures unit == Fahrenheit && WeatherDisplay.TemperatureSuffix(unit) == "F"
    ensures refetch == None
  {
    var app := new WeatherApp();
    app.TypeCity(city);
    sent := app.AskForWeather(Delivered(report));
    app.TypeCity("");
    refetch := app.ToggleUnit(Failed(None));
    shown, unit := app.weatherToday, app.tempUnit;
  }

  /** Whatever the client sends passes the service's validation: a non-blank text is non-empty. */
  lemma ClientRequestsPassValidation(cityName: string, tempUnit: string, geo: WeatherServer.GeoOutcome, forecast: WeatherServer.ForecastOutcome, localTime: string -> string)
    requires JsText.Trim(cityName) != ""
    ensures
      var h := WeatherServer.HandleWeather(RequestBody(Str(cityName), Str(tempUnit)), geo, forecast, localTime);
      h.response.status != 400 && h.calls[0] == WeatherServer.GeocodeCall(Str(cityName))
  {
    JsText.TrimEmptyIffBlank(cityName);
  }

  /**
   * Every error the service sends is shown verbatim: its messages are never
   * empty, so the apology appears only when no message arrived.
   */
  lemma ServerErrorsShownVerbatim(body: RequestBody, geo: WeatherServer.GeoOutcome, forecast: WeatherServer.ForecastOutcome, localTime: string -> string)
    ensures
      var response := WeatherServer.HandleWeather(body, geo, forecast, localTime).response;
      var reply := ReplyFor(response);
      && (response.status == 200 <==> reply.Delivered?)
      && (reply.Failed? ==> WhoopsMessageFor(reply.message) == response.body.message)
  {
  }

  /**
   * The labels the client shows match the units the service asks the
   * weather provider for, for every unit the client can send.
   */
  lemma LabelsMatchRequestedUnits(tempUnit: string)
    ensures
      var units := WeatherServer.RequestedUnits(Str(tempUnit));
      && (WeatherDisplay.TemperatureSuffix(tempUnit) == "C" <==> units.temperature == Celsius)
      && (WeatherDisplay.WindSpeedLabel(tempUnit) == "km/h" <==> units.windSpeed == "kmh")
  {
  }
}
