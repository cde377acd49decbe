/**
 * The presentation choices of client/src/App.jsx: the icon and the sentence
 * shown for a WMO weather code, and the unit labels shown beside the
 * temperatures and the wind speed.
 */
module WeatherDisplay {
  import opened Contract

  /** The react-icons component the client renders. */
  datatype Glyph = WiDaySunny | WiCloudy | WiFog | WiRain | WiSnow | WiThunderstorm

  /** The colour class given to the icon. */
  datatype Tint = Yellow400 | Gray300 | Gray400 | Blue200 | Blue300 | Blue400 | Purple500

  datatype Icon = Icon(glyph: Glyph, tint: Tint)

  const SunnyIcon: Icon := Icon(WiDaySunny, Yellow400)
  const LightCloudIcon: Icon := Icon(WiCloudy, Gray300)

  const NotSureYet: string := "Not sure yet..."
  const SomethingUpThere: string := "Something\U{2019}s up there..."

  /**
   * The application's own category table for weather codes (not a WMO
   * classification); every code the table does not list is `Unlisted`,
   * which is meant to be shown as a clear day.
   */
  datatype Category = ClearSky | PartlyCloudy | Overcast | Fog | Drizzle | Rain | Snow | Thunderstorm | Unlisted

  function TableCategory(n: int): Category {
    if n == 0 then ClearSky
    else if n in {1, 2} then PartlyCloudy
    else if n == 3 then Overcast
    else if n in {45, 48} then Fog
    else if 51 <= n <= 57 then Drizzle
    else if 61 <= n <= 67 then Rain
    else if 71 <= n <= 77 || 85 <= n <= 86 then Snow
    else if 95 <= n <= 99 then Thunderstorm
    else Unlisted
  }

  /** The icon each category is drawn with. */
  function IconFor(c: Category): Icon {
    match c
    case ClearSky => SunnyIcon
    case PartlyCloudy => LightCloudIcon
    case Overcast => Icon(WiCloudy, Gray400)
    case Fog => Icon(WiFog, Gray300)
    case Drizzle => Icon(WiRain, Blue300)
    case Rain => Icon(WiRain, Blue400)
    case Snow => Icon(WiSnow, Blue200)
    case Thunderstorm => Icon(WiThunderstorm, Purple500)
    case Unlisted => SunnyIcon
  }

  /** The category a sentence describes; a sentence that names none is `Unlisted`. */
  function DescriptionCategory(d: string): Category {
    if d == "Bright and sunny!" then ClearSky
    else if d == "Mostly clear skies" || d == "A few clouds hanging out" then PartlyCloudy
    else if d == "All gray and overcast" then Overcast
    else if d == "Foggy and mysterious" then Fog
    else if d == "A light drizzle" then Drizzle
    else if d == "Rainy day" then Rain
    else if d == "Snowy wonderland" || d == "Snow showers" then Snow
    else if d == "Thunder and lightning!" then Thunderstorm
    else Unlisted
  }

  /**
   * The number a JavaScript relational comparison (`<=`, `>=`) sees:
   * null converts to 0.
   */
  function RelationalNumber(skyCode: SkyCode): int
    requires !skyCode.UndefinedCode?
  {
    if skyCode.NullCode? then 0 else skyCode.n
  }

  /**
   * `pickWeatherIcon`. Strict equality (`===`) matches only a code; the
   * range tests compare numbers, so null and every negative code fall into
   * `skyCode <= 2` and get the light cloud rather than the sunny default.
   */
  function PickWeatherIcon(skyCode: SkyCode): (icon: Icon)
    ensures skyCode.Code? && skyCode.n >= 0 ==> icon == IconFor(TableCategory(skyCode.n))
    ensures skyCode.UndefinedCode? ==> icon == SunnyIcon
    ensures skyCode.NullCode? || (skyCode.Code? && skyCode.n < 0) ==> icon == LightCloudIcon
  {
    if skyCode.UndefinedCode? then SunnyIcon
    else
      var x := RelationalNumber(skyCode);
      if skyCode == Code(0) then SunnyIcon
      else if x <= 2 then LightCloudIcon
      else if skyCode == Code(3) then Icon(WiCloudy, Gray400)
      else if skyCode == Code(45) || skyCode == Code(48) then Icon(WiFog, Gray300)
      else if x >= 51 && x <= 57 then Icon(WiRain, Blue300)
      else if x >= 61 && x <= 67 then Icon(WiRain, Blue400)
      else if (x >= 71 && x <= 77) || (x >= 85 && x <= 86) then Icon(WiSnow, Blue200)
      else if x >= 95 && x <= 99 then Icon(WiThunderstorm, Purple500)
      else SunnyIcon
  }

  /**
   * `describeWeather`. Undefined has its own sentence; null, negative and
   * unlisted codes get the fallback sentence.
   */
  function DescribeWeather(skyCode: SkyCode): (d: string)
    ensures skyCode.UndefinedCode? ==> d == NotSureYet
    ensures skyCode.NullCode? ==> d == SomethingUpThere
    ensures skyCode.Code? ==> DescriptionCategory(d) == TableCategory(skyCode.n)
    ensures skyCode.Code? && TableCategory(skyCode.n) == Unlisted ==> d == SomethingUpThere
    ensures skyCode == Code(1) ==> d == "Mostly clear skies"
    ensures skyCode == Code(2) ==> d == "A few clouds hanging out"
  {
    if skyCode.UndefinedCode? then NotSureYet
    else
      var x := RelationalNumber(skyCode);
      if skyCode == Code(0) then "Bright and sunny!"
      else if skyCode == Code(1) then "Mostly clear skies"
      else if skyCode == Code(2) then "A few clouds hanging out"
      else if skyCode == Code(3) then "All gray and overcast"
      else if skyCode == Code(45) || skyCode == Code(48) then "Foggy and mysterious"
      else if x >= 51 && x <= 57 then "A light drizzle"
      else if x >= 61 && x <= 67 then "Rainy day"
      else if x >= 71 && x <= 77 then "Snowy wonderland"
      else if skyCode == Code(85) || skyCode == Code(86) then "Snow showers"
      else if x >= 95 && x <= 99 then "Thunder and lightning!"
      else SomethingUpThere
  }

  /**
   * The description is finer than the table: codes 1 and 2 read
   * differently, and so do the snow showers 85 and 86 and the snowfall 71-77.
   */
  lemma DescriptionsSplitCategories()
    ensures DescribeWeather(Code(1)) != DescribeWeather(Code(2))
    ensures DescribeWeather(Code(85)) == DescribeWeather(Code(86)) == "Snow showers"
    ensures forall n :: 71 <= n <= 77 ==> DescribeWeather(Code(n)) == "Snowy wonderland"
  {
  }

  /**
   * For every code from 0 up, the icon is a recognised one (the sunny icon
   * of code 0, or any non-sunny icon) exactly when the sentence is not the
   * fallback.
   */
  lemma IconAndDescriptionAgree(n: int)
    requires n >= 0
    ensures (n == 0 || PickWeatherIcon(Code(n)) != SunnyIcon) <==> DescribeWeather(Code(n)) != SomethingUpThere
  {
  }

  /**
   * Negative codes break that agreement: they are unlisted in the table
   * and described with the fallback, yet drawn as a light cloud.
   */
  lemma NegativeCodesLookCloudy(n: int)
    requires n < 0
    ensures TableCategory(n) == Unlisted
    ensures PickWeatherIcon(Code(n)) == LightCloudIcon != IconFor(TableCategory(n))
    ensures DescribeWeather(Code(n)) == SomethingUpThere
  {
  }

  /** The temperature suffix: "C" for "celsius", "F" for every other unit. */
  function TemperatureSuffix(tempUnit: string): (suffix: string)
    ensures suffix == "C" || suffix == "F"
    ensures suffix == "C" <==> tempUnit == Celsius
  {
    if tempUnit == Celsius then "C" else "F"
  }

  /** The wind-speed label: "km/h" for "celsius", "mph" for every other unit. */
  function WindSpeedLabel(tempUnit: string): (windLabel: string)
    ensures windLabel == "km/h" || windLabel == "mph"
    ensures windLabel == "km/h" <==> tempUnit == Celsius
  {
    if tempUnit == Celsius then "km/h" else "mph"
  }

  /** The two labels never disagree. */
  lemma LabelsAgree(tempUnit: string)
    ensures TemperatureSuffix(tempUnit) == "C" <==> WindSpeedLabel(tempUnit) == "km/h"
  {
  }
}
