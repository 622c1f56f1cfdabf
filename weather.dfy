/**
 * The weather service's pure helpers: unit conversions, tip assembly, the
 * city table and its reverse lookup, and the fields it derives from an API
 * response. Arithmetic is exact (`real`), not IEEE double.
 */
module WeatherService {
  import opened Wrappers
  import opened Text

  // ---------------------------------------------------------------------------
  // Unit conversions. `None` stands for a `null` or `undefined` input, which
  // every conversion hands back unchanged.
  // ---------------------------------------------------------------------------

  /** Celsius to Fahrenheit when asked, otherwise the identity. */
  function ConvertTemp(temp: Option<real>, toFahrenheit: bool): (r: Option<real>)
    ensures temp.None? <==> r.None?
    ensures temp.Some? && !toFahrenheit ==> r == temp
    ensures temp.Some? && toFahrenheit ==> (r.value - 32.0) * 5.0 / 9.0 == temp.value
  {
    match temp
    case None => None
    case Some(t) => if toFahrenheit then Some(t * 9.0 / 5.0 + 32.0) else Some(t)
  }

  /** Meters per second to miles per hour when asked, otherwise the identity. */
  function ConvertSpeed(speed: Option<real>, toMph: bool): (r: Option<real>)
    ensures speed.None? <==> r.None?
    ensures speed.Some? && !toMph ==> r == speed
    ensures speed.Some? && toMph ==> r.value / 2.237 == speed.value
  {
    match speed
    case None => None
    case Some(s) => if toMph then Some(s * 2.237) else Some(s)
  }

  /** Meters to kilometres, or to miles when asked. */
  function ConvertVisibility(visibility: Option<real>, toMiles: bool): (r: Option<real>)
    ensures visibility.None? <==> r.None?
    ensures visibility.Some? && !toMiles ==> r.value * 1000.0 == visibility.value
    ensures visibility.Some? && toMiles ==> r.value * 1609.34 == visibility.value
  {
    match visibility
    case None => None
    case Some(v) => if toMiles then Some(v / 1609.34) else Some(v / 1000.0)
  }

  /** Every conversion keeps the order of its readings: a higher value stays higher. */
  lemma ConversionsMonotonic(a: real, b: real, flag: bool)
    requires a <= b
    ensures ConvertTemp(Some(a), flag).value <= ConvertTemp(Some(b), flag).value
    ensures ConvertSpeed(Some(a), flag).value <= ConvertSpeed(Some(b), flag).value
    ensures ConvertVisibility(Some(a), flag).value <= ConvertVisibility(Some(b), flag).value
  {
  }

  // ---------------------------------------------------------------------------
  // Weather tips.
  // ---------------------------------------------------------------------------

  const WeatherConditions: map<string, seq<string>> := map[
    "Clear" := ["Perfect day for outdoor activities!", "Wear sunscreen if going outside.", "Stay hydrated in the sun."],
    "Clouds" := ["Good day for a walk!", "Carry an umbrella just in case.", "Light jacket recommended."],
    "Rain" := ["Stay dry with an umbrella!", "Perfect day to stay in and read.", "Drive carefully on wet roads."],
    "Snow" := ["Wear warm clothing!", "Watch for icy surfaces.", "Perfect for hot cocoa!"],
    "Thunderstorm" := ["Stay indoors if possible!", "Unplug electronic devices.", "Avoid using landline phones."],
    "Drizzle" := ["Light rain expected.", "Carry an umbrella.", "Good day for photography."],
    "Mist" := ["Drive carefully in fog!", "Use fog lights if available.", "Allow extra travel time."]
  ]

  const DefaultTips: seq<string> := ["Check local weather updates."]

  const HotTips: seq<string> := ["Stay hydrated!", "Avoid direct sun during peak hours.", "Wear light clothing."]

  const ColdTips: seq<string> := ["Wear layers to stay warm!", "Protect exposed skin from cold.", "Check heating systems."]

  /** The tips of a known condition, or the single default tip. */
  function BaseTips(condition: string): (tips: seq<string>)
    ensures condition in WeatherConditions ==> tips == WeatherConditions[condition] && |tips| == 3
    ensures condition !in WeatherConditions ==> tips == DefaultTips
  {
    if condition in WeatherConditions then WeatherConditions[condition] else DefaultTips
  }

  /** The base tips followed by the tips for the temperature band. */
  function WeatherTips(condition: string, temp: real): (tips: seq<string>)
    ensures |tips| >= |BaseTips(condition)| && tips[..|BaseTips(condition)|] == BaseTips(condition)
    ensures temp > 30.0 ==> tips[|BaseTips(condition)|..] == HotTips
    ensures temp < 5.0 ==> tips[|BaseTips(condition)|..] == ColdTips
    ensures 5.0 <= temp <= 30.0 ==> tips == BaseTips(condition)
  {
    var extra := if temp > 30.0 then HotTips else if temp < 5.0 then ColdTips else [];
    BaseTips(condition) + extra
  }

  /** Three or six tips for a known condition, one or four otherwise. */
  lemma WeatherTipsCount(condition: string, temp: real)
    ensures |WeatherTips(condition, temp)| ==
      (if condition in WeatherConditions then 3 else 1) + (if temp > 30.0 || temp < 5.0 then 3 else 0)
  {
    var b := BaseTips(condition);
    var t := WeatherTips(condition, temp);
    assert t == t[..|b|] + t[|b|..];
  }

  // ---------------------------------------------------------------------------
  // The city table and reverse geocoding.
  // ---------------------------------------------------------------------------

  datatype City = City(name: string, lat: real, lon: real)

  /** The known cities, in the table's insertion order. */
  const CityCoordinates: seq<City> := [
    City("new york", 40.7128, -74.0060),
    City("los angeles", 34.0522, -118.2437),
    City("chicago", 41.8781, -87.6298),
    City("london", 51.5074, -0.1278),
    City("paris", 48.8566, 2.3522),
    City("tokyo", 35.6762, 139.6503),
    City("sydney", -33.8688, 151.2093),
    City("mumbai", 19.0760, 72.8777),
    City("beijing", 39.9042, 116.4074),
    City("dubai", 25.2048, 55.2708)
  ]

  const DefaultCity: string := "new york"

  function Abs(v: real): real {
    if v < 0.0 then -v else v
  }

  /** Both coordinates of the city lie within 2 degrees (exclusive). */
  function Near(c: City, lat: real, lon: real): (r: bool)
    ensures r <==> -2.0 < c.lat - lat < 2.0 && -2.0 < c.lon - lon < 2.0
  {
    Abs(c.lat - lat) < 2.0 && Abs(c.lon - lon) < 2.0
  }

  /** The first city of the table near the position, or New York when none is. */
  method CityFromCoords(lat: real, lon: real) returns (city: string)
    ensures
      || (exists i :: 0 <= i < |CityCoordinates| && Near(CityCoordinates[i], lat, lon) && city == CityCoordinates[i].name
            && forall j :: 0 <= j < i ==> !Near(CityCoordinates[j], lat, lon))
      || ((forall i :: 0 <= i < |CityCoordinates| ==> !Near(CityCoordinates[i], lat, lon)) && city == DefaultCity)
  {
    for i := 0 to |CityCoordinates|
      invariant forall j :: 0 <= j < i ==> !Near(CityCoordinates[j], lat, lon)
    {
      if Near(CityCoordinates[i], lat, lon) {
        return CityCoordinates[i].name;
      }
    }
    return DefaultCity;
  }

  /** `CITY_COORDINATES[name]`: the entry of the table with that name. */
  function CoordsOf(name: string): (r: Option<City>)
    ensures r.Some? ==> r.value in CityCoordinates && r.value.name == name
    ensures r.None? ==> forall i :: 0 <= i < |CityCoordinates| ==> CityCoordinates[i].name != name
  {
    FindCity(CityCoordinates, name)
  }

  function FindCity(cities: seq<City>, name: string): (r: Option<City>)
    ensures r.Some? ==> r.value in cities && r.value.name == name
    ensures r.None? ==> forall i :: 0 <= i < |cities| ==> cities[i].name != name
  {
    if cities == [] then None
    else if cities[0].name == name then Some(cities[0])
    else FindCity(cities[1..], name)
  }

  // ---------------------------------------------------------------------------
  // The fields derived from an API response.
  // ---------------------------------------------------------------------------

  /**
   * The fields of a current-conditions response the service reads; each may
   * be missing. `main` is the first weather entry's `main`.
   */
  datatype RawWeather = RawWeather(
    temp: Option<real>, feelsLike: Option<real>, humidity: Option<real>, pressure: Option<real>,
    windSpeed: Option<real>, visibility: Option<real>, sunrise: Option<real>, sunset: Option<real>,
    main: Option<string>)

  /** The enhanced record the service returns and caches. */
  datatype Report = Report(
    name: string,
    temp: real, feelsLike: real, tempMin: real, tempMax: real, humidity: real, pressure: real,
    windSpeed: real, gust: real, visibility: real, sunrise: real, sunset: real,
    main: Option<string>,
    tips: seq<string>,
    conditionKey: string)

  /** `v || d` on a number: a missing value or a zero (falsy) gives the default. */
  function OrNumber(v: Option<real>, d: real): (r: real)
    ensures v.Some? && v.value != 0.0 ==> r == v.value
    ensures v.None? || v.value == 0.0 ==> r == d
  {
    match v
    case Some(x) => if x != 0.0 then x else d
    case None => d
  }

  /** `v || d` on a string: a missing or empty string gives the default. */
  function OrString(v: Option<string>, d: string): (r: string)
    ensures v.Some? && v.value != "" ==> r == v.value
    ensures v.None? || v.value == "" ==> r == d
  {
    match v
    case Some(s) => if s != "" then s else d
    case None => d
  }

  /** `WEATHER_CONDITIONS[main] || WEATHER_CONDITIONS.Clear`, as the key it picks. */
  function ConditionKey(main: Option<string>): (key: string)
    ensures key in WeatherConditions
    ensures main.Some? && main.value in WeatherConditions ==> key == main.value
    ensures !(main.Some? && main.value in WeatherConditions) ==> key == "Clear"
  {
    if main.Some? && main.value in WeatherConditions then main.value else "Clear"
  }

  /** The record built from a successful response for the named city. */
  function Enhance(cityName: string, data: RawWeather): (r: Report)
    ensures r.name == Capitalized(cityName)
    ensures r.tempMin == r.temp - 2.0 && r.tempMax == r.temp + 3.0
    ensures r.tempMin < r.temp < r.tempMax
    ensures r.gust == r.windSpeed + 2.0
    ensures data.temp.Some? && data.temp.value != 0.0 ==> r.temp == data.temp.value
    ensures data.temp.None? ==> r.temp == 20.0
    ensures data.windSpeed.None? ==> r.windSpeed == 3.0 && r.gust == 5.0
    ensures r.temp == OrNumber(data.temp, 20.0) && r.windSpeed == OrNumber(data.windSpeed, 3.0)
    ensures r.feelsLike == OrNumber(data.feelsLike, 20.0)
    ensures r.humidity == OrNumber(data.humidity, 50.0) && r.pressure == OrNumber(data.pressure, 1013.0)
    ensures r.visibility == OrNumber(data.visibility, 10000.0)
    ensures r.sunrise == OrNumber(data.sunrise, 1678867200.0) && r.sunset == OrNumber(data.sunset, 1678910400.0)
    ensures r.conditionKey == ConditionKey(data.main)
    ensures r.tips == WeatherTips(OrString(data.main, "Clear"), r.temp)
    ensures r.conditionKey in WeatherConditions && r.main == data.main
  {
    var temp := OrNumber(data.temp, 20.0);
    var speed := OrNumber(data.windSpeed, 3.0);
    Report(
      Capitalized(cityName),
      temp, OrNumber(data.feelsLike, 20.0), temp - 2.0, temp + 3.0,
      OrNumber(data.humidity, 50.0), OrNumber(data.pressure, 1013.0),
      speed, speed + 2.0,
      OrNumber(data.visibility, 10000.0),
      OrNumber(data.sunrise, 1678867200.0), OrNumber(data.sunset, 1678910400.0),
      data.main,
      WeatherTips(OrString(data.main, "Clear"), temp),
      ConditionKey(data.main))
  }

  /**
   * A reading of exactly zero is treated as missing: 0 degrees is reported
   * as the 20-degree default, a calm wind as 3 m/s.
   */
  lemma ZeroReadingsTakeDefaults(cityName: string, data: RawWeather)
    requires data.temp == Some(0.0) && data.windSpeed == Some(0.0)
    ensures Enhance(cityName, data).temp == 20.0
    ensures Enhance(cityName, data).windSpeed == 3.0
  {
  }

  /** The fixed record used when the city is unknown or the request fails. */
  function MockReport(cityName: string): (r: Report)
    ensures r.name == Capitalized(cityName)
    ensures r.temp == 22.0 && r.tempMin == 18.0 && r.tempMax == 25.0
    ensures r.windSpeed == 3.5 && r.gust == 4.2
    ensures r.main == Some("Clear") && r.conditionKey == "Clear"
    ensures r.tips == WeatherTips("Clear", r.temp)
  {
    Report(
      Capitalized(cityName),
      22.0, 24.0, 18.0, 25.0, 65.0, 1013.0,
      3.5, 4.2, 10000.0, 1678867200.0, 1678910400.0,
      Some("Clear"),
      WeatherTips("Clear", 22.0),
      "Clear")
  }
}
