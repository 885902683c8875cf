/** The weather collaborator (Back/app/Services/WeatherService.php): the query
    it sends to the Open-Meteo forecast and geocoding endpoints, and how it
    shapes their decoded JSON answers into the records the chat turn hands to
    the language model. The HTTP exchange itself is an input: either the
    connection failed, or a status code and a decoded body came back. */
module WeatherService {
  import opened Wrappers
  import opened WeatherRequestDto

  datatype HttpOutcome<T> = ConnectionFailed(message: string) | HttpResponse(status: nat, body: T)

  /** Laravel's `Response::successful()`: a 2xx status. */
  function Successful(status: nat): (r: bool)
    ensures r <==> status / 100 == 2
  {
    200 <= status < 300
  }

  /** The decoded `current` object of a forecast answer; absent keys are `None`. */
  datatype CurrentData = CurrentData(
    temperature2m: Option<real>,
    relativeHumidity2m: Option<real>,
    apparentTemperature: Option<real>,
    weatherCode: Option<int>,
    windSpeed10m: Option<real>,
    windDirection10m: Option<real>,
    pressureMsl: Option<real>,
    time: Option<string>)

  const NoCurrentData := CurrentData(None, None, None, None, None, None, None, None)

  datatype ForecastBody = ForecastBody(
    current: Option<CurrentData>,
    currentUnits: Option<map<string, string>>,
    timezone: Option<string>)

  /** `location` of the record: the given name, or the coordinates it is
      formatted from (the float formatting is not modelled). */
  datatype LocationLabel = Named(name: string) | LatLon(latitude: real, longitude: real)

  datatype CurrentConditions = CurrentConditions(
    temperature: Option<real>,
    apparentTemperature: Option<real>,
    humidity: Option<real>,
    weatherCode: Option<int>,
    weatherDescription: string,
    windSpeed: Option<real>,
    windDirection: Option<real>,
    pressure: Option<real>)

  datatype WeatherRecord = WeatherRecord(
    location: LocationLabel,
    current: CurrentConditions,
    units: map<string, string>,
    timezone: Option<string>,
    timestamp: Option<string>)

  /** The seven current-weather fields the service asks for. */
  const ServiceCurrentFields: seq<string> := [
    "temperature_2m", "relative_humidity_2m", "apparent_temperature", "weather_code",
    "wind_speed_10m", "wind_direction_10m", "pressure_msl"]

  const UnknownCondition: string := "Condición desconocida"

  /** The Open-Meteo subset of the WMO weather interpretation codes
      (WMO code table 4677), with the service's Spanish descriptions. */
  const Descriptions: map<int, string> := map[
    0 := "Cielo despejado",
    1 := "Principalmente despejado",
    2 := "Parcialmente nublado",
    3 := "Nublado",
    45 := "Niebla",
    48 := "Niebla con escarcha",
    51 := "Llovizna ligera",
    53 := "Llovizna moderada",
    55 := "Llovizna intensa",
    56 := "Llovizna helada ligera",
    57 := "Llovizna helada intensa",
    61 := "Lluvia ligera",
    63 := "Lluvia moderada",
    65 := "Lluvia intensa",
    66 := "Lluvia helada ligera",
    67 := "Lluvia helada intensa",
    71 := "Nieve ligera",
    73 := "Nieve moderada",
    75 := "Nieve intensa",
    77 := "Granizo",
    80 := "Chubascos ligeros",
    81 := "Chubascos moderados",
    82 := "Chubascos intensos",
    85 := "Chubascos de nieve ligeros",
    86 := "Chubascos de nieve intensos",
    95 := "Tormenta",
    96 := "Tormenta con granizo ligero",
    99 := "Tormenta con granizo intenso"]

  /** The 28 codes the table knows. */
  const WmoCodes: set<int> := {0, 1, 2, 3, 45, 48, 51, 53, 55, 56, 57, 61, 63, 65, 66, 67,
                               71, 73, 75, 77, 80, 81, 82, 85, 86, 95, 96, 99}

  /** WeatherService::getWeatherDescription: the table entry, or
      "Condición desconocida" for every code the table does not list. */
  function WeatherDescription(code: int): (r: string)
    ensures r == UnknownCondition <==> code !in WmoCodes
  {
    if code in Descriptions then Descriptions[code] else UnknownCondition
  }

  /** The codes of each WMO group read as that group. */
  lemma FogDescriptions(code: int)
    requires code in {45, 48}
    ensures "Niebla" <= WeatherDescription(code)
  {
  }

  lemma DrizzleDescriptions(code: int)
    requires code in {51, 53, 55, 56, 57}
    ensures "Llovizna" <= WeatherDescription(code)
  {
  }

  lemma FreezingDrizzleDescriptions(code: int)
    requires code in {56, 57}
    ensures "Llovizna helada" <= WeatherDescription(code)
  {
  }

  lemma RainDescriptions(code: int)
    requires code in {61, 63, 65, 66, 67}
    ensures "Lluvia" <= WeatherDescription(code)
  {
  }

  lemma FreezingRainDescriptions(code: int)
    requires code in {66, 67}
    ensures "Lluvia helada" <= WeatherDescription(code)
  {
  }

  lemma SnowDescriptions(code: int)
    requires code in {71, 73, 75}
    ensures "Nieve" <= WeatherDescription(code)
  {
  }

  lemma ShowersDescriptions(code: int)
    requires code in {80, 81, 82, 85, 86}
    ensures "Chubascos" <= WeatherDescription(code)
  {
  }

  lemma SnowShowersDescriptions(code: int)
    requires code in {85, 86}
    ensures "Chubascos de nieve" <= WeatherDescription(code)
  {
  }

  lemma ThunderstormDescriptions(code: int)
    requires code in {95, 96, 99}
    ensures "Tormenta" <= WeatherDescription(code)
  {
  }

  function DigitChar(d: nat): (c: char)
    requires d < 10
    ensures '0' <= c <= '9'
  {
    ['0', '1', '2', '3', '4', '5', '6', '7', '8', '9'][d]
  }

  /** PHP's decimal rendering of a non-negative integer. */
  function Decimal(n: nat): (r: string)
    ensures |r| >= 1
    ensures forall i :: 0 <= i < |r| ==> '0' <= r[i] <= '9'
  {
    if n < 10 then [DigitChar(n)] else Decimal(n / 10) + [DigitChar(n % 10)]
  }

  /** The number a string of decimal digits spells. */
  function DigitsValue(s: string): nat
    requires forall i :: 0 <= i < |s| ==> '0' <= s[i] <= '9'
  {
    if s == [] then 0 else DigitsValue(s[..|s| - 1]) * 10 + (s[|s| - 1] as int - '0' as int)
  }

  /** `Decimal` spells the number itself, without leading zeros. */
  lemma {:induction false} DecimalValue(n: nat)
    ensures DigitsValue(Decimal(n)) == n
    ensures |Decimal(n)| > 1 ==> Decimal(n)[0] != '0'
  {
    if n >= 10 {
      DecimalValue(n / 10);
      var d := Decimal(n);
      assert d[..|d| - 1] == Decimal(n / 10);
      assert d[0] == Decimal(n / 10)[0];
    }
  }

  const FetchErrorPrefix: string := "Error fetching weather data: "
  const ForecastFailedPrefix: string := "Weather API request failed: "
  const GeocodingErrorPrefix: string := "Error finding location coordinates: "
  const GeocodingFailedPrefix: string := "Geocoding API request failed: "
  const NotFoundPrefix: string := "Location not found: "

  /** The query sent to `/forecast`: the request DTO with the seven fields,
      after `array_filter`. Null `hourly`/`daily` entries are dropped, and so
      is a latitude or longitude of exactly 0. */
  function ForecastQuery(latitude: real, longitude: real, location: Option<string>): (r: seq<Param>)
    ensures r == (if latitude == 0.0 then [] else [("latitude", Num(latitude))])
               + (if longitude == 0.0 then [] else [("longitude", Num(longitude))])
               + [("current", Str(Join(ServiceCurrentFields))), ("timezone", Str("auto"))]
  {
    var dto := NewWeatherRequest(latitude, longitude, location, ServiceCurrentFields);
    FilteredForecastParams(dto);
    ArrayFilter(ToArray(dto))
  }

  /** What survives `array_filter` of a request without hourly or daily fields. */
  lemma FilteredForecastParams(dto: WeatherRequest)
    requires dto.currentWeather == ServiceCurrentFields
    requires dto.hourlyWeather == [] && dto.dailyWeather == []
    ensures ArrayFilter(ToArray(dto))
         == (if dto.latitude == 0.0 then [] else [("latitude", Num(dto.latitude))])
          + (if dto.longitude == 0.0 then [] else [("longitude", Num(dto.longitude))])
          + [("current", Str(Join(ServiceCurrentFields))), ("timezone", Str("auto"))]
  {
    var a := ToArray(dto);
    assert "temperature_2m" <= Join(ServiceCurrentFields);
    FilterSix(a);
  }

  /** `array_filter` of six entries of which the fourth and fifth are falsy
      and the third and sixth are not. */
  lemma FilterSix(a: seq<Param>)
    requires |a| == 6
    requires !FalsyValue(a[2].1) && FalsyValue(a[3].1) && FalsyValue(a[4].1) && !FalsyValue(a[5].1)
    ensures ArrayFilter(a)
         == (if FalsyValue(a[0].1) then [] else [a[0]])
          + (if FalsyValue(a[1].1) then [] else [a[1]])
          + [a[2], a[5]]
  {
    assert a[5..][1..] == [] && a[5..][0] == a[5];
    assert ArrayFilter(a[5..]) == [a[5]];
    assert a[4..][1..] == a[5..] && a[4..][0] == a[4];
    assert ArrayFilter(a[4..]) == [a[5]];
    assert a[3..][1..] == a[4..] && a[3..][0] == a[3];
    assert ArrayFilter(a[3..]) == [a[5]];
    assert a[2..][1..] == a[3..] && a[2..][0] == a[2];
    assert ArrayFilter(a[2..]) == [a[2], a[5]];
    assert a[1..][1..] == a[2..] && a[1..][0] == a[1];
    assert ArrayFilter(a[1..]) == (if FalsyValue(a[1].1) then [] else [a[1]]) + [a[2], a[5]];
  }

  /** The current-conditions part of the record. A missing `weather_code`
      stays null but is described as code 0. */
  function ShapeCurrent(current: Option<CurrentData>): (c: CurrentConditions)
    ensures current.None? ==> c.temperature.None? && c.apparentTemperature.None? && c.humidity.None?
                              && c.weatherCode.None? && c.windSpeed.None? && c.windDirection.None?
                              && c.pressure.None?
    ensures c.weatherCode.None? ==> c.weatherDescription == "Cielo despejado"
    ensures c.weatherCode.Some? ==> c.weatherDescription == WeatherDescription(c.weatherCode.value)
    ensures current.Some? ==> c.temperature == current.value.temperature2m
                              && c.apparentTemperature == current.value.apparentTemperature
                              && c.humidity == current.value.relativeHumidity2m
                              && c.weatherCode == current.value.weatherCode
                              && c.windSpeed == current.value.windSpeed10m
                              && c.windDirection == current.value.windDirection10m
                              && c.pressure == current.value.pressureMsl
  {
    var d := current.GetOr(NoCurrentData);
    CurrentConditions(
      d.temperature2m, d.apparentTemperature, d.relativeHumidity2m, d.weatherCode,
      WeatherDescription(d.weatherCode.GetOr(0)),
      d.windSpeed10m, d.windDirection10m, d.pressureMsl)
  }

  /** WeatherService::getWeatherForLocation over the forecast answer. */
  function GetWeatherForLocation(latitude: real, longitude: real, location: Option<string>,
                                 answer: HttpOutcome<ForecastBody>): (r: Result<WeatherRecord, string>)
    ensures answer.ConnectionFailed? ==> r == Err(FetchErrorPrefix + answer.message)
    ensures answer.HttpResponse? && !Successful(answer.status) ==>
              r == Err(FetchErrorPrefix + ForecastFailedPrefix + Decimal(answer.status))
    ensures r.Ok? <==> answer.HttpResponse? && Successful(answer.status)
    ensures r.Ok? ==> r.value.location == (if location.Some? then Named(location.value) else LatLon(latitude, longitude))
    ensures r.Ok? ==> r.value.current == ShapeCurrent(answer.body.current)
    ensures r.Ok? ==> r.value.units == (if answer.body.currentUnits.Some? then answer.body.currentUnits.value else map[])
    ensures r.Ok? ==> r.value.timezone == answer.body.timezone
    ensures r.Ok? ==> r.value.timestamp == (if answer.body.current.Some? then answer.body.current.value.time else None)
  {
    match answer
    case ConnectionFailed(message) => Err(FetchErrorPrefix + message)
    case HttpResponse(status, body) =>
      if !Successful(status) then
        Err(FetchErrorPrefix + ForecastFailedPrefix + Decimal(status))
      else
        var shown := if location.Some? then Named(location.value) else LatLon(latitude, longitude);
        Ok(WeatherRecord(
          shown,
          ShapeCurrent(body.current),
          body.currentUnits.GetOr(map[]),
          body.timezone,
          body.current.GetOr(NoCurrentData).time))
  }

  /** One entry of the geocoding `results` list. */
  datatype GeoMatch = GeoMatch(
    latitude: real, longitude: real, name: string,
    country: Option<string>, admin1: Option<string>, timezone: Option<string>)

  datatype GeocodingBody = GeocodingBody(results: Option<seq<GeoMatch>>)

  datatype Place = Place(
    latitude: real, longitude: real, name: string,
    country: Option<string>, admin1: Option<string>, timezone: Option<string>)

  /** The query sent to the geocoding endpoint. */
  function GeocodingQuery(location: string): (r: seq<Param>)
    ensures |r| == 4 && r[0] == ("name", Str(location)) && r[1] == ("count", Int(1))
    ensures r[2] == ("language", Str("es")) && r[3] == ("format", Str("json"))
  {
    [("name", Str(location)), ("count", Int(1)), ("language", Str("es")), ("format", Str("json"))]
  }

  /** WeatherService::getCoordinatesFromLocation over the geocoding answer:
      the first result, or a "Location not found" failure when `results` is
      missing or empty. */
  function GetCoordinatesFromLocation(location: string, answer: HttpOutcome<GeocodingBody>): (r: Result<Place, string>)
    ensures answer.ConnectionFailed? ==> r == Err(GeocodingErrorPrefix + answer.message)
    ensures answer.HttpResponse? && !Successful(answer.status) ==>
              r == Err(GeocodingErrorPrefix + GeocodingFailedPrefix + Decimal(answer.status))
    ensures answer.HttpResponse? && Successful(answer.status) &&
            (answer.body.results.None? || answer.body.results.value == []) ==>
              r == Err(GeocodingErrorPrefix + NotFoundPrefix + location)
    ensures r.Ok? <==> answer.HttpResponse? && Successful(answer.status) &&
                       answer.body.results.Some? && answer.body.results.value != []
    ensures r.Ok? ==> var first := answer.body.results.value[0];
                      r.value == Place(first.latitude, first.longitude, first.name,
                                       first.country, first.admin1, first.timezone)
  {
    match answer
    case ConnectionFailed(message) => Err(GeocodingErrorPrefix + message)
    case HttpResponse(status, body) =>
      if !Successful(status) then
        Err(GeocodingErrorPrefix + GeocodingFailedPrefix + Decimal(status))
      else if body.results.None? || body.results.value == [] then
        Err(GeocodingErrorPrefix + NotFoundPrefix + location)
      else
        var first := body.results.value[0];
        Ok(Place(first.latitude, first.longitude, first.name, first.country, first.admin1, first.timezone))
  }
}
