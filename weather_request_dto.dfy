/** The forecast query (Back/app/DTOs/WeatherRequestDTO.php) and the
    `array_filter` the weather service applies to it before sending. */
module WeatherRequestDto {
  import opened Wrappers

  const DefaultCurrentWeather: seq<string> := ["temperature_2m", "relative_humidity_2m", "weather_code"]

  datatype WeatherRequest = WeatherRequest(
    latitude: real,
    longitude: real,
    location: Option<string>,
    currentWeather: seq<string>,
    hourlyWeather: seq<string>,
    dailyWeather: seq<string>)

  /** The constructor with its default arguments. */
  function NewWeatherRequest(latitude: real, longitude: real, location: Option<string> := None,
                             currentWeather: seq<string> := DefaultCurrentWeather,
                             hourlyWeather: seq<string> := [],
                             dailyWeather: seq<string> := []): (r: WeatherRequest)
    ensures r.latitude == latitude && r.longitude == longitude && r.location == location
    ensures r.currentWeather == currentWeather
    ensures r.hourlyWeather == hourlyWeather && r.dailyWeather == dailyWeather
  {
    WeatherRequest(latitude, longitude, location, currentWeather, hourlyWeather, dailyWeather)
  }

  /** A value of the PHP query array. */
  datatype ParamValue = Num(number: real) | Int(integer: int) | Str(text: string) | Null

  type Param = (string, ParamValue)

  /** PHP `implode(',', $parts)`. */
  function Join(parts: seq<string>): (r: string)
    ensures parts == [] ==> r == ""
    ensures parts != [] ==> parts[0] <= r
  {
    if parts == [] then ""
    else if |parts| == 1 then parts[0]
    else parts[0] + "," + Join(parts[1..])
  }

  /** Splitting at commas, as the receiving side reads a comma-joined list. */
  function Split(s: string): (r: seq<string>)
    ensures |r| >= 1
    decreases |s|
  {
    if s == [] then [""]
    else
      var rest := Split(s[1..]);
      if s[0] == ',' then [""] + rest else [[s[0]] + rest[0]] + rest[1..]
  }

  predicate NoComma(p: string) {
    forall i :: 0 <= i < |p| ==> p[i] != ','
  }

  lemma {:induction false} SplitNoCommaPrefix(p: string, t: string)
    requires NoComma(p)
    ensures Split(p + t) == [p + Split(t)[0]] + Split(t)[1..]
    decreases |p|
  {
    if p == [] {
      assert p + t == t && p + Split(t)[0] == Split(t)[0];
      assert Split(t) == [Split(t)[0]] + Split(t)[1..];
    } else {
      assert (p + t)[0] == p[0];
      assert (p + t)[1..] == p[1..] + t;
      SplitNoCommaPrefix(p[1..], t);
      assert [p[0]] + (p[1..] + Split(t)[0]) == p + Split(t)[0];
    }
  }

  /** The joined list is read back as the same fields, provided no field
      contains a comma. */
  lemma {:induction false} SplitJoin(parts: seq<string>)
    requires parts != []
    requires forall i :: 0 <= i < |parts| ==> NoComma(parts[i])
    ensures Split(Join(parts)) == parts
  {
    if |parts| == 1 {
      SplitNoCommaPrefix(parts[0], "");
      assert parts[0] + "" == parts[0];
    } else {
      SplitJoin(parts[1..]);
      var tail := "," + Join(parts[1..]);
      assert parts[0] + "," + Join(parts[1..]) == parts[0] + tail;
      SplitNoCommaPrefix(parts[0], tail);
      assert tail[0] == ',' && tail[1..] == Join(parts[1..]);
      assert Split(tail) == [""] + parts[1..];
      assert parts[0] + "" == parts[0];
    }
  }

  /** WeatherRequestDTO::toArray. */
  function ToArray(dto: WeatherRequest): (r: seq<Param>)
    ensures |r| == 6
    ensures r[0] == ("latitude", Num(dto.latitude)) && r[1] == ("longitude", Num(dto.longitude))
    ensures r[2] == ("current", Str(Join(dto.currentWeather)))
    ensures r[3].0 == "hourly" && r[4].0 == "daily"
    ensures r[3].1 == if dto.hourlyWeather == [] then Null else Str(Join(dto.hourlyWeather))
    ensures r[4].1 == if dto.dailyWeather == [] then Null else Str(Join(dto.dailyWeather))
    ensures r[5] == ("timezone", Str("auto"))
  {
    [ ("latitude", Num(dto.latitude)),
      ("longitude", Num(dto.longitude)),
      ("current", Str(Join(dto.currentWeather))),
      ("hourly", if dto.hourlyWeather != [] then Str(Join(dto.hourlyWeather)) else Null),
      ("daily", if dto.dailyWeather != [] then Str(Join(dto.dailyWeather)) else Null),
      ("timezone", Str("auto")) ]
  }

  /** PHP truthiness of a query value: null, 0, 0.0, "" and "0" are falsy. */
  predicate FalsyValue(v: ParamValue) {
    match v
    case Null => true
    case Num(x) => x == 0.0
    case Int(n) => n == 0
    case Str(s) => s == "" || s == "0"
  }

  /** PHP `array_filter($params)` without a callback: drops falsy entries and
      keeps the others in order. */
  function ArrayFilter(params: seq<Param>): (r: seq<Param>)
    ensures |r| <= |params|
  {
    if params == [] then []
    else (if FalsyValue(params[0].1) then [] else [params[0]]) + ArrayFilter(params[1..])
  }

  /** `array_filter` keeps exactly the truthy entries. */
  lemma {:induction false} ArrayFilterMembers(params: seq<Param>)
    ensures forall p :: p in ArrayFilter(params) <==> p in params && !FalsyValue(p.1)
  {
    if params != [] {
      ArrayFilterMembers(params[1..]);
      assert params == [params[0]] + params[1..];
    }
  }

  /** `array_filter` keeps the order of the entries it keeps: it
      distributes over concatenation. */
  lemma {:induction false} ArrayFilterAppend(a: seq<Param>, b: seq<Param>)
    ensures ArrayFilter(a + b) == ArrayFilter(a) + ArrayFilter(b)
  {
    if a == [] {
      assert a + b == b;
    } else {
      assert (a + b)[0] == a[0];
      assert (a + b)[1..] == a[1..] + b;
      ArrayFilterAppend(a[1..], b);
    }
  }
}
