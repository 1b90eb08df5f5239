/** The weather lookup used before a yield request (client/src/utils/weatherAPi.js,
    `getWeatherByCity`). The OpenWeather call is abstract: the function is given the
    configured API key and how the request ended. Every failure path, thrown or not,
    ends in the same fallback reading. */
module Weather {
  import opened JsText

  /** The `{Temp, Humidity, Rainfall}` object the lookup returns. */
  datatype Weather = Weather(temp: real, humidity: real, rainfall: real)

  /** The default reading used whenever live data is unavailable. */
  function Fallback(): (w: Weather)
    ensures w.temp == 25.0 && w.humidity == 60.0 && w.rainfall == 500.0
  {
    Weather(25.0, 60.0, 500.0)
  }

  /** The `cod` field, which OpenWeather sends as a number on success and sometimes
      as a string on error. */
  datatype Cod = CodNumber(n: real) | CodText(s: string)

  datatype MainBlock = MainBlock(temp: real, humidity: real)

  /** The optional `rain` object with its optional `1h` and `3h` volumes. */
  datatype RainBlock = RainBlock(oneHour: Option<real>, threeHour: Option<real>)

  /** How the request ended: `fetch` or `response.json()` threw, or a parsed body
      arrived with whichever of `cod`, `main` and `rain` it carries. */
  datatype Response =
    | FetchFailed
    | Body(cod: Option<Cod>, main: Option<MainBlock>, rain: Option<RainBlock>)

  /** `data.cod !== 200`: only the number 200 passes; the string "200" does not. */
  predicate CodIsOk(cod: Option<Cod>) {
    cod == Some(CodNumber(200.0))
  }

  /** The lookup reaches live data: a city and a key are given, the request did not
      throw, `cod` is 200, and `main` is present (reading `data.main.temp` otherwise
      throws and lands in the `catch`). */
  predicate Live(city: Option<string>, apiKey: Option<string>, response: Response) {
    TruthyString(city) && TruthyString(apiKey)
    && response.Body? && CodIsOk(response.cod) && response.main.Some?
  }

  /** `data.rain["1h"] || data.rain["3h"] || 0`, guarded by `if (data.rain)`. */
  function Rainfall(rain: Option<RainBlock>): (mm: real)
    ensures rain.None? ==> mm == 0.0
    ensures rain.Some? && TruthyNumber(rain.value.oneHour) ==> mm == rain.value.oneHour.value
    ensures (rain.Some? && !TruthyNumber(rain.value.oneHour) && TruthyNumber(rain.value.threeHour)) ==>
              mm == rain.value.threeHour.value
    ensures mm == 0.0 <==>
              rain.None? || (!TruthyNumber(rain.value.oneHour) && !TruthyNumber(rain.value.threeHour))
  {
    match rain
    case None => 0.0
    case Some(r) => OrNumber(r.oneHour, OrNumber(r.threeHour, 0.0))
  }

  /** `getWeatherByCity(city)`. */
  function GetWeatherByCity(city: Option<string>, apiKey: Option<string>, response: Response): (w: Weather)
    ensures !Live(city, apiKey, response) ==> w == Fallback()
    ensures Live(city, apiKey, response) ==>
              && w.temp == response.main.value.temp
              && w.humidity == response.main.value.humidity
              && w.rainfall == Rainfall(response.rain)
  {
    if !TruthyString(city) then Fallback()
    else if !TruthyString(apiKey) then Fallback()
    else match response
      case FetchFailed => Fallback()
      case Body(cod, main, rain) =>
        if !CodIsOk(cod) then Fallback()
        else match main
          case None => Fallback()
          case Some(m) => Weather(m.temp, m.humidity, Rainfall(rain))
  }

  /** Without a key the response is never consulted. */
  lemma NoKeyIgnoresResponse(city: Option<string>, apiKey: Option<string>, r1: Response, r2: Response)
    requires !TruthyString(apiKey)
    ensures GetWeatherByCity(city, apiKey, r1) == GetWeatherByCity(city, apiKey, r2) == Fallback()
  {
  }

  /** A live reading reports the fallback's rainfall only if the rain object says so:
      with no rain data, live weather has zero rainfall, never the fallback's 500. */
  lemma LiveWithoutRainIsDry(city: Option<string>, apiKey: Option<string>, response: Response)
    requires Live(city, apiKey, response) && response.rain.None?
    ensures GetWeatherByCity(city, apiKey, response).rainfall == 0.0
    ensures GetWeatherByCity(city, apiKey, response) != Fallback()
  {
  }
}
