/** The crop input form (client/src/components/InputData.jsx): the colour badges of
    the pH, fertilizer and pesticide sliders, the slider ranges, and the yield request
    the submit handler builds from the selections and the weather lookup. Clock reads
    (`new Date()`) are parameters. */
module InputData {
  import opened JsText
  import Weather
  import YieldAdvice

  /** The badge colour classes the helpers return. */
  datatype Badge = RedBadge | GreenBadge | YellowBadge | BlueBadge

  function BadgeClasses(b: Badge): string {
    match b
    case RedBadge => "bg-red-100 text-red-700"
    case GreenBadge => "bg-green-100 text-green-700"
    case YellowBadge => "bg-yellow-100 text-yellow-700"
    case BlueBadge => "bg-blue-100 text-blue-700"
  }

  /** `getPhColor`: acidic below 6, neutral up to and including 8, alkaline above. */
  function PhColor(value: real): (b: Badge)
    ensures b == RedBadge <==> value < 6.0
    ensures b == GreenBadge <==> 6.0 <= value <= 8.0
    ensures b == YellowBadge <==> value > 8.0
  {
    if value < 6.0 then RedBadge else if value <= 8.0 then GreenBadge else YellowBadge
  }

  /** `getFertilizerColor`: low below 50, normal up to and including 120, high above. */
  function FertilizerColor(value: real): (b: Badge)
    ensures b == BlueBadge <==> value < 50.0
    ensures b == GreenBadge <==> 50.0 <= value <= 120.0
    ensures b == RedBadge <==> value > 120.0
  {
    if value < 50.0 then BlueBadge else if value <= 120.0 then GreenBadge else RedBadge
  }

  /** `getPesticideColor`: low below 3, moderate up to and including 8, high above. */
  function PesticideColor(value: real): (b: Badge)
    ensures b == GreenBadge <==> value < 3.0
    ensures b == YellowBadge <==> 3.0 <= value <= 8.0
    ensures b == RedBadge <==> value > 8.0
  {
    if value < 3.0 then GreenBadge else if value <= 8.0 then YellowBadge else RedBadge
  }

  /** The form's selections (the `useState` values). */
  datatype Selections = Selections(
    ph: real, n: real, p: real, k: real,
    fertilizerAmount: real, pesticideAmount: real,
    soilType: string, state: string, cropName: string, fertilizerType: string)

  function InitialSelections(): (s: Selections)
    ensures s.ph == 7.0 && s.n == 20.0 && s.p == 10.0 && s.k == 10.0
    ensures s.fertilizerAmount == 50.0 && s.pesticideAmount == 5.0
    ensures s.soilType == "Sandy" && s.state == "Punjab" && s.cropName == "Rice" && s.fertilizerType == "Organic"
  {
    Selections(7.0, 20.0, 10.0, 10.0, 50.0, 5.0, "Sandy", "Punjab", "Rice", "Organic")
  }

  /** The slider ranges: pH 0–14, N 0–300, P 0–150, K 0–200, fertilizer 0–200 and
      pesticide 0–15. */
  predicate WithinSliders(s: Selections) {
    && 0.0 <= s.ph <= 14.0
    && 0.0 <= s.n <= 300.0 && 0.0 <= s.p <= 150.0 && 0.0 <= s.k <= 200.0
    && 0.0 <= s.fertilizerAmount <= 200.0 && 0.0 <= s.pesticideAmount <= 15.0
  }

  /** The initial selections lie on the sliders. */
  lemma InitialWithinSliders()
    ensures WithinSliders(InitialSelections())
  {
  }

  /** The submit handler's weather: the fallback, replaced by the lookup's result when
      a state is selected (the lookup always yields an object). */
  function PayloadWeather(state: string, apiKey: Option<string>, response: Weather.Response): Weather.Weather {
    if state != "" then Weather.GetWeatherByCity(Some(state), apiKey, response) else Weather.Fallback()
  }

  /** The `if (state)` guard is redundant: the lookup itself answers an empty city
      with the fallback, so the payload weather is always the lookup's answer. */
  lemma PayloadWeatherIsLookup(state: string, apiKey: Option<string>, response: Weather.Response)
    ensures PayloadWeather(state, apiKey, response) == Weather.GetWeatherByCity(Some(state), apiKey, response)
  {
  }

  /** The request field `area`, a fixed placeholder. */
  const PlaceholderArea: real := 1000.0

  /** The `formData` payload. `year` is the current year and `isoNow` the current
      instant as `toISOString()` prints it; the sowing date is its part before "T". */
  function BuildPayload(s: Selections, w: Weather.Weather, year: int, isoNow: string): (input: YieldAdvice.YieldInput)
    ensures input.crop == s.cropName && input.state == s.state && input.year == year
    ensures input.n == s.n && input.p == s.p && input.k == s.k && input.pH == s.ph
    ensures input.soilType == s.soilType && input.fertilizerType == s.fertilizerType
    ensures input.fertilizerAmount == s.fertilizerAmount && input.pesticideAmount == s.pesticideAmount
    ensures input.rainfall == w.rainfall && input.temp == w.temp && input.humidity == w.humidity
    ensures 'T' !in input.sowingDate && input.sowingDate <= isoNow
    ensures |input.sowingDate| == |isoNow| || isoNow[|input.sowingDate|] == 'T'
    ensures input.area == PlaceholderArea
  {
    var parts := Split(isoNow, 'T');
    YieldAdvice.YieldInput(
      s.cropName, s.state, year, s.n, s.p, s.k, s.ph,
      s.soilType, w.rainfall, w.temp, w.humidity,
      s.fertilizerType, s.fertilizerAmount, s.pesticideAmount,
      parts[0], PlaceholderArea)
  }

  /** How the backend request ended: it threw, or a JSON body arrived. */
  datatype BackendOutcome = Unreachable | Replied(data: YieldAdvice.Response)

  /** Where the submit leaves the user: on the result page with the body, or on the
      form with an alert. */
  datatype SubmitResult = ShowResult(resultData: YieldAdvice.Response) | Alert(text: string)

  const BackendDownAlert: string := "Failed to connect to backend. Make sure FastAPI is running."

  /** `handleSubmit`: the payload sent and where the user ends up. */
  function HandleSubmit(s: Selections, apiKey: Option<string>, weather: Weather.Response,
                        year: int, isoNow: string, backend: BackendOutcome): (r: (YieldAdvice.YieldInput, SubmitResult))
    ensures r.0 == BuildPayload(s, Weather.GetWeatherByCity(Some(s.state), apiKey, weather), year, isoNow)
    ensures backend.Unreachable? <==> r.1 == Alert(BackendDownAlert)
    ensures backend.Replied? ==> r.1 == ShowResult(backend.data)
  {
    PayloadWeatherIsLookup(s.state, apiKey, weather);
    var payload := BuildPayload(s, PayloadWeather(s.state, apiKey, weather), year, isoNow);
    match backend
    case Unreachable => (payload, Alert(BackendDownAlert))
    case Replied(data) => (payload, ShowResult(data))
  }

  /** The placeholder area makes the server's production figure equal to the
      predicted yield (kg/ha read as tonnes). */
  lemma PayloadProductionEqualsYield(s: Selections, w: Weather.Weather, year: int, isoNow: string, y: real)
    ensures YieldAdvice.PredictYield(BuildPayload(s, w, year, isoNow), YieldAdvice.Predicted(y)).result.totalProductionTonnes == y
  {
    YieldAdvice.ProductionForThousandUnits(BuildPayload(s, w, year, isoNow), y);
  }

  /** The form's and the server's pH bands disagree: a pH above 7.5 and at most 8 is
      shown green in the form while the server calls the soil alkaline. */
  lemma PhBandsDisagree(ph: real)
    ensures (PhColor(ph) == GreenBadge && YieldAdvice.SoilAdvice(ph) == YieldAdvice.SoilAlkaline)
            <==> 7.5 < ph <= 8.0
  {
  }

  /** The fertilizer bands agree at the low end: the form's blue badge is shown
      exactly when the server adds its low-fertilizer message. */
  lemma FertilizerLowAgrees(s: Selections, w: Weather.Weather, year: int, isoNow: string)
    ensures var input := BuildPayload(s, w, year, isoNow);
            FertilizerColor(s.fertilizerAmount) == BlueBadge
            <==> YieldAdvice.FertilizerLow(s.fertilizerType) in YieldAdvice.InputAdvice(input)
  {
  }
}
