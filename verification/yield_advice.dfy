/** The rule part of the backend's `/predict_yield` handler (server/app.py,
    `predict_yield_api`): threshold rules that turn the soil and weather readings into an
    ordered list of recommendations, the crop status derived from the predicted yield,
    and the total production. The model's prediction is an input: the XGBoost model,
    its categorical encoding and its errors are outside this module, except that a
    raised error becomes the handler's 400 response. */
module YieldAdvice {

  /** The request body (`YieldInput`). */
  datatype YieldInput = YieldInput(
    crop: string, state: string, year: int,
    n: real, p: real, k: real, pH: real,
    soilType: string, rainfall: real, temp: real, humidity: real,
    fertilizerType: string, fertilizerAmount: real, pesticideAmount: real,
    sowingDate: string, area: real)

  /** One recommendation; `Text` gives the exact message the server sends. */
  datatype Advice =
    | NitrogenVeryLow | NitrogenLow | NitrogenSufficient
    | PhosphorusVeryLow | PhosphorusLow | PhosphorusSufficient
    | PotassiumVeryLow | PotassiumLow | PotassiumSufficient
    | SoilAcidic | SoilAlkaline | SoilOptimal
    | RainfallLow | RainfallHigh | RainfallAdequate
    | TempHigh | TempLow | TempOptimal
    | HumidityHigh | HumidityLow | HumidityIdeal
    | FertilizerLow(fertilizerType: string)
    | PesticideLow
    | HealthExcellent | HealthModerate | HealthPoor

  function Text(a: Advice): string {
    match a
    case NitrogenVeryLow => "🌱 Nitrogen very low: Apply 25–30 kg/ha urea immediately."
    case NitrogenLow => "🌱 Nitrogen low: Apply nitrogen-rich fertilizer like urea."
    case NitrogenSufficient => "🌱 Nitrogen levels are sufficient."
    case PhosphorusVeryLow => "🌿 Phosphorus very low: Apply 30–40 kg/ha DAP."
    case PhosphorusLow => "🌿 Phosphorus low: Consider additional phosphorus fertilizer."
    case PhosphorusSufficient => "🌿 Phosphorus levels are sufficient."
    case PotassiumVeryLow => "🪴 Potassium very low: Apply 30–40 kg/ha MOP."
    case PotassiumLow => "🪴 Potassium low: Consider additional potassium fertilizer."
    case PotassiumSufficient => "🪴 Potassium levels are sufficient."
    case SoilAcidic => "🧪 Soil is acidic. Apply lime to raise pH and improve nutrient uptake."
    case SoilAlkaline => "🧪 Soil is alkaline. Add organic matter or gypsum to improve pH."
    case SoilOptimal => "🧪 Soil pH is optimal."
    case RainfallLow => "💧 Low rainfall detected. Irrigation is necessary."
    case RainfallHigh => "💧 High rainfall. Ensure proper drainage to avoid waterlogging."
    case RainfallAdequate => "💧 Rainfall is adequate."
    case TempHigh => "☀️ High temperature: Use mulching/shading or plant heat-tolerant varieties."
    case TempLow => "❄️ Low temperature: Protect crops from frost if applicable."
    case TempOptimal => "🌡️ Temperature is within optimal range."
    case HumidityHigh => "💦 High humidity: Monitor for fungal diseases and apply fungicides proactively."
    case HumidityLow => "💦 Low humidity: Use drip irrigation or maintain soil moisture."
    case HumidityIdeal => "💦 Humidity is within ideal range."
    case FertilizerLow(t) => "🌾 Fertilizer amount is low. Consider increasing " + t + " fertilizer for optimal growth."
    case PesticideLow => "🐛 Pesticide amount is low. Regular pest monitoring is recommended."
    case HealthExcellent => "📊 Overall crop health is excellent. Maintain current practices."
    case HealthModerate => "📊 Overall crop health is moderate. Follow above recommendations for better yield."
    case HealthPoor => "📊 Overall crop health is poor. Immediate action required: optimize nutrients, irrigation, and pest control."
  }

  // ---------------------------------------------------------------------------
  // One rule per reading; each gives exactly one message

  function NitrogenAdvice(n: real): (a: Advice)
    ensures a == NitrogenVeryLow <==> n < 30.0
    ensures a == NitrogenLow <==> 30.0 <= n < 50.0
    ensures a == NitrogenSufficient <==> n >= 50.0
  {
    if n < 30.0 then NitrogenVeryLow else if n < 50.0 then NitrogenLow else NitrogenSufficient
  }

  function PhosphorusAdvice(p: real): (a: Advice)
    ensures a == PhosphorusVeryLow <==> p < 15.0
    ensures a == PhosphorusLow <==> 15.0 <= p < 25.0
    ensures a == PhosphorusSufficient <==> p >= 25.0
  {
    if p < 15.0 then PhosphorusVeryLow else if p < 25.0 then PhosphorusLow else PhosphorusSufficient
  }

  function PotassiumAdvice(k: real): (a: Advice)
    ensures a == PotassiumVeryLow <==> k < 20.0
    ensures a == PotassiumLow <==> 20.0 <= k < 35.0
    ensures a == PotassiumSufficient <==> k >= 35.0
  {
    if k < 20.0 then PotassiumVeryLow else if k < 35.0 then PotassiumLow else PotassiumSufficient
  }

  function SoilAdvice(pH: real): (a: Advice)
    ensures a == SoilAcidic <==> pH < 6.0
    ensures a == SoilAlkaline <==> pH > 7.5
    ensures a == SoilOptimal <==> 6.0 <= pH <= 7.5
  {
    if pH < 6.0 then SoilAcidic else if pH > 7.5 then SoilAlkaline else SoilOptimal
  }

  function RainfallAdvice(rainfall: real): (a: Advice)
    ensures a == RainfallLow <==> rainfall < 200.0
    ensures a == RainfallHigh <==> rainfall > 800.0
    ensures a == RainfallAdequate <==> 200.0 <= rainfall <= 800.0
  {
    if rainfall < 200.0 then RainfallLow else if rainfall > 800.0 then RainfallHigh else RainfallAdequate
  }

  function TempAdvice(temp: real): (a: Advice)
    ensures a == TempHigh <==> temp > 35.0
    ensures a == TempLow <==> temp < 15.0
    ensures a == TempOptimal <==> 15.0 <= temp <= 35.0
  {
    if temp > 35.0 then TempHigh else if temp < 15.0 then TempLow else TempOptimal
  }

  function HumidityAdvice(humidity: real): (a: Advice)
    ensures a == HumidityHigh <==> humidity > 80.0
    ensures a == HumidityLow <==> humidity < 50.0
    ensures a == HumidityIdeal <==> 50.0 <= humidity <= 80.0
  {
    if humidity > 80.0 then HumidityHigh else if humidity < 50.0 then HumidityLow else HumidityIdeal
  }

  /** `crop_status`, computed from the predicted yield (not part of the response; only
      its message is). */
  datatype CropStatus = Excellent | Moderate | Poor

  function StatusOf(predictedYield: real): (s: CropStatus)
    ensures s == Excellent <==> predictedYield > 80.0
    ensures s == Moderate <==> 50.0 < predictedYield <= 80.0
    ensures s == Poor <==> predictedYield <= 50.0
  {
    if predictedYield > 80.0 then Excellent else if predictedYield > 50.0 then Moderate else Poor
  }

  function StatusAdvice(s: CropStatus): Advice {
    match s
    case Excellent => HealthExcellent
    case Moderate => HealthModerate
    case Poor => HealthPoor
  }

  /** The optional fertilizer and pesticide messages, in that order. */
  function InputAdvice(input: YieldInput): (r: seq<Advice>)
    ensures |r| <= 2
    ensures FertilizerLow(input.fertilizerType) in r <==> input.fertilizerAmount < 50.0
    ensures PesticideLow in r <==> input.pesticideAmount < 5.0
  {
    (if input.fertilizerAmount < 50.0 then [FertilizerLow(input.fertilizerType)] else [])
    + (if input.pesticideAmount < 5.0 then [PesticideLow] else [])
  }

  /** The `recommendations` list. */
  function Recommendations(input: YieldInput, predictedYield: real): (r: seq<Advice>)
    ensures 8 <= |r| <= 10
    ensures r[|r| - 1] == StatusAdvice(StatusOf(predictedYield))
    ensures HealthExcellent !in r[..|r| - 1] && HealthModerate !in r[..|r| - 1] && HealthPoor !in r[..|r| - 1]
  {
    [NitrogenAdvice(input.n), PhosphorusAdvice(input.p), PotassiumAdvice(input.k),
     SoilAdvice(input.pH), RainfallAdvice(input.rainfall), TempAdvice(input.temp),
     HumidityAdvice(input.humidity)]
    + InputAdvice(input)
    + [StatusAdvice(StatusOf(predictedYield))]
  }

  /** The fixed order N, P, K, pH, rainfall, temperature, humidity, then the optional
      fertilizer and pesticide messages, then the status message last; 8 to 10 entries. */
  lemma RecommendationsLayout(input: YieldInput, predictedYield: real)
    ensures var r := Recommendations(input, predictedYield);
            var optional := (if input.fertilizerAmount < 50.0 then 1 else 0)
                            + (if input.pesticideAmount < 5.0 then 1 else 0);
            && |r| == 8 + optional && 8 <= |r| <= 10
            && r[0] == NitrogenAdvice(input.n)
            && r[1] == PhosphorusAdvice(input.p)
            && r[2] == PotassiumAdvice(input.k)
            && r[3] == SoilAdvice(input.pH)
            && r[4] == RainfallAdvice(input.rainfall)
            && r[5] == TempAdvice(input.temp)
            && r[6] == HumidityAdvice(input.humidity)
            && (input.fertilizerAmount < 50.0 <==> r[7] == FertilizerLow(input.fertilizerType))
            && (input.pesticideAmount < 5.0 <==> r[|r| - 2] == PesticideLow)
            && r[|r| - 1] == StatusAdvice(StatusOf(predictedYield))
  {
  }

  /** The status message is the last entry and appears nowhere else. */
  lemma StatusMessageOnlyLast(input: YieldInput, predictedYield: real, i: int)
    requires 0 <= i < |Recommendations(input, predictedYield)| - 1
    ensures Recommendations(input, predictedYield)[i] !in {HealthExcellent, HealthModerate, HealthPoor}
  {
  }

  /** The fertilizer message names the fertilizer type it was given. */
  lemma FertilizerMessageEmbedsType(t: string)
    ensures var m := Text(FertilizerLow(t));
            var prefix := "🌾 Fertilizer amount is low. Consider increasing ";
            prefix <= m && m[|prefix|..|prefix| + |t|] == t
  {
  }

  // ---------------------------------------------------------------------------
  // The response

  datatype WeatherEcho = WeatherEcho(temperature: real, humidity: real, description: string)

  datatype Prediction = Prediction(
    cropName: string, location: string, weather: WeatherEcho,
    predictedYieldKgHa: real, totalProductionTonnes: real,
    recommendations: seq<Advice>, sowingDate: string)

  /** What the model call did: a prediction, or an exception with its text. */
  datatype ModelOutcome = Predicted(value: real) | Raised(message: string)

  /** The handler's JSON response: the result, or `{"error": …}` with status 400. */
  datatype Response = Ok(result: Prediction) | BadRequest(error: string)

  /** Total production in tonnes: yield per hectare times area, over 1000. */
  function ProductionTonnes(yieldKgHa: real, area: real): (t: real)
    ensures t * 1000.0 == yieldKgHa * area
  {
    yieldKgHa * area / 1000.0
  }

  /** `predict_yield_api`. */
  function PredictYield(input: YieldInput, model: ModelOutcome): (r: Response)
    ensures model.Raised? <==> r.BadRequest?
    ensures model.Raised? ==> r.error == model.message
    ensures r.Ok? ==>
              && r.result.cropName == input.crop && r.result.location == input.state
              && r.result.weather == WeatherEcho(input.temp, input.humidity, "Data from API")
              && r.result.sowingDate == input.sowingDate
              && r.result.predictedYieldKgHa == model.value
              && r.result.totalProductionTonnes * 1000.0 == model.value * input.area
              && r.result.recommendations == Recommendations(input, model.value)
  {
    match model
    case Raised(message) => BadRequest(message)
    case Predicted(y) =>
      Ok(Prediction(input.crop, input.state, WeatherEcho(input.temp, input.humidity, "Data from API"),
                    y, ProductionTonnes(y, input.area), Recommendations(input, y), input.sowingDate))
  }

  /** With 1000 units of area the production figure equals the predicted yield. */
  lemma ProductionForThousandUnits(input: YieldInput, y: real)
    requires input.area == 1000.0
    ensures PredictYield(input, Predicted(y)).result.totalProductionTonnes == y
  {
  }
}
