/** The diagnosis rules of the backend's image analysis (server/app.py,
    `analyze_crop_health_detailed`). Decoding, resizing and HSV masking are outside the
    model: the green, yellow and brown pixel ratios arrive as inputs, and an image that
    could not be read arrives as `None`. The two-decimal rounding of the percentages is
    not modelled. */
module CropHealth {
  import opened JsText

  /** Fractions of the resized image's pixels inside each colour mask. */
  datatype Ratios = Ratios(green: real, yellow: real, brown: real)

  /** One diagnosis entry; each comes with its matching recommendation. */
  datatype Finding = NitrogenDeficiency | PestOrDisease | Healthy

  function DiagnosisText(f: Finding): string {
    match f
    case NitrogenDeficiency => "Nitrogen deficiency detected (yellow leaves)."
    case PestOrDisease => "Possible disease or pest attack (brown/black spots)."
    case Healthy => "Crop appears healthy."
  }

  function RecommendationText(f: Finding): string {
    match f
    case NitrogenDeficiency => "Apply nitrogen-rich fertilizer."
    case PestOrDisease => "Inspect crop for pests/diseases and use appropriate treatment."
    case Healthy => "Maintain regular irrigation and monitoring."
  }

  /** The three rules, checked in order. */
  function Findings(r: Ratios): (fs: seq<Finding>)
    ensures NitrogenDeficiency in fs <==> r.yellow > 0.05
    ensures PestOrDisease in fs <==> r.brown > 0.02
    ensures Healthy in fs <==> r.green > 0.8 && r.yellow < 0.05 && r.brown < 0.02
    ensures |fs| <= 3
    ensures forall i, j :: 0 <= i < j < |fs| ==> fs[i] != fs[j]
    ensures r.yellow > 0.05 && r.brown > 0.02 ==> fs[..2] == [NitrogenDeficiency, PestOrDisease]
  {
    (if r.yellow > 0.05 then [NitrogenDeficiency] else [])
    + (if r.brown > 0.02 then [PestOrDisease] else [])
    + (if r.green > 0.8 && r.yellow < 0.05 && r.brown < 0.02 then [Healthy] else [])
  }

  datatype Analysis = Analysis(
    cropType: string,
    healthScorePercent: real,
    healthyGreenPercent: real,
    yellowLeavesPercent: real,
    brownSpotsPercent: real,
    diagnosis: seq<string>,
    recommendations: seq<string>)

  datatype Result = Ok(analysis: Analysis) | Error(message: string)

  /** `analyze_crop_health_detailed`, after pixel counting. */
  function Analyze(ratios: Option<Ratios>, cropType: string): (res: Result)
    ensures ratios.None? <==> res == Error("Image not found!")
    ensures ratios.Some? ==>
              && res.Ok?
              && |res.analysis.diagnosis| == |res.analysis.recommendations| == |Findings(ratios.value)| <= 3
              && (forall i :: 0 <= i < |res.analysis.diagnosis| ==>
                    res.analysis.diagnosis[i] == DiagnosisText(Findings(ratios.value)[i])
                    && res.analysis.recommendations[i] == RecommendationText(Findings(ratios.value)[i]))
              && res.analysis.cropType == cropType
              && res.analysis.healthScorePercent == ratios.value.green * 100.0
              && res.analysis.healthyGreenPercent == ratios.value.green * 100.0
              && res.analysis.yellowLeavesPercent == ratios.value.yellow * 100.0
              && res.analysis.brownSpotsPercent == ratios.value.brown * 100.0
  {
    match ratios
    case None => Error("Image not found!")
    case Some(r) =>
      var fs := Findings(r);
      Ok(Analysis(cropType, r.green * 100.0, r.green * 100.0, r.yellow * 100.0, r.brown * 100.0,
                  seq(|fs|, i requires 0 <= i < |fs| => DiagnosisText(fs[i])),
                  seq(|fs|, i requires 0 <= i < |fs| => RecommendationText(fs[i]))))
  }

  /** A healthy verdict is never mixed with a problem. */
  lemma HealthyExcludesProblems(r: Ratios)
    requires Healthy in Findings(r)
    ensures Findings(r) == [Healthy]
  {
  }

  /** At exactly 5% yellow neither the nitrogen rule nor the healthy rule fires: a
      green, spot-free leaf at this boundary gets an empty diagnosis. */
  lemma YellowBoundaryGap(r: Ratios)
    requires r.yellow == 0.05
    ensures NitrogenDeficiency !in Findings(r) && Healthy !in Findings(r)
    ensures r.brown <= 0.02 ==> Findings(r) == []
  {
  }
}
