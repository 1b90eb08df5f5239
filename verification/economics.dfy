/** The farm economics panel (client/src/components/EconomicAnalysis.jsx): minimum
    support price lookup, production in tonnes, kilograms and quintals, revenue, cost,
    net profit with its three-way status, and the breakeven yield. Amounts are `real`;
    display formatting (`toFixed`, `toLocaleString`) is not modelled. */
module Economics {
  import opened JsText

  /** The fields of the prediction result the panel reads; each may be missing. */
  datatype ResultData = ResultData(
    cropName: Option<string>,
    area: Option<real>,
    predictedYieldKgHa: Option<real>,
    totalProductionTonnes: Option<real>,
    inputCostPerHectare: Option<real>)

  datatype ProfitStatus = Profitable | Loss | Breakeven

  datatype Analysis = Analysis(
    msp: real,                      // rupees per quintal
    area: real,
    totalProductionTonnes: real,
    totalProductionKg: real,
    totalProductionQuintals: real,
    grossRevenue: real,
    totalCost: real,
    netProfit: real,
    breakevenQuintals: real,
    breakevenKgHa: real,
    status: ProfitStatus)

  /** The assumed input cost per hectare when none is given. */
  const DefaultInputCostPerHectare: real := 15000.0

  /** The `cropPrices` table, keyed by lower-case crop name. */
  function MspTable(): map<string, real> {
    map["wheat" := 2150.0, "rice" := 1950.0, "maize" := 1850.0, "sugarcane" := 290.0]
  }

  /** `cropPrices[crop_name?.toLowerCase()]?.msp || 0`. */
  function Msp(cropName: Option<string>): (msp: real)
    ensures cropName.Some? && Lower(cropName.value) in MspTable() ==> msp == MspTable()[Lower(cropName.value)]
    ensures cropName.None? || Lower(cropName.value) !in MspTable() ==> msp == 0.0
  {
    if cropName.Some? && Lower(cropName.value) in MspTable() then MspTable()[Lower(cropName.value)] else 0.0
  }

  /** Every listed crop has a positive price, so the price is zero exactly for
      missing or unlisted crops. */
  lemma MspZeroIffUnlisted(cropName: Option<string>)
    ensures Msp(cropName) == 0.0 <==> cropName.None? || Lower(cropName.value) !in MspTable()
    ensures Msp(cropName) >= 0.0
  {
  }

  /** `x || 1` for a divisor: never zero, and `x` itself when `x` is non-zero. */
  function NonZeroDivisor(x: real): (d: real)
    ensures d != 0.0
    ensures x != 0.0 ==> d == x
    ensures x == 0.0 ==> d == 1.0
  {
    if x != 0.0 then x else 1.0
  }

  /** The status line: exactly one of the three holds. */
  function StatusOf(netProfit: real): (s: ProfitStatus)
    ensures s == Profitable <==> netProfit > 0.0
    ensures s == Loss <==> netProfit < 0.0
    ensures s == Breakeven <==> netProfit == 0.0
  {
    if netProfit < 0.0 then Loss
    else if netProfit > 0.0 then Profitable
    else Breakeven
  }

  /** The component body: nothing is produced when `resultData` is absent. */
  function Analyze(resultData: Option<ResultData>): (r: Option<Analysis>)
    ensures r.None? <==> resultData.None?
  {
    match resultData
    case None => None
    case Some(rd) =>
      var msp := Msp(rd.cropName);
      var area := OrNumber(rd.area, 0.0);
      var tonnes := OrNumber(rd.totalProductionTonnes, 0.0);
      var costPerHectare := OrNumber(rd.inputCostPerHectare, DefaultInputCostPerHectare);
      var kg := tonnes * 1000.0;
      var quintals := kg / 100.0;
      var grossRevenue := quintals * msp;
      var totalCost := costPerHectare * area;
      var netProfit := grossRevenue - totalCost;
      var breakevenQuintals := totalCost / NonZeroDivisor(msp);
      var breakevenKgHa := (breakevenQuintals * 100.0) / NonZeroDivisor(area);
      Some(Analysis(msp, area, tonnes, kg, quintals, grossRevenue, totalCost, netProfit,
                    breakevenQuintals, breakevenKgHa, StatusOf(netProfit)))
  }

  /** The arithmetic the panel performs, in closed form: revenue is ten times tonnes
      times price, cost is the (defaulted) per-hectare cost times the (defaulted) area,
      and the status follows the sign of their difference. */
  lemma AnalysisClosedForm(rd: ResultData)
    ensures var a := Analyze(Some(rd)).value;
            && a.msp == Msp(rd.cropName)
            && a.area == OrNumber(rd.area, 0.0)
            && a.totalProductionTonnes == OrNumber(rd.totalProductionTonnes, 0.0)
            && a.totalProductionKg == a.totalProductionTonnes * 1000.0
            && a.totalProductionQuintals == a.totalProductionKg / 100.0
            && a.grossRevenue == a.totalProductionTonnes * 10.0 * a.msp
            && a.totalCost == OrNumber(rd.inputCostPerHectare, DefaultInputCostPerHectare) * a.area
            && a.netProfit == a.grossRevenue - a.totalCost
            && (a.status == Profitable <==> a.grossRevenue > a.totalCost)
            && (a.status == Loss <==> a.grossRevenue < a.totalCost)
            && (a.status == Breakeven <==> a.grossRevenue == a.totalCost)
            && (a.msp == 0.0 ==> a.breakevenQuintals == a.totalCost)
            && (a.area == 0.0 ==> a.breakevenKgHa == a.breakevenQuintals * 100.0)
  {
  }

  /** A missing or zero per-hectare cost falls back to 15000. */
  lemma DefaultCost(rd: ResultData)
    requires !TruthyNumber(rd.inputCostPerHectare)
    ensures Analyze(Some(rd)).value.totalCost == 15000.0 * OrNumber(rd.area, 0.0)
  {
  }

  /** Selling exactly the breakeven quantity at the support price covers the cost. */
  lemma BreakevenCoversCost(rd: ResultData)
    requires Msp(rd.cropName) > 0.0
    ensures var a := Analyze(Some(rd)).value;
            a.breakevenQuintals * a.msp == a.totalCost
  {
  }

  /** The breakeven yield per hectare converts breakeven quintals to kilograms spread
      over the area, when the area is non-zero. */
  lemma BreakevenPerHectare(rd: ResultData)
    ensures var a := Analyze(Some(rd)).value;
            a.area != 0.0 ==> a.breakevenKgHa * a.area == a.breakevenQuintals * 100.0
  {
  }

  /** An unlisted crop earns nothing, so any positive cost is a loss. */
  lemma UnlistedCropIsLossWhenCostly(rd: ResultData)
    requires Msp(rd.cropName) == 0.0
    requires Analyze(Some(rd)).value.totalCost > 0.0
    ensures Analyze(Some(rd)).value.status == Loss
  {
  }
}
