/**
 * The `evaluate_rent_affordability` tool: compares a listing with the city
 * median and with the tenant's income, and names the result with one of
 * seven verdicts.
 */
module EvaluateAffordability {
  import opened Wrappers

  /** Within two percent of the city median counts as "near market". */
  const MarketBand: real := 0.02
  /** Within two points of the target ratio counts as "near target". */
  const RatioTol: real := 0.02

  /** The request fields after `float()`; `None` is a missing, `null` or unconvertible value. */
  datatype AffordRequest = AffordRequest(
    listingPrice: Option<real>,
    cityMedian: Option<real>,
    incomeAnnual: Option<real>,
    targetRatio: Option<real>)

  datatype AffordReply =
    | Evaluation(deltaPct: real, rti: real, verdict: string)
    | InvalidInput(listingPrice: real, cityMedian: real, incomeAnnual: real)
  {
    function Status(): int {
      if Evaluation? then 200 else 400
    }
  }

  const Verdicts: set<string> := {
    "Above market and above target ratio",
    "Above market; near target ratio",
    "Near market; above target ratio",
    "Below market and below target ratio",
    "Below market; near target ratio",
    "Near market; below target ratio",
    "Near market and near target ratio"
  }

  /** `_make_verdict`: the market and target-ratio flags, then the first matching rule. */
  function MakeVerdict(deltaPct: real, rti: real, targetRatio: real): (v: string)
    ensures v in Verdicts
  {
    var aboveMarket := deltaPct > MarketBand;
    var belowMarket := deltaPct < -MarketBand;
    var nearMarket := !aboveMarket && !belowMarket;
    var aboveTarget := rti > targetRatio + RatioTol;
    var belowTarget := rti < targetRatio - RatioTol;
    var nearTarget := !aboveTarget && !belowTarget;
    if aboveMarket && aboveTarget then "Above market and above target ratio"
    else if aboveMarket && nearTarget then "Above market; near target ratio"
    else if nearMarket && aboveTarget then "Near market; above target ratio"
    else if belowMarket && belowTarget then "Below market and below target ratio"
    else if belowMarket && nearTarget then "Below market; near target ratio"
    else if nearMarket && belowTarget then "Near market; below target ratio"
    else "Near market and near target ratio"
  }

  /** Where a value sits relative to a band around a centre. */
  datatype Band = Below | Near | Above

  function MarketPosition(deltaPct: real): Band {
    if deltaPct > MarketBand then Above else if deltaPct < -MarketBand then Below else Near
  }

  function TargetPosition(rti: real, targetRatio: real): Band {
    if rti > targetRatio + RatioTol then Above
    else if rti < targetRatio - RatioTol then Below
    else Near
  }

  /** Above and below cannot both hold, so exactly one of above, near and below does, for each flag pair. */
  lemma BandsExclusive(deltaPct: real, rti: real, targetRatio: real)
    ensures !(deltaPct > MarketBand && deltaPct < -MarketBand)
    ensures !(rti > targetRatio + RatioTol && rti < targetRatio - RatioTol)
  {
  }

  /** The verdict table, one cell per pair of positions. */
  function VerdictTable(market: Band, target: Band): string {
    match (market, target)
    case (Above, Above) => "Above market and above target ratio"
    case (Above, Near) => "Above market; near target ratio"
    case (Near, Above) => "Near market; above target ratio"
    case (Below, Below) => "Below market and below target ratio"
    case (Below, Near) => "Below market; near target ratio"
    case (Near, Below) => "Near market; below target ratio"
    case (Near, Near) => "Near market and near target ratio"
    case (Above, Below) => "Near market and near target ratio"
    case (Below, Above) => "Near market and near target ratio"
  }

  /** The rule chain agrees with the table on every input. */
  lemma MakeVerdictIsTable(deltaPct: real, rti: real, targetRatio: real)
    ensures MakeVerdict(deltaPct, rti, targetRatio) ==
      VerdictTable(MarketPosition(deltaPct), TargetPosition(rti, targetRatio))
  {
  }

  /**
   * The two contradictory corners of the table (above market with a low
   * ratio, below market with a high ratio) fall through to the neutral verdict.
   */
  lemma ContradictoryCornersAreNeutral(deltaPct: real, rti: real, targetRatio: real)
    requires (deltaPct > MarketBand && rti < targetRatio - RatioTol) ||
             (deltaPct < -MarketBand && rti > targetRatio + RatioTol)
    ensures MakeVerdict(deltaPct, rti, targetRatio) == "Near market and near target ratio"
  {
  }

  /** The seven verdicts are seven different strings. */
  lemma SevenVerdicts()
    ensures |Verdicts| == 7
  {
  }

  /** `lambda_handler` after the request body has been read. */
  function Evaluate(req: AffordRequest): (r: AffordReply)
    ensures var listing, median, income :=
      req.listingPrice.GetOr(0.0), req.cityMedian.GetOr(0.0), req.incomeAnnual.GetOr(0.0);
      && (r.InvalidInput? <==> listing <= 0.0 || median <= 0.0 || income <= 0.0)
      && (r.InvalidInput? ==> r == InvalidInput(listing, median, income))
      && (r.Evaluation? ==>
            && r.rti * (income / 12.0) == listing
            && median + r.deltaPct * median == listing
            && r.verdict == MakeVerdict(r.deltaPct, r.rti, req.targetRatio.GetOr(0.30))
            && r.verdict in Verdicts)
  {
    var listing := req.listingPrice.GetOr(0.0);
    var median := req.cityMedian.GetOr(0.0);
    var income := req.incomeAnnual.GetOr(0.0);
    var target := req.targetRatio.GetOr(0.30);
    if listing <= 0.0 || median <= 0.0 || income <= 0.0 then
      InvalidInput(listing, median, income)
    else
      var deltaPct := (listing - median) / median;
      var rti := listing / (income / 12.0);
      Evaluation(deltaPct, rti, MakeVerdict(deltaPct, rti, target))
  }

  /** A listing above the median by more than the band is never called below or near market. */
  lemma AboveMedianVerdict(req: AffordRequest)
    requires Evaluate(req).Evaluation?
    requires req.listingPrice.GetOr(0.0) > req.cityMedian.GetOr(0.0) * 1.02
    ensures Evaluate(req).deltaPct > MarketBand
  {
    var r := Evaluate(req);
    var listing, median := req.listingPrice.GetOr(0.0), req.cityMedian.GetOr(0.0);
    assert median > 0.0 && median + r.deltaPct * median == listing;
    DeltaAboveBand(listing, median, r.deltaPct);
  }

  /** The arithmetic step of `AboveMedianVerdict`, kept apart from `Evaluate`. */
  lemma DeltaAboveBand(listing: real, median: real, d: real)
    requires median > 0.0 && median + d * median == listing && listing > median * 1.02
    ensures d > MarketBand
  {
    assert d * median == listing - median;
    assert listing - median > MarketBand * median;
    ScaleCompare(d, MarketBand, median);
  }

  lemma ScaleCompare(a: real, b: real, m: real)
    requires m > 0.0 && a * m > b * m
    ensures a > b
  {
  }
}
