/** The three what-if simulations of the simulation page: the single-asset
    risk formulas, the Gaussian storm-intensity curve and the portfolio
    mitigation. Math.exp is a parameter. */
module Simulation {
  import opened Arith

  // ---------------------------------------------------------------------
  // Single asset

  /** Anomaly probability in percent: 80, less half the shielding, less a
      tenth of the orbit altitude above 300 km, never below zero. */
  function AnomalyProbability(shielding: real, orbit: real): (p: real)
    ensures p >= 0.0
    ensures p == 0.0 || p == 80.0 - shielding / 2.0 - (orbit - 300.0) / 10.0
    ensures shielding >= 0.0 && orbit >= 300.0 ==> p <= 80.0
  {
    Max(0.0, 80.0 - shielding * 0.5 - (orbit - 300.0) / 10.0)
  }

  /** More shielding or a higher orbit never raises the probability. */
  lemma ProbabilityNonIncreasing(s1: real, s2: real, o1: real, o2: real)
    requires s1 <= s2 && o1 <= o2
    ensures AnomalyProbability(s2, o2) <= AnomalyProbability(s1, o1)
  {
  }

  /** The probability is zero exactly when the linear formula is not
      positive; the page's defaults (shielding 80, orbit 550) give 15. */
  lemma ProbabilityVanishes(shielding: real, orbit: real)
    ensures AnomalyProbability(shielding, orbit) == 0.0 <==>
      shielding / 2.0 + (orbit - 300.0) / 10.0 >= 80.0
    ensures AnomalyProbability(80.0, 550.0) == 15.0
  {
  }

  /** Expected downtime in minutes: Math.round(0.8 p). */
  function Downtime(probability: real): (minutes: int)
    ensures probability >= 0.0 ==> minutes >= 0
    ensures 0.8 * probability - 0.5 < minutes as real <= 0.8 * probability + 0.5
  {
    JsRoundNonNegative(0.8 * probability);
    JsRound(probability * 0.8)
  }

  /** Suggested premium: 500 plus Math.round(value * 15 * p / 100). */
  function SuggestedPremium(assetValue: real, probability: real): (premium: int)
    ensures assetValue >= 0.0 && probability >= 0.0 ==> premium >= 500
    ensures assetValue * 15.0 * (probability / 100.0) - 0.5 < (premium - 500) as real
    ensures (premium - 500) as real <= assetValue * 15.0 * (probability / 100.0) + 0.5
  {
    var x := assetValue * 15.0 * (probability / 100.0);
    assert assetValue >= 0.0 && probability >= 0.0 ==> x >= 0.0;
    JsRoundNonNegative(x);
    500 + JsRound(x)
  }

  /** A dearer asset never lowers the suggested premium. */
  lemma PremiumNonDecreasingInValue(v1: real, v2: real, probability: real)
    requires v1 <= v2 && probability >= 0.0
    ensures SuggestedPremium(v1, probability) <= SuggestedPremium(v2, probability)
  {
    assert v1 * 15.0 * (probability / 100.0) <= v2 * 15.0 * (probability / 100.0);
    JsRoundMonotone(v1 * 15.0 * (probability / 100.0), v2 * 15.0 * (probability / 100.0));
  }

  /** What the single-asset panel shows, before number formatting. */
  datatype AssetMetrics = AssetMetrics(anomalyProbability: real, expectedDowntime: int, suggestedPremium: int)

  function SingleAsset(shielding: real, orbit: real, assetValue: real): (m: AssetMetrics)
    ensures m.anomalyProbability == AnomalyProbability(shielding, orbit)
    ensures m.expectedDowntime >= 0
    ensures assetValue >= 0.0 ==> m.suggestedPremium >= 500
  {
    var p := AnomalyProbability(shielding, orbit);
    AssetMetrics(p, Downtime(p), SuggestedPremium(assetValue, p))
  }

  /** With no anomaly risk left, there is no downtime and only the 500 base
      premium. */
  lemma NoRiskNoCost(shielding: real, orbit: real, assetValue: real)
    requires shielding / 2.0 + (orbit - 300.0) / 10.0 >= 80.0
    ensures SingleAsset(shielding, orbit, assetValue).expectedDowntime == 0
    ensures SingleAsset(shielding, orbit, assetValue).suggestedPremium == 500
  {
    ProbabilityVanishes(shielding, orbit);
  }

  // ---------------------------------------------------------------------
  // Storm intensity curve

  /** Kp of the quiet background the storm rises from. */
  const BaseKp: real := 2.0

  datatype StormPoint = StormPoint(hour: int, kpIndex: real)

  /** The Gaussian exponent -(hour - peakHour)^2 / (2 spread^2) with
      peakHour = duration / 2 and spread = duration / 4. */
  function StormExponent(hour: int, duration: int): (e: real)
    requires duration > 0
    ensures e <= 0.0
    ensures e == 0.0 <==> 2 * hour == duration
  {
    var peakHour := duration as real / 2.0;
    var spread := duration as real / 4.0;
    var d := hour as real - peakHour;
    assert d * d >= 0.0;
    assert d * d == 0.0 <==> d == 0.0;
    -(d * d) / (2.0 * (spread * spread))
  }

  /** The curve is symmetric about its peak hour. */
  lemma StormExponentSymmetric(hour: int, duration: int)
    requires duration > 0
    ensures StormExponent(hour, duration) == StormExponent(duration - hour, duration)
  {
    var d := hour as real - duration as real / 2.0;
    var d' := (duration - hour) as real - duration as real / 2.0;
    assert d' == -d;
    assert d' * d' == d * d;
  }

  /** The point the loop pushes for one hour. */
  function StormPointAt(hour: int, kpIndex: real, duration: int, exp: real -> real): StormPoint
    requires duration > 0
  {
    StormPoint(hour, BaseKp + (kpIndex - BaseKp) * exp(StormExponent(hour, duration)))
  }

  /** generateStormData: one point per hour 0..duration. The duration slider
      starts at 6, so the spread is never zero. */
  method StormCurve(kpIndex: real, duration: int, exp: real -> real) returns (data: seq<StormPoint>)
    requires duration > 0
    ensures |data| == duration + 1
    ensures forall k :: 0 <= k < |data| ==> data[k].hour == k
    ensures forall k :: 0 <= k < |data| ==> data[k] == StormPointAt(k, kpIndex, duration, exp)
  {
    data := [];
    var peakHour := duration as real / 2.0;
    var spread := duration as real / 4.0;
    var hour := 0;
    while hour <= duration
      invariant 0 <= hour <= duration + 1
      invariant |data| == hour
      invariant forall k :: 0 <= k < hour ==> data[k] == StormPointAt(k, kpIndex, duration, exp)
    {
      var d := hour as real - peakHour;
      var exponent := -(d * d) / (2.0 * (spread * spread));
      assert exponent == StormExponent(hour, duration);
      var index := BaseKp + (kpIndex - BaseKp) * exp(exponent);
      data := data + [StormPoint(hour, index)];
      hour := hour + 1;
    }
  }

  /** For an even duration the middle hour carries exactly the peak Kp, and
      hours at equal distance from it carry equal values. */
  lemma StormPeak(kpIndex: real, duration: int, exp: real -> real, hour: int)
    requires duration > 0 && duration % 2 == 0 && exp(0.0) == 1.0
    ensures StormPointAt(duration / 2, kpIndex, duration, exp).kpIndex == kpIndex
    ensures StormPointAt(hour, kpIndex, duration, exp).kpIndex ==
      StormPointAt(duration - hour, kpIndex, duration, exp).kpIndex
  {
    assert StormExponent(duration / 2, duration) == 0.0;
    StormExponentSymmetric(hour, duration);
  }

  /** With exp mapping non-positive exponents into (0, 1], every value lies
      between the base Kp and the peak Kp. */
  lemma StormBetweenBaseAndPeak(kpIndex: real, duration: int, exp: real -> real, hour: int)
    requires duration > 0 && kpIndex >= BaseKp
    requires forall e :: e <= 0.0 ==> 0.0 < exp(e) <= 1.0
    ensures BaseKp <= StormPointAt(hour, kpIndex, duration, exp).kpIndex <= kpIndex
  {
    var g := exp(StormExponent(hour, duration));
    assert 0.0 < g <= 1.0;
    assert (kpIndex - BaseKp) * g <= (kpIndex - BaseKp) * 1.0;
    assert (kpIndex - BaseKp) * g >= 0.0;
  }

  // ---------------------------------------------------------------------
  // Portfolio mitigation

  datatype Asset = Asset(id: string, risk: real, value: real)

  datatype MitigatedAsset = MitigatedAsset(id: string, risk: real, value: real, mitigatedRisk: real)

  /** The portfolio the page starts from. */
  const InitialPortfolio: seq<Asset> := [
    Asset("SAT-A01", 35.0, 50000000.0),
    Asset("SAT-B03", 25.0, 75000000.0),
    Asset("GRID-US-E1", 20.0, 250000000.0),
    Asset("SAT-C12", 15.0, 30000000.0),
    Asset("OTHER", 5.0, 10000000.0)
  ]

  /** Sum of the assets' risks, the reduce over the portfolio. */
  function TotalRisk(assets: seq<Asset>): real
  {
    if assets == [] then 0.0 else assets[0].risk + TotalRisk(assets[1..])
  }

  function TotalMitigatedRisk(assets: seq<MitigatedAsset>): real
  {
    if assets == [] then 0.0 else assets[0].mitigatedRisk + TotalMitigatedRisk(assets[1..])
  }

  lemma InitialPortfolioTotal()
    ensures TotalRisk(InitialPortfolio) == 100.0
  {
    assert InitialPortfolio[1..][1..][1..][1..][1..] == [];
  }

  /** (budget / 100000) * 0.5: half the risk is removed at the top budget. */
  function ReductionFactor(budget: real): (f: real)
    ensures 0.0 <= budget <= 100000.0 ==> 0.0 <= f <= 0.5
    ensures budget == 0.0 ==> f == 0.0
    ensures budget == 100000.0 ==> f == 0.5
  {
    (budget / 100000.0) * 0.5
  }

  /** The page's expression: the risk less its share of the total times the
      total times the reduction factor, never below zero. */
  function MitigatedRisk(risk: real, totalRisk: real, budget: real): (m: real)
    requires totalRisk != 0.0
    ensures m >= 0.0
    ensures 0.0 <= risk && 0.0 <= budget ==> m <= risk
  {
    var share := risk / totalRisk;
    assert share * totalRisk == risk;
    assert 0.0 <= risk && 0.0 <= budget ==> risk * ReductionFactor(budget) >= 0.0;
    Max(0.0, risk - share * totalRisk * ReductionFactor(budget))
  }

  /** The share-of-total detour cancels out: the mitigated risk is the risk
      reduced by the factor alone. Budget 0 leaves it unchanged and the top
      budget halves it. */
  lemma MitigatedRiskIsScaled(risk: real, totalRisk: real, budget: real)
    requires totalRisk != 0.0 && risk >= 0.0 && 0.0 <= budget <= 100000.0
    ensures MitigatedRisk(risk, totalRisk, budget) == risk * (1.0 - ReductionFactor(budget))
    ensures budget == 0.0 ==> MitigatedRisk(risk, totalRisk, budget) == risk
    ensures budget == 100000.0 ==> MitigatedRisk(risk, totalRisk, budget) == risk / 2.0
  {
    var f := ReductionFactor(budget);
    assert (risk / totalRisk) * totalRisk == risk;
    assert risk * f <= risk * 0.5;
  }

  /** The map over the portfolio: every field kept, mitigatedRisk added. */
  function Mitigate(assets: seq<Asset>, totalRisk: real, budget: real): (r: seq<MitigatedAsset>)
    requires totalRisk != 0.0
    ensures |r| == |assets|
    ensures forall k :: 0 <= k < |r| ==>
      r[k].id == assets[k].id && r[k].risk == assets[k].risk && r[k].value == assets[k].value
    ensures forall k :: 0 <= k < |r| ==> r[k].mitigatedRisk == MitigatedRisk(assets[k].risk, totalRisk, budget)
  {
    seq(|assets|, k requires 0 <= k < |assets| =>
      MitigatedAsset(assets[k].id, assets[k].risk, assets[k].value,
        MitigatedRisk(assets[k].risk, totalRisk, budget)))
  }

  /** The page's mitigation: the map with the total of the starting
      portfolio. */
  function MitigatePortfolio(budget: real): (r: seq<MitigatedAsset>)
    ensures |r| == |InitialPortfolio|
  {
    InitialPortfolioTotal();
    Mitigate(InitialPortfolio, TotalRisk(InitialPortfolio), budget)
  }

  /** Sum of the original risks carried by mitigated assets. */
  function TotalOriginalRisk(assets: seq<MitigatedAsset>): real
  {
    if assets == [] then 0.0 else assets[0].risk + TotalOriginalRisk(assets[1..])
  }

  /** When every asset's mitigated risk is its risk times g, so is the total. */
  lemma {:induction false} TotalOfScaled(m: seq<MitigatedAsset>, g: real)
    requires forall k :: 0 <= k < |m| ==> m[k].mitigatedRisk == m[k].risk * g
    ensures TotalMitigatedRisk(m) == TotalOriginalRisk(m) * g
    decreases |m|
  {
    if m != [] {
      TotalOfScaled(m[1..], g);
      Distribute(m[0].risk, TotalOriginalRisk(m[1..]), g);
    }
  }

  lemma Distribute(a: real, b: real, c: real)
    ensures (a + b) * c == a * c + b * c
  {
  }

  /** Mapping keeps the risks, so it keeps their total. */
  lemma {:induction false} MitigateKeepsTotal(assets: seq<Asset>, totalRisk: real, budget: real)
    requires totalRisk != 0.0
    ensures TotalOriginalRisk(Mitigate(assets, totalRisk, budget)) == TotalRisk(assets)
    decreases |assets|
  {
    if assets != [] {
      MitigateKeepsTotal(assets[1..], totalRisk, budget);
      assert Mitigate(assets, totalRisk, budget)[1..] == Mitigate(assets[1..], totalRisk, budget);
    }
  }

  /** Summed over a portfolio of non-negative risks, mitigation scales the
      total by the same factor as each asset. */
  lemma TotalMitigatedIsScaled(assets: seq<Asset>, totalRisk: real, budget: real)
    requires totalRisk != 0.0 && 0.0 <= budget <= 100000.0
    requires forall a :: a in assets ==> a.risk >= 0.0
    ensures TotalMitigatedRisk(Mitigate(assets, totalRisk, budget)) ==
      TotalRisk(assets) * (1.0 - ReductionFactor(budget))
  {
    var m := Mitigate(assets, totalRisk, budget);
    var g := 1.0 - ReductionFactor(budget);
    forall k | 0 <= k < |m|
      ensures m[k].mitigatedRisk == m[k].risk * g
    {
      assert assets[k] in assets;
      MitigatedRiskIsScaled(assets[k].risk, totalRisk, budget);
    }
    TotalOfScaled(m, g);
    MitigateKeepsTotal(assets, totalRisk, budget);
  }

  /** The "Risk Reduction" figure: (initial - mitigated) / initial * 100. */
  function ReductionPercent(totalInitial: real, totalMitigated: real): real
    requires totalInitial != 0.0
  {
    (totalInitial - totalMitigated) / totalInitial * 100.0
  }

  /** On the page's portfolio the displayed reduction is budget / 2000
      percent: 0 at no budget, 50 at the top, and never outside [0, 50]. */
  lemma ReductionPercentOfBudget(budget: real)
    requires 0.0 <= budget <= 100000.0
    ensures TotalMitigatedRisk(MitigatePortfolio(budget)) <= TotalRisk(InitialPortfolio)
    ensures ReductionPercent(TotalRisk(InitialPortfolio), TotalMitigatedRisk(MitigatePortfolio(budget)))
      == budget / 2000.0
    ensures 0.0 <= ReductionPercent(TotalRisk(InitialPortfolio), TotalMitigatedRisk(MitigatePortfolio(budget))) <= 50.0
  {
    InitialPortfolioTotal();
    TotalMitigatedIsScaled(InitialPortfolio, 100.0, budget);
  }
}
