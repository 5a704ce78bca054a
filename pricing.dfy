/** The premium formula of the satellite, power-grid and aviation insurance
    pages, G = PP + RM + EL, and the tiers those pages price. The three pages
    carry the same calculatePremium; it is defined once here. */
module Pricing {

  /** The parts of a premium: pure premium, risk margin, expense loading. */
  datatype Quote = Quote(pp: real, rm: real, el: real, total: real)

  /** calculatePremium before currency formatting. */
  function CalculatePremium(cost: real, riskFactor: real): (q: Quote)
    ensures q.pp == cost * riskFactor
    ensures q.rm == q.pp / 5.0
    ensures q.total == q.pp + q.rm + q.el
    ensures q.total == 1.26 * cost * riskFactor + 10000.0
  {
    var pp := cost * riskFactor;
    var rm := pp * 0.2;
    var el := 10000.0 + (pp + rm) * 0.05;
    Quote(pp, rm, el, pp + rm + el)
  }

  /** For non-negative inputs the premium never drops below the 10000 base
      of the expense loading, and equals it for a zero risk factor. */
  lemma PremiumFloor(cost: real, riskFactor: real)
    requires cost >= 0.0 && riskFactor >= 0.0
    ensures CalculatePremium(cost, riskFactor).total >= 10000.0
    ensures CalculatePremium(cost, riskFactor).el >= 10000.0
    ensures riskFactor == 0.0 ==> CalculatePremium(cost, riskFactor).total == 10000.0
  {
    assert cost * riskFactor >= 0.0;
  }

  /** A dearer asset or a riskier one never costs less to insure. */
  lemma PremiumMonotone(cost1: real, cost2: real, rf1: real, rf2: real)
    requires 0.0 <= cost1 <= cost2 && 0.0 <= rf1 <= rf2
    ensures CalculatePremium(cost1, rf1).total <= CalculatePremium(cost2, rf2).total
  {
    assert cost1 * rf1 <= cost2 * rf1;
    assert cost2 * rf1 <= cost2 * rf2;
  }

  /** The insured tiers the pages display, as (cost, risk factor). */
  const SatelliteLeo: (real, real) := (5250000.0, 0.1)
  const SatelliteMeo: (real, real) := (100000000.0, 0.08)
  const SatelliteNavigation: (real, real) := (150000000.0, 0.07)
  const SatelliteWeather: (real, real) := (300000000.0, 0.06)
  const GridCentralised: (real, real) := (5500000000.0, 0.02)
  const GridMicrogrid: (real, real) := (55000000.0, 0.01)
  const AviationA320: (real, real) := (100000000.0, 0.015)

  function TierPremium(tier: (real, real)): real
  {
    CalculatePremium(tier.0, tier.1).total
  }

  /** The satellite page's figures, in increasing order. */
  lemma SatellitePremiums()
    ensures TierPremium(SatelliteLeo) == 671500.0
    ensures TierPremium(SatelliteMeo) == 10090000.0
    ensures TierPremium(SatelliteNavigation) == 13240000.0
    ensures TierPremium(SatelliteWeather) == 22690000.0
    ensures TierPremium(SatelliteLeo) < TierPremium(SatelliteMeo) < TierPremium(SatelliteNavigation)
      < TierPremium(SatelliteWeather)
  {
  }

  /** The power-grid page's figures: a centralised grid costs more to insure
      than a microgrid. */
  lemma GridPremiums()
    ensures TierPremium(GridCentralised) == 138610000.0
    ensures TierPremium(GridMicrogrid) == 703000.0
    ensures TierPremium(GridMicrogrid) < TierPremium(GridCentralised)
  {
  }

  /** The aviation page's A320 figure. */
  lemma AviationPremium()
    ensures TierPremium(AviationA320) == 1900000.0
  {
  }
}
