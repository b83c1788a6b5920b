/**
 * The backend's calculator (backend/calculations.py). It performs no range
 * checks of its own: a region or heating source missing from the settings
 * fails at lookup, and any R-value of 0 or below fails in the U-value
 * conversion. Derived figures are rounded with Python's `round`; the echoed
 * inputs are returned as given.
 */
module Calculations {
  import opened Wrappers
  import opened Config
  import opened Rounding
  import opened Savings

  /** The exceptions the calculator can raise. */
  datatype CalcError = KeyError(key: string) | ValueError(message: string)

  const NonPositiveR: CalcError := ValueError("R-value must be greater than 0")

  /** `calculate_u_value`: raises for every R <= 0, including 0, else returns 1/R. */
  function UValue(r: real): (u: Result<real, CalcError>)
    ensures u.Failure? <==> r <= 0.0
    ensures u.Failure? ==> u.error == NonPositiveR
    ensures u.Success? ==> u.value > 0.0 && u.value * r == 1.0
  {
    if r <= 0.0 then Failure(NonPositiveR) else Success(1.0 / r)
  }

  /** The unrounded figures, for a request whose lookups and conversions succeed. */
  function Derivation(req: CalculationInput): (d: Derivation)
    requires req.location in Regions && req.heatingSource in HeatingSources
    requires req.currentR > 0.0 && req.proposedR > 0.0
    ensures d.currentU * req.currentR == 1.0 && d.proposedU * req.proposedR == 1.0
  {
    Derive(UValue(req.currentR).value, UValue(req.proposedR).value, req.roofArea,
           BackendSettings.heatingDegreeDays[req.location], req.energyPrice,
           BackendSettings.co2Intensity[req.heatingSource], req.upgradeCost,
           BackendSettings.defaultInsulationCostPerSqm)
  }

  /**
   * The derivation reads the request's own table entries: the region's degree
   * days feed both heat losses, the request's price the cost savings, the
   * heating source's intensity the CO2 figure, and the supplied cost or the
   * per-m2 default the upgrade cost.
   */
  lemma DerivationUsesTables(req: CalculationInput)
    requires req.location in Regions && req.heatingSource in HeatingSources
    requires req.currentR > 0.0 && req.proposedR > 0.0
    ensures var d := Derivation(req);
      && d.heatLossCurrent == AnnualHeatLoss(d.currentU, req.roofArea, BackendSettings.heatingDegreeDays[req.location])
      && d.heatLossProposed == AnnualHeatLoss(d.proposedU, req.roofArea, BackendSettings.heatingDegreeDays[req.location])
      && d.energySavings == EnergySavings(d.heatLossCurrent, d.heatLossProposed)
      && d.costSavings == CostSavings(d.energySavings, req.energyPrice)
      && d.annualCo2 == Co2Reduction(d.energySavings, BackendSettings.co2Intensity[req.heatingSource])
      && d.insulationCost == EffectiveCost(req.upgradeCost, req.roofArea, BackendSettings.defaultInsulationCostPerSqm)
  {
    ReferenceDataWellFormed();
  }

  /** The returned dict: inputs echoed unrounded, derived figures through `round`. */
  function Present(req: CalculationInput, d: Derivation): (res: CalculationResult)
    requires req.location in Regions && req.heatingSource in HeatingSources
    ensures res.location == req.location && res.heatingSource == req.heatingSource
    ensures res.roofArea == req.roofArea && res.energyPricePerKwh == req.energyPrice
    ensures res.currentRValue == req.currentR && res.proposedRValue == req.proposedR
    ensures res.heatingDegreeDays == BackendSettings.heatingDegreeDays[req.location]
    ensures res.co2IntensityFactor == BackendSettings.co2Intensity[req.heatingSource]
  {
    CalculationResult(
      req.location,
      req.roofArea,
      req.currentR,
      req.proposedR,
      req.heatingSource,
      req.energyPrice,
      PyRound(d.currentU, 4),
      PyRound(d.proposedU, 4),
      PyRound(d.heatLossCurrent, 2),
      PyRound(d.heatLossProposed, 2),
      PyRound(d.energySavings, 2),
      PyRound(d.costSavings, 2),
      PyRound(d.insulationCost, 2),
      PyRound(d.payback, 2),
      PyRound(d.tenYearSavings, 2),
      PyRound(d.annualCo2, 2),
      PyRound(d.tenYearCo2, 2),
      BackendSettings.heatingDegreeDays[req.location],
      BackendSettings.co2Intensity[req.heatingSource])
  }

  /**
   * `perform_full_calculation` as written: look up the degree days, then the
   * intensity, then convert the current and the proposed R-value.
   */
  function PerformFullCalculation(req: CalculationInput): (r: Result<CalculationResult, CalcError>)
    ensures req.location !in Regions ==> r == Failure(KeyError(req.location))
    ensures req.location in Regions && req.heatingSource !in HeatingSources
            ==> r == Failure(KeyError(req.heatingSource))
    ensures (req.location in Regions && req.heatingSource in HeatingSources
             && (req.currentR <= 0.0 || req.proposedR <= 0.0)) ==> r == Failure(NonPositiveR)
    ensures r.Success? <==> req.location in Regions && req.heatingSource in HeatingSources
                            && req.currentR > 0.0 && req.proposedR > 0.0
    ensures r.Success? ==> r.value == Present(req, Derivation(req))
  {
    ReferenceDataWellFormed();
    if req.location !in BackendSettings.heatingDegreeDays then Failure(KeyError(req.location))
    else if req.heatingSource !in BackendSettings.co2Intensity then Failure(KeyError(req.heatingSource))
    else if UValue(req.currentR).Failure? then Failure(UValue(req.currentR).error)
    else if UValue(req.proposedR).Failure? then Failure(UValue(req.proposedR).error)
    else Success(Present(req, Derivation(req)))
  }

  // ---------------------------------------------------------------------
  // The uninsulated roof, corrected (see the findings in README.md)

  /** The U-value conversion with the uninsulated-roof policy: R = 0 stands for U = 5.0. */
  function CorrectedUValue(r: real): (u: Result<real, CalcError>)
    ensures u.Failure? <==> r < 0.0
    ensures r == 0.0 ==> u == Success(5.0)
    ensures r > 0.0 ==> u == UValue(r)
  {
    if r == 0.0 then Success(5.0) else UValue(r)
  }

  /** The unrounded figures under the corrected conversion. */
  function CorrectedDerivation(req: CalculationInput): (d: Derivation)
    requires req.location in Regions && req.heatingSource in HeatingSources
    requires req.currentR >= 0.0 && req.proposedR >= 0.0
    ensures req.currentR > 0.0 && req.proposedR > 0.0 ==> d == Derivation(req)
    ensures req.currentR == 0.0 ==> d.currentU == 5.0
  {
    Derive(CorrectedUValue(req.currentR).value, CorrectedUValue(req.proposedR).value, req.roofArea,
           BackendSettings.heatingDegreeDays[req.location], req.energyPrice,
           BackendSettings.co2Intensity[req.heatingSource], req.upgradeCost,
           BackendSettings.defaultInsulationCostPerSqm)
  }

  /** `perform_full_calculation` with the corrected conversion. */
  function PerformCorrectedCalculation(req: CalculationInput): (r: Result<CalculationResult, CalcError>)
    ensures r.Success? <==> req.location in Regions && req.heatingSource in HeatingSources
                            && req.currentR >= 0.0 && req.proposedR >= 0.0
    ensures req.currentR != 0.0 && req.proposedR != 0.0 ==> r == PerformFullCalculation(req)
    ensures r.Success? ==> r.value == Present(req, CorrectedDerivation(req))
  {
    ReferenceDataWellFormed();
    if req.location !in BackendSettings.heatingDegreeDays then Failure(KeyError(req.location))
    else if req.heatingSource !in BackendSettings.co2Intensity then Failure(KeyError(req.heatingSource))
    else if CorrectedUValue(req.currentR).Failure? then Failure(CorrectedUValue(req.currentR).error)
    else if CorrectedUValue(req.proposedR).Failure? then Failure(CorrectedUValue(req.proposedR).error)
    else Success(Present(req, CorrectedDerivation(req)))
  }

  // ---------------------------------------------------------------------
  // Properties

  /** Any R <= 0, including 0, is refused by the conversion; R 5, 2, 1 and 10 give U 0.2, 0.5, 1 and 0.1. */
  lemma UValueExamples()
    ensures UValue(0.0) == Failure(NonPositiveR) && UValue(-1.0) == Failure(NonPositiveR)
    ensures UValue(5.0) == Success(0.2) && UValue(2.0) == Success(0.5)
    ensures UValue(1.0) == Success(1.0) && UValue(10.0) == Success(0.1)
  {
  }

  /**
   * The calculator performs no range checks: a negative area, a price above
   * 2 EUR/kWh, a proposed R no better than the current one and a negative
   * cost all go through.
   */
  lemma NoRangeChecks()
    ensures PerformFullCalculation(CalculationInput("Waals", -50.0, 30.0, 1.0, "oil", 7.0, Some(-10.0))).Success?
  {
  }

  /**
   * The heating source changes only the CO2 figures: with the same other
   * inputs, gas and a heat pump give the same energy savings, and the heat
   * pump's annual CO2 reduction is no larger (strictly smaller before
   * rounding whenever energy is saved).
   */
  lemma HeatPumpSavesLessCo2(req: CalculationInput)
    requires req.location in Regions && req.currentR > 0.0 && req.proposedR > 0.0
    ensures var gas := req.(heatingSource := "gas");
            var pump := req.(heatingSource := "heat_pump");
      && PerformFullCalculation(gas).Success? && PerformFullCalculation(pump).Success?
      && PerformFullCalculation(gas).value.annualEnergySavings == PerformFullCalculation(pump).value.annualEnergySavings
      && PerformFullCalculation(gas).value.annualCostSavings == PerformFullCalculation(pump).value.annualCostSavings
      && PerformFullCalculation(gas).value.paybackPeriod == PerformFullCalculation(pump).value.paybackPeriod
      && PerformFullCalculation(pump).value.annualCo2Reduction <= PerformFullCalculation(gas).value.annualCo2Reduction
      && (Derivation(gas).energySavings > 0.0 ==> Derivation(pump).annualCo2 < Derivation(gas).annualCo2)
  {
    var gas := req.(heatingSource := "gas");
    var pump := req.(heatingSource := "heat_pump");
    var dg, dp := Derivation(gas), Derivation(pump);
    IntensityAffectsOnlyCo2(dg.currentU, dg.proposedU, req.roofArea,
      BackendSettings.heatingDegreeDays[req.location], req.energyPrice,
      BackendSettings.co2Intensity["gas"], BackendSettings.co2Intensity["heat_pump"],
      req.upgradeCost, BackendSettings.defaultInsulationCostPerSqm);
    assert dp.annualCo2 <= dg.annualCo2 by {
      MulMonotone(dp.energySavings, dg.energySavings, 0.055, 0.201);
    }
    RoundingMonotone(dp.annualCo2, dg.annualCo2, Pow10(2));
  }

  /** Vlaams, 100 m2, R 2 to 6 at 0.35 EUR/kWh: gas reports 450.24 kg CO2 a year, a heat pump 123.2. */
  lemma HeatPumpCo2Example()
    ensures var gas := PerformFullCalculation(CalculationInput("Vlaams", 100.0, 2.0, 6.0, "gas", 0.35, None));
            var pump := PerformFullCalculation(CalculationInput("Vlaams", 100.0, 2.0, 6.0, "heat_pump", 0.35, None));
      && gas.Success? && pump.Success?
      && gas.value.annualEnergySavings == pump.value.annualEnergySavings
      && gas.value.annualCo2Reduction == 450.24 && pump.value.annualCo2Reduction == 123.2
  {
    var gas := CalculationInput("Vlaams", 100.0, 2.0, 6.0, "gas", 0.35, None);
    var pump := gas.(heatingSource := "heat_pump");
    assert Derivation(gas).energySavings == 2240.0;
    assert Derivation(pump).energySavings == 2240.0;
    assert Pow10(2) == 100.0;
    assert HalfEvenIndex(2240.0 * 100.0) == 224000;
    assert HalfEvenIndex(450.24 * 100.0) == 45024;
    assert HalfEvenIndex(123.2 * 100.0) == 12320;
  }

  /** With the cost left out, 100 m2 are estimated at 4500 EUR (Waals, R 2 to 6, oil). */
  lemma DefaultCostExample()
    ensures var r := PerformFullCalculation(CalculationInput("Waals", 100.0, 2.0, 6.0, "oil", 0.33, None));
      r.Success? && r.value.insulationUpgradeCost == 4500.0 && r.value.annualEnergySavings == 2400.0
  {
    var req := CalculationInput("Waals", 100.0, 2.0, 6.0, "oil", 0.33, None);
    var d := Derivation(req);
    assert d.currentU == 0.5 && d.proposedU == 1.0 / 6.0;
    assert d.heatLossCurrent == 3600.0;
    assert d.heatLossProposed == 1200.0;
    assert Pow10(2) == 100.0;
    assert HalfEvenIndex(4500.0 * 100.0) == 450000;
    assert HalfEvenIndex(2400.0 * 100.0) == 240000;
  }

  /** Vlaams, R 2 to 6, gas: current U 0.5, proposed U rounds to 0.1667, and energy is saved. */
  lemma VlaamsExample()
    ensures var r := PerformFullCalculation(CalculationInput("Vlaams", 100.0, 2.0, 6.0, "gas", 0.35, Some(4500.0)));
      r.Success? && r.value.currentUValue == 0.5 && r.value.proposedUValue == 0.1667
      && r.value.annualEnergySavings > 0.0 && r.value.annualCostSavings > 0.0 && r.value.annualCo2Reduction > 0.0
  {
    var req := CalculationInput("Vlaams", 100.0, 2.0, 6.0, "gas", 0.35, Some(4500.0));
    var d := Derivation(req);
    assert d.currentU == 0.5 && d.proposedU == 1.0 / 6.0;
    assert d.energySavings == 2240.0;
    assert Pow10(4) == 10000.0 && Pow10(2) == 100.0;
    assert HalfEvenIndex(0.5 * 10000.0) == 5000;
    assert HalfEvenIndex((1.0 / 6.0) * 10000.0) == 1667;
    assert HalfEvenIndex(2240.0 * 100.0) == 224000;
    assert HalfEvenIndex(784.0 * 100.0) == 78400;
    assert HalfEvenIndex(450.24 * 100.0) == 45024;
  }
}
