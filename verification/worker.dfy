/**
 * The Cloudflare worker's calculator (cloudflare-deployment/worker/index.js):
 * its own ordered validation, the R-to-U conversion with the uninsulated-roof
 * policy, the shared pipeline, and rounding of every derived figure and of the
 * echoed numeric inputs with `Math.round`.
 */
module Worker {
  import opened Wrappers
  import opened Config
  import opened Rounding
  import opened Savings

  /** The U-value used for an uninsulated roof (R = 0). */
  const UninsulatedU: real := 5.0

  /** `calculateUValue`: throws on a negative R, 5.0 for R = 0, else the reciprocal 1/R. */
  function UValue(r: real): (u: Result<real, string>)
    ensures u.Failure? <==> r < 0.0
    ensures u.Failure? ==> u.error == "R-value cannot be negative"
    ensures r == 0.0 ==> u == Success(UninsulatedU)
    ensures r > 0.0 ==> u.Success? && u.value > 0.0 && u.value * r == 1.0
  {
    if r < 0.0 then Failure("R-value cannot be negative")
    else if r == 0.0 then Success(UninsulatedU)
    else Success(1.0 / r)
  }

  /**
   * Whether a request passes one of the worker's guards, written as the
   * negation of the guard's throw condition. Region and heating source pass
   * when the key is non-empty and its table entry is truthy (non-zero).
   */
  predicate Passes(req: CalculationInput, rule: Rule): (passes: bool)
    ensures rule == UnknownLocation ==> (passes <==> req.location in Regions)
    ensures rule == UnknownHeatingSource ==> (passes <==> req.heatingSource in HeatingSources)
    ensures rule == NegativeUpgradeCost ==> passes
  {
    ReferenceDataWellFormed();
    match rule
    case UnknownLocation =>
      req.location != "" && req.location in WorkerConfig.energyPrices
      && WorkerConfig.energyPrices[req.location] != 0.0
    case RoofAreaOutOfRange => !(req.roofArea <= 0.0 || req.roofArea > 10000.0)
    case CurrentROutOfRange => !(req.currentR < 0.0 || req.currentR > 20.0)
    case ProposedROutOfRange => !(req.proposedR <= 0.0 || req.proposedR > 20.0)
    case ProposedNotGreater => !(req.proposedR <= req.currentR)
    case UnknownHeatingSource =>
      req.heatingSource != "" && req.heatingSource in WorkerConfig.co2Intensity
      && WorkerConfig.co2Intensity[req.heatingSource] != 0.0
    case EnergyPriceOutOfRange => !(req.energyPrice <= 0.0 || req.energyPrice > 2.0)
    case NegativeUpgradeCost => true  // the worker has no such guard
  }

  /**
   * The guards of `performFullCalculation`, in the order they throw. The
   * result is the first rule that fails, or None when the request passes.
   */
  function Validate(req: CalculationInput): (failed: Option<Rule>)
    ensures failed.None? <==> forall rule :: Passes(req, rule)
    ensures failed.Some? ==> !Passes(req, failed.value)
    ensures failed.Some? ==> forall rule :: Rank(rule) < Rank(failed.value) ==> Passes(req, rule)
  {
    if !Passes(req, UnknownLocation) then Some(UnknownLocation)
    else if !Passes(req, RoofAreaOutOfRange) then Some(RoofAreaOutOfRange)
    else if !Passes(req, CurrentROutOfRange) then Some(CurrentROutOfRange)
    else if !Passes(req, ProposedROutOfRange) then Some(ProposedROutOfRange)
    else if !Passes(req, ProposedNotGreater) then Some(ProposedNotGreater)
    else if !Passes(req, UnknownHeatingSource) then Some(UnknownHeatingSource)
    else if !Passes(req, EnergyPriceOutOfRange) then Some(EnergyPriceOutOfRange)
    else None
  }

  /** The message each guard throws. */
  function Message(rule: Rule): (msg: string)
    ensures msg == "" <==> rule == NegativeUpgradeCost
  {
    match rule
    case UnknownLocation => "Invalid location"
    case RoofAreaOutOfRange => "Roof area must be between 0 and 10000 m²"
    case CurrentROutOfRange => "Current R-value must be between 0 and 20 (0 for uninsulated roofs)"
    case ProposedROutOfRange => "Proposed R-value must be greater than 0 and up to 20"
    case ProposedNotGreater => "Proposed R-value must be greater than current R-value"
    case UnknownHeatingSource => "Invalid heating source"
    case EnergyPriceOutOfRange => "Energy price must be between 0 and 2 €/kWh"
    case NegativeUpgradeCost => ""  // never thrown by the worker
  }

  /** The unrounded figures of an accepted request. */
  function Derivation(req: CalculationInput): (d: Derivation)
    requires Validate(req).None?
    ensures d.currentU == (if req.currentR == 0.0 then UninsulatedU else 1.0 / req.currentR)
    ensures d.proposedU == 1.0 / req.proposedR
  {
    assert Passes(req, UnknownLocation) && Passes(req, UnknownHeatingSource);
    assert Passes(req, CurrentROutOfRange) && Passes(req, ProposedROutOfRange);
    Derive(UValue(req.currentR).value, UValue(req.proposedR).value, req.roofArea,
           WorkerConfig.heatingDegreeDays[req.location], req.energyPrice,
           WorkerConfig.co2Intensity[req.heatingSource], req.upgradeCost,
           WorkerConfig.defaultInsulationCostPerSqm)
  }

  /**
   * The derivation reads the request's own table entries: the region's degree
   * days feed both heat losses, the request's price the cost savings, the
   * heating source's intensity the CO2 figure, and the supplied cost or the
   * per-m2 default the upgrade cost.
   */
  lemma DerivationUsesTables(req: CalculationInput)
    requires Validate(req).None?
    ensures var d := Derivation(req);
      && d.heatLossCurrent == AnnualHeatLoss(d.currentU, req.roofArea, WorkerConfig.heatingDegreeDays[req.location])
      && d.heatLossProposed == AnnualHeatLoss(d.proposedU, req.roofArea, WorkerConfig.heatingDegreeDays[req.location])
      && d.energySavings == EnergySavings(d.heatLossCurrent, d.heatLossProposed)
      && d.costSavings == CostSavings(d.energySavings, req.energyPrice)
      && d.annualCo2 == Co2Reduction(d.energySavings, WorkerConfig.co2Intensity[req.heatingSource])
      && d.insulationCost == EffectiveCost(req.upgradeCost, req.roofArea, WorkerConfig.defaultInsulationCostPerSqm)
  {
    ReferenceDataWellFormed();
  }

  /**
   * The response object: every derived figure and the echoed numeric inputs
   * rounded with `Math.round(x * s) / s`; the looked-up degree days and
   * intensity are returned as they are.
   */
  function Present(req: CalculationInput, d: Derivation): (res: CalculationResult)
    requires req.location in WorkerConfig.heatingDegreeDays && req.heatingSource in WorkerConfig.co2Intensity
    ensures res.location == req.location && res.heatingSource == req.heatingSource
    ensures res.heatingDegreeDays == WorkerConfig.heatingDegreeDays[req.location]
    ensures res.co2IntensityFactor == WorkerConfig.co2Intensity[req.heatingSource]
  {
    CalculationResult(
      req.location,
      RoundHalfUp(req.roofArea, 100.0),
      RoundHalfUp(req.currentR, 100.0),
      RoundHalfUp(req.proposedR, 100.0),
      req.heatingSource,
      RoundHalfUp(req.energyPrice, 1000.0),
      RoundHalfUp(d.currentU, 10000.0),
      RoundHalfUp(d.proposedU, 10000.0),
      RoundHalfUp(d.heatLossCurrent, 100.0),
      RoundHalfUp(d.heatLossProposed, 100.0),
      RoundHalfUp(d.energySavings, 100.0),
      RoundHalfUp(d.costSavings, 100.0),
      RoundHalfUp(d.insulationCost, 100.0),
      RoundHalfUp(d.payback, 100.0),
      RoundHalfUp(d.tenYearSavings, 100.0),
      RoundHalfUp(d.annualCo2, 100.0),
      RoundHalfUp(d.tenYearCo2, 100.0),
      WorkerConfig.heatingDegreeDays[req.location],
      WorkerConfig.co2Intensity[req.heatingSource])
  }

  /** `performFullCalculation`: validate, then derive and round. */
  function PerformFullCalculation(req: CalculationInput): (r: Result<CalculationResult, Rule>)
    ensures r.Failure? <==> Validate(req).Some?
    ensures r.Failure? ==> r.error == Validate(req).value
    ensures r.Success? ==> r.value == Present(req, Derivation(req))
  {
    match Validate(req)
    case Some(rule) => Failure(rule)
    case None =>
      assert Passes(req, UnknownLocation) && Passes(req, UnknownHeatingSource);
      Success(Present(req, Derivation(req)))
  }

  // ---------------------------------------------------------------------
  // Properties

  /** The guards accept exactly the requests inside the documented bounds, whatever the cost. */
  lemma ValidateAcceptsExactly(req: CalculationInput)
    ensures Validate(req).None? <==>
      && req.location in Regions
      && 0.0 < req.roofArea <= 10000.0
      && 0.0 <= req.currentR <= 20.0
      && 0.0 < req.proposedR <= 20.0
      && req.proposedR > req.currentR
      && req.heatingSource in HeatingSources
      && 0.0 < req.energyPrice <= 2.0
  {
    if Validate(req).None? {
      assert Passes(req, UnknownLocation) && Passes(req, UnknownHeatingSource);
    } else if req.location in Regions && req.heatingSource in HeatingSources {
      assert Passes(req, UnknownLocation) && Passes(req, UnknownHeatingSource);
    }
  }

  /** An unknown region fails with the region rule, whatever the other fields hold. */
  lemma UnknownLocationDecides(req: CalculationInput)
    requires req.location !in Regions
    ensures Validate(req) == Some(UnknownLocation)
  {
    assert !Passes(req, UnknownLocation);
  }

  /** Distinct rules throw distinct messages, so the caller can tell which rule failed. */
  lemma MessagesIdentifyRules(r1: Rule, r2: Rule)
    requires r1 != NegativeUpgradeCost && r2 != NegativeUpgradeCost && r1 != r2
    ensures Message(r1) != Message(r2)
  {
    MessageLengths();
    assert |Message(r1)| != |Message(r2)|;
  }

  /** The messages have pairwise different lengths. */
  lemma MessageLengths()
    ensures |Message(UnknownLocation)| == 16
    ensures |Message(RoofAreaOutOfRange)| == 40
    ensures |Message(CurrentROutOfRange)| == 66
    ensures |Message(ProposedROutOfRange)| == 52
    ensures |Message(ProposedNotGreater)| == 53
    ensures |Message(UnknownHeatingSource)| == 22
    ensures |Message(EnergyPriceOutOfRange)| == 42
  {
  }

  /** The worker never refuses a request for its upgrade cost, negative or not. */
  lemma CostNeverChecked(req: CalculationInput, cost: Option<real>)
    ensures Validate(req.(upgradeCost := cost)) == Validate(req)
  {
    var req' := req.(upgradeCost := cost);
    assert forall rule :: Passes(req', rule) == Passes(req, rule);
  }

  lemma ReciprocalDecreasing(c: real, p: real)
    requires 0.0 < c < p
    ensures 1.0 / p < 1.0 / c
  {
    var a, b := 1.0 / p, 1.0 / c;
    assert a * p == 1.0 && b * c == 1.0;
    assert a * c < a * p;
    assert a * c < b * c;
  }

  /**
   * An accepted request with an insulated roof (R > 0) always saves: the
   * proposed U is below the current one, so energy and cost savings are
   * positive and the payback is cost / savings, not the sentinel.
   */
  lemma InsulatedRoofSaves(req: CalculationInput)
    requires Validate(req).None? && req.currentR > 0.0
    ensures var d := Derivation(req);
      d.proposedU < d.currentU && d.energySavings > 0.0 && d.costSavings > 0.0
      && d.payback * d.costSavings == d.insulationCost
  {
    ValidateAcceptsExactly(req);
    ReferenceDataWellFormed();
    var c, p := req.currentR, req.proposedR;
    ReciprocalDecreasing(c, p);
    DeriveSavesWhenUDrops(1.0 / c, 1.0 / p, req.roofArea,
      WorkerConfig.heatingDegreeDays[req.location], req.energyPrice,
      WorkerConfig.co2Intensity[req.heatingSource], req.upgradeCost,
      WorkerConfig.defaultInsulationCostPerSqm);
  }

  /**
   * For an uninsulated roof (U = 5.0), a proposed R below 0.2 gives a U above
   * 5.0: the floor yields zero savings and the payback is the sentinel.
   */
  lemma ThinUpgradeOfBareRoofSavesNothing(req: CalculationInput)
    requires Validate(req).None? && req.currentR == 0.0 && req.proposedR < 0.2
    ensures var d := Derivation(req);
      d.energySavings == 0.0 && d.costSavings == 0.0 && d.payback == NoPayback
  {
    ValidateAcceptsExactly(req);
    ReferenceDataWellFormed();
    var p := req.proposedR;
    assert 1.0 / p > UninsulatedU by {
      assert (1.0 / p) * p == 1.0;
    }
    DeriveSavesNothingWhenUGrows(UninsulatedU, 1.0 / p, req.roofArea,
      WorkerConfig.heatingDegreeDays[req.location], req.energyPrice,
      WorkerConfig.co2Intensity[req.heatingSource], req.upgradeCost,
      WorkerConfig.defaultInsulationCostPerSqm);
  }

  /** For an uninsulated roof, any proposed R above 0.2 saves. */
  lemma UpgradeOfBareRoofSaves(req: CalculationInput)
    requires Validate(req).None? && req.currentR == 0.0 && req.proposedR > 0.2
    ensures var d := Derivation(req);
      d.energySavings > 0.0 && d.costSavings > 0.0 && d.payback * d.costSavings == d.insulationCost
  {
    ValidateAcceptsExactly(req);
    ReferenceDataWellFormed();
    var p := req.proposedR;
    assert 1.0 / p < UninsulatedU by {
      assert (1.0 / p) * p == 1.0;
    }
    DeriveSavesWhenUDrops(UninsulatedU, 1.0 / p, req.roofArea,
      WorkerConfig.heatingDegreeDays[req.location], req.energyPrice,
      WorkerConfig.co2Intensity[req.heatingSource], req.upgradeCost,
      WorkerConfig.defaultInsulationCostPerSqm);
  }

  /** A supplied cost is used unchanged, even a negative one, which yields a negative payback. */
  lemma NegativeCostFlowsThrough(req: CalculationInput)
    requires Validate(req).None? && req.currentR > 0.0
    requires req.upgradeCost.Some? && req.upgradeCost.value < 0.0
    ensures PerformFullCalculation(req).Success?
    ensures Derivation(req).insulationCost == req.upgradeCost.value
    ensures Derivation(req).payback < 0.0
  {
    InsulatedRoofSaves(req);
  }

  /** Vlaams, 100 m2, bare roof to R 6, gas at 0.35 EUR/kWh, cost left out. */
  lemma ScenarioBareRoofVlaams()
    ensures var req := CalculationInput("Vlaams", 100.0, 0.0, 6.0, "gas", 0.35, None);
      var r := PerformFullCalculation(req);
      && r.Success?
      && r.value.currentUValue == 5.0
      && r.value.proposedUValue == 0.1667
      && r.value.heatingDegreeDays == 2800.0
      && r.value.annualHeatLossCurrent == 33600.0
      && r.value.annualHeatLossProposed == 1120.0
      && r.value.insulationUpgradeCost == 4500.0
  {
    var req := CalculationInput("Vlaams", 100.0, 0.0, 6.0, "gas", 0.35, None);
    assert Validate(req).None? by { ValidateAcceptsExactly(req); }
    var d := Derivation(req);
    assert d.currentU == 5.0;
    assert d.heatLossCurrent == 33600.0;
    assert d.heatLossProposed == 1120.0 by {
      assert d.proposedU == 1.0 / 6.0;
    }
    assert d.insulationCost == 4500.0;
    assert HalfUpIndex(5.0 * 10000.0) == 50000;
    assert HalfUpIndex((1.0 / 6.0) * 10000.0) == 1667;
    assert HalfUpIndex(33600.0 * 100.0) == 3360000;
    assert HalfUpIndex(1120.0 * 100.0) == 112000;
    assert HalfUpIndex(4500.0 * 100.0) == 450000;
  }

  /** A proposed R-value below the current one is refused. */
  lemma ScenarioProposedBelowCurrent()
    ensures PerformFullCalculation(CalculationInput("Vlaams", 100.0, 6.0, 4.0, "gas", 0.35, None))
            == Failure(ProposedNotGreater)
  {
    var req := CalculationInput("Vlaams", 100.0, 6.0, 4.0, "gas", 0.35, None);
    assert Passes(req, UnknownLocation);
    assert Validate(req) == Some(ProposedNotGreater);
  }

  /** A roof over 10000 m2 is refused. */
  lemma ScenarioOversizedRoof()
    ensures PerformFullCalculation(CalculationInput("Vlaams", 15000.0, 2.0, 6.0, "gas", 0.35, None))
            == Failure(RoofAreaOutOfRange)
  {
    var req := CalculationInput("Vlaams", 15000.0, 2.0, 6.0, "gas", 0.35, None);
    assert Passes(req, UnknownLocation);
    assert Validate(req) == Some(RoofAreaOutOfRange);
  }

  /** An unknown region is refused whatever the other fields hold. */
  lemma ScenarioUnknownRegion()
    ensures forall area, cur, prop, source, price, cost ::
              PerformFullCalculation(CalculationInput("Atlantis", area, cur, prop, source, price, cost))
              == Failure(UnknownLocation)
  {
    forall area, cur, prop, source, price, cost {
      UnknownLocationDecides(CalculationInput("Atlantis", area, cur, prop, source, price, cost));
    }
  }

  /** A tiny but positive price still yields a computed payback, not the sentinel. */
  lemma ScenarioTinyPrice()
    ensures var req := CalculationInput("Vlaams", 100.0, 2.0, 6.0, "gas", 0.0001, None);
      Validate(req).None? && Derivation(req).costSavings > 0.0
      && Derivation(req).payback * Derivation(req).costSavings == Derivation(req).insulationCost
  {
    var req := CalculationInput("Vlaams", 100.0, 2.0, 6.0, "gas", 0.0001, None);
    ValidateAcceptsExactly(req);
    InsulatedRoofSaves(req);
  }
}
