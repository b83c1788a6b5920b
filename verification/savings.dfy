/**
 * The savings pipeline shared by both engines: the request and result
 * records, the input rules, and the derivation stages that the worker
 * (cloudflare-deployment/worker/index.js) and the backend
 * (backend/calculations.py) define with identical formulas. The engines
 * differ only in how they validate, convert R to U and round; those parts
 * live in the modules Worker, Models and Calculations.
 */
module Savings {
  import opened Wrappers

  /** One calculation request. */
  datatype CalculationInput = CalculationInput(
    location: string,
    roofArea: real,            // m2
    currentR: real,            // m2.K/W; 0 for an uninsulated roof
    proposedR: real,           // m2.K/W
    heatingSource: string,
    energyPrice: real,         // EUR/kWh
    upgradeCost: Option<real>  // EUR; None when the caller leaves it out
  )

  /** The input rules, one per way a request can be refused. */
  datatype Rule =
    | UnknownLocation
    | RoofAreaOutOfRange
    | CurrentROutOfRange
    | ProposedROutOfRange
    | ProposedNotGreater
    | UnknownHeatingSource
    | EnergyPriceOutOfRange
    | NegativeUpgradeCost

  /** The position of a rule in the order both engines check them. */
  function Rank(rule: Rule): nat {
    match rule
    case UnknownLocation => 0
    case RoofAreaOutOfRange => 1
    case CurrentROutOfRange => 2
    case ProposedROutOfRange => 3
    case ProposedNotGreater => 4
    case UnknownHeatingSource => 5
    case EnergyPriceOutOfRange => 6
    case NegativeUpgradeCost => 7
  }

  /** Every quantity the pipeline derives, before any rounding. */
  datatype Derivation = Derivation(
    currentU: real,         // W/m2.K
    proposedU: real,        // W/m2.K
    heatLossCurrent: real,  // kWh/year
    heatLossProposed: real, // kWh/year
    energySavings: real,    // kWh/year
    costSavings: real,      // EUR/year
    insulationCost: real,   // EUR
    payback: real,          // years
    tenYearSavings: real,   // EUR
    annualCo2: real,        // kg CO2/year
    tenYearCo2: real        // kg CO2
  )

  /** The record an engine returns: echoed inputs plus the derived figures. */
  datatype CalculationResult = CalculationResult(
    location: string,
    roofArea: real,
    currentRValue: real,
    proposedRValue: real,
    heatingSource: string,
    energyPricePerKwh: real,
    currentUValue: real,
    proposedUValue: real,
    annualHeatLossCurrent: real,
    annualHeatLossProposed: real,
    annualEnergySavings: real,
    annualCostSavings: real,
    insulationUpgradeCost: real,
    paybackPeriod: real,
    tenYearTotalSavings: real,
    annualCo2Reduction: real,
    tenYearCo2Reduction: real,
    heatingDegreeDays: real,
    co2IntensityFactor: real
  )

  /** The payback period reported when there are no savings. */
  const NoPayback: real := 999.0

  /** Annual heat loss in kWh: U (W/m2.K) x area x heating degree days x 24 h, in kWh. */
  function AnnualHeatLoss(u: real, area: real, hdd: real): (loss: real)
    ensures u >= 0.0 && area >= 0.0 && hdd >= 0.0 ==> loss >= 0.0
    ensures area > 0.0 && hdd > 0.0 ==> (loss > 0.0 <==> u > 0.0)
  {
    (u * area * hdd * 24.0) / 1000.0
  }

  /** Energy savings floored at zero: the larger of 0 and the drop in heat loss. */
  function EnergySavings(currentLoss: real, proposedLoss: real): (s: real)
    ensures s >= 0.0 && s >= currentLoss - proposedLoss
    ensures s == 0.0 || s == currentLoss - proposedLoss
  {
    if currentLoss - proposedLoss > 0.0 then currentLoss - proposedLoss else 0.0
  }

  /** Money saved per year: the saved energy at the given price. */
  function CostSavings(energySavings: real, pricePerKwh: real): (saved: real)
    ensures energySavings >= 0.0 && pricePerKwh >= 0.0 ==> saved >= 0.0
    ensures pricePerKwh > 0.0 ==> (saved > 0.0 <==> energySavings > 0.0)
  {
    energySavings * pricePerKwh
  }

  /** Years until the savings repay the cost; the sentinel 999 when nothing is saved. */
  function PaybackPeriod(cost: real, annualSavings: real): (years: real)
    ensures annualSavings <= 0.0 ==> years == NoPayback
    ensures annualSavings > 0.0 ==> years * annualSavings == cost
  {
    if annualSavings <= 0.0 then NoPayback else cost / annualSavings
  }

  /** CO2 avoided per year: the saved energy times the source's intensity. */
  function Co2Reduction(energySavings: real, intensity: real): (co2: real)
    ensures energySavings >= 0.0 && intensity >= 0.0 ==> co2 >= 0.0
    ensures intensity > 0.0 ==> (co2 > 0.0 <==> energySavings > 0.0)
  {
    energySavings * intensity
  }

  /** The default upgrade cost: a flat rate per square metre of roof. */
  function EstimateInsulationCost(area: real, costPerSqm: real): (cost: real)
    ensures area >= 0.0 && costPerSqm >= 0.0 ==> cost >= 0.0
    ensures costPerSqm > 0.0 ==> (cost > 0.0 <==> area > 0.0)
  {
    area * costPerSqm
  }

  /** The upgrade cost the pipeline uses: the caller's when given, else the estimate. */
  function EffectiveCost(supplied: Option<real>, area: real, costPerSqm: real): (cost: real)
    ensures supplied.Some? ==> cost == supplied.value
    ensures supplied.None? ==> cost == EstimateInsulationCost(area, costPerSqm)
  {
    match supplied
    case Some(c) => c
    case None => EstimateInsulationCost(area, costPerSqm)
  }

  /** Net savings over ten years: ten years of cost savings, less the upgrade cost. */
  function TenYearSavings(annualCostSavings: real, cost: real): (net: real)
    ensures net + cost == 10.0 * annualCostSavings
    ensures net >= 0.0 <==> cost <= 10.0 * annualCostSavings
  {
    annualCostSavings * 10.0 - cost
  }

  /**
   * Steps 2 to 7 of the pipeline, from the two U-values on: heat losses,
   * floored energy savings, cost savings, effective cost, payback, ten-year
   * savings and CO2 reduction.
   */
  function Derive(currentU: real, proposedU: real, area: real, hdd: real, price: real,
                  intensity: real, supplied: Option<real>, costPerSqm: real): (d: Derivation)
    ensures d.currentU == currentU && d.proposedU == proposedU
    ensures d.heatLossCurrent == AnnualHeatLoss(currentU, area, hdd)
    ensures d.heatLossProposed == AnnualHeatLoss(proposedU, area, hdd)
    ensures d.energySavings == EnergySavings(d.heatLossCurrent, d.heatLossProposed)
    ensures d.costSavings == CostSavings(d.energySavings, price)
    ensures d.annualCo2 == Co2Reduction(d.energySavings, intensity)
    ensures d.insulationCost == EffectiveCost(supplied, area, costPerSqm)
    ensures d.costSavings <= 0.0 ==> d.payback == NoPayback
    ensures d.costSavings > 0.0 ==> d.payback * d.costSavings == d.insulationCost
    ensures d.tenYearSavings + d.insulationCost == 10.0 * d.costSavings
    ensures d.tenYearCo2 == 10.0 * d.annualCo2
  {
    var lossCurrent := AnnualHeatLoss(currentU, area, hdd);
    var lossProposed := AnnualHeatLoss(proposedU, area, hdd);
    var energy := EnergySavings(lossCurrent, lossProposed);
    var money := CostSavings(energy, price);
    var cost := EffectiveCost(supplied, area, costPerSqm);
    var co2 := Co2Reduction(energy, intensity);
    Derivation(currentU, proposedU, lossCurrent, lossProposed, energy, money, cost,
               PaybackPeriod(cost, money), TenYearSavings(money, cost), co2, co2 * 10.0)
  }

  // ---------------------------------------------------------------------
  // Properties of the stages

  lemma MulMonotone(a1: real, a2: real, b1: real, b2: real)
    requires 0.0 <= a1 <= a2 && 0.0 <= b1 <= b2
    ensures a1 * b1 <= a2 * b2
  {
    assert a1 * b1 <= a1 * b2;
    assert a1 * b2 <= a2 * b2;
  }

  /** A positive factor preserves strict order: a * b1 < a * b2 when b1 < b2. */
  lemma ProductStrictInRight(a: real, b1: real, b2: real)
    requires a > 0.0 && b1 < b2
    ensures a * b1 < a * b2
  {
    var d := b2 - b1;
    PositiveProduct(a, d);
    calc {
      a * b2;
    ==
      a * (b1 + d);
    ==
      a * b1 + a * d;
    >
      a * b1;
    }
  }

  lemma PositiveProduct(a: real, b: real)
    requires a > 0.0 && b > 0.0
    ensures a * b > 0.0
  {
  }

  /** Heat loss never decreases when the U-value, the area or the degree days grow. */
  lemma HeatLossMonotone(u1: real, u2: real, a1: real, a2: real, h1: real, h2: real)
    requires 0.0 <= u1 <= u2 && 0.0 <= a1 <= a2 && 0.0 <= h1 <= h2
    ensures 0.0 <= AnnualHeatLoss(u1, a1, h1) <= AnnualHeatLoss(u2, a2, h2)
  {
    MulMonotone(u1, u2, a1, a2);
    assert 0.0 <= u1 * a1;
    MulMonotone(u1 * a1, u2 * a2, h1, h2);
    assert 0.0 <= u1 * a1 * h1;
  }

  /** With a positive area and positive degree days, a larger U-value loses strictly more heat. */
  lemma HeatLossStrictInU(u1: real, u2: real, area: real, hdd: real)
    requires u1 < u2 && area > 0.0 && hdd > 0.0
    ensures AnnualHeatLoss(u1, area, hdd) < AnnualHeatLoss(u2, area, hdd)
  {
    assert u1 * area < u2 * area;
    assert u1 * area * hdd < u2 * area * hdd;
  }

  /** Worked figures: U 0.5 or 0.2 over 100 m2 at 2800 degree days, and a colder region loses more. */
  lemma HeatLossExamples()
    ensures AnnualHeatLoss(0.5, 100.0, 2800.0) == 3360.0
    ensures AnnualHeatLoss(0.2, 100.0, 2800.0) == 1344.0
    ensures AnnualHeatLoss(0.5, 100.0, 3000.0) > AnnualHeatLoss(0.5, 100.0, 2800.0)
  {
  }

  /** Equal losses or a larger proposed loss save nothing; 3360 -> 1344 saves 2016. */
  lemma EnergySavingsExamples()
    ensures EnergySavings(3360.0, 1344.0) == 2016.0
    ensures EnergySavings(1000.0, 1000.0) == 0.0
    ensures EnergySavings(1000.0, 1500.0) == 0.0
  {
  }

  /** A higher energy price yields larger cost savings for the same positive energy savings. */
  lemma CostSavingsGrowWithPrice(energy: real, p1: real, p2: real)
    requires energy > 0.0 && p1 < p2
    ensures CostSavings(energy, p1) < CostSavings(energy, p2)
  {
    calc {
      CostSavings(energy, p1);
    ==
      energy * p1;
    < { ProductStrictInRight(energy, p1, p2); }
      energy * p2;
    ==
      CostSavings(energy, p2);
    }
  }

  /** 1000 EUR repaid at 500 EUR a year takes 2 years; no or negative savings give 999. */
  lemma PaybackExamples()
    ensures PaybackPeriod(1000.0, 500.0) == 2.0
    ensures PaybackPeriod(1000.0, 0.0) == NoPayback
    ensures PaybackPeriod(1000.0, -100.0) == NoPayback
  {
  }

  /** CO2 reduction scales with the intensity factor of the heating source. */
  lemma Co2GrowsWithIntensity(energy: real, k1: real, k2: real)
    requires energy > 0.0 && k1 < k2
    ensures Co2Reduction(energy, k1) < Co2Reduction(energy, k2)
  {
    calc {
      Co2Reduction(energy, k1);
    ==
      energy * k1;
    < { ProductStrictInRight(energy, k1, k2); }
      energy * k2;
    ==
      Co2Reduction(energy, k2);
    }
  }

  /**
   * The estimate is proportional to the area: scaling the roof scales the
   * cost, and with a non-negative rate a larger roof never costs less.
   */
  lemma EstimateProportionalToArea(area: real, k: real, costPerSqm: real)
    ensures EstimateInsulationCost(k * area, costPerSqm) == k * EstimateInsulationCost(area, costPerSqm)
    ensures costPerSqm >= 0.0 && 0.0 <= area <= k * area ==>
      0.0 <= EstimateInsulationCost(area, costPerSqm) <= EstimateInsulationCost(k * area, costPerSqm)
  {
    if costPerSqm >= 0.0 && 0.0 <= area <= k * area {
      MulMonotone(area, k * area, costPerSqm, costPerSqm);
    }
  }

  /** The default estimate is 45 EUR per m2: 100 m2 cost 4500 EUR. */
  lemma EstimateExamples()
    ensures EstimateInsulationCost(100.0, 45.0) == 4500.0
    ensures EstimateInsulationCost(50.0, 45.0) == 2250.0
    ensures EstimateInsulationCost(200.0, 45.0) == 9000.0
  {
  }

  /**
   * With positive savings, the ten-year net savings are non-negative exactly
   * when the upgrade pays for itself within ten years.
   */
  lemma TenYearSavingsIffPaybackWithinTen(annualSavings: real, cost: real)
    requires annualSavings > 0.0
    ensures TenYearSavings(annualSavings, cost) >= 0.0 <==> PaybackPeriod(cost, annualSavings) <= 10.0
  {
    var p := PaybackPeriod(cost, annualSavings);
    assert p * annualSavings == cost;
    if p <= 10.0 {
      assert p * annualSavings <= 10.0 * annualSavings;
    } else {
      assert p * annualSavings > 10.0 * annualSavings;
    }
  }

  /**
   * When the proposed U-value is lower, the area and the degree days are
   * positive and energy costs something, the upgrade saves energy and money
   * and the payback is the cost divided by the savings, not the sentinel.
   */
  lemma DeriveSavesWhenUDrops(currentU: real, proposedU: real, area: real, hdd: real, price: real,
                              intensity: real, supplied: Option<real>, costPerSqm: real)
    requires proposedU < currentU && area > 0.0 && hdd > 0.0 && price > 0.0
    ensures var d := Derive(currentU, proposedU, area, hdd, price, intensity, supplied, costPerSqm);
      d.energySavings > 0.0 && d.costSavings > 0.0 && d.payback * d.costSavings == d.insulationCost
  {
    HeatLossStrictInU(proposedU, currentU, area, hdd);
  }

  /**
   * When the proposed U-value is not lower, the floor applies: nothing is
   * saved, the payback is the sentinel and the ten-year figure is minus the cost.
   */
  lemma DeriveSavesNothingWhenUGrows(currentU: real, proposedU: real, area: real, hdd: real, price: real,
                                     intensity: real, supplied: Option<real>, costPerSqm: real)
    requires 0.0 <= currentU <= proposedU && area >= 0.0 && hdd >= 0.0
    ensures var d := Derive(currentU, proposedU, area, hdd, price, intensity, supplied, costPerSqm);
      && d.energySavings == 0.0 && d.costSavings == 0.0 && d.payback == NoPayback
      && d.tenYearSavings == -d.insulationCost && d.annualCo2 == 0.0 && d.tenYearCo2 == 0.0
  {
    HeatLossMonotone(currentU, proposedU, area, area, hdd, hdd);
  }

  /**
   * The heating source enters only through its intensity factor, and that
   * factor changes only the two CO2 figures.
   */
  lemma IntensityAffectsOnlyCo2(currentU: real, proposedU: real, area: real, hdd: real, price: real,
                                k1: real, k2: real, supplied: Option<real>, costPerSqm: real)
    ensures var d1 := Derive(currentU, proposedU, area, hdd, price, k1, supplied, costPerSqm);
            var d2 := Derive(currentU, proposedU, area, hdd, price, k2, supplied, costPerSqm);
      && d1.(annualCo2 := 0.0, tenYearCo2 := 0.0) == d2.(annualCo2 := 0.0, tenYearCo2 := 0.0)
      && d1.annualCo2 == d1.energySavings * k1 && d2.annualCo2 == d2.energySavings * k2
  {
  }
}
