/**
 * The backend's request model (backend/models.py, `CalculationRequest`):
 * declarative bounds on each field plus the validator that the proposed
 * R-value improves on the current one. Validation reports every failing
 * field, in declaration order.
 */
module Models {
  import opened Wrappers
  import opened Config
  import opened Savings

  /** The `Literal` choices of `location`. */
  const LocationLiterals: set<string> := {"Vlaams", "Waals", "Brussels-Hoofdstedelijk"}

  /** The `Literal` choices of `heating_source`. */
  const HeatingSourceLiterals: set<string> := {"gas", "oil", "electric", "heat_pump"}

  /** `roof_area`: gt=0, le=10000. */
  predicate RoofAreaOk(area: real) { area > 0.0 && area <= 10000.0 }

  /** `current_r_value`: ge=0, le=20. */
  predicate CurrentROk(r: real) { r >= 0.0 && r <= 20.0 }

  /** `proposed_r_value`: gt=0, le=20. */
  predicate ProposedROk(r: real) { r > 0.0 && r <= 20.0 }

  /** `energy_price_per_kwh`: gt=0, le=2.0. */
  predicate EnergyPriceOk(p: real) { p > 0.0 && p <= 2.0 }

  /** `insulation_upgrade_cost`: optional, default None, ge=0 when present. */
  predicate UpgradeCostOk(cost: Option<real>) { cost.None? || cost.value >= 0.0 }

  /** The fields in declaration order, each with the rule it enforces. */
  const FieldOrder: seq<Rule> := [UnknownLocation, RoofAreaOutOfRange, CurrentROutOfRange,
    ProposedROutOfRange, ProposedNotGreater, UnknownHeatingSource, EnergyPriceOutOfRange,
    NegativeUpgradeCost]

  /**
   * Whether validation reports a rule for a request. The improvement check
   * (`validate_r_value_improvement`) is an after-validator on the proposed
   * value: it runs only once that value met its own bounds, and it sees the
   * current value only when the current value was itself accepted.
   */
  predicate Fails(req: CalculationInput, rule: Rule): (fails: bool)
    ensures rule == UnknownLocation ==> (fails <==> req.location !in BackendSettings.heatingDegreeDays)
    ensures rule == UnknownHeatingSource ==> (fails <==> req.heatingSource !in BackendSettings.co2Intensity)
    ensures rule == ProposedNotGreater && fails ==> CurrentROk(req.currentR) && ProposedROk(req.proposedR)
  {
    ReferenceDataWellFormed();
    match rule
    case UnknownLocation => req.location !in LocationLiterals
    case RoofAreaOutOfRange => !RoofAreaOk(req.roofArea)
    case CurrentROutOfRange => !CurrentROk(req.currentR)
    case ProposedROutOfRange => !ProposedROk(req.proposedR)
    case ProposedNotGreater =>
      ProposedROk(req.proposedR) && CurrentROk(req.currentR) && req.proposedR <= req.currentR
    case UnknownHeatingSource => req.heatingSource !in HeatingSourceLiterals
    case EnergyPriceOutOfRange => !EnergyPriceOk(req.energyPrice)
    case NegativeUpgradeCost => !UpgradeCostOk(req.upgradeCost)
  }

  /** The failing rules among `rules`, in the order given. */
  function Collect(req: CalculationInput, rules: seq<Rule>): seq<Rule> {
    if rules == [] then []
    else if Fails(req, rules[0]) then [rules[0]] + Collect(req, rules[1..])
    else Collect(req, rules[1..])
  }

  /** Collecting keeps exactly the failing rules. */
  lemma {:induction false} CollectMembers(req: CalculationInput, rules: seq<Rule>)
    ensures forall rule :: rule in Collect(req, rules) <==> rule in rules && Fails(req, rule)
  {
    if rules != [] {
      CollectMembers(req, rules[1..]);
      assert rules == [rules[0]] + rules[1..];
    }
  }

  /** Collecting keeps the order of the rules it is given. */
  lemma {:induction false} CollectSorted(req: CalculationInput, rules: seq<Rule>)
    requires forall i, j :: 0 <= i < j < |rules| ==> Rank(rules[i]) < Rank(rules[j])
    ensures forall i, j :: 0 <= i < j < |Collect(req, rules)| ==>
      Rank(Collect(req, rules)[i]) < Rank(Collect(req, rules)[j])
  {
    if rules != [] {
      var rest := Collect(req, rules[1..]);
      CollectSorted(req, rules[1..]);
      CollectMembers(req, rules[1..]);
      forall rule | rule in rest ensures Rank(rules[0]) < Rank(rule) {
        var j :| 0 <= j < |rules[1..]| && rules[1..][j] == rule;
        assert rules[j + 1] == rule;
      }
    }
  }

  /** The errors validation reports for a request, one per failing rule, in field order. */
  function FieldErrors(req: CalculationInput): (errs: seq<Rule>)
    ensures forall rule :: rule in errs <==> Fails(req, rule)
    ensures errs == [] <==> forall rule :: !Fails(req, rule)
    ensures forall i, j :: 0 <= i < j < |errs| ==> Rank(errs[i]) < Rank(errs[j])
  {
    FieldOrderRanks();
    CollectMembers(req, FieldOrder);
    CollectSorted(req, FieldOrder);
    var errs := Collect(req, FieldOrder);
    assert errs != [] ==> errs[0] in errs;
    errs
  }

  /** Each field's rule sits at its own rank, so the field order is the rule order and covers every rule. */
  lemma FieldOrderRanks()
    ensures forall i :: 0 <= i < |FieldOrder| ==> Rank(FieldOrder[i]) == i
    ensures forall i, j :: 0 <= i < j < |FieldOrder| ==> Rank(FieldOrder[i]) < Rank(FieldOrder[j])
    ensures forall rule :: rule in FieldOrder
  {
    forall rule ensures rule in FieldOrder {
      assert FieldOrder[Rank(rule)] == rule;
    }
  }

  /** A request the model accepts. */
  predicate RequestValid(req: CalculationInput): (valid: bool)
    ensures valid <==> forall rule :: !Fails(req, rule)
  {
    var errs := FieldErrors(req);
    assert errs != [] ==> Fails(req, errs[0]);
    errs == []
  }

  /** The model's literal choices are exactly the keys of the reference tables. */
  lemma LiteralsMatchTables()
    ensures LocationLiterals == BackendSettings.energyPrices.Keys == BackendSettings.heatingDegreeDays.Keys
    ensures HeatingSourceLiterals == BackendSettings.co2Intensity.Keys
  {
    ReferenceDataWellFormed();
  }

  /** Every default regional price is a price the model accepts. */
  lemma DefaultPricesAccepted()
    ensures forall region :: region in BackendSettings.energyPrices ==> EnergyPriceOk(BackendSettings.energyPrices[region])
  {
    ReferenceDataWellFormed();
  }

  /** The model accepts a request exactly when every field lies inside its documented bounds. */
  lemma RequestValidBounds(req: CalculationInput)
    ensures RequestValid(req) <==>
      && req.location in Regions
      && 0.0 < req.roofArea <= 10000.0
      && 0.0 <= req.currentR <= 20.0
      && 0.0 < req.proposedR <= 20.0
      && req.proposedR > req.currentR
      && req.heatingSource in HeatingSources
      && 0.0 < req.energyPrice <= 2.0
      && (req.upgradeCost.Some? ==> req.upgradeCost.value >= 0.0)
  {
    var errs := FieldErrors(req);
    if errs == [] {
      assert !Fails(req, UnknownLocation) && !Fails(req, UnknownHeatingSource);
      assert !Fails(req, RoofAreaOutOfRange) && !Fails(req, EnergyPriceOutOfRange);
      assert !Fails(req, CurrentROutOfRange) && !Fails(req, ProposedROutOfRange);
      assert !Fails(req, ProposedNotGreater) && !Fails(req, NegativeUpgradeCost);
    } else {
      assert Fails(req, errs[0]);
    }
  }

  /**
   * The improvement error is reported exactly when both R-values met their
   * bounds and the proposed one is not larger; a current value out of range
   * suppresses it.
   */
  lemma ImprovementCheckNeedsValidCurrent(req: CalculationInput)
    ensures ProposedNotGreater in FieldErrors(req) <==>
      CurrentROk(req.currentR) && ProposedROk(req.proposedR) && req.proposedR <= req.currentR
  {
  }

  /** A negative upgrade cost is refused; leaving the cost out is not. */
  lemma CostOptionalButNonNegative(req: CalculationInput)
    ensures req.upgradeCost.Some? && req.upgradeCost.value < 0.0 ==> !RequestValid(req)
    ensures RequestValid(req) ==> RequestValid(req.(upgradeCost := None))
  {
    if req.upgradeCost.Some? && req.upgradeCost.value < 0.0 {
      assert NegativeUpgradeCost in FieldErrors(req);
    }
    if RequestValid(req) {
      var req' := req.(upgradeCost := None);
      assert forall rule :: Fails(req', rule) ==> Fails(req, rule);
    }
  }
}
