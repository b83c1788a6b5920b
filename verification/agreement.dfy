/**
 * How the implementations relate: the worker against the backend's request
 * model and calculator, and the front-end validators against each other and
 * against the request model.
 */
module Agreement {
  import opened Wrappers
  import opened Config
  import opened Rounding
  import opened Savings
  import opened FormInput
  import Worker
  import Models
  import Calculations
  import ValidationTs
  import ValidationJs

  // ---------------------------------------------------------------------
  // Worker validation against the backend request model

  /** A worker guard that passes never corresponds to a request-model error. */
  lemma WorkerPassImpliesModelPass(req: CalculationInput, rule: Rule)
    requires rule != NegativeUpgradeCost && Worker.Passes(req, rule)
    ensures !Models.Fails(req, rule)
  {
    ReferenceDataWellFormed();
    Models.LiteralsMatchTables();
    if rule == UnknownLocation {
      assert req.location in BackendSettings.energyPrices.Keys;
    } else if rule == UnknownHeatingSource {
      assert req.heatingSource in BackendSettings.co2Intensity.Keys;
    }
  }

  /**
   * Where the worker refuses, the request model refuses too, and the first
   * error it reports is the rule the worker throws for.
   */
  lemma WorkerErrorIsModelsFirstError(req: CalculationInput)
    requires Worker.Validate(req).Some?
    ensures Models.FieldErrors(req) != []
    ensures Models.FieldErrors(req)[0] == Worker.Validate(req).value
  {
    ReferenceDataWellFormed();
    var e := Worker.Validate(req).value;
    var errs := Models.FieldErrors(req);
    forall rule | Rank(rule) < Rank(e) ensures rule !in errs {
      WorkerPassImpliesModelPass(req, rule);
    }
    if e == ProposedNotGreater {
      assert Worker.Passes(req, CurrentROutOfRange) && Worker.Passes(req, ProposedROutOfRange);
    }
    assert Models.Fails(req, e);
    assert e in errs;
  }

  /**
   * The two validations accept the same requests, except that the request
   * model also refuses a negative upgrade cost, which the worker never checks.
   */
  lemma SameAcceptanceButCost(req: CalculationInput)
    ensures Models.RequestValid(req) <==>
      Worker.Validate(req).None? && (req.upgradeCost.None? || req.upgradeCost.value >= 0.0)
  {
    Worker.ValidateAcceptsExactly(req);
    Models.RequestValidBounds(req);
  }

  /** On a request the worker accepts, a negative cost is the request model's only error. */
  lemma NegativeCostIsOnlyModelError(req: CalculationInput)
    requires Worker.Validate(req).None?
    requires req.upgradeCost.Some? && req.upgradeCost.value < 0.0
    ensures forall rule :: rule in Models.FieldErrors(req) <==> rule == NegativeUpgradeCost
  {
    var errs := Models.FieldErrors(req);
    forall rule | rule != NegativeUpgradeCost ensures rule !in errs {
      WorkerPassImpliesModelPass(req, rule);
    }
    assert NegativeUpgradeCost in errs;
  }

  /** A negative cost: the worker computes with it, the request model refuses it. */
  lemma NegativeCostOnlyRefusedByModel(req: CalculationInput)
    requires Worker.Validate(req).None? && req.currentR > 0.0
    requires req.upgradeCost.Some? && req.upgradeCost.value < 0.0
    ensures Worker.PerformFullCalculation(req).Success? && Worker.Derivation(req).payback < 0.0
    ensures !Models.RequestValid(req)
  {
    assert Worker.PerformFullCalculation(req).Success? && Worker.Derivation(req).payback < 0.0 by {
      Worker.NegativeCostFlowsThrough(req);
    }
    assert NegativeUpgradeCost in Models.FieldErrors(req) by {
      NegativeCostIsOnlyModelError(req);
    }
  }

  // ---------------------------------------------------------------------
  // The two calculators

  /**
   * On an accepted request with an insulated roof the two engines derive
   * exactly the same figures; their outputs differ only in rounding.
   */
  lemma EnginesAgreeOnInsulatedRoofs(req: CalculationInput)
    requires Worker.Validate(req).None? && req.currentR > 0.0
    ensures Calculations.PerformFullCalculation(req).Success?
    ensures Calculations.Derivation(req) == Worker.Derivation(req)
  {
    Worker.ValidateAcceptsExactly(req);
    ReferenceDataWellFormed();
  }

  /**
   * Every request the backend's model accepts with an uninsulated roof
   * (current R = 0) fails in the backend's calculator, while the worker
   * computes it with U = 5.0.
   */
  lemma BackendFailsAcceptedBareRoofs(req: CalculationInput)
    requires Models.RequestValid(req) && req.currentR == 0.0
    ensures Calculations.PerformFullCalculation(req) == Failure(Calculations.NonPositiveR)
    ensures Worker.PerformFullCalculation(req).Success? && Worker.Derivation(req).currentU == 5.0
  {
    Models.RequestValidBounds(req);
    Worker.ValidateAcceptsExactly(req);
  }

  /** Such requests exist: the bare Vlaams roof of the worked scenario is one. */
  lemma AcceptedBareRoofExists()
    ensures var req := CalculationInput("Vlaams", 100.0, 0.0, 6.0, "gas", 0.35, None);
      Models.RequestValid(req)
      && Calculations.PerformFullCalculation(req) == Failure(Calculations.NonPositiveR)
  {
    var req := CalculationInput("Vlaams", 100.0, 0.0, 6.0, "gas", 0.35, None);
    Models.RequestValidBounds(req);
  }

  /** On a bare roof the corrected backend derives what the worker derives. */
  lemma CorrectedAgreesOnBareRoofs(req: CalculationInput)
    requires Worker.Validate(req).None? && req.currentR == 0.0
    ensures req.location in Regions && req.heatingSource in HeatingSources
    ensures Calculations.CorrectedDerivation(req) == Worker.Derivation(req)
  {
    Worker.ValidateAcceptsExactly(req);
    ReferenceDataWellFormed();
    assert Calculations.CorrectedUValue(req.currentR).value == Worker.UValue(req.currentR).value;
    assert Calculations.CorrectedUValue(req.proposedR).value == Worker.UValue(req.proposedR).value;
  }

  /**
   * With the uninsulated-roof policy, the backend serves every request the
   * worker accepts, and derives the same figures as the worker.
   */
  lemma CorrectedBackendServesWorkerRequests(req: CalculationInput)
    requires Worker.Validate(req).None?
    ensures Calculations.PerformCorrectedCalculation(req).Success?
    ensures Calculations.CorrectedDerivation(req) == Worker.Derivation(req)
  {
    Worker.ValidateAcceptsExactly(req);
    if req.currentR > 0.0 {
      EnginesAgreeOnInsulatedRoofs(req);
    } else {
      CorrectedAgreesOnBareRoofs(req);
    }
  }

  /** In particular it serves every request its own request model accepts. */
  lemma CorrectedBackendServesEveryValidRequest(req: CalculationInput)
    requires Models.RequestValid(req)
    ensures Worker.Validate(req).None?
    ensures Calculations.PerformCorrectedCalculation(req).Success?
  {
    SameAcceptanceButCost(req);
    CorrectedBackendServesWorkerRequests(req);
  }

  /** The worker echoes inputs rounded, the backend echoes them as given. */
  lemma EchoedInputsDiffer()
    ensures var req := CalculationInput("Vlaams", 100.123, 2.0, 6.0, "gas", 0.3456, None);
      && Worker.PerformFullCalculation(req).Success?
      && Calculations.PerformFullCalculation(req).Success?
      && Worker.PerformFullCalculation(req).value.roofArea == 100.12
      && Worker.PerformFullCalculation(req).value.energyPricePerKwh == 0.346
      && Calculations.PerformFullCalculation(req).value.roofArea == 100.123
      && Calculations.PerformFullCalculation(req).value.energyPricePerKwh == 0.3456
  {
    var req := CalculationInput("Vlaams", 100.123, 2.0, 6.0, "gas", 0.3456, None);
    Worker.ValidateAcceptsExactly(req);
    assert HalfUpIndex(100.123 * 100.0) == 10012;
    assert HalfUpIndex(0.3456 * 1000.0) == 346;
  }

  // ---------------------------------------------------------------------
  // The front-end validators

  /**
   * The TypeScript and JavaScript variants accept the same values on every
   * shared field except the R-value, where they differ exactly on the number 0.
   */
  lemma VariantsDifferOnlyOnNumericZeroR(f: FieldInput, s: string, l1: string, l2: string)
    ensures ValidationTs.ValidateRoofArea(f).None? == ValidationJs.ValidateRoofArea(f).None?
    ensures ValidationTs.ValidateEnergyPrice(f).None? == ValidationJs.ValidateEnergyPrice(f).None?
    ensures ValidationTs.ValidateInsulationCost(f).None? == ValidationJs.ValidateInsulationCost(f).None?
    ensures ValidationTs.ValidateLocation(s).None? == ValidationJs.ValidateLocation(s).None?
    ensures ValidationTs.ValidateHeatingSource(s).None? == ValidationJs.ValidateHeatingSource(s).None?
    ensures ValidationTs.ValidateRValue(f, l1).None? != ValidationJs.ValidateRValue(f, l2).None?
            <==> f == Number(0.0)
  {
  }

  /**
   * For numeric input, the TypeScript validators accept exactly the values
   * the backend's request model accepts, field by field; the proposed
   * R-value is compared against a current value that itself passed.
   */
  lemma TsValidatorsMatchRequestModel(area: real, current: real, proposed: real, price: real, cost: real)
    ensures ValidationTs.ValidateRoofArea(Number(area)).None? <==> Models.RoofAreaOk(area)
    ensures ValidationTs.ValidateRValue(Number(current), "R-waarde").None? <==> Models.CurrentROk(current)
    ensures Models.CurrentROk(current) ==>
      (ValidationTs.ValidateProposedRValue(Number(current), Number(proposed)).None?
       <==> Models.ProposedROk(proposed) && proposed > current)
    ensures ValidationTs.ValidateEnergyPrice(Number(price)).None? <==> Models.EnergyPriceOk(price)
    ensures ValidationTs.ValidateInsulationCost(Number(cost)).None? <==> Models.UpgradeCostOk(Some(cost))
  {
  }

  /** The JavaScript R-value check refuses the number 0 that the request model accepts for an uninsulated roof. */
  lemma JsRefusesNumericBareRoof()
    ensures Models.CurrentROk(0.0)
    ensures ValidationJs.ValidateRValue(Number(0.0), "Current R-value") == Some("Please enter Current R-value")
    ensures ValidationJs.ValidateRValue(Text(Some(0.0)), "Current R-value").None?
  {
    assert "Please enter " + "Current R-value" == "Please enter Current R-value";
  }
}
